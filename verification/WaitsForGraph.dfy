/**
  The bipartite waits-for graph of the module cache.

  An entry has at most one edge, to the checker that is readying it; a checker has
  at most one edge, to the entry it is waiting for. The nodes are left abstract:
  the heap objects of the cache and the names of the protocol both instantiate them.
 */
module WaitsForGraph {

  datatype Graph<E(==), C(==)> = Graph(owner: map<E, C>, waits: map<C, E>)

  /** The pointer walk from entry `e` comes to an end within `k` hops. */
  ghost predicate Ends<E, C>(g: Graph<E, C>, e: E, k: nat) {
    e in g.owner && g.owner[e] in g.waits ==> k > 0 && Ends(g, g.waits[g.owner[e]], k - 1)
  }

  /** The pointer walk from entry `e` meets checker `me` within `k` hops. */
  ghost predicate Meets<E, C>(g: Graph<E, C>, e: E, me: C, k: nat) {
    && e in g.owner
    && (g.owner[e] == me || (g.owner[e] in g.waits && k > 0 && Meets(g, g.waits[g.owner[e]], me, k - 1)))
  }

  ghost predicate Reaches<E, C>(g: Graph<E, C>, e: E, me: C) {
    exists k: nat :: Meets(g, e, me, k)
  }

  /** No walk goes on forever: in a graph of out-degree one, there is no cycle. */
  ghost predicate Acyclic<E, C>(g: Graph<E, C>) {
    forall e :: e in g.owner ==> exists k: nat :: Ends(g, e, k)
  }

  function AddWait<E, C>(g: Graph<E, C>, c: C, e: E): Graph<E, C> {
    g.(waits := g.waits[c := e])
  }

  lemma {:induction false} EndsLater<E, C>(g: Graph<E, C>, e: E, k: nat, k': nat)
    requires Ends(g, e, k) && k <= k'
    ensures Ends(g, e, k')
    decreases k
  {
    if e in g.owner && g.owner[e] in g.waits {
      EndsLater(g, g.waits[g.owner[e]], k - 1, k' - 1);
    }
  }

  /** Fewer edges, shorter walks. */
  lemma {:induction false} FewerEdgesEnd<E, C>(g: Graph<E, C>, h: Graph<E, C>, e: E, k: nat)
    requires forall x :: x in h.owner && h.owner[x] in h.waits ==>
               x in g.owner && g.owner[x] in g.waits && h.waits[h.owner[x]] == g.waits[g.owner[x]]
    requires Ends(g, e, k)
    ensures Ends(h, e, k)
    decreases k
  {
    if e in h.owner && h.owner[e] in h.waits {
      FewerEdgesEnd(g, h, g.waits[g.owner[e]], k - 1);
    }
  }

  lemma {:induction false} FewerEdgesAcyclic<E, C>(g: Graph<E, C>, h: Graph<E, C>)
    requires Acyclic(g)
    requires forall x :: x in h.owner && h.owner[x] in h.waits ==>
               x in g.owner && g.owner[x] in g.waits && h.waits[h.owner[x]] == g.waits[g.owner[x]]
    ensures Acyclic(h)
  {
    forall e | e in h.owner ensures exists k: nat :: Ends(h, e, k) {
      if h.owner[e] in h.waits {
        var k: nat :| Ends(g, e, k);
        FewerEdgesEnd(g, h, e, k);
      } else {
        assert Ends(h, e, 0);
      }
    }
  }

  /** A walk that does not meet `c` does not see an edge out of `c`. */
  lemma {:induction false} UnmetEdge<E, C>(g: Graph<E, C>, c: C, e: E, x: E, k: nat)
    requires c !in g.waits && Ends(g, x, k)
    requires !Reaches(g, x, c)
    ensures Ends(AddWait(g, c, e), x, k)
    decreases k
  {
    if x in g.owner {
      assert !Meets(g, x, c, 0);
      if g.owner[x] in g.waits {
        var y := g.waits[g.owner[x]];
        forall j: nat ensures !Meets(g, y, c, j) {
          assert !Meets(g, x, c, j + 1);
        }
        UnmetEdge(g, c, e, y, k - 1);
      }
    }
  }

  lemma {:induction false} EndsThroughEdge<E, C>(g: Graph<E, C>, c: C, e: E, ke: nat, x: E, k: nat)
    requires c !in g.waits && Ends(g, x, k)
    requires Ends(AddWait(g, c, e), e, ke)
    ensures Ends(AddWait(g, c, e), x, k + ke + 1)
    decreases k
  {
    if x in g.owner {
      if g.owner[x] == c {
        EndsLater(AddWait(g, c, e), e, ke, k + ke);
      } else if g.owner[x] in g.waits {
        EndsThroughEdge(g, c, e, ke, g.waits[g.owner[x]], k - 1);
      }
    }
  }

  /** A walk that meets `c` continues, along the new edge, at `e`, with fewer hops left. */
  lemma {:induction false} MetEdge<E, C>(g: Graph<E, C>, c: C, e: E, x: E, j: nat, k: nat) returns (k': nat)
    requires c !in g.waits && Meets(g, x, c, j)
    requires Ends(AddWait(g, c, e), x, k)
    ensures k' < k && Ends(AddWait(g, c, e), e, k')
    decreases j
  {
    if g.owner[x] == c {
      k' := k - 1;
    } else {
      k' := MetEdge(g, c, e, g.waits[g.owner[x]], j - 1, k - 1);
    }
  }

  lemma {:induction false} ClosedWalkNeverEnds<E, C>(g: Graph<E, C>, c: C, e: E, j: nat, k: nat)
    requires c !in g.waits && Meets(g, e, c, j)
    ensures !Ends(AddWait(g, c, e), e, k)
    decreases k
  {
    if Ends(AddWait(g, c, e), e, k) {
      var k' := MetEdge(g, c, e, e, j, k);
      ClosedWalkNeverEnds(g, c, e, j, k');
    }
  }

  /**
    The test `cycleCheck` makes before a wait is the right one, in both directions:
    the new edge keeps the graph acyclic exactly when the walk does not meet the waiter.
   */
  lemma {:induction false} CheckIsExact<E, C>(g: Graph<E, C>, c: C, e: E)
    requires Acyclic(g) && c !in g.waits
    ensures Acyclic(AddWait(g, c, e)) <==> !Reaches(g, e, c)
  {
    var h := AddWait(g, c, e);
    if Reaches(g, e, c) {
      var j: nat :| Meets(g, e, c, j);
      assert e in h.owner;
      forall k: nat ensures !Ends(h, e, k) {
        ClosedWalkNeverEnds(g, c, e, j, k);
      }
    } else {
      var ke: nat :| e in g.owner ==> Ends(g, e, ke);
      assert Ends(g, e, ke);
      UnmetEdge(g, c, e, e, ke);
      forall x | x in h.owner ensures exists k: nat :: Ends(h, x, k) {
        var k: nat :| Ends(g, x, k);
        EndsThroughEdge(g, c, e, ke, x, k);
      }
    }
  }
}
