/**
  Overlapping calls in the code's own grain, where the cycle check and the wait are
  separate steps.

  Whatever the interleaving, an answer that is not a cycle report is the evaluator's. And
  a library in which no load cycle passes through two different modules cannot deadlock:
  each hop of a walk through the waits-for graph is then a load path to another module.
 */
module LoaderOverlap {
  import opened Basics
  import opened LoadGraph
  import opened WaitsForGraph
  import opened LoaderProtocol
  import opened LoaderSoundness

  /** A load cycle passes through two different modules. */
  ghost predicate Entangled(lib: Library) {
    exists p, i :: LoadCycle(lib, p) && 0 <= i < |p| && p[i] != p[0]
  }

  /** Where the check has moved on from the entry asked for, that entry is not the checker's own. */
  ghost predicate PastItself(ch: Checker) {
    var p := ch.phase;
    p.Hopping? || p.Checked? || p.Waiting? || p.Woken? || (p.Walking? && p.at != p.name) ==> !OnStack(ch.stack, p.name)
  }

  /** What holds in every reachable state of either grain. */
  ghost predicate Loose(lib: Library, s: State) {
    Structure(s) && Sound(lib, s, false) && AllPast(s)
  }

  ghost predicate AllPast(s: State) {
    forall c :: c in s.checkers ==> PastItself(s.checkers[c])
  }

  /** The first look of the check finds what is on the checker's own stack. */
  lemma OwnEntry(s: State, c: Cid, n: Name)
    requires c in s.checkers && FramesOwned(s, c) && OnStack(s.checkers[c].stack, n)
    requires !s.checkers[c].phase.Inserted? && !s.checkers[c].phase.Released?
    ensures n in s.entries && s.entries[n].owner == Some(c) && Meets(Wfg(s), n, c, 0)
  {
    var i :| 0 <= i < |s.checkers[c].stack| && s.checkers[c].stack[i].name == n;
  }

  lemma MovePast(sys: System, s: State, c: Cid)
    requires Enabled(s, c) && FramesOwned(s, c) && PhaseOk(s, c) && PastItself(s.checkers[c])
    ensures PastItself(Move(sys, s, c).checker)
  {
    var ch := s.checkers[c];
    if (ch.phase.Found? || ch.phase.Walking?) && OnStack(ch.stack, ch.phase.name) { OwnEntry(s, c, ch.phase.name); }
  }

  lemma StepKeepsPast(sys: System, s: State, c: Cid)
    requires Structure(s) && AllPast(s) && Enabled(s, c)
    ensures AllPast(Step(sys, s, c))
  {
    assert FramesOwned(s, c) && PhaseOk(s, c);
    MovePast(sys, s, c);
  }

  lemma LooseStep(sys: System, s: State, l: Label)
    requires Loose(sys.lib, s)
    ensures Loose(sys.lib, Do(sys, s, l))
  {
    DoKeepsStructure(sys, s, l);
    match l
    case Go(c) =>
      if Enabled(s, c) {
        StepKeepsPast(sys, s, c);
        StepKeepsSound(sys, s, c, false);
      }
    case Spawn(c, n) => SpawnKeepsSound(sys, s, c, n, false);
  }

  lemma {:induction false} RunIsLoose(sys: System, schedule: seq<Label>)
    ensures Loose(sys.lib, Run(sys, schedule))
  {
    if schedule != [] {
      RunIsLoose(sys, schedule[..|schedule| - 1]);
      LooseStep(sys, Run(sys, schedule[..|schedule| - 1]), schedule[|schedule| - 1]);
    }
  }

  /**
    However the calls interleave, a result that does not report a cycle is the evaluator's;
    where the evaluator has a result, a get returns it or reports a cycle.
   */
  lemma {:induction false} OnlyCycleReportsAreWrong(sys: System, schedule: seq<Label>, r: (Name, Outcome))
    requires r in Run(sys, schedule).results
    ensures !CycleRooted(r.1) ==> Evaluates(sys.lib, r.0, r.1)
    ensures forall o :: Evaluates(sys.lib, r.0, o) ==> r.1 == o || CycleRooted(r.1)
  {
    RunIsLoose(sys, schedule);
    assert ResultTrue(sys.lib, r, false);
    if !CycleRooted(r.1) { CorrectIsDecisive(sys.lib, r.0, r.1); }
  }

  /* ---------- walks are load paths ---------- */

  /** The hops of a pointer walk. */
  ghost predicate Hopped(g: Graph<Name, Cid>, ns: seq<Name>) {
    && |ns| > 0
    && forall i :: 0 <= i < |ns| - 1 ==> ns[i] in g.owner && g.owner[ns[i]] in g.waits && g.waits[g.owner[ns[i]]] == ns[i + 1]
  }

  lemma {:induction false} LongWalk(g: Graph<Name, Cid>, e: Name, k: nat) returns (ns: seq<Name>)
    requires !Ends(g, e, k)
    ensures Hopped(g, ns) && |ns| == k + 2 && ns[0] == e
    decreases k
  {
    var next := g.waits[g.owner[e]];
    if k == 0 {
      ns := [e, next];
    } else {
      var rest := LongWalk(g, next, k - 1);
      ns := [e] + rest;
      forall i | 0 <= i < |ns| - 1
        ensures ns[i] in g.owner && g.owner[ns[i]] in g.waits && g.waits[g.owner[ns[i]]] == ns[i + 1]
      {
        if i > 0 { assert ns[i] == rest[i - 1] && ns[i + 1] == rest[i]; }
      }
    }
  }

  /** A load path leads from `n` to another module `m`. */
  ghost predicate Leads(lib: Library, n: Name, m: Name) {
    n != m && exists p :: LoadPath(lib, p) && p[0] == n && Demands(lib, p[|p| - 1], m)
  }

  lemma HopLeads(lib: Library, s: State, n: Name)
    requires Loose(lib, s)
    requires n in Wfg(s).owner && Wfg(s).owner[n] in Wfg(s).waits
    ensures Leads(lib, n, Wfg(s).waits[Wfg(s).owner[n]])
  {
    OwnersExist(s, n);
    var i := LoadingEntry(s, n);
    var c := s.entries[n].creator;
    var p := EntryToTop(lib, s, n);
    WaiterDemands(lib, s, c);
    assert PhaseOk(s, c) && PastItself(s.checkers[c]);
  }

  ghost predicate AllLead(lib: Library, ns: seq<Name>) {
    forall i, j {:trigger Leads(lib, ns[i], ns[j])} :: 0 <= i < j < |ns| && j == i + 1 ==> Leads(lib, ns[i], ns[j])
  }

  ghost predicate PathTo(lib: Library, p: seq<Name>, n: Name, m: Name) {
    LoadPath(lib, p) && p[0] == n && p[|p| - 1] == m
  }

  /** One more module before the path `rest`. */
  lemma FirstLeg(lib: Library, n: Name, via: Name, rest: seq<Name>, m: Name) returns (p: seq<Name>, at: nat)
    requires Leads(lib, n, via) && PathTo(lib, rest, via, m)
    ensures PathTo(lib, p, n, m) && 0 < at < |p| && p[at] == via
  {
    var first :| LoadPath(lib, first) && first[0] == n && Demands(lib, first[|first| - 1], via);
    JoinPaths(lib, first, rest);
    p, at := first + rest, |first|;
  }

  /** A path along several of the names, by way of the second. */
  lemma {:induction false} LeadsOn(lib: Library, ns: seq<Name>, i: nat, j: nat) returns (p: seq<Name>, at: nat)
    requires AllLead(lib, ns) && i < j < |ns|
    ensures PathTo(lib, p, ns[i], ns[j]) && 0 < at < |p| && p[at] == ns[i + 1]
    decreases j - i
  {
    assert Leads(lib, ns[i], ns[i + 1]);
    var rest, later := [ns[j]], 0;
    if j > i + 1 { rest, later := LeadsOn(lib, ns, i + 1, j); }
    p, at := FirstLeg(lib, ns[i], ns[i + 1], rest, ns[j]);
  }

  lemma LeaderInLibrary(lib: Library, n: Name, m: Name)
    requires Leads(lib, n, m)
    ensures n in lib
  {
    var p :| LoadPath(lib, p) && p[0] == n && Demands(lib, p[|p| - 1], m);
    assert Demands(lib, n, if |p| == 1 then m else p[1]);
  }

  lemma Repeats(ns: seq<Name>, all: set<Name>) returns (i: nat, j: nat)
    requires |ns| > |all| && forall a :: 0 <= a < |ns| ==> ns[a] in all
    ensures i < j < |ns| && ns[i] == ns[j]
  {
    if forall a, b :: 0 <= a < b < |ns| ==> ns[a] != ns[b] {
      DistinctNamesFit(ns, all);
      assert false;
    }
    i, j :| 0 <= i < j < |ns| && ns[i] == ns[j];
  }

  lemma RepeatEntangles(lib: Library, ns: seq<Name>)
    requires AllLead(lib, ns) && |ns| == |lib| + 2
    ensures Entangled(lib)
  {
    var front := ns[..|ns| - 1];
    forall a | 0 <= a < |front| ensures front[a] in lib {
      assert Leads(lib, ns[a], ns[a + 1]);
      LeaderInLibrary(lib, ns[a], ns[a + 1]);
    }
    var i, j := Repeats(front, lib.Keys);
    var p, at := LeadsOn(lib, ns, i, j);
    assert Leads(lib, ns[i], ns[i + 1]);
    assert LoadCycle(lib, p) && p[at] != p[0];
  }

  /** Without such a cycle no walk takes more hops than there are modules. */
  lemma {:induction false} WalksAreShort(lib: Library, s: State, e: Name)
    requires Loose(lib, s) && !Entangled(lib)
    ensures Ends(Wfg(s), e, |lib|)
  {
    if !Ends(Wfg(s), e, |lib|) {
      var ns := LongWalk(Wfg(s), e, |lib|);
      forall i | 0 <= i < |ns| - 1 ensures Leads(lib, ns[i], ns[i + 1]) { HopLeads(lib, s, ns[i]); }
      RepeatEntangles(lib, ns);
      assert false;
    }
  }

  /** A library without such a cycle never gets stuck, however many calls overlap and in either grain. */
  lemma {:induction false} NeverStuckUnlessEntangled(sys: System, schedule: seq<Label>, c: Cid)
    requires !Entangled(sys.lib)
    requires c in Run(sys, schedule).checkers && !Run(sys, schedule).checkers[c].phase.Complete?
    ensures exists d :: Enabled(Run(sys, schedule), d)
  {
    var s := Run(sys, schedule);
    RunIsLoose(sys, schedule);
    if s.checkers[c].phase.Waiting? { WalksAreShort(sys.lib, s, s.checkers[c].phase.name); }
    var d := SomeoneCanStep(s, c, |sys.lib|);
  }
}
