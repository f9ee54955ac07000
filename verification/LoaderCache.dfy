/**
  The module cache as `LoadWorkflow` drives it: one Starlark thread, one cache,
  every `load` running to its end before the next begins.

  The ghost argument `stack` is the chain of modules whose `doLoad` is under way.
 */
module LoaderCache {
  import opened LoadGraph
  import opened WaitsForGraph

  class CycleChecker {
    var waitsFor: Entry?

    constructor ()
      ensures waitsFor == null
    {
      waitsFor := null;
    }
  }

  class Entry {
    var owner: CycleChecker?
    var outcome: Outcome
    var ready: bool

    constructor ()
      ensures owner == null && !ready
    {
      owner, outcome, ready := null, Loaded(map[]), false;
    }

    /** Receives from the ready channel. With a single thread that must not block. */
    method AwaitReady()
      requires ready
    {
    }
  }

  ghost function GraphOf(es: set<Entry>, cs: set<CycleChecker>): Graph<Entry, CycleChecker>
    reads es, cs
  {
    Graph(
      map e | e in es && e.owner != null :: e.owner,
      map c | c in cs && c.waitsFor != null :: c.waitsFor)
  }

  /** All pointers lead from these nodes to these nodes. */
  ghost predicate Closed(es: set<Entry>, cs: set<CycleChecker>)
    reads es, cs
  {
    && (forall e :: e in es ==> e.owner == null || e.owner in cs)
    && (forall c :: c in cs ==> c.waitsFor == null || c.waitsFor in es)
  }

  /** Follows owner and waits-for pointers from `first`; true exactly if they lead to `me`. */
  method CycleCheck(first: Entry, me: CycleChecker, ghost es: set<Entry>, ghost cs: set<CycleChecker>, ghost hops: nat)
    returns (cycle: bool)
    requires first in es && Closed(es, cs)
    requires Ends(GraphOf(es, cs), first, hops)
    ensures cycle <==> Reaches(GraphOf(es, cs), first, me)
  {
    ghost var g := GraphOf(es, cs);
    var e: Entry? := first;
    ghost var left := hops;
    while e != null
      invariant e != null ==> e in es && Ends(g, e, left)
      invariant Reaches(g, first, me) <==> e != null && Reaches(g, e, me)
      decreases e != null, left
    {
      var cc := e.owner;
      if cc == null {
        break;
      }
      if cc == me {
        assert Meets(g, e, me, 0);
        return true;
      }
      ReachesNext(g, e, me);
      e := cc.waitsFor;
      if e != null { left := left - 1; }
    }
    return false;
  }

  lemma ReachesNext(g: Graph<Entry, CycleChecker>, e: Entry, me: CycleChecker)
    requires e in g.owner && g.owner[e] != me
    ensures Reaches(g, e, me) <==> g.owner[e] in g.waits && Reaches(g, g.waits[g.owner[e]], me)
  {
    if Reaches(g, e, me) {
      var k: nat :| Meets(g, e, me, k);
      assert Meets(g, g.waits[g.owner[e]], me, k - 1);
    }
    if g.owner[e] in g.waits && Reaches(g, g.waits[g.owner[e]], me) {
      var k: nat :| Meets(g, g.waits[g.owner[e]], me, k);
      assert Meets(g, e, me, k + 1);
    }
  }

  /** Entries are only ever added. */
  ghost predicate Extends(m: map<Name, Entry>, m': map<Name, Entry>) {
    forall n :: n in m ==> n in m' && m'[n] == m[n]
  }

  lemma ExtendsTrans(a: map<Name, Entry>, b: map<Name, Entry>, c: map<Name, Entry>)
    requires Extends(a, b) && Extends(b, c)
    ensures Extends(a, c)
  {
  }

  /** The fields of an entry. */
  datatype View = View(owner: CycleChecker?, outcome: Outcome, ready: bool)

  /** The modules being loaded belong to `cc`; every other entry is ready and correct. */
  ghost predicate EntryOk(lib: Library, n: Name, v: View, cc: CycleChecker?, stack: seq<Frame>) {
    if OnStack(stack, n) then cc != null && v.owner == cc && !v.ready
    else v.owner == null && v.ready && Correct(lib, n, v.outcome) && v.outcome != Failed(CycleInLoadGraph)
  }

  ghost predicate Healthy(lib: Library, vs: map<Name, View>, cc: CycleChecker?, stack: seq<Frame>) {
    && (forall n :: n in vs ==> EntryOk(lib, n, vs[n], cc, stack))
    && (forall i :: 0 <= i < |stack| ==> stack[i].name in vs)
    && LoadStack(lib, stack)
  }

  /** `cc` has inserted the entry of `name` and taken its ownership. */
  lemma Entered(lib: Library, vs: map<Name, View>, cc: CycleChecker, name: Name, v: View, stack: seq<Frame>)
    requires Healthy(lib, vs, cc, stack) && name !in vs && Asks(lib, stack, name)
    requires v.owner == cc && !v.ready
    ensures Healthy(lib, vs[name := v], cc, stack + [Frame(name, [])])
  {
    var inner, vs' := stack + [Frame(name, [])], vs[name := v];
    PushFrame(lib, stack, name);
    forall n | n in vs' ensures EntryOk(lib, n, vs'[n], cc, inner) {
      PushedNames(stack, name, n);
      if n != name { assert EntryOk(lib, n, vs[n], cc, stack); }
    }
  }

  /** The entry of `name` has been published. */
  lemma Published(lib: Library, vs: map<Name, View>, cc: CycleChecker, name: Name, r: Outcome, stack: seq<Frame>)
    requires Healthy(lib, vs, cc, stack + [Frame(name, [])]) && !OnStack(stack, name)
    requires Correct(lib, name, r) && r != Failed(CycleInLoadGraph)
    ensures Healthy(lib, vs[name := View(null, r, true)], cc, stack)
  {
    var inner, vs' := stack + [Frame(name, [])], vs[name := View(null, r, true)];
    forall n | n in vs' ensures EntryOk(lib, n, vs'[n], cc, stack) {
      PushedNames(stack, name, n);
      if n != name { assert EntryOk(lib, n, vs[n], cc, inner); }
    }
    PopFrame(lib, stack, Frame(name, []));
    forall i | 0 <= i < |stack| ensures stack[i].name in vs' {
      assert stack[i] == inner[i];
    }
  }

  lemma NotOnStack(lib: Library, vs: map<Name, View>, cc: CycleChecker, stack: seq<Frame>, name: Name)
    requires Healthy(lib, vs, cc, stack) && name !in vs
    ensures !OnStack(stack, name)
  {
  }

  lemma Retop(lib: Library, vs: map<Name, View>, cc: CycleChecker, rest: seq<Frame>, f: Frame, f': Frame)
    requires Healthy(lib, vs, cc, rest + [f]) && Ran(lib, f') && f.name == f'.name
    ensures Healthy(lib, vs, cc, rest + [f'])
  {
    SwapTop(lib, rest, f, f');
    forall n | n in vs ensures EntryOk(lib, n, vs[n], cc, rest + [f']) {
      assert EntryOk(lib, n, vs[n], cc, rest + [f]);
    }
    forall i | 0 <= i < |rest| + 1 ensures (rest + [f'])[i].name in vs {
      assert (rest + [f])[i].name in vs;
    }
  }

  class ModCache {
    const lib: Library
    var modCache: map<Name, Entry>

    constructor (lib: Library)
      ensures this.lib == lib && modCache == map[] && Settled()
    {
      this.lib, modCache := lib, map[];
    }

    ghost predicate Distinct()
      reads this
    {
      forall n, m :: n in modCache && m in modCache && n != m ==> modCache[n] != modCache[m]
    }

    ghost function Look(): map<Name, View>
      reads this, modCache.Values
    {
      map n | n in modCache :: View(modCache[n].owner, modCache[n].outcome, modCache[n].ready)
    }

    /** While `cc` is loading the modules on `stack`. */
    ghost predicate Valid(cc: CycleChecker?, stack: seq<Frame>)
      reads this, modCache.Values
    {
      Distinct() && Healthy(lib, Look(), cc, stack)
    }

    /** Between top-level loads: every entry is ready and correct. */
    ghost predicate Settled()
      reads this, modCache.Values
    {
      Valid(null, [])
    }

    /** What can still be executed. */
    ghost function Missing(): set<Name>
      reads this
    {
      lib.Keys - modCache.Keys
    }

    method Get(cc: CycleChecker, name: Name, ghost stack: seq<Frame>) returns (r: Outcome)
      requires Valid(cc, stack) && cc.waitsFor == null && Asks(lib, stack, name)
      modifies this, cc
      ensures Valid(cc, stack) && cc.waitsFor == null && Extends(old(modCache), modCache)
      ensures Correct(lib, name, r)
      ensures r == Failed(CycleInLoadGraph) <==> OnStack(stack, name)
      ensures !OnStack(stack, name) ==> name in modCache && modCache[name].ready && r == modCache[name].outcome
      decreases Missing(), 2
    {
      if name in modCache {
        var e := modCache[name];
        assert EntryOk(lib, name, Look()[name], cc, stack);
        assert OnStack(stack, name) ==> Meets(GraphOf({e}, {cc}), e, cc, 0);
        var cycle := CycleCheck(e, cc, {e}, {cc}, 0);
        if cycle {
          StackCycle(lib, stack, name);
          return Failed(CycleInLoadGraph);
        }
        cc.waitsFor := e;
        e.AwaitReady();
        cc.waitsFor := null;
        r := e.outcome;
      } else {
        r := GetFirst(cc, name, stack);
      }
    }

    /** The first request for a module: inserts its entry, loads it, publishes the result. */
    method GetFirst(cc: CycleChecker, name: Name, ghost stack: seq<Frame>) returns (r: Outcome)
      requires Valid(cc, stack) && cc.waitsFor == null && Asks(lib, stack, name)
      requires name !in modCache
      modifies this, cc
      ensures Valid(cc, stack) && cc.waitsFor == null && Extends(old(modCache), modCache)
      ensures Correct(lib, name, r) && r != Failed(CycleInLoadGraph)
      ensures name in modCache && modCache[name].ready && r == modCache[name].outcome
      decreases Missing(), 1
    {
      ghost var before, m0 := Look(), modCache;
      var e := Insert(cc, name);
      ghost var m1 := modCache;
      Entered(lib, before, cc, name, Look()[name], stack);
      r := DoLoad(cc, name, stack + [Frame(name, [])]);
      ghost var after := Look();
      Publish(e, name, r);
      NotOnStack(lib, before, cc, stack, name);
      Published(lib, after, cc, name, r, stack);
      ExtendsTrans(m0, m1, modCache);
    }

    /** Adds an entry for `name`, owned by `cc`. */
    method Insert(cc: CycleChecker, name: Name) returns (e: Entry)
      requires Distinct() && name !in modCache
      modifies this
      ensures fresh(e) && modCache == old(modCache)[name := e] && Distinct()
      ensures e.owner == cc && !e.ready
      ensures Look() == old(Look())[name := View(cc, e.outcome, false)]
    {
      e := new Entry();
      modCache := modCache[name := e];
      e.owner := cc;
    }

    /** Stores the result, clears the owner and closes the ready channel. */
    method Publish(e: Entry, name: Name, r: Outcome)
      requires Distinct() && name in modCache && modCache[name] == e
      modifies e
      ensures Look() == old(Look())[name := View(null, r, true)]
    {
      e.outcome := r;
      e.owner := null;
      e.ready := true;
    }

    /** Executes module `name`, whose entry is in the map and owned by `cc`. */
    method DoLoad(cc: CycleChecker, name: Name, ghost stack: seq<Frame>) returns (r: Outcome)
      requires |stack| > 0 && stack[|stack| - 1] == Frame(name, [])
      requires Valid(cc, stack) && cc.waitsFor == null
      modifies this, cc
      ensures Valid(cc, stack) && cc.waitsFor == null && Extends(old(modCache), modCache)
      ensures Correct(lib, name, r) && r != Failed(CycleInLoadGraph)
      decreases Missing(), if name in lib then 3 else 0
    {
      var m := Lookup(lib, name);
      var gs: seq<Globals> := [];
      ghost var rest := stack[..|stack| - 1];
      assert stack == rest + [Frame(name, gs)];
      while true
        invariant RanTo(lib, m, gs)
        invariant Valid(cc, rest + [Frame(name, gs)]) && cc.waitsFor == null && Extends(old(modCache), modCache)
        decreases |m.loads| - |gs|
      {
        match m.code(gs) {
          case Throws(reason) =>
            ThrowIsCorrect(lib, m, gs);
            r := Failed(ExecFailed(reason));
            break;
          case Yields(g) =>
            if |gs| == |m.loads| {
              FinishIsCorrect(lib, m, gs);
              r := Loaded(g);
              break;
            }
            var dep := m.loads[|gs|];
            var d := Get(cc, dep, rest + [Frame(name, gs)]);
            if d.Failed? {
              FailedLoadIsCorrect(lib, m, gs, dep, d.error);
              r := Failed(CannotLoad(dep, d.error));
              break;
            }
            LoadedStep(lib, m, gs, dep, d.globals);
            Retop(lib, Look(), cc, rest, Frame(name, gs), Frame(name, gs + [d.globals]));
            gs := gs + [d.globals];
        }
      }
      EvalIsRun(lib, name, r);
      Retop(lib, Look(), cc, rest, Frame(name, gs), Frame(name, []));
    }

    /** A top-level `load`: a new checker, and nothing under way. */
    method Load(name: Name) returns (r: Outcome)
      requires Settled()
      modifies this
      ensures Settled() && Extends(old(modCache), modCache)
      ensures Correct(lib, name, r)
    {
      var cc := new CycleChecker();
      NobodyLoading(lib, Look(), null, cc);
      r := Get(cc, name, []);
      NobodyLoading(lib, Look(), cc, null);
    }

    /** Runs a script the cache does not hold, loading what it asks for through the cache. */
    method RunScript(script: Module) returns (r: Outcome)
      requires Settled()
      modifies this
      ensures Settled() && Extends(old(modCache), modCache)
      ensures CorrectRun(lib, script, r)
    {
      var gs: seq<Globals> := [];
      while true
        invariant RanTo(lib, script, gs)
        invariant Settled() && Extends(old(modCache), modCache)
        decreases |script.loads| - |gs|
      {
        match script.code(gs) {
          case Throws(reason) =>
            ThrowIsCorrect(lib, script, gs);
            return Failed(ExecFailed(reason));
          case Yields(g) =>
            if |gs| == |script.loads| {
              FinishIsCorrect(lib, script, gs);
              return Loaded(g);
            }
            var dep := script.loads[|gs|];
            var d := Load(dep);
            if d.Failed? {
              FailedLoadIsCorrect(lib, script, gs, dep, d.error);
              return Failed(CannotLoad(dep, d.error));
            }
            LoadedStep(lib, script, gs, dep, d.globals);
            gs := gs + [d.globals];
        }
      }
    }
  }

  /** With nothing on the stack it does not matter whose stack it is. */
  lemma NobodyLoading(lib: Library, vs: map<Name, View>, cc: CycleChecker?, cc': CycleChecker?)
    requires Healthy(lib, vs, cc, [])
    ensures Healthy(lib, vs, cc', [])
  {
    forall n | n in vs ensures EntryOk(lib, n, vs[n], cc', []) {
      assert EntryOk(lib, n, vs[n], cc, []);
    }
  }
}
