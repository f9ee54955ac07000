/**
  What loading a Starlark module means, before any cache is involved.

  A module is its ordered list of `load` statements and the code between them.
  `Eval` is the cache-free evaluator: it runs the module and, at every `load`,
  runs the loaded module from scratch. It knows nothing of cycles, so on a load
  cycle it never returns; the fuel argument makes that observable.
 */
module LoadGraph {
  import opened Basics
  import StarlarkValues

  type Name = string
  type Globals = map<string, StarlarkValues.Value>

  /** `CannotLoad` is the wrapping a failed `load` statement adds to its cause. */
  datatype LoadError =
    | CycleInLoadGraph
    | ExecFailed(reason: string)
    | CannotLoad(dep: Name, cause: LoadError)

  datatype Outcome = Loaded(globals: Globals) | Failed(error: LoadError)

  /** What the code of a module does once it has been given the modules it asked for so far. */
  datatype Code = Yields(globals: Globals) | Throws(reason: string)

  /**
    `code(gs)` for `|gs| < |loads|` runs up to the next `load` statement, which is
    reached exactly when the code yields; for `|gs| == |loads|` it runs to the end.
   */
  datatype Module = Module(loads: seq<Name>, code: seq<Globals> -> Code)

  /** Everything that can be fetched. Any other name fails to open. */
  type Library = map<Name, Module>

  function Lookup(lib: Library, n: Name): Module {
    if n in lib then lib[n] else Module([], _ => Throws("not found"))
  }

  /** The cache-free evaluator; `None` when the fuel runs out. */
  function Eval(lib: Library, fuel: nat, n: Name): Option<Outcome>
    decreases fuel, 0
  {
    if fuel == 0 then None else Resume(lib, fuel - 1, Lookup(lib, n), [])
  }

  /** Continues module `m` after its first `|gs|` loads have returned `gs`. */
  function Resume(lib: Library, fuel: nat, m: Module, gs: seq<Globals>): Option<Outcome>
    requires |gs| <= |m.loads|
    decreases fuel, |m.loads| - |gs|
  {
    match m.code(gs)
    case Throws(reason) => Some(Failed(ExecFailed(reason)))
    case Yields(g) =>
      if |gs| == |m.loads| then
        Some(Loaded(g))
      else
        match Eval(lib, fuel, m.loads[|gs|])
        case None => None
        case Some(Failed(e)) => Some(Failed(CannotLoad(m.loads[|gs|], e)))
        case Some(Loaded(g')) => Resume(lib, fuel, m, gs + [g'])
  }

  /** Running `m` returns `o`. */
  ghost predicate Finishes(lib: Library, m: Module, o: Outcome) {
    exists fuel: nat :: Resume(lib, fuel, m, []) == Some(o)
  }

  /** Running `m` never returns. */
  ghost predicate Hangs(lib: Library, m: Module) {
    forall fuel: nat :: Resume(lib, fuel, m, []) == None
  }

  ghost predicate Evaluates(lib: Library, n: Name, o: Outcome) {
    exists fuel: nat :: Eval(lib, fuel, n) == Some(o)
  }

  ghost predicate Diverges(lib: Library, n: Name) {
    forall fuel: nat :: Eval(lib, fuel, n) == None
  }

  function RootCause(e: LoadError): LoadError {
    if e.CannotLoad? then RootCause(e.cause) else e
  }

  predicate CycleRooted(o: Outcome) {
    o.Failed? && RootCause(o.error) == CycleInLoadGraph
  }

  /** The answer a loader owes for `n`: the evaluator's own, or a cycle report when it has none. */
  ghost predicate Correct(lib: Library, n: Name, o: Outcome) {
    if CycleRooted(o) then Diverges(lib, n) else Evaluates(lib, n, o)
  }

  /** The same for a script that is run without having a name. */
  ghost predicate CorrectRun(lib: Library, m: Module, o: Outcome) {
    if CycleRooted(o) then Hangs(lib, m) else Finishes(lib, m, o)
  }

  lemma {:induction false} EvalIsRun(lib: Library, n: Name, o: Outcome)
    ensures Evaluates(lib, n, o) <==> Finishes(lib, Lookup(lib, n), o)
    ensures Diverges(lib, n) <==> Hangs(lib, Lookup(lib, n))
    ensures Correct(lib, n, o) <==> CorrectRun(lib, Lookup(lib, n), o)
  {
    forall fuel: nat ensures Resume(lib, fuel, Lookup(lib, n), []) == Eval(lib, fuel + 1, n) {}
    if Hangs(lib, Lookup(lib, n)) {
      forall fuel: nat ensures Eval(lib, fuel, n) == None {
        if fuel > 0 { assert Resume(lib, fuel - 1, Lookup(lib, n), []) == None; }
      }
    }
    if Evaluates(lib, n, o) {
      var fuel: nat :| Eval(lib, fuel, n) == Some(o);
      assert Resume(lib, fuel - 1, Lookup(lib, n), []) == Some(o);
    }
  }

  /* ---------- partially executed modules and load paths ---------- */

  /** A module under execution with the globals its first loads returned. */
  datatype Frame = Frame(name: Name, loaded: seq<Globals>)

  /** The code of `m` has run past its first `|gs|` loads, which returned `gs`. */
  ghost predicate RanTo(lib: Library, m: Module, gs: seq<Globals>) {
    && |gs| <= |m.loads|
    && (forall j :: 0 <= j < |gs| ==> m.code(gs[..j]).Yields? && Evaluates(lib, m.loads[j], Loaded(gs[j])))
  }

  /** ... and on to its load of `dep`. */
  ghost predicate RunsInto(lib: Library, m: Module, gs: seq<Globals>, dep: Name) {
    RanTo(lib, m, gs) && |gs| < |m.loads| && m.code(gs).Yields? && m.loads[|gs|] == dep
  }

  ghost predicate Ran(lib: Library, f: Frame) {
    RanTo(lib, Lookup(lib, f.name), f.loaded)
  }

  /** `f` has run up to its load of `dep`. */
  ghost predicate Wants(lib: Library, f: Frame, dep: Name) {
    RunsInto(lib, Lookup(lib, f.name), f.loaded, dep)
  }

  /** Running `u` reaches a `load` of `v`. */
  ghost predicate Demands(lib: Library, u: Name, v: Name) {
    exists gs :: Wants(lib, Frame(u, gs), v)
  }

  ghost predicate LoadPath(lib: Library, p: seq<Name>) {
    && |p| > 0
    && (forall i :: 0 <= i < |p| - 1 ==> Demands(lib, p[i], p[i + 1]))
  }

  /** A load path that comes back to its first module. */
  ghost predicate LoadCycle(lib: Library, p: seq<Name>) {
    LoadPath(lib, p) && |p| > 1 && p[0] == p[|p| - 1]
  }

  /* ---------- stacks of modules under execution ---------- */

  /** Each module of the stack has run up to its load of the next. */
  ghost predicate LoadStack(lib: Library, stack: seq<Frame>) {
    && (forall i :: 0 <= i < |stack| ==> Ran(lib, stack[i]))
    && (forall i :: 0 <= i < |stack| - 1 ==> Wants(lib, stack[i], stack[i + 1].name))
  }

  /** The last of them has reached a load of `n`. */
  ghost predicate Asks(lib: Library, stack: seq<Frame>, n: Name) {
    |stack| > 0 ==> Wants(lib, stack[|stack| - 1], n)
  }

  predicate OnStack(stack: seq<Frame>, n: Name) {
    exists i :: 0 <= i < |stack| && stack[i].name == n
  }

  function Names(fs: seq<Frame>): (ns: seq<Name>)
    ensures |ns| == |fs| && forall i :: 0 <= i < |fs| ==> ns[i] == fs[i].name
  {
    seq(|fs|, i requires 0 <= i < |fs| => fs[i].name)
  }

  lemma {:induction false} StackIsAPath(lib: Library, stack: seq<Frame>, i: nat)
    requires LoadStack(lib, stack) && i < |stack|
    ensures LoadPath(lib, Names(stack[i..]))
  {
    var p := Names(stack[i..]);
    forall j | 0 <= j < |p| - 1 ensures Demands(lib, p[j], p[j + 1]) {
      WantsIsDemands(lib, stack[i + j], stack[i + j + 1].name);
    }
  }

  lemma WantsIsDemands(lib: Library, f: Frame, dep: Name)
    requires Wants(lib, f, dep)
    ensures Demands(lib, f.name, dep)
  {
    assert Wants(lib, Frame(f.name, f.loaded), dep);
  }

  /** Asking for a module that is already under execution closes a load cycle. */
  lemma {:induction false} StackCycle(lib: Library, stack: seq<Frame>, n: Name)
    requires LoadStack(lib, stack) && Asks(lib, stack, n) && OnStack(stack, n)
    ensures Diverges(lib, n)
  {
    var i :| 0 <= i < |stack| && stack[i].name == n;
    StackIsAPath(lib, stack, i);
    var p := Names(stack[i..]);
    WantsIsDemands(lib, stack[|stack| - 1], n);
    JoinPaths(lib, p, [n]);
    CycleDiverges(lib, p + [n]);
  }

  lemma PushFrame(lib: Library, stack: seq<Frame>, n: Name)
    requires LoadStack(lib, stack) && Asks(lib, stack, n)
    ensures LoadStack(lib, stack + [Frame(n, [])])
  {
  }

  lemma PopFrame(lib: Library, stack: seq<Frame>, f: Frame)
    requires LoadStack(lib, stack + [f])
    ensures LoadStack(lib, stack)
    ensures forall i :: 0 <= i < |stack| ==> stack[i] == (stack + [f])[i]
  {
    var s := stack + [f];
    forall i | 0 <= i < |stack| - 1 ensures Wants(lib, stack[i], stack[i + 1].name) {
      assert Wants(lib, s[i], s[i + 1].name);
    }
    forall i | 0 <= i < |stack| ensures Ran(lib, stack[i]) {
      assert Ran(lib, s[i]);
    }
  }

  lemma PushedNames(stack: seq<Frame>, n: Name, m: Name)
    ensures OnStack(stack + [Frame(n, [])], m) <==> m == n || OnStack(stack, m)
  {
    var s := stack + [Frame(n, [])];
    if m == n { assert s[|stack|].name == m; }
    if OnStack(stack, m) {
      var i :| 0 <= i < |stack| && stack[i].name == m;
      assert s[i].name == m;
    }
  }

  lemma SwapTop(lib: Library, rest: seq<Frame>, f: Frame, f': Frame)
    requires LoadStack(lib, rest + [f]) && Ran(lib, f') && f.name == f'.name
    ensures LoadStack(lib, rest + [f'])
    ensures forall n :: OnStack(rest + [f'], n) <==> OnStack(rest + [f], n)
  {
    var s, s' := rest + [f], rest + [f'];
    forall i | 0 <= i < |s'| - 1 ensures Wants(lib, s'[i], s'[i + 1].name) {
      assert Wants(lib, s[i], s[i + 1].name);
    }
    forall i | 0 <= i < |s'| ensures Ran(lib, s'[i]) {
      assert Ran(lib, s[i]);
    }
    forall n ensures OnStack(s', n) <==> OnStack(s, n) {
      assert forall i :: 0 <= i < |s| ==> s[i].name == s'[i].name;
    }
  }

  /* ---------- the evaluator is deterministic ---------- */

  lemma {:induction false} MoreFuel(lib: Library, fuel: nat, fuel': nat, n: Name)
    requires fuel <= fuel'
    requires Eval(lib, fuel, n).Some?
    ensures Eval(lib, fuel', n) == Eval(lib, fuel, n)
    decreases fuel, 0
  {
    MoreFuelResume(lib, fuel - 1, fuel' - 1, Lookup(lib, n), []);
  }

  lemma {:induction false} MoreFuelResume(lib: Library, fuel: nat, fuel': nat, m: Module, gs: seq<Globals>)
    requires fuel <= fuel' && |gs| <= |m.loads|
    requires Resume(lib, fuel, m, gs).Some?
    ensures Resume(lib, fuel', m, gs) == Resume(lib, fuel, m, gs)
    decreases fuel, |m.loads| - |gs|
  {
    if m.code(gs).Yields? && |gs| < |m.loads| {
      MoreFuel(lib, fuel, fuel', m.loads[|gs|]);
      var r := Eval(lib, fuel, m.loads[|gs|]);
      if r.value.Loaded? {
        MoreFuelResume(lib, fuel, fuel', m, gs + [r.value.globals]);
      }
    }
  }

  lemma {:induction false} OneResult(lib: Library, fuel: nat, n: Name, o: Outcome)
    requires Evaluates(lib, n, o)
    requires Eval(lib, fuel, n).Some?
    ensures Eval(lib, fuel, n) == Some(o)
  {
    var fuel': nat :| Eval(lib, fuel', n) == Some(o);
    MoreFuel(lib, fuel, fuel + fuel', n);
    MoreFuel(lib, fuel', fuel + fuel', n);
  }

  /**
    What `Correct` buys: a correct answer is the evaluator's answer whenever the
    evaluator has one, and a cycle report exactly when it has none.
   */
  lemma {:induction false} CorrectIsDecisive(lib: Library, n: Name, o: Outcome)
    requires Correct(lib, n, o)
    ensures forall o' :: Evaluates(lib, n, o') ==> o == o'
    ensures CycleRooted(o) <==> Diverges(lib, n)
  {
    forall o' | Evaluates(lib, n, o') ensures o == o' {
      var fuel: nat :| Eval(lib, fuel, n) == Some(o');
      OneResult(lib, fuel, n, o);
    }
  }

  /* ---------- what an execution that reaches a load depends on ---------- */

  /** With enough fuel to finish, the run passes through every recorded point. */
  lemma {:induction false} ResumeAt(lib: Library, fuel: nat, m: Module, gs: seq<Globals>, j: nat)
    requires RanTo(lib, m, gs) && j <= |gs|
    requires Resume(lib, fuel, m, []).Some?
    ensures Resume(lib, fuel, m, gs[..j]) == Resume(lib, fuel, m, [])
  {
    if j == 0 {
      assert gs[..0] == [];
    } else {
      ResumeAt(lib, fuel, m, gs, j - 1);
      assert gs[..j] == gs[..j - 1] + [gs[j - 1]];
      assert Eval(lib, fuel, m.loads[j - 1]).Some?;
      OneResult(lib, fuel, m.loads[j - 1], Loaded(gs[j - 1]));
    }
  }

  lemma {:induction false} DemandNeedsFuel(lib: Library, u: Name, v: Name, fuel: nat)
    requires Demands(lib, u, v)
    requires Eval(lib, fuel, u).Some?
    ensures fuel > 0 && Eval(lib, fuel - 1, v).Some?
  {
    var gs :| Wants(lib, Frame(u, gs), v);
    ResumeAt(lib, fuel - 1, Lookup(lib, u), gs, |gs|);
    assert gs[..|gs|] == gs;
  }

  lemma {:induction false} SubPath(lib: Library, p: seq<Name>, lo: nat, hi: nat)
    requires LoadPath(lib, p) && lo < hi <= |p|
    ensures LoadPath(lib, p[lo..hi])
  {
    var q := p[lo..hi];
    forall i | 0 <= i < |q| - 1 ensures Demands(lib, q[i], q[i + 1]) {
      assert Demands(lib, p[lo + i], p[lo + i + 1]);
    }
  }

  lemma {:induction false} PathNeedsFuel(lib: Library, p: seq<Name>, fuel: nat)
    requires LoadPath(lib, p)
    requires Eval(lib, fuel, p[0]).Some?
    ensures fuel >= |p| - 1 && Eval(lib, fuel - (|p| - 1), p[|p| - 1]).Some?
    decreases |p|
  {
    if |p| > 1 {
      DemandNeedsFuel(lib, p[0], p[1], fuel);
      SubPath(lib, p, 1, |p|);
      PathNeedsFuel(lib, p[1..|p|], fuel - 1);
    }
  }

  lemma {:induction false} CycleNeverEnds(lib: Library, p: seq<Name>, fuel: nat)
    requires LoadCycle(lib, p)
    ensures Eval(lib, fuel, p[0]) == None
    decreases fuel
  {
    if Eval(lib, fuel, p[0]).Some? {
      PathNeedsFuel(lib, p, fuel);
      CycleNeverEnds(lib, p, fuel - (|p| - 1));
    }
  }

  /** Every module on a load cycle diverges. */
  lemma {:induction false} CycleDiverges(lib: Library, p: seq<Name>)
    requires LoadCycle(lib, p)
    ensures Diverges(lib, p[0])
  {
    forall fuel: nat ensures Eval(lib, fuel, p[0]) == None {
      CycleNeverEnds(lib, p, fuel);
    }
  }

  lemma {:induction false} JoinPaths(lib: Library, p: seq<Name>, q: seq<Name>)
    requires LoadPath(lib, p) && LoadPath(lib, q) && Demands(lib, p[|p| - 1], q[0])
    ensures LoadPath(lib, p + q)
  {
    var r := p + q;
    forall i | 0 <= i < |r| - 1 ensures Demands(lib, r[i], r[i + 1]) {
      if i < |p| - 1 {
        assert Demands(lib, p[i], p[i + 1]);
      } else if i >= |p| {
        assert Demands(lib, q[i - |p|], q[i - |p| + 1]);
      }
    }
  }

  /* ---------- how a module's own run ends ---------- */

  /** Fuel `fuel` is enough for every recorded load. */
  ghost predicate Fuelled(lib: Library, m: Module, gs: seq<Globals>, fuel: nat)
    requires |gs| <= |m.loads|
  {
    forall i :: 0 <= i < |gs| ==> Eval(lib, fuel, m.loads[i]) == Some(Loaded(gs[i]))
  }

  lemma {:induction false} CommonFuel(lib: Library, m: Module, gs: seq<Globals>, least: nat) returns (fuel: nat)
    requires RanTo(lib, m, gs)
    ensures Fuelled(lib, m, gs, fuel) && fuel >= least
  {
    if |gs| == 0 {
      fuel := least;
    } else {
      var j := |gs| - 1;
      forall i | 0 <= i < j ensures m.code(gs[..j][..i]).Yields? && Evaluates(lib, m.loads[i], Loaded(gs[..j][i])) {
        assert gs[..j][..i] == gs[..i];
      }
      var before := CommonFuel(lib, m, gs[..j], least);
      var last: nat :| Eval(lib, last, m.loads[j]) == Some(Loaded(gs[j]));
      fuel := before + last;
      forall i | 0 <= i < |gs| ensures Eval(lib, fuel, m.loads[i]) == Some(Loaded(gs[i])) {
        if i < j { assert gs[..j][i] == gs[i]; }
        MoreFuel(lib, if i < j then before else last, fuel, m.loads[i]);
      }
    }
  }

  lemma {:induction false} ResumeFrom(lib: Library, m: Module, gs: seq<Globals>, fuel: nat, j: nat)
    requires RanTo(lib, m, gs) && j <= |gs| && Fuelled(lib, m, gs, fuel)
    ensures Resume(lib, fuel, m, gs[..j]) == Resume(lib, fuel, m, gs)
    decreases |gs| - j
  {
    if j < |gs| {
      assert gs[..j + 1] == gs[..j] + [gs[j]];
      ResumeFrom(lib, m, gs, fuel, j + 1);
    } else {
      assert gs[..j] == gs;
    }
  }

  /** With enough fuel, the whole run is the run from the last recorded point. */
  lemma {:induction false} RunGetsTo(lib: Library, m: Module, gs: seq<Globals>, least: nat) returns (fuel: nat)
    requires RanTo(lib, m, gs)
    ensures fuel >= least && Resume(lib, fuel, m, []) == Resume(lib, fuel, m, gs)
  {
    fuel := CommonFuel(lib, m, gs, least);
    ResumeFrom(lib, m, gs, fuel, 0);
    assert gs[..0] == [];
  }

  /** The code of a module threw: that is the module's answer. */
  lemma {:induction false} ThrowIsCorrect(lib: Library, m: Module, gs: seq<Globals>)
    requires RanTo(lib, m, gs) && m.code(gs).Throws?
    ensures CorrectRun(lib, m, Failed(ExecFailed(m.code(gs).reason)))
  {
    var fuel := RunGetsTo(lib, m, gs, 0);
  }

  /** The code of a module ran to its end: its globals are the answer. */
  lemma {:induction false} FinishIsCorrect(lib: Library, m: Module, gs: seq<Globals>)
    requires RanTo(lib, m, gs) && |gs| == |m.loads| && m.code(gs).Yields?
    ensures CorrectRun(lib, m, Loaded(m.code(gs).globals))
  {
    var fuel := RunGetsTo(lib, m, gs, 0);
  }

  /** A load failed, for whatever reason: the wrapped failure is the answer. */
  lemma {:induction false} FailedLoadIsCorrect(lib: Library, m: Module, gs: seq<Globals>, dep: Name, e: LoadError)
    requires RunsInto(lib, m, gs, dep) && Correct(lib, dep, Failed(e))
    ensures CorrectRun(lib, m, Failed(CannotLoad(dep, e)))
  {
    if CycleRooted(Failed(e)) {
      forall fuel: nat ensures Resume(lib, fuel, m, []) == None {
        if Resume(lib, fuel, m, []).Some? {
          ResumeAt(lib, fuel, m, gs, |gs|);
          assert gs[..|gs|] == gs;
        }
      }
    } else {
      var fuel1: nat :| Eval(lib, fuel1, dep) == Some(Failed(e));
      var fuel := RunGetsTo(lib, m, gs, fuel1);
      MoreFuel(lib, fuel1, fuel, dep);
    }
  }

  /** A load returned its globals: the run goes on from the next point. */
  lemma {:induction false} LoadedStep(lib: Library, m: Module, gs: seq<Globals>, dep: Name, g: Globals)
    requires RunsInto(lib, m, gs, dep) && Correct(lib, dep, Loaded(g))
    ensures RanTo(lib, m, gs + [g])
  {
    var hs := gs + [g];
    forall j | 0 <= j < |hs| ensures m.code(hs[..j]).Yields? && Evaluates(lib, m.loads[j], Loaded(hs[j])) {
      assert hs[..j] == gs[..j];
      if j == |gs| { assert gs[..j] == gs; }
    }
  }

  /* ---------- divergence is exactly a reachable load cycle ---------- */

  /** A diverging module has run up to a load of a diverging module. */
  lemma {:induction false} DivergingLoad(lib: Library, m: Module, gs: seq<Globals>)
    returns (dep: Name, hs: seq<Globals>)
    requires RanTo(lib, m, gs) && Hangs(lib, m)
    ensures RunsInto(lib, m, hs, dep) && Diverges(lib, dep)
    decreases |m.loads| - |gs|
  {
    if m.code(gs).Throws? {
      ThrowIsCorrect(lib, m, gs);
      assert false;
    } else if |gs| == |m.loads| {
      FinishIsCorrect(lib, m, gs);
      assert false;
    } else {
      dep, hs := m.loads[|gs|], gs;
      if !Diverges(lib, dep) {
        var fuel: nat :| Eval(lib, fuel, dep).Some?;
        var o := Eval(lib, fuel, dep).value;
        assert Evaluates(lib, dep, o);
        match o
        case Loaded(g) =>
          LoadedStep(lib, m, gs, dep, g);
          dep, hs := DivergingLoad(lib, m, gs + [g]);
        case Failed(e) =>
          EvaluatorReportsNoCycle(lib, fuel, dep);
          FailedLoadIsCorrect(lib, m, gs, dep, e);
          assert false;
      }
    }
  }

  lemma {:induction false} EvaluatorReportsNoCycle(lib: Library, fuel: nat, n: Name)
    requires Eval(lib, fuel, n).Some?
    ensures !CycleRooted(Eval(lib, fuel, n).value)
    decreases fuel, 0
  {
    ResumeReportsNoCycle(lib, fuel - 1, Lookup(lib, n), []);
  }

  lemma {:induction false} ResumeReportsNoCycle(lib: Library, fuel: nat, m: Module, gs: seq<Globals>)
    requires |gs| <= |m.loads| && Resume(lib, fuel, m, gs).Some?
    ensures !CycleRooted(Resume(lib, fuel, m, gs).value)
    decreases fuel, |m.loads| - |gs|
  {
    if m.code(gs).Yields? && |gs| < |m.loads| {
      var r := Eval(lib, fuel, m.loads[|gs|]).value;
      EvaluatorReportsNoCycle(lib, fuel, m.loads[|gs|]);
      if r.Loaded? {
        ResumeReportsNoCycle(lib, fuel, m, gs + [r.globals]);
      }
    }
  }

  /** Follows diverging loads until one repeats; the library is finite, so one must. */
  lemma {:induction false} FindCycle(lib: Library, p: seq<Name>) returns (q: seq<Name>, i: nat)
    requires LoadPath(lib, p) && Diverges(lib, p[|p| - 1])
    requires forall a, b :: 0 <= a < b < |p| ==> p[a] != p[b]
    requires forall a :: 0 <= a < |p| - 1 ==> p[a] in lib
    ensures LoadPath(lib, q) && q[0] == p[0] && i < |q| - 1 && q[i] == q[|q| - 1]
    decreases |lib| + 1 - |p|
  {
    var n := p[|p| - 1];
    EvalIsRun(lib, n, Failed(CycleInLoadGraph));
    var dep, gs := DivergingLoad(lib, Lookup(lib, n), []);
    assert Wants(lib, Frame(n, gs), dep);
    JoinPaths(lib, p, [dep]);
    q := p + [dep];
    if dep in p {
      i :| i < |p| && p[i] == dep;
    } else {
      DistinctNamesFit(p, lib.Keys);
      q, i := FindCycle(lib, q);
    }
  }

  lemma {:induction false} DistinctNamesFit(p: seq<Name>, s: set<Name>)
    requires forall a, b :: 0 <= a < b < |p| ==> p[a] != p[b]
    requires forall a :: 0 <= a < |p| ==> p[a] in s
    ensures |p| <= |s|
    decreases |p|
  {
    if |p| > 0 {
      DistinctNamesFit(p[1..], s - {p[0]});
    }
  }

  /** On a finite library the evaluator fails to return exactly when some run reaches a load cycle. */
  lemma {:induction false} DivergenceIsACycle(lib: Library, n: Name)
    ensures Diverges(lib, n) <==>
      exists p, i: nat :: LoadPath(lib, p) && p[0] == n && i < |p| - 1 && p[i] == p[|p| - 1]
  {
    if Diverges(lib, n) {
      var p, i := FindCycle(lib, [n]);
    }
    if p, i: nat :| LoadPath(lib, p) && p[0] == n && i < |p| - 1 && p[i] == p[|p| - 1] {
      SubPath(lib, p, i, |p|);
      CycleDiverges(lib, p[i..|p|]);
      SubPath(lib, p, 0, i + 1);
      forall fuel: nat ensures Eval(lib, fuel, n) == None {
        if Eval(lib, fuel, n).Some? {
          PathNeedsFuel(lib, p[0..i + 1], fuel);
        }
      }
    }
  }

  /* ---------- the evaluator without fuel ---------- */

  /**
    What running `m` comes to after its first loads have returned `gs`: its code throws, or
    ends, or asks for a module that fails.
   */
  ghost predicate EndsAt(lib: Library, m: Module, gs: seq<Globals>, o: Outcome) {
    && RanTo(lib, m, gs)
    && match m.code(gs)
       case Throws(reason) => o == Failed(ExecFailed(reason))
       case Yields(g) =>
         if |gs| == |m.loads| then o == Loaded(g)
         else o.Failed? && o.error.CannotLoad? && o.error.dep == m.loads[|gs|] && Evaluates(lib, m.loads[|gs|], Failed(o.error.cause))
  }

  /** The evaluator has a result exactly if the loads of the module return one after the other up to where it ends. */
  lemma {:induction false} EvaluatorIs(lib: Library, n: Name, o: Outcome)
    ensures Evaluates(lib, n, o) <==> exists gs :: EndsAt(lib, Lookup(lib, n), gs, o)
  {
    var m := Lookup(lib, n);
    EvalIsRun(lib, n, o);
    if Finishes(lib, m, o) {
      var fuel: nat :| Resume(lib, fuel, m, []) == Some(o);
      var gs := WhereItEnds(lib, fuel, m, [], o);
    }
    if gs :| EndsAt(lib, m, gs, o) { EndIsTheResult(lib, m, gs, o); }
  }

  /** What cannot be fetched fails to load. */
  lemma {:induction false} MissingFails(lib: Library, n: Name)
    requires n !in lib
    ensures Evaluates(lib, n, Failed(ExecFailed("not found")))
  {
    var gs: seq<Globals> := [];
    assert EndsAt(lib, Lookup(lib, n), gs, Failed(ExecFailed("not found")));
    EvaluatorIs(lib, n, Failed(ExecFailed("not found")));
  }

  lemma {:induction false} WhereItEnds(lib: Library, fuel: nat, m: Module, gs: seq<Globals>, o: Outcome) returns (hs: seq<Globals>)
    requires RanTo(lib, m, gs) && Resume(lib, fuel, m, gs) == Some(o)
    ensures EndsAt(lib, m, hs, o)
    decreases |m.loads| - |gs|
  {
    hs := gs;
    if m.code(gs).Yields? && |gs| < |m.loads| {
      var dep := m.loads[|gs|];
      var r := Eval(lib, fuel, dep).value;
      assert Evaluates(lib, dep, r);
      if r.Loaded? {
        LoadedStep(lib, m, gs, dep, r.globals);
        hs := WhereItEnds(lib, fuel, m, gs + [r.globals], o);
      }
    }
  }

  lemma EndIsTheResult(lib: Library, m: Module, gs: seq<Globals>, o: Outcome)
    requires EndsAt(lib, m, gs, o)
    ensures Finishes(lib, m, o)
  {
    match m.code(gs)
    case Throws(reason) => ThrowIsCorrect(lib, m, gs);
    case Yields(g) =>
      if |gs| == |m.loads| {
        FinishIsCorrect(lib, m, gs);
      } else {
        var dep, e := m.loads[|gs|], o.error.cause;
        var fuel: nat :| Eval(lib, fuel, dep) == Some(Failed(e));
        EvaluatorReportsNoCycle(lib, fuel, dep);
        FailedLoadIsCorrect(lib, m, gs, dep, e);
      }
  }
}
