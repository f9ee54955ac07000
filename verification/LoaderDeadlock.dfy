/**
  Deadlocks in the code's own grain, where the cycle check and the wait are separate.

  Two overlapping calls can be made to wait for each other exactly if some load cycle
  passes through two different modules, and a third call then walks around them forever.
 */
module LoaderDeadlock {
  import opened Basics
  import opened LoadGraph
  import opened LoaderProtocol
  import opened LoaderSoundness
  import opened LoaderOverlap
  import opened LoaderRaces

  /* ---------- a call that is alone loads what the evaluator loads ---------- */

  ghost predicate Settled(lib: Library, n: Name, e: Entry) {
    e.ready && e.owner.None? && e.outcome.Some? && Evaluates(lib, n, e.outcome.value)
  }

  /** Every entry is settled, or that much fuel does not evaluate its module. */
  ghost predicate Calm(lib: Library, s: State, fuel: nat) {
    forall n :: n in s.entries ==> Settled(lib, n, s.entries[n]) || Eval(lib, fuel, n) == None
  }

  /** Only checker `c` has changed, and only settled entries were added. */
  ghost predicate Quietly(lib: Library, s: State, s': State, c: Cid, ch: Checker) {
    && s'.checkers == s.checkers[c := ch]
    && (forall n :: n in s.entries ==> n in s'.entries && s'.entries[n] == s.entries[n])
    && (forall n :: n in s'.entries && n !in s.entries ==> Settled(lib, n, s'.entries[n]))
  }

  lemma QuietlyOn(lib: Library, s: State, s1: State, s2: State, c: Cid, ch1: Checker, ch2: Checker)
    requires Quietly(lib, s, s1, c, ch1) && Quietly(lib, s1, s2, c, ch2)
    ensures Quietly(lib, s, s2, c, ch2)
  {
    assert s.checkers[c := ch1][c := ch2] == s.checkers[c := ch2];
    forall n | n in s2.entries && n !in s.entries ensures Settled(lib, n, s2.entries[n]) {
      if n in s1.entries { assert s2.entries[n] == s1.entries[n]; }
    }
  }

  lemma CalmOn(lib: Library, s: State, s': State, c: Cid, ch: Checker, fuel: nat)
    requires Calm(lib, s, fuel) && Quietly(lib, s, s', c, ch)
    ensures Calm(lib, s', fuel)
  {
    forall n | n in s'.entries ensures Settled(lib, n, s'.entries[n]) || Eval(lib, fuel, n) == None {
      if n in s.entries { assert s'.entries[n] == s.entries[n]; }
    }
  }

  lemma CalmWithLess(lib: Library, s: State, fuel: nat, less: nat)
    requires less <= fuel && Calm(lib, s, fuel)
    ensures Calm(lib, s, less)
  {
    forall n | n in s.entries && Eval(lib, fuel, n) == None ensures Eval(lib, less, n) == None {
      if Eval(lib, less, n).Some? { MoreFuel(lib, less, fuel, n); }
    }
  }

  /** One step of `c` that changes nothing but itself. */
  lemma Turns(sys: System, t: seq<Label>, s: State, c: Cid, ef: Effect) returns (t': seq<Label>, s': State)
    requires Run(sys, t) == s && Enabled(s, c) && Move(sys, s, c) == ef && ef.entry.None?
    ensures Run(sys, t') == s' && Quietly(sys.lib, s, s', c, ef.checker)
  {
    s' := Takes(sys, t, s, c, ef);
    t' := t + [Go(c)];
  }

  lemma FindsReady(sys: System, t: seq<Label>, s: State, c: Cid, n: Name, o: Outcome) returns (t': seq<Label>, s': State)
    requires sys.grain.Fine? && Run(sys, t) == s && c in s.checkers
    requires s.checkers[c].phase == Requesting(n) && s.checkers[c].waitsFor.None?
    requires n in s.entries && Settled(sys.lib, n, s.entries[n]) && s.entries[n].outcome == Some(o)
    ensures Run(sys, t') == s' && Quietly(sys.lib, s, s', c, s.checkers[c].(phase := Returning(n, o)))
  {
    var ch := s.checkers[c];
    var t1, s1 := Turns(sys, t, s, c, Quiet(ch.(phase := Walking(n, n))));
    var t2, s2 := Turns(sys, t1, s1, c, Quiet(ch.(phase := Checked(n))));
    QuietlyOn(sys.lib, s, s1, s2, c, ch.(phase := Walking(n, n)), ch.(phase := Checked(n)));
    t', s' := Wakes(sys, t2, s2, c, n, o);
    QuietlyOn(sys.lib, s, s2, s', c, ch.(phase := Checked(n)), ch.(phase := Returning(n, o)));
  }

  lemma Wakes(sys: System, t: seq<Label>, s: State, c: Cid, n: Name, o: Outcome) returns (t': seq<Label>, s': State)
    requires Run(sys, t) == s && c in s.checkers
    requires s.checkers[c].phase == Checked(n) && s.checkers[c].waitsFor.None?
    requires n in s.entries && s.entries[n].ready && s.entries[n].outcome == Some(o)
    ensures Run(sys, t') == s' && Quietly(sys.lib, s, s', c, s.checkers[c].(phase := Returning(n, o)))
  {
    var ch := s.checkers[c];
    var waiting, woken := ch.(waitsFor := Some(n), phase := Waiting(n)), ch.(waitsFor := Some(n), phase := Woken(n));
    var t1, s1 := Turns(sys, t, s, c, Quiet(waiting));
    var t2, s2 := Turns(sys, t1, s1, c, Quiet(woken));
    QuietlyOn(sys.lib, s, s1, s2, c, waiting, woken);
    t', s' := Turns(sys, t2, s2, c, Return(woken.(waitsFor := None), n, o));
    QuietlyOn(sys.lib, s, s2, s', c, woken, ch.(phase := Returning(n, o)));
  }

  /** `c` asks for `n`, and `fuel` is less than what evaluates any module that is loading. */
  ghost predicate Asking(sys: System, t: seq<Label>, s: State, c: Cid, n: Name, fuel: nat) {
    && sys.grain.Fine? && Run(sys, t) == s && c in s.checkers
    && s.checkers[c].phase == Requesting(n) && s.checkers[c].waitsFor.None? && Calm(sys.lib, s, fuel)
  }

  /** `c` runs the code of `n`, after loads that returned `gs`. */
  ghost predicate Running(sys: System, t: seq<Label>, s: State, c: Cid, n: Name, gs: seq<Globals>, fuel: nat) {
    && sys.grain.Fine? && Run(sys, t) == s && c in s.checkers && n in s.entries
    && |s.checkers[c].stack| > 0 && Top(s.checkers[c]) == Frame(n, gs)
    && s.checkers[c].phase == Executing && s.checkers[c].waitsFor.None? && Calm(sys.lib, s, fuel)
  }

  /** A module that `fuel` evaluates is fetched or loaded, and `get` returns what the evaluator does. */
  lemma {:induction false} Fetches(sys: System, t: seq<Label>, s: State, c: Cid, n: Name, fuel: nat, g: Globals)
    returns (t': seq<Label>, s': State)
    requires Asking(sys, t, s, c, n, fuel) && Eval(sys.lib, fuel, n) == Some(Loaded(g))
    ensures Run(sys, t') == s' && Quietly(sys.lib, s, s', c, s.checkers[c].(phase := Returning(n, Loaded(g))))
    decreases fuel, 0, 1
  {
    if n in s.entries {
      ReadyIsRight(sys.lib, s, fuel, n, g);
      t', s' := FindsReady(sys, t, s, c, n, Loaded(g));
    } else {
      var least := LeastFuel(sys.lib, fuel, n, g);
      CalmWithLess(sys.lib, s, fuel, least);
      t', s' := LoadsFresh(sys, t, s, c, n, least, g);
    }
  }

  /** One less than the least fuel that evaluates a module. */
  lemma {:induction false} LeastFuel(lib: Library, fuel: nat, n: Name, g: Globals) returns (least: nat)
    requires Eval(lib, fuel, n) == Some(Loaded(g))
    ensures least < fuel && Eval(lib, least, n) == None
    ensures Resume(lib, least, Lookup(lib, n), []) == Some(Loaded(g)) && Evaluates(lib, n, Loaded(g))
  {
    if Eval(lib, fuel - 1, n) == None {
      least := fuel - 1;
    } else {
      MoreFuel(lib, fuel - 1, fuel, n);
      least := LeastFuel(lib, fuel - 1, n, g);
    }
  }

  lemma ReadyIsRight(lib: Library, s: State, fuel: nat, n: Name, g: Globals)
    requires Calm(lib, s, fuel) && n in s.entries && Eval(lib, fuel, n) == Some(Loaded(g))
    ensures Settled(lib, n, s.entries[n]) && s.entries[n].outcome == Some(Loaded(g))
  {
    OneResult(lib, fuel, n, s.entries[n].outcome.value);
  }

  /** A module that is not there yet, with one less than the least fuel that evaluates it. */
  lemma {:induction false} LoadsFresh(sys: System, t: seq<Label>, s: State, c: Cid, n: Name, fuel: nat, g: Globals)
    returns (t': seq<Label>, s': State)
    requires Asking(sys, t, s, c, n, fuel) && n !in s.entries && Eval(sys.lib, fuel, n) == None
    requires Resume(sys.lib, fuel, Lookup(sys.lib, n), []) == Some(Loaded(g)) && Evaluates(sys.lib, n, Loaded(g))
    ensures Run(sys, t') == s' && Quietly(sys.lib, s, s', c, s.checkers[c].(phase := Returning(n, Loaded(g))))
    decreases fuel, 2, 0
  {
    var t1, s1 := Begins(sys, t, s, c, n, fuel);
    var t2, s2, ch2 := RunsCode(sys, t1, s1, c, fuel, n, [], g);
    t', s' := PublishesQuietly(sys, t2, s, s1, s2, c, n, ch2, g);
  }

  /** `c` has just started to run the code of `n`. */
  ghost predicate Begun(s: State, s1: State, c: Cid, n: Name) {
    && c in s.checkers && c in s1.checkers
    && s1.entries == s.entries[n := Entry(c, Some(c), None, false)]
    && s1.checkers == s.checkers[c := s1.checkers[c]]
    && s1.checkers[c] == s.checkers[c].(stack := s.checkers[c].stack + [Frame(n, [])], phase := Executing)
  }

  lemma Begins(sys: System, t: seq<Label>, s: State, c: Cid, n: Name, fuel: nat) returns (t': seq<Label>, s': State)
    requires Asking(sys, t, s, c, n, fuel) && n !in s.entries && Eval(sys.lib, fuel, n) == None
    ensures Begun(s, s', c, n) && Running(sys, t', s', c, n, [], fuel)
  {
    t', s' := Owns(sys, t, s, c, n);
    OwnedCalm(sys.lib, s, s', n, fuel);
  }

  lemma PublishesQuietly(sys: System, t: seq<Label>, s: State, s1: State, s2: State, c: Cid, n: Name, ch: Checker, g: Globals)
    returns (t': seq<Label>, s': State)
    requires Run(sys, t) == s2 && n !in s.entries && Begun(s, s1, c, n) && Quietly(sys.lib, s1, s2, c, ch)
    requires ch.phase == Finished(Loaded(g)) && SameBelow(s1.checkers[c], ch) && ch.waitsFor == s.checkers[c].waitsFor
    requires Evaluates(sys.lib, n, Loaded(g))
    ensures Run(sys, t') == s' && Quietly(sys.lib, s, s', c, s.checkers[c].(phase := Returning(n, Loaded(g))))
  {
    assert n in s2.entries;
    t', s' := Publishes(sys, t, s2, c, n, Loaded(g));
    LoadedQuietly(sys.lib, s, s1, s2, s', c, n, ch, g);
  }

  lemma OwnedCalm(lib: Library, s: State, s1: State, n: Name, fuel: nat)
    requires Calm(lib, s, fuel) && Eval(lib, fuel, n) == None
    requires n in s1.entries && s1.entries == s.entries[n := s1.entries[n]]
    ensures Calm(lib, s1, fuel)
  {
  }

  /** Owning, running and publishing a module, in all. */
  lemma LoadedQuietly(lib: Library, s: State, s1: State, s2: State, s': State, c: Cid, n: Name, ch: Checker, g: Globals)
    requires c in s.checkers && n !in s.entries && Evaluates(lib, n, Loaded(g))
    requires s1.entries == s.entries[n := Entry(c, Some(c), None, false)]
    requires c in s1.checkers && s1.checkers == s.checkers[c := s1.checkers[c]]
    requires Quietly(lib, s1, s2, c, ch) && |ch.stack| == |s.checkers[c].stack| + 1
    requires ch.stack[..|ch.stack| - 1] == s.checkers[c].stack && ch.waitsFor == s.checkers[c].waitsFor
    requires n in s2.entries
    requires s'.entries == s2.entries[n := s2.entries[n].(outcome := Some(Loaded(g)), owner := None, ready := true)]
    requires s'.checkers == s2.checkers[c := ch.(stack := ch.stack[..|ch.stack| - 1], phase := Returning(n, Loaded(g)))]
    ensures Quietly(lib, s, s', c, s.checkers[c].(phase := Returning(n, Loaded(g))))
  {
    var done := s.checkers[c].(phase := Returning(n, Loaded(g)));
    assert done == ch.(stack := ch.stack[..|ch.stack| - 1], phase := Returning(n, Loaded(g)));
    assert s'.checkers == s.checkers[c := done];
    forall m | m in s'.entries && m !in s.entries ensures Settled(lib, m, s'.entries[m]) {
      if m != n { assert s'.entries[m] == s2.entries[m]; }
    }
  }

  /** Runs the code of the top module to its end. */
  lemma {:induction false} RunsCode(sys: System, t: seq<Label>, s: State, c: Cid, fuel: nat, n: Name, gs: seq<Globals>, g: Globals)
    returns (t': seq<Label>, s': State, ch': Checker)
    requires Running(sys, t, s, c, n, gs, fuel)
    requires |gs| <= |Lookup(sys.lib, n).loads| && Resume(sys.lib, fuel, Lookup(sys.lib, n), gs) == Some(Loaded(g))
    ensures Run(sys, t') == s' && Quietly(sys.lib, s, s', c, ch')
    ensures ch'.phase == Finished(Loaded(g)) && ch'.waitsFor.None? && SameBelow(s.checkers[c], ch')
    decreases fuel, 1, |Lookup(sys.lib, n).loads| - |gs|
  {
    var ch, m := s.checkers[c], Lookup(sys.lib, n);
    if |gs| == |m.loads| {
      ch' := ch.(phase := Finished(Loaded(g)));
      t', s' := Turns(sys, t, s, c, Quiet(ch'));
    } else {
      var g' := Eval(sys.lib, fuel, m.loads[|gs|]).value.globals;
      var t1, s1 := LoadsNext(sys, t, s, c, fuel, n, gs, g');
      t', s', ch' := RunsCode(sys, t1, s1, c, fuel, n, gs + [g'], g);
      QuietlyOn(sys.lib, s, s1, s', c, Deeper(ch, n, gs + [g']), ch');
    }
  }

  /** The stacks differ at most in what their top modules have loaded. */
  predicate SameBelow(ch: Checker, ch': Checker) {
    && |ch.stack| == |ch'.stack| > 0
    && ch.stack[..|ch.stack| - 1] == ch'.stack[..|ch.stack| - 1]
    && Top(ch).name == Top(ch').name
  }

  /** `ch` with its top module `n` further on. */
  function Deeper(ch: Checker, n: Name, gs: seq<Globals>): Checker
    requires |ch.stack| > 0
  {
    ch.(stack := ch.stack[|ch.stack| - 1 := Frame(n, gs)], phase := Executing)
  }

  /** The next load of the top module, which the evaluator finishes. */
  lemma {:induction false} LoadsNext(sys: System, t: seq<Label>, s: State, c: Cid, fuel: nat, n: Name, gs: seq<Globals>, g: Globals)
    returns (t': seq<Label>, s': State)
    requires Running(sys, t, s, c, n, gs, fuel)
    requires |gs| < |Lookup(sys.lib, n).loads| && Lookup(sys.lib, n).code(gs).Yields?
    requires Eval(sys.lib, fuel, Lookup(sys.lib, n).loads[|gs|]) == Some(Loaded(g))
    ensures Running(sys, t', s', c, n, gs + [g], fuel) && Quietly(sys.lib, s, s', c, Deeper(s.checkers[c], n, gs + [g]))
    decreases fuel, 0, 2
  {
    var ch, dep := s.checkers[c], Lookup(sys.lib, n).loads[|gs|];
    var asking, returning := ch.(phase := Requesting(dep)), ch.(phase := Returning(dep, Loaded(g)));
    var t1, s1 := Turns(sys, t, s, c, Quiet(asking));
    CalmOn(sys.lib, s, s1, c, asking, fuel);
    var t2, s2 := Fetches(sys, t1, s1, c, dep, fuel, g);
    QuietlyOn(sys.lib, s, s1, s2, c, asking, returning);
    t', s' := Turns(sys, t2, s2, c, Quiet(Resumed(returning, dep, Loaded(g))));
    QuietlyOn(sys.lib, s, s2, s', c, returning, Deeper(ch, n, gs + [g]));
    CalmOn(sys.lib, s, s', c, Deeper(ch, n, gs + [g]), fuel);
  }

  /* ---------- up to the load that matters ---------- */

  /** Runs module `u` from its `j`-th load to its load of `v`. */
  lemma {:induction false} RunsUpTo(sys: System, t: seq<Label>, s: State, c: Cid, u: Name, gs: seq<Globals>, v: Name, j: nat, fuel: nat)
    returns (t': seq<Label>, s': State)
    requires Wants(sys.lib, Frame(u, gs), v) && Fuelled(sys.lib, Lookup(sys.lib, u), gs, fuel) && j <= |gs|
    requires Running(sys, t, s, c, u, gs[..j], fuel)
    ensures Run(sys, t') == s' && Quietly(sys.lib, s, s', c, Deeper(s.checkers[c], u, gs).(phase := Requesting(v)))
    decreases |gs| - j
  {
    var ch := s.checkers[c];
    if j == |gs| {
      assert gs[..j] == gs;
      assert Deeper(ch, u, gs).stack == ch.stack;
      t', s' := Turns(sys, t, s, c, Quiet(ch.(phase := Requesting(v))));
    } else {
      var t1, s1 := LoadsNext(sys, t, s, c, fuel, u, gs[..j], gs[j]);
      assert gs[..j] + [gs[j]] == gs[..j + 1];
      t', s' := RunsUpTo(sys, t1, s1, c, u, gs, v, j + 1, fuel);
      assert Deeper(Deeper(ch, u, gs[..j + 1]), u, gs) == Deeper(ch, u, gs);
      QuietlyOn(sys.lib, s, s1, s', c, Deeper(ch, u, gs[..j + 1]), Deeper(ch, u, gs).(phase := Requesting(v)));
    }
  }

  /** Every entry is settled or one the evaluator never finishes. */
  ghost predicate Clear(lib: Library, s: State) {
    forall n :: n in s.entries ==> Settled(lib, n, s.entries[n]) || Diverges(lib, n)
  }

  lemma ClearIsCalm(lib: Library, s: State, fuel: nat)
    requires Clear(lib, s)
    ensures Calm(lib, s, fuel)
  {
  }

  lemma ClearOn(lib: Library, s: State, s': State, c: Cid, ch: Checker)
    requires Clear(lib, s) && Quietly(lib, s, s', c, ch)
    ensures Clear(lib, s')
  {
    forall n | n in s'.entries ensures Settled(lib, n, s'.entries[n]) || Diverges(lib, n) {
      if n in s.entries { assert s'.entries[n] == s.entries[n]; }
    }
  }

  lemma SettledEnds(lib: Library, n: Name, e: Entry)
    requires Settled(lib, n, e)
    ensures !Diverges(lib, n)
  {
  }

  /** Only checker `c` has changed, its entries for `own` are loading, and the others that were added are settled. */
  ghost predicate Climbed(lib: Library, s: State, s': State, c: Cid, own: seq<Name>) {
    && c in s'.checkers && s'.checkers == s.checkers[c := s'.checkers[c]]
    && (forall n :: n in s.entries ==> n in s'.entries && s'.entries[n] == s.entries[n])
    && (forall n :: n in own ==> n in s'.entries && s'.entries[n].owner == Some(c) && !s'.entries[n].ready)
    && (forall n :: n in s'.entries && n !in s.entries && n !in own ==> Settled(lib, n, s'.entries[n]))
  }

  /** Takes ownership of `u`, whose loads before that of `v` the evaluator finishes, and gets to that load. */
  lemma Ascends(sys: System, t: seq<Label>, s: State, c: Cid, u: Name, v: Name) returns (t': seq<Label>, s': State)
    requires sys.grain.Fine? && Run(sys, t) == s && c in s.checkers && u !in s.entries
    requires s.checkers[c].phase == Requesting(u) && s.checkers[c].waitsFor.None?
    requires Demands(sys.lib, u, v) && Diverges(sys.lib, u) && Clear(sys.lib, s)
    ensures Run(sys, t') == s' && Climbed(sys.lib, s, s', c, [u]) && Clear(sys.lib, s')
    ensures s'.checkers[c].phase == Requesting(v) && s'.checkers[c].waitsFor.None?
  {
    var gs :| Wants(sys.lib, Frame(u, gs), v);
    var fuel := CommonFuel(sys.lib, Lookup(sys.lib, u), gs, 0);
    var t1, s1 := Owns(sys, t, s, c, u);
    OwnedClear(sys.lib, s, s1, u);
    ClearIsCalm(sys.lib, s1, fuel);
    assert gs[..0] == [];
    t', s' := RunsUpTo(sys, t1, s1, c, u, gs, v, 0, fuel);
    var ch := Deeper(s1.checkers[c], u, gs).(phase := Requesting(v));
    ClearOn(sys.lib, s1, s', c, ch);
    AscendsBy(sys.lib, s, s1, s', c, u, ch);
  }

  lemma OwnedClear(lib: Library, s: State, s1: State, u: Name)
    requires Clear(lib, s) && Diverges(lib, u) && u in s1.entries && s1.entries == s.entries[u := s1.entries[u]]
    ensures Clear(lib, s1)
  {
  }

  lemma AscendsBy(lib: Library, s: State, s1: State, s': State, c: Cid, u: Name, ch: Checker)
    requires c in s.checkers && u !in s.entries
    requires s1.entries == s.entries[u := Entry(c, Some(c), None, false)]
    requires c in s1.checkers && s1.checkers == s.checkers[c := s1.checkers[c]]
    requires Quietly(lib, s1, s', c, ch)
    ensures Climbed(lib, s, s', c, [u])
  {
    assert s'.checkers == s.checkers[c := ch];
    forall n | n in s.entries ensures n in s'.entries && s'.entries[n] == s.entries[n] {
      assert s1.entries[n] == s.entries[n];
    }
    assert s'.entries[u] == s1.entries[u];
  }

  /** Climbs a path of modules the evaluator never finishes, to the request for the last of them. */
  lemma {:induction false} Climbs(sys: System, t: seq<Label>, s: State, c: Cid, p: seq<Name>) returns (t': seq<Label>, s': State)
    requires sys.grain.Fine? && Run(sys, t) == s && c in s.checkers && LoadPath(sys.lib, p)
    requires s.checkers[c].phase == Requesting(p[0]) && s.checkers[c].waitsFor.None? && Clear(sys.lib, s)
    requires forall i :: 0 <= i < |p| ==> Diverges(sys.lib, p[i])
    requires forall i, j :: 0 <= i < j < |p| ==> p[i] != p[j]
    requires forall i :: 0 <= i < |p| - 1 ==> p[i] !in s.entries
    ensures Run(sys, t') == s' && Climbed(sys.lib, s, s', c, p[..|p| - 1]) && Clear(sys.lib, s')
    ensures s'.checkers[c].phase == Requesting(p[|p| - 1]) && s'.checkers[c].waitsFor.None?
    decreases |p|
  {
    if |p| == 1 {
      t', s' := t, s;
      assert s.checkers[c := s.checkers[c]] == s.checkers;
    } else {
      var t1, s1 := Ascends(sys, t, s, c, p[0], p[1]);
      RestOfPath(sys.lib, s, s1, c, p);
      t', s' := Climbs(sys, t1, s1, c, p[1..]);
      FirstAndRest(p);
      ClimbedOn(sys.lib, s, s1, s', c, [p[0]], p[1..][..|p| - 2]);
    }
  }

  lemma FirstAndRest(p: seq<Name>)
    requires |p| > 1
    ensures p[..|p| - 1] == [p[0]] + p[1..][..|p| - 2]
  {
  }

  lemma RestOfPath(lib: Library, s: State, s1: State, c: Cid, p: seq<Name>)
    requires |p| > 1 && LoadPath(lib, p) && Climbed(lib, s, s1, c, [p[0]])
    requires forall i :: 0 <= i < |p| ==> Diverges(lib, p[i])
    requires forall i, j :: 0 <= i < j < |p| ==> p[i] != p[j]
    requires forall i :: 0 <= i < |p| - 1 ==> p[i] !in s.entries
    ensures LoadPath(lib, p[1..])
    ensures forall i :: 0 <= i < |p[1..]| - 1 ==> p[1..][i] !in s1.entries
  {
    SubPath(lib, p, 1, |p|);
    assert p[1..|p|] == p[1..];
    forall i | 0 <= i < |p[1..]| - 1 ensures p[1..][i] !in s1.entries {
      var n := p[i + 1];
      assert n != p[0] && n !in s.entries && Diverges(lib, n);
      if n in s1.entries { SettledEnds(lib, n, s1.entries[n]); }
    }
  }

  lemma ClimbedOn(lib: Library, s: State, s1: State, s2: State, c: Cid, own1: seq<Name>, own2: seq<Name>)
    requires Climbed(lib, s, s1, c, own1) && Climbed(lib, s1, s2, c, own2)
    ensures Climbed(lib, s, s2, c, own1 + own2)
  {
    assert s.checkers[c := s1.checkers[c]][c := s2.checkers[c]] == s.checkers[c := s2.checkers[c]];
    forall n | n in s.entries ensures n in s2.entries && s2.entries[n] == s.entries[n] {
      assert s1.entries[n] == s.entries[n];
    }
    forall n | n in own1 + own2 ensures n in s2.entries && s2.entries[n].owner == Some(c) && !s2.entries[n].ready {
      if n in own1 { assert s2.entries[n] == s1.entries[n]; }
    }
    forall n | n in s2.entries && n !in s.entries && n !in own1 + own2 ensures Settled(lib, n, s2.entries[n]) {
      if n in s1.entries { assert s2.entries[n] == s1.entries[n]; }
    }
  }

  /* ---------- a simple cycle through two modules ---------- */

  ghost predicate AllDiffer(p: seq<Name>) {
    forall i, j :: 0 <= i < j < |p| ==> p[i] != p[j]
  }

  lemma {:induction false} SimplePath(lib: Library, p: seq<Name>) returns (q: seq<Name>)
    requires LoadPath(lib, p)
    ensures LoadPath(lib, q) && q[0] == p[0] && q[|q| - 1] == p[|p| - 1] && AllDiffer(q)
    decreases |p|
  {
    if AllDiffer(p) {
      q := p;
    } else {
      var i, j :| 0 <= i < j < |p| && p[i] == p[j];
      var r := p[..i] + p[j..];
      assert LoadPath(lib, r) by {
        forall a | 0 <= a < |r| - 1 ensures Demands(lib, r[a], r[a + 1]) {
          if a + 1 < i { assert Demands(lib, p[a], p[a + 1]); }
          else if a + 1 == i { assert Demands(lib, p[a], p[i]); }
          else { assert Demands(lib, p[a - i + j], p[a - i + j + 1]); }
        }
      }
      q := SimplePath(lib, r);
    }
  }

  /** Going round from the load of `v` by `u` back to `u`. */
  lemma Rotated(lib: Library, p: seq<Name>, j: nat) returns (q: seq<Name>)
    requires LoadCycle(lib, p) && j < |p| - 1
    ensures LoadPath(lib, q) && q[0] == p[j + 1] && q[|q| - 1] == p[j]
  {
    SubPath(lib, p, j + 1, |p|);
    if j == 0 {
      q := p[1..|p|];
    } else {
      SubPath(lib, p, 1, j + 1);
      assert Demands(lib, p[0], p[1]);
      JoinPaths(lib, p[j + 1..|p|], p[1..j + 1]);
      q := p[j + 1..|p|] + p[1..j + 1];
    }
  }

  lemma {:induction false} SomeChange(p: seq<Name>, i: nat) returns (j: nat)
    requires i < |p| && p[i] != p[0]
    ensures j < |p| - 1 && p[j] != p[j + 1]
    decreases i
  {
    if p[i - 1] != p[i] { j := i - 1; } else { j := SomeChange(p, i - 1); }
  }

  lemma CycleOfPath(lib: Library, q: seq<Name>, i: nat)
    requires LoadPath(lib, q) && Demands(lib, q[|q| - 1], q[0]) && i < |q|
    ensures Diverges(lib, q[i])
  {
    SubPath(lib, q, i, |q|);
    SubPath(lib, q, 0, i + 1);
    JoinPaths(lib, q[i..|q|], q[0..i + 1]);
    CycleDiverges(lib, q[i..|q|] + q[0..i + 1]);
  }

  /** A simple path of modules the evaluator never finishes, whose last one demands the first. */
  lemma {:induction false} SimpleCycle(lib: Library) returns (q: seq<Name>)
    requires Entangled(lib)
    ensures LoadPath(lib, q) && |q| > 1 && AllDiffer(q) && Demands(lib, q[|q| - 1], q[0])
    ensures forall i :: 0 <= i < |q| ==> Diverges(lib, q[i])
  {
    var p, i :| LoadCycle(lib, p) && 0 <= i < |p| && p[i] != p[0];
    var j := SomeChange(p, i);
    var r := Rotated(lib, p, j);
    q := SimplePath(lib, r);
    assert Demands(lib, p[j], p[j + 1]);
    forall a | 0 <= a < |q| { CycleOfPath(lib, q, a); }
  }

  /* ---------- the deadlock ---------- */

  /** Calls 0 and 1 wait for each other. */
  ghost predicate Deadlocked(s: State, u: Name, v: Name) {
    && 0 in s.checkers && 1 in s.checkers && u in s.entries && v in s.entries && u != v
    && s.checkers[0].phase == Waiting(u) && s.checkers[0].waitsFor == Some(u)
    && s.checkers[1].phase == Waiting(v) && s.checkers[1].waitsFor == Some(v)
    && s.entries[u].owner == Some(1) && !s.entries[u].ready
    && s.entries[v].owner == Some(0) && !s.entries[v].ready
  }

  /** A call that requests an entry owned by an idle call passes the check, up to the wait. */
  lemma PassesCheck(sys: System, t: seq<Label>, s: State, c: Cid, n: Name, o: Cid) returns (t': seq<Label>, s': State)
    requires sys.grain.Fine? && Run(sys, t) == s && c in s.checkers && s.checkers[c].phase == Requesting(n)
    requires n in s.entries && s.entries[n].owner == Some(o) && o != c && o in s.checkers && s.checkers[o].waitsFor.None?
    ensures Run(sys, t') == s' == At(s, c, Checked(n))
  {
    var t1, s1 := Moves(sys, t, s, c, Walking(n, n));
    var t2, s2 := LooksUp(sys, t1, s1, c, n, o);
    AtAt(s, c, Walking(n, n), Hopping(n, o));
    t', s' := Moves(sys, t2, s2, c, Checked(n));
    AtAt(s, c, Hopping(n, o), Checked(n));
  }

  lemma BothRequest(lib: Library, q: seq<Name>) returns (t: seq<Label>, s: State)
    requires LoadPath(lib, q) && |q| > 1 && AllDiffer(q) && Demands(lib, q[|q| - 1], q[0])
    requires forall i :: 0 <= i < |q| ==> Diverges(lib, q[i])
    ensures var u, v := q[|q| - 1], q[0];
      && Run(System(lib, Fine), t) == s && s.checkers.Keys == {0, 1} && u in s.entries && v in s.entries
      && s.checkers[0].phase == Requesting(u) && s.checkers[0].waitsFor.None?
      && s.checkers[1].phase == Requesting(v) && s.checkers[1].waitsFor.None?
      && s.entries[u].owner == Some(1) && !s.entries[u].ready && s.entries[v].owner == Some(0) && !s.entries[v].ready
  {
    var sys, u, v := System(lib, Fine), q[|q| - 1], q[0];
    var t0, s0 := Starts(sys, v, u);
    var t1, s1 := Ascends(sys, t0, s0, 1, u, v);
    assert u in [u];
    forall i | 0 <= i < |q| - 1 ensures q[i] !in s1.entries {
      if q[i] in s1.entries { SettledEnds(lib, q[i], s1.entries[q[i]]); }
    }
    t, s := Climbs(sys, t1, s1, 0, q);
    assert q[..|q| - 1][0] == v;
  }

  /** Any load cycle through two modules deadlocks two overlapping calls. */
  lemma {:induction false} EntangledDeadlocks(lib: Library) returns (t: seq<Label>, u: Name, v: Name)
    requires Entangled(lib)
    ensures var s := Run(System(lib, Fine), t);
      s.checkers.Keys == {0, 1} && Deadlocked(s, u, v) && !(exists d :: Enabled(s, d))
  {
    var sys := System(lib, Fine);
    var q := SimpleCycle(lib);
    u, v := q[|q| - 1], q[0];
    var t1, s1 := BothRequest(lib, q);
    var t2, s2 := PassesCheck(sys, t1, s1, 0, u, 1);
    var t3, s3 := PassesCheck(sys, t2, s2, 1, v, 0);
    var s4 := Takes(sys, t3, s3, 0, Quiet(s3.checkers[0].(waitsFor := Some(u), phase := Waiting(u))));
    var s5 := Takes(sys, t3 + [Go(0)], s4, 1, Quiet(s4.checkers[1].(waitsFor := Some(v), phase := Waiting(v))));
    t := t3 + [Go(0)] + [Go(1)];
    assert s5.entries == s1.entries;
    NobodySteps(s5, u, v);
  }

  lemma NobodySteps(s: State, u: Name, v: Name)
    requires s.checkers.Keys == {0, 1} && Deadlocked(s, u, v)
    ensures !(exists d :: Enabled(s, d))
  {
  }

  /* ---------- the endless walk ---------- */

  function Turn(c: Cid, n: nat): seq<Label> {
    if n == 0 then [] else Turn(c, n - 1) + [Go(c)]
  }

  /** A third call walks from one of them to the other. */
  ghost predicate Circles(s: State, u: Name, v: Name) {
    && s.checkers.Keys == {0, 1, 2} && Deadlocked(s, u, v)
    && s.checkers[2].phase in
         [Requesting(v), Walking(v, v), Hopping(v, 0), Walking(v, u), Hopping(v, 1)]
  }

  ghost predicate CirclesAfter(sys: System, t: seq<Label>, u: Name, v: Name) {
    Circles(Run(sys, t), u, v)
  }

  lemma CirclesOn(sys: System, s: State, u: Name, v: Name)
    requires sys.grain.Fine? && Circles(s, u, v)
    ensures Enabled(s, 2) && Circles(Step(sys, s, 2), u, v)
    ensures forall d :: Enabled(s, d) ==> d == 2
  {
  }

  lemma {:induction false} CirclesForever(sys: System, t: seq<Label>, n: nat, u: Name, v: Name)
    requires sys.grain.Fine? && CirclesAfter(sys, t, u, v)
    ensures CirclesAfter(sys, t + Turn(2, n), u, v)
  {
    if n == 0 {
      assert t + Turn(2, 0) == t;
    } else {
      CirclesForever(sys, t, n - 1, u, v);
      OneRound(sys, t + Turn(2, n - 1), u, v);
      TurnOn(t, n);
    }
  }

  lemma TurnOn(t: seq<Label>, n: nat)
    requires n > 0
    ensures t + Turn(2, n) == (t + Turn(2, n - 1)) + [Go(2)]
  {
  }

  lemma OneRound(sys: System, t: seq<Label>, u: Name, v: Name)
    requires sys.grain.Fine? && CirclesAfter(sys, t, u, v)
    ensures CirclesAfter(sys, t + [Go(2)], u, v)
  {
    Then(sys, t, Go(2));
    CirclesOn(sys, Run(sys, t), u, v);
  }

  /** Around such a deadlock the check of a third call never comes to an end: however many steps it takes, it is all that can step. */
  lemma {:induction false} EndlessWalk(lib: Library) returns (t: seq<Label>)
    requires Entangled(lib)
    ensures forall n: nat :: var s := Run(System(lib, Fine), t + Turn(2, n));
      2 in s.checkers && !s.checkers[2].phase.Complete? && forall d :: Enabled(s, d) <==> d == 2
  {
    var sys := System(lib, Fine);
    var t0, u, v := EntangledDeadlocks(lib);
    t := t0 + [Spawn(2, v)];
    Then(sys, t0, Spawn(2, v));
    assert CirclesAfter(sys, t, u, v);
    forall n: nat
      ensures var s := Run(sys, t + Turn(2, n));
        2 in s.checkers && !s.checkers[2].phase.Complete? && forall d :: Enabled(s, d) <==> d == 2
    {
      CirclesForever(sys, t, n, u, v);
      CirclesOn(sys, Run(sys, t + Turn(2, n)), u, v);
    }
  }

  /* ---------- how many calls may overlap ---------- */

  function Unfinished(s: State): set<Cid> {
    set c | c in s.checkers && !s.checkers[c].phase.Complete?
  }

  /** At most `n` calls are under way at any time. */
  ghost predicate Overlap(sys: System, schedule: seq<Label>, n: nat) {
    && |Unfinished(Run(sys, schedule))| <= n
    && (schedule != [] ==> Overlap(sys, schedule[..|schedule| - 1], n))
  }

  ghost predicate Good(lib: Library, s: State) {
    && (forall r :: r in s.results ==> ResultTrue(lib, r, true))
    && (Unfinished(s) != {} ==> exists d :: Enabled(s, d))
  }

  ghost predicate SafeFor(lib: Library, n: nat) {
    forall schedule :: Overlap(System(lib, Fine), schedule, n) ==> Good(lib, Run(System(lib, Fine), schedule))
  }

  lemma {:induction false} OneAtATimeIsSerial(sys: System, schedule: seq<Label>)
    requires Overlap(sys, schedule, 1)
    ensures Serial(sys, schedule)
  {
    if schedule != [] {
      var before, l := Run(sys, schedule[..|schedule| - 1]), schedule[|schedule| - 1];
      OneAtATimeIsSerial(sys, schedule[..|schedule| - 1]);
      if l.Spawn? && l.c !in before.checkers {
        assert Unfinished(Run(sys, schedule)) == Unfinished(before) + {l.c};
        forall c | c in before.checkers ensures before.checkers[c].phase.Complete? {
          if !before.checkers[c].phase.Complete? {
            SubsetCardinality({c, l.c}, Unfinished(Run(sys, schedule)));
          }
        }
      }
    }
  }

  lemma {:induction false} SubsetCardinality(a: set<Cid>, b: set<Cid>)
    requires a <= b
    ensures |a| <= |b|
    decreases |a|
  {
    if x :| x in a { SubsetCardinality(a - {x}, b - {x}); }
  }

  lemma {:induction false} FewCheckersOverlapLittle(sys: System, schedule: seq<Label>, all: set<Cid>, n: nat)
    requires Run(sys, schedule).checkers.Keys <= all && |all| <= n
    ensures Overlap(sys, schedule, n)
  {
    SubsetCardinality(Unfinished(Run(sys, schedule)), all);
    if schedule != [] {
      var before := schedule[..|schedule| - 1];
      assert Run(sys, before).checkers.Keys <= Run(sys, schedule).checkers.Keys;
      FewCheckersOverlapLittle(sys, before, all, n);
    }
  }

  lemma {:induction false} SerialIsGood(lib: Library, schedule: seq<Label>)
    requires Serial(System(lib, Fine), schedule)
    ensures Good(lib, Run(System(lib, Fine), schedule))
  {
    SerialRun(System(lib, Fine), schedule);
    var s := Run(System(lib, Fine), schedule);
    if c :| c in Unfinished(s) {
      NeverBlocks(System(lib, Fine), schedule, c);
    }
  }

  /** Two modules that load each other. */
  const PAIR: Library := map["a" := Module(["b"], _ => Yields(map[])), "b" := Module(["a"], _ => Yields(map[]))]

  /**
    The separate, unlocked steps of the check and the wait keep the cache correct and
    live for every library exactly when at most one call is under way at a time.
   */
  lemma {:induction false} OverlapLimit(n: nat)
    ensures (forall lib: Library :: SafeFor(lib, n)) <==> n <= 1
  {
    if n <= 1 {
      forall lib: Library, schedule | Overlap(System(lib, Fine), schedule, n)
        ensures Good(lib, Run(System(lib, Fine), schedule))
      {
        SmallerOverlap(System(lib, Fine), schedule, n);
        OneAtATimeIsSerial(System(lib, Fine), schedule);
        SerialIsGood(lib, schedule);
      }
    } else {
      PairIsEntangled();
      var t, u, v := EntangledDeadlocks(PAIR);
      FewCheckersOverlapLittle(System(PAIR, Fine), t, {0, 1}, n);
      assert 0 in Unfinished(Run(System(PAIR, Fine), t));
      assert !Good(PAIR, Run(System(PAIR, Fine), t));
      assert !SafeFor(PAIR, n);
    }
  }

  lemma {:induction false} SmallerOverlap(sys: System, schedule: seq<Label>, n: nat)
    requires Overlap(sys, schedule, n) && n <= 1
    ensures Overlap(sys, schedule, 1)
  {
    if schedule != [] { SmallerOverlap(sys, schedule[..|schedule| - 1], n); }
  }

  lemma PairIsEntangled()
    ensures Entangled(PAIR)
  {
    var none: seq<Globals> := [];
    assert Wants(PAIR, Frame("a", none), "b") && Wants(PAIR, Frame("b", none), "a");
    var p := ["a", "b", "a"];
    assert LoadCycle(PAIR, p) && p[1] != p[0];
  }

  ghost predicate Live(s: State) {
    Unfinished(s) != {} ==> exists d :: Enabled(s, d)
  }

  /**
    For any given library and any number of calls from two on: as the code has it the
    calls can never get stuck, if and only if no load cycle passes through two modules.
   */
  lemma {:induction false} LiveExactly(lib: Library, n: nat)
    requires n >= 2
    ensures (forall t :: Overlap(System(lib, Fine), t, n) ==> Live(Run(System(lib, Fine), t))) <==> !Entangled(lib)
  {
    var sys := System(lib, Fine);
    if Entangled(lib) {
      var t, u, v := EntangledDeadlocks(lib);
      FewCheckersOverlapLittle(sys, t, {0, 1}, n);
      assert 0 in Unfinished(Run(sys, t));
      assert !Live(Run(sys, t));
    } else {
      forall t ensures Live(Run(sys, t)) {
        if c :| c in Unfinished(Run(sys, t)) { NeverStuckUnlessEntangled(sys, t, c); }
      }
    }
  }
}
