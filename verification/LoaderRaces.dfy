/**
  Schedules of the fine grain, step by step, and one that breaks a promise: with two
  overlapping calls, on a library without any cycle, one can be told that there is one.
 */
module LoaderRaces {
  import opened Basics
  import opened LoadGraph
  import opened LoaderProtocol
  import opened LoaderSoundness

  /** `s` with checker `c` at another phase. */
  function At(s: State, c: Cid, p: Phase): State
    requires c in s.checkers
  {
    s.(checkers := s.checkers[c := s.checkers[c].(phase := p)])
  }

  lemma Takes(sys: System, t: seq<Label>, s: State, c: Cid, ef: Effect) returns (s': State)
    requires Run(sys, t) == s && Enabled(s, c) && Move(sys, s, c) == ef
    ensures Run(sys, t + [Go(c)]) == s' == Apply(s, c, ef)
  {
    Then(sys, t, Go(c));
    s' := Apply(s, c, ef);
  }

  /** One step of `c` that only moves it to phase `p`. */
  lemma Moves(sys: System, t: seq<Label>, s: State, c: Cid, p: Phase) returns (t': seq<Label>, s': State)
    requires Run(sys, t) == s && Enabled(s, c)
    requires Move(sys, s, c) == Quiet(s.checkers[c].(phase := p))
    ensures Run(sys, t') == s' == At(s, c, p)
  {
    Then(sys, t, Go(c));
    t', s' := t + [Go(c)], At(s, c, p);
  }

  lemma AtAt(s: State, c: Cid, p: Phase, q: Phase)
    requires c in s.checkers
    ensures At(At(s, c, p), c, q) == At(s, c, q)
  {
    assert At(At(s, c, p), c, q).checkers == At(s, c, q).checkers;
  }

  /** `s` with checker `c` and entry `n` replaced. */
  function Put(s: State, c: Cid, ch: Checker, n: Name, e: Entry): State {
    s.(entries := s.entries[n := e], checkers := s.checkers[c := ch])
  }

  lemma PutPut(s: State, c: Cid, ch: Checker, n: Name, e: Entry, ch': Checker, e': Entry)
    ensures Put(Put(s, c, ch, n, e), c, ch', n, e') == Put(s, c, ch', n, e')
  {
    assert s.entries[n := e][n := e'] == s.entries[n := e'];
    assert s.checkers[c := ch][c := ch'] == s.checkers[c := ch'];
  }

  /** A first request for `n` inserts it, takes its ownership and starts its code. */
  lemma Owns(sys: System, t: seq<Label>, s: State, c: Cid, n: Name) returns (t': seq<Label>, s': State)
    requires Run(sys, t) == s
    requires c in s.checkers && s.checkers[c].phase == Requesting(n) && n !in s.entries
    ensures var ch := s.checkers[c];
      Run(sys, t') == s' ==
      State(s.entries[n := Entry(c, Some(c), None, false)],
            s.checkers[c := ch.(stack := ch.stack + [Frame(n, [])], phase := Executing)],
            s.starts + multiset{n}, s.closes, s.results)
  {
    var ch := s.checkers[c];
    var pushed := ch.(stack := ch.stack + [Frame(n, [])]);
    var s1 := Takes(sys, t, s, c, Write(pushed.(phase := Inserted), n, Entry(c, None, None, false)));
    s' := Takes(sys, t + [Go(c)], s1, c, Write(pushed.(phase := Executing), n, Entry(c, Some(c), None, false)).(start := true));
    t' := t + [Go(c)] + [Go(c)];
    assert s'.entries == s.entries[n := s'.entries[n]];
    assert s'.checkers == s.checkers[c := s'.checkers[c]];
  }

  /** The code of `c` asks for `n`, which `o` owns, and `c` looks up the owner. */
  lemma Hops(sys: System, t: seq<Label>, s: State, c: Cid, n: Name, o: Cid) returns (t': seq<Label>, s': State)
    requires Run(sys, t) == s
    requires sys.grain.Fine? && c in s.checkers && |s.checkers[c].stack| > 0
    requires s.checkers[c].phase == Executing && Top(s.checkers[c]).name in s.entries
    requires RunCode(sys.lib, Top(s.checkers[c])) == Requesting(n)
    requires n in s.entries && s.entries[n].owner == Some(o) && o != c && o in s.checkers
    ensures Run(sys, t') == s' == At(s, c, Hopping(n, o))
  {
    var t1, s1 := Moves(sys, t, s, c, Requesting(n));
    var t2, s2 := Moves(sys, t1, s1, c, Walking(n, n));
    AtAt(s, c, Requesting(n), Walking(n, n));
    t', s' := LooksUp(sys, t2, s2, c, n, o);
    AtAt(s, c, Walking(n, n), Hopping(n, o));
  }

  lemma LooksUp(sys: System, t: seq<Label>, s: State, c: Cid, n: Name, o: Cid) returns (t': seq<Label>, s': State)
    requires Run(sys, t) == s
    requires c in s.checkers && s.checkers[c].phase == Walking(n, n)
    requires n in s.entries && s.entries[n].owner == Some(o) && o != c && o in s.checkers
    ensures Run(sys, t') == s' == At(s, c, Hopping(n, o))
  {
    t', s' := Moves(sys, t, s, c, Hopping(n, o));
  }

  /** The top module of `c` is done; its result is stored, its owner cleared, its channel closed. */
  lemma Publishes(sys: System, t: seq<Label>, s: State, c: Cid, n: Name, o: Outcome) returns (t': seq<Label>, s': State)
    requires Run(sys, t) == s && c in s.checkers && |s.checkers[c].stack| > 0
    requires s.checkers[c].phase == Finished(o) && Top(s.checkers[c]).name == n && n in s.entries
    ensures var ch := s.checkers[c];
      Run(sys, t') == s' ==
      State(s.entries[n := s.entries[n].(outcome := Some(o), owner := None, ready := true)],
            s.checkers[c := ch.(stack := ch.stack[..|ch.stack| - 1], phase := Returning(n, o))],
            s.starts, s.closes + multiset{n}, s.results + [(n, o)])
  {
    var ch, e := s.checkers[c], s.entries[n];
    var t2, s2 := Stores(sys, t, s, c, n, o);
    var popped := ch.(stack := ch.stack[..|ch.stack| - 1]);
    var e3 := e.(outcome := Some(o), owner := None, ready := true);
    s' := Takes(sys, t2, s2, c, Return(popped, n, o).(entry := Some((n, e3)), close := true));
    t' := t2 + [Go(c)];
    PutPut(s, c, ch.(phase := Released), n, e.(outcome := Some(o), owner := None), popped.(phase := Returning(n, o)), e3);
  }

  /** The first two of these steps. */
  lemma Stores(sys: System, t: seq<Label>, s: State, c: Cid, n: Name, o: Outcome) returns (t': seq<Label>, s': State)
    requires Run(sys, t) == s && c in s.checkers && |s.checkers[c].stack| > 0
    requires s.checkers[c].phase == Finished(o) && Top(s.checkers[c]).name == n && n in s.entries
    ensures Run(sys, t') == s' ==
      Put(s, c, s.checkers[c].(phase := Released), n, s.entries[n].(outcome := Some(o), owner := None))
  {
    var ch, e := s.checkers[c], s.entries[n];
    var e1, e2 := e.(outcome := Some(o)), e.(outcome := Some(o), owner := None);
    var s1 := Takes(sys, t, s, c, Write(ch.(phase := Stored), n, e1));
    assert s1 == Put(s, c, ch.(phase := Stored), n, e1);
    s' := Takes(sys, t + [Go(c)], s1, c, Write(ch.(phase := Released), n, e2));
    t' := t + [Go(c)] + [Go(c)];
    PutPut(s, c, ch.(phase := Stored), n, e1, ch.(phase := Released), e2);
  }

  lemma Starts(sys: System, x: Name, y: Name) returns (t: seq<Label>, s: State)
    ensures Run(sys, t) == s
    ensures s == State(map[], map[0 := Checker([], Requesting(x), None), 1 := Checker([], Requesting(y), None)],
                       multiset{}, multiset{}, [])
  {
    Then(sys, [], Spawn(0, x));
    Then(sys, [] + [Spawn(0, x)], Spawn(1, y));
    t := [] + [Spawn(0, x)] + [Spawn(1, y)];
    s := Run(sys, t);
  }

  /** Two calls have started, and the first runs the code of its module. */
  lemma FirstOwns(lib: Library, q: Name, m: Name) returns (t: seq<Label>, s: State)
    ensures Run(System(lib, Fine), t) == s
    ensures s.entries.Keys == {q} && s.entries[q] == Entry(0, Some(0), None, false)
    ensures s.checkers.Keys == {0, 1} && s.checkers[1] == Checker([], Requesting(m), None)
    ensures s.checkers[0] == Checker([Frame(q, [])], Executing, None)
  {
    var sys := System(lib, Fine);
    t, s := Starts(sys, q, m);
    t, s := Owns(sys, t, s, 0, q);
    assert s.checkers[0].stack == [Frame(q, [])];
  }

  /** `q` loads `e` and then `m`; `m` loads `e`; `e` loads nothing: no cycle anywhere. */
  predicate Diamond(lib: Library, q: Name, m: Name, e: Name, g: Globals) {
    && q != m && m != e && q != e
    && RunCode(lib, Frame(q, [])) == Requesting(e)
    && RunCode(lib, Frame(q, [g])) == Requesting(m)
    && RunCode(lib, Frame(m, [])) == Requesting(e)
    && RunCode(lib, Frame(e, [])) == Finished(Loaded(g))
  }

  /** Checker 0 runs `e` for `q`. */
  lemma LoadsThrough(lib: Library, q: Name, m: Name, e: Name, g: Globals) returns (t: seq<Label>, s: State)
    requires Diamond(lib, q, m, e, g)
    ensures Run(System(lib, Fine), t) == s
    ensures s.entries.Keys == {q, e}
    ensures s.entries[q] == Entry(0, Some(0), None, false) && s.entries[e] == Entry(0, Some(0), None, false)
    ensures s.checkers.Keys == {0, 1} && s.checkers[1] == Checker([], Requesting(m), None)
    ensures s.checkers[0] == Checker([Frame(q, []), Frame(e, [])], Executing, None)
  {
    var sys := System(lib, Fine);
    t, s := FirstOwns(lib, q, m);
    t, s := Moves(sys, t, s, 0, Requesting(e));
    t, s := Owns(sys, t, s, 0, e);
    assert s.checkers[0].stack == [Frame(q, []), Frame(e, [])];
  }

  /** Checker 1 asks for `e` while 0 runs it. */
  lemma SeesOwner(lib: Library, q: Name, m: Name, e: Name, g: Globals) returns (t: seq<Label>, s: State)
    requires Diamond(lib, q, m, e, g)
    ensures Run(System(lib, Fine), t) == s
    ensures s.entries.Keys == {q, e, m} && s.entries[q].owner == Some(0) && s.entries[m].owner == Some(1)
    ensures s.checkers.Keys == {0, 1} && s.checkers[1] == Checker([Frame(m, [])], Hopping(e, 0), None)
    ensures s.checkers[0] == Checker([Frame(q, []), Frame(e, [])], Executing, None)
  {
    var sys := System(lib, Fine);
    t, s := LoadsThrough(lib, q, m, e, g);
    t, s := Owns(sys, t, s, 1, m);
    assert s.checkers[1].stack == [Frame(m, [])];
    t, s := Hops(sys, t, s, 1, e, 0);
  }

  /** Checker 1 has seen that 0 owns `e`, which 0 has since finished. */
  lemma SeesStaleOwner(lib: Library, q: Name, m: Name, e: Name, g: Globals) returns (t: seq<Label>, s: State)
    requires Diamond(lib, q, m, e, g)
    ensures Run(System(lib, Fine), t) == s
    ensures s.entries.Keys == {q, e, m} && s.entries[q].owner == Some(0) && s.entries[m].owner == Some(1)
    ensures s.checkers.Keys == {0, 1} && s.checkers[1] == Checker([Frame(m, [])], Hopping(e, 0), None)
    ensures s.checkers[0] == Checker([Frame(q, [])], Returning(e, Loaded(g)), None)
  {
    var sys := System(lib, Fine);
    t, s := SeesOwner(lib, q, m, e, g);
    t, s := Moves(sys, t, s, 0, Finished(Loaded(g)));
    t, s := Publishes(sys, t, s, 0, e, Loaded(g));
    assert s.checkers[0].stack == [Frame(q, [])];
  }

  /** Checker 0 goes on with `q`. */
  lemma GoesOn(lib: Library, q: Name, m: Name, e: Name, g: Globals) returns (t: seq<Label>, s: State)
    requires Diamond(lib, q, m, e, g)
    ensures Run(System(lib, Fine), t) == s
    ensures q in s.entries && m in s.entries && s.entries[m].owner == Some(1)
    ensures s.checkers.Keys == {0, 1} && s.checkers[1] == Checker([Frame(m, [])], Hopping(e, 0), None)
    ensures s.checkers[0] == Checker([Frame(q, [g])], Executing, None)
  {
    t, s := SeesStaleOwner(lib, q, m, e, g);
    var loaded := Checker([Frame(q, [g])], Executing, None);
    var none: seq<Globals> := [];
    assert none + [g] == [g];
    assert s.checkers[0].stack[0 := Frame(q, none + [g])] == loaded.stack;
    s := Takes(System(lib, Fine), t, s, 0, Quiet(loaded));
    t := t + [Go(0)];
  }

  /** Checker 0 waits for `m`, which 1 owns. */
  lemma WaitsForM(lib: Library, q: Name, m: Name, e: Name, g: Globals) returns (t: seq<Label>, s: State)
    requires Diamond(lib, q, m, e, g)
    ensures Run(System(lib, Fine), t) == s
    ensures m in s.entries && s.entries[m].owner == Some(1)
    ensures s.checkers.Keys == {0, 1} && s.checkers[1] == Checker([Frame(m, [])], Hopping(e, 0), None)
    ensures s.checkers[0].waitsFor == Some(m)
  {
    var sys := System(lib, Fine);
    t, s := GoesOn(lib, q, m, e, g);
    t, s := Hops(sys, t, s, 0, m, 1);
    t, s := Moves(sys, t, s, 0, Checked(m));
    s := Takes(sys, t, s, 0, Quiet(Checker([Frame(q, [g])], Waiting(m), Some(m))));
    t := t + [Go(0)];
  }

  /**
    Whenever a library has a diamond of loads, two overlapping loads can report a cycle
    for a module that loads nothing and that the evaluator accepts.
   */
  lemma {:induction false} OverlappingLoadsFalseAlarm(lib: Library, q: Name, m: Name, e: Name, g: Globals)
    returns (t: seq<Label>)
    requires Diamond(lib, q, m, e, g)
    ensures (e, ALARM) in Run(System(lib, Fine), t).results
    ensures Evaluates(lib, e, Loaded(g))
  {
    var sys := System(lib, Fine);
    var s;
    t, s := WaitsForM(lib, q, m, e, g);
    t, s := Moves(sys, t, s, 1, Walking(e, m));
    s := Takes(sys, t, s, 1, Return(s.checkers[1], e, ALARM));
    t := t + [Go(1)];
    assert Eval(lib, 1, e) == Some(Loaded(g));
  }

  /** Such a library. */
  const DIAMOND: Library :=
    map["q" := Module(["e", "m"], _ => Yields(map[])), "m" := Module(["e"], _ => Yields(map[])), "e" := Module([], _ => Yields(map[]))]

  lemma {:induction false} FalseAlarmsHappen() returns (t: seq<Label>)
    ensures ("e", ALARM) in Run(System(DIAMOND, Fine), t).results && Evaluates(DIAMOND, "e", Loaded(map[]))
  {
    assert Diamond(DIAMOND, "q", "m", "e", map[]);
    t := OverlappingLoadsFalseAlarm(DIAMOND, "q", "m", "e", map[]);
  }
}
