/**
  Overlapping calls on a library whose loads form trees: every module is loaded by at most
  one other. There the cycle check raises no false alarm, stale as its reads may be, so
  every answer is right in the code's own grain, for any number of calls.

  The check asks for an entry, finds its owner, and follows the owner to what that waits
  for. Meanwhile the owner moves on. But it cannot get out of the tree below the entry
  asked for without a return to the one module that loads this entry, and that module is
  on the checker's own stack.
 */
module LoaderTrees {
  import opened Basics
  import opened LoadGraph
  import opened LoaderProtocol
  import opened LoaderSoundness
  import opened LoaderOverlap

  ghost predicate Treelike(lib: Library) {
    forall u, v, w :: Demands(lib, u, w) && Demands(lib, v, w) ==> u == v
  }

  /** `m` is `n` or is loaded from it, directly or not. */
  ghost predicate Below(lib: Library, n: Name, m: Name) {
    exists p :: PathTo(lib, p, n, m)
  }

  lemma BelowItself(lib: Library, n: Name)
    ensures Below(lib, n, n)
  {
    assert PathTo(lib, [n], n, n);
  }

  lemma BelowDown(lib: Library, n: Name, m: Name, k: Name)
    requires Below(lib, n, m) && Demands(lib, m, k)
    ensures Below(lib, n, k)
  {
    var p :| PathTo(lib, p, n, m);
    JoinPaths(lib, p, [k]);
    assert PathTo(lib, p + [k], n, k);
  }

  /** In a tree the way up from `m` leads to the only module that loads it. */
  lemma BelowUp(lib: Library, n: Name, m: Name, k: Name)
    requires Treelike(lib) && Below(lib, n, m) && n != m && Demands(lib, k, m)
    ensures Below(lib, n, k)
  {
    var p :| PathTo(lib, p, n, m);
    SubPath(lib, p, 0, |p| - 1);
    assert Demands(lib, p[|p| - 2], p[|p| - 2 + 1]);
    assert PathTo(lib, p[0..|p| - 1], n, k);
  }

  lemma {:induction false} BelowTop(lib: Library, stack: seq<Frame>, i: nat, n: Name)
    requires LoadStack(lib, stack) && i < |stack| && Below(lib, n, stack[i].name)
    ensures Below(lib, n, stack[|stack| - 1].name)
    decreases |stack| - i
  {
    if i < |stack| - 1 {
      WantsIsDemands(lib, stack[i], stack[i + 1].name);
      BelowDown(lib, n, stack[i].name, stack[i + 1].name);
      BelowTop(lib, stack, i + 1, n);
    }
  }

  lemma BelowAndBack(lib: Library, n: Name, m: Name)
    requires Below(lib, n, m) && Demands(lib, m, n)
    ensures OnCycle(lib, n)
  {
    var p :| PathTo(lib, p, n, m);
    JoinPaths(lib, p, [n]);
    assert LoadCycle(lib, p + [n]);
  }

  /** The checker is done, or executes something below `n`. */
  ghost predicate Within(lib: Library, n: Name, ch: Checker) {
    if ch.stack == [] then ch.phase.Returning? || ch.phase.Complete?
    else exists i :: 0 <= i < |ch.stack| && Below(lib, n, ch.stack[i].name)
  }

  lemma WithinTop(lib: Library, n: Name, ch: Checker)
    requires LoadStack(lib, ch.stack) && ch.stack != [] && Within(lib, n, ch)
    ensures Below(lib, n, Top(ch).name)
  {
    var i :| 0 <= i < |ch.stack| && Below(lib, n, ch.stack[i].name);
    BelowTop(lib, ch.stack, i, n);
  }

  /** Where a check has got to is below the entry it started from. */
  ghost predicate Descends(lib: Library, s: State, c: Cid)
    requires c in s.checkers
  {
    var ch := s.checkers[c];
    ch.stack != [] ==>
      && (ch.phase.Walking? ==> Below(lib, ch.phase.name, ch.phase.at))
      && (ch.phase.Hopping? ==> ch.phase.via in s.checkers && Within(lib, ch.phase.name, s.checkers[ch.phase.via]))
  }

  ghost predicate AllDescend(lib: Library, s: State) {
    forall c :: c in s.checkers ==> Descends(lib, s, c)
  }

  /** The checker's own step of a walk. */
  lemma WalkDescends(sys: System, s: State, c: Cid)
    requires Structure(s) && OnPaths(sys.lib, s) && Enabled(s, c) && Descends(sys.lib, s, c)
    ensures Descends(sys.lib, Step(sys, s, c), c)
    ensures HonestAlarm(sys, s, c)
  {
    var ch := s.checkers[c];
    match ch.phase
    case Requesting(n) =>
      BelowItself(sys.lib, n);
      LooksDescend(sys, s, c);
    case Walking(n, at) =>
      if ch.stack != [] && s.entries[at].owner.Some? { FindsOwner(sys.lib, s, c, n, at); } else { NotOwned(s, c, at); }
      LooksDescend(sys, s, c);
    case Hopping(n, via) =>
      if ch.stack != [] && s.checkers[via].waitsFor.Some? { FindsWait(sys.lib, s, n, via); }
      LooksDescend(sys, s, c);
    case Found(n) => ReachedIsHonest(sys, s, c);
    case _ =>
  }

  /** One look of the check, from what it finds. */
  lemma LooksDescend(sys: System, s: State, c: Cid)
    requires Enabled(s, c)
    requires var ch := s.checkers[c];
      match ch.phase
      case Requesting(n) => Below(sys.lib, n, n)
      case Walking(n, at) =>
        (match s.entries[at].owner
         case None => true
         case Some(o) =>
           if o == c then OnCycle(sys.lib, n) else ch.stack != [] ==> o in s.checkers && Within(sys.lib, n, s.checkers[o]))
      case Hopping(n, via) => ch.stack != [] && s.checkers[via].waitsFor.Some? ==> Below(sys.lib, n, s.checkers[via].waitsFor.value)
      case _ => false
    ensures Descends(sys.lib, Step(sys, s, c), c)
    ensures HonestAlarm(sys, s, c)
  {
  }

  lemma NotOwned(s: State, c: Cid, n: Name)
    requires Structure(s) && c in s.checkers && n in s.entries && (s.checkers[c].stack == [] || s.entries[n].owner.None?)
    ensures s.entries[n].owner != Some(c)
  {
    if s.entries[n].owner.Some? {
      OwnersExist(s, n);
      var i := LoadingEntry(s, n);
    }
  }

  lemma FindsOwner(lib: Library, s: State, c: Cid, n: Name, at: Name)
    requires Structure(s) && OnPaths(lib, s) && c in s.checkers && s.checkers[c].phase == Walking(n, at) && s.checkers[c].stack != []
    requires at in s.entries && s.entries[at].owner.Some? && Below(lib, n, at)
    ensures var o := s.entries[at].owner.value;
      o in s.checkers && Within(lib, n, s.checkers[o]) && (o == c ==> OnCycle(lib, n))
  {
    OwnersExist(s, at);
    var i := LoadingEntry(s, at);
    var o := s.entries[at].creator;
    if o == c {
      assert OnLoadPath(lib, s.checkers[c]);
      ClosesCycle(lib, s.checkers[c], i, n);
    }
  }

  lemma ClosesCycle(lib: Library, ch: Checker, i: nat, n: Name)
    requires LoadStack(lib, ch.stack) && i < |ch.stack| && Asks(lib, ch.stack, n) && Below(lib, n, ch.stack[i].name)
    ensures OnCycle(lib, n)
  {
    BelowTop(lib, ch.stack, i, n);
    WantsIsDemands(lib, Top(ch), n);
    BelowAndBack(lib, n, Top(ch).name);
  }

  lemma FindsWait(lib: Library, s: State, n: Name, o: Cid)
    requires Structure(s) && OnPaths(lib, s) && o in s.checkers && s.checkers[o].waitsFor.Some? && Within(lib, n, s.checkers[o])
    ensures Below(lib, n, s.checkers[o].waitsFor.value)
  {
    var ch := s.checkers[o];
    assert PhaseOk(s, o) && OnLoadPath(lib, ch);
    WithinTop(lib, n, ch);
    WaiterDemands(lib, s, o);
    BelowDown(lib, n, Top(ch).name, ch.waitsFor.value);
  }

  /** What another checker has found stays true of checker `o` while that moves on. */
  lemma StaysWithin(sys: System, s: State, o: Cid, c: Cid, n: Name)
    requires Treelike(sys.lib) && Structure(s) && OnPaths(sys.lib, s) && Enabled(s, o)
    requires c in s.checkers && c != o && s.checkers[c].stack != [] && Demands(sys.lib, Top(s.checkers[c]).name, n)
    requires Within(sys.lib, n, s.checkers[o])
    ensures Within(sys.lib, n, Move(sys, s, o).checker)
  {
    var ch := s.checkers[o];
    assert FramesOwned(s, o) && PhaseOk(s, o) && OnLoadPath(sys.lib, ch);
    if ch.phase.Released? {
      WithinTop(sys.lib, n, ch);
      if |ch.stack| > 1 { PopsInto(sys.lib, s, o, c, n); }
    }
    MoveWithin(sys, s, o, n);
  }

  lemma MoveWithin(sys: System, s: State, o: Cid, n: Name)
    requires Enabled(s, o) && FramesOwned(s, o) && PhaseOk(s, o) && Within(sys.lib, n, s.checkers[o])
    requires var ch := s.checkers[o];
      ch.phase.Released? && |ch.stack| > 1 ==> Below(sys.lib, n, ch.stack[|ch.stack| - 2].name)
    ensures Within(sys.lib, n, Move(sys, s, o).checker)
  {
    var ch, ch' := s.checkers[o], Move(sys, s, o).checker;
    if ch.phase.Released? {
      if |ch.stack| > 1 { assert ch'.stack[|ch.stack| - 2] == ch.stack[|ch.stack| - 2]; }
    } else if ch.stack != [] {
      MoveIsLocal(sys, s, o);
      SameNamesWithin(sys.lib, n, ch, ch');
    }
  }

  lemma SameNamesWithin(lib: Library, n: Name, ch: Checker, ch': Checker)
    requires ch.stack != [] && Within(lib, n, ch) && |ch.stack| <= |ch'.stack|
    requires SameNames(ch.stack, ch'.stack[..|ch.stack|])
    ensures Within(lib, n, ch')
  {
    var i :| 0 <= i < |ch.stack| && Below(lib, n, ch.stack[i].name);
    assert ch'.stack[..|ch.stack|][i] == ch'.stack[i];
  }

  /** The module under the top of the stack is below `n` as well, unless `c` itself executes it. */
  lemma PopsInto(lib: Library, s: State, o: Cid, c: Cid, n: Name)
    requires Treelike(lib) && Structure(s) && o in s.checkers && OnLoadPath(lib, s.checkers[o]) && |s.checkers[o].stack| > 1
    requires c in s.checkers && c != o && s.checkers[c].stack != [] && Demands(lib, Top(s.checkers[c]).name, n)
    requires Below(lib, n, Top(s.checkers[o]).name)
    ensures Below(lib, n, s.checkers[o].stack[|s.checkers[o].stack| - 2].name)
  {
    var stack := s.checkers[o].stack;
    var under, top := stack[|stack| - 2], stack[|stack| - 1];
    assert Wants(lib, under, stack[|stack| - 2 + 1].name);
    WantsIsDemands(lib, under, top.name);
    assert FramesOwned(s, o) && FramesOwned(s, c);
    assert s.entries[under.name].creator == o && s.entries[Top(s.checkers[c]).name].creator == c;
    BelowUp(lib, n, top.name, under.name);
  }

  lemma StepDescends(sys: System, s: State, d: Cid, c: Cid)
    requires Treelike(sys.lib) && Structure(s) && OnPaths(sys.lib, s) && AllDescend(sys.lib, s)
    requires Enabled(s, d) && c in s.checkers
    ensures Descends(sys.lib, Step(sys, s, d), c)
  {
    assert Descends(sys.lib, s, c);
    var ch := s.checkers[c];
    if c == d {
      WalkDescends(sys, s, c);
    } else if ch.phase.Hopping? && ch.phase.via == d && ch.stack != [] {
      assert OnLoadPath(sys.lib, ch);
      WantsIsDemands(sys.lib, Top(ch), ch.phase.name);
      StaysWithin(sys, s, d, c, ch.phase.name);
    }
  }

  ghost predicate RightSoFar(lib: Library, s: State) {
    Structure(s) && Sound(lib, s, true) && AllDescend(lib, s)
  }

  lemma StepKeepsRight(sys: System, s: State, d: Cid)
    requires Treelike(sys.lib) && RightSoFar(sys.lib, s) && Enabled(s, d)
    ensures Sound(sys.lib, Step(sys, s, d), true) && AllDescend(sys.lib, Step(sys, s, d))
  {
    assert AllDescend(sys.lib, Step(sys, s, d)) by {
      forall c | c in Step(sys, s, d).checkers ensures Descends(sys.lib, Step(sys, s, d), c) { StepDescends(sys, s, d, c); }
    }
    assert Descends(sys.lib, s, d);
    WalkDescends(sys, s, d);
    StepKeepsSound(sys, s, d, true);
  }

  lemma DoKeepsRight(sys: System, s: State, l: Label)
    requires Treelike(sys.lib) && RightSoFar(sys.lib, s)
    ensures RightSoFar(sys.lib, Do(sys, s, l))
  {
    DoKeepsStructure(sys, s, l);
    match l
    case Go(d) => if Enabled(s, d) { StepKeepsRight(sys, s, d); }
    case Spawn(c, n) => SpawnKeepsSound(sys, s, c, n, true);
  }

  lemma {:induction false} RunIsRight(sys: System, schedule: seq<Label>)
    requires Treelike(sys.lib)
    ensures RightSoFar(sys.lib, Run(sys, schedule))
  {
    if schedule != [] {
      RunIsRight(sys, schedule[..|schedule| - 1]);
      DoKeepsRight(sys, Run(sys, schedule[..|schedule| - 1]), schedule[|schedule| - 1]);
    }
  }

  /**
    Where no module is loaded by two others, every `get` of every overlapping call returns
    what the evaluator does, or reports a cycle that is there.
   */
  lemma {:induction false} TreesAreCorrect(sys: System, schedule: seq<Label>, r: (Name, Outcome))
    requires Treelike(sys.lib) && r in Run(sys, schedule).results
    ensures forall o :: Evaluates(sys.lib, r.0, o) ==> r.1 == o
    ensures CycleRooted(r.1) <==> Diverges(sys.lib, r.0)
    ensures r.1 == ALARM ==> OnCycle(sys.lib, r.0)
  {
    RunIsRight(sys, schedule);
    assert ResultTrue(sys.lib, r, true);
    CorrectIsDecisive(sys.lib, r.0, r.1);
  }
}
