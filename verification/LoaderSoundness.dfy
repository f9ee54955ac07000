/**
  What concurrent loading answers, and that it always answers.

  With the cycle check fused with the wait (`Fused`), or with calls that do not
  overlap (either grain), every result any `get` returns is the cache-free
  evaluator's, a cycle is reported exactly for the modules that evaluator never
  finishes, and no state is stuck.

  The flag `honest` says whether alarms are raised for real cycles only. Without that,
  what holds of answers holds of all but the cycle reports.
 */
module LoaderSoundness {
  import opened Basics
  import opened LoadGraph
  import opened WaitsForGraph
  import opened LoaderProtocol

  /* ---------- every stack is a load path, every answer is correct ---------- */

  /** The frames of a checker form a load path that ends at the module of its current `get`. */
  ghost predicate OnLoadPath(lib: Library, ch: Checker) {
    && LoadStack(lib, ch.stack)
    && (HasName(ch.phase) ==> Asks(lib, ch.stack, ch.phase.name))
  }

  /** Correct, or a cycle report that may be false. */
  ghost predicate Owed(lib: Library, n: Name, o: Outcome, honest: bool) {
    Correct(lib, n, o) || (!honest && CycleRooted(o))
  }

  ghost predicate AnswerOk(lib: Library, ch: Checker, honest: bool) {
    && (ch.phase.Finished? && |ch.stack| > 0 ==>
         Owed(lib, Top(ch).name, ch.phase.outcome, honest) && ch.phase.outcome != ALARM)
    && (ch.phase.Returning? || ch.phase.Complete? ==> Owed(lib, ch.phase.name, ch.phase.outcome, honest))
  }

  ghost predicate StoredOk(lib: Library, n: Name, e: Entry, honest: bool) {
    e.outcome.Some? ==> Owed(lib, n, e.outcome.value, honest) && e.outcome.value != ALARM
  }

  ghost predicate OnCycle(lib: Library, n: Name) {
    exists p :: LoadCycle(lib, p) && p[0] == n
  }

  /** A result is correct, and an alarm is raised only for a module on a load cycle. */
  ghost predicate ResultTrue(lib: Library, r: (Name, Outcome), honest: bool) {
    Owed(lib, r.0, r.1, honest) && (honest && r.1 == ALARM ==> OnCycle(lib, r.0))
  }

  ghost predicate OnPaths(lib: Library, s: State) {
    forall c :: c in s.checkers ==> OnLoadPath(lib, s.checkers[c])
  }

  ghost predicate Sound(lib: Library, s: State, honest: bool) {
    && OnPaths(lib, s)
    && (forall c :: c in s.checkers ==> AnswerOk(lib, s.checkers[c], honest))
    && (forall n :: n in s.entries ==> StoredOk(lib, n, s.entries[n], honest))
    && (forall r :: r in s.results ==> ResultTrue(lib, r, honest))
  }

  /** From a loading entry to what its creator is executing. */
  lemma {:induction false} EntryToTop(lib: Library, s: State, n: Name) returns (p: seq<Name>)
    requires Structure(s) && OnPaths(lib, s) && n in s.entries && !s.entries[n].ready
    ensures var c := s.entries[n].creator;
      && c in s.checkers && |s.checkers[c].stack| > 0
      && LoadPath(lib, p) && p[0] == n && p[|p| - 1] == Top(s.checkers[c]).name
  {
    var i := LoadingEntry(s, n);
    var ch := s.checkers[s.entries[n].creator];
    StackIsAPath(lib, ch.stack, i);
    p := Names(ch.stack[i..]);
  }

  /** A walk through the waits-for graph is a load path, from the entry to what `me` is executing. */
  lemma {:induction false} WalkIsALoadPath(lib: Library, s: State, n: Name, me: Cid, k: nat) returns (p: seq<Name>)
    requires Structure(s) && OnPaths(lib, s)
    requires Meets(Wfg(s), n, me, k)
    ensures LoadPath(lib, p) && p[0] == n
    ensures me in s.checkers && |s.checkers[me].stack| > 0 && p[|p| - 1] == Top(s.checkers[me]).name
    decreases k
  {
    OwnersExist(s, n);
    var c := s.entries[n].creator;
    p := EntryToTop(lib, s, n);
    if c != me {
      var next := Wfg(s).waits[c];
      WaiterDemands(lib, s, c);
      var rest := WalkIsALoadPath(lib, s, next, me, k - 1);
      JoinPaths(lib, p, rest);
      p := p + rest;
    }
  }

  lemma WaiterDemands(lib: Library, s: State, c: Cid)
    requires Structure(s) && OnPaths(lib, s)
    requires c in s.checkers && s.checkers[c].waitsFor.Some? && |s.checkers[c].stack| > 0
    ensures Demands(lib, Top(s.checkers[c]).name, s.checkers[c].waitsFor.value)
  {
    assert PhaseOk(s, c) && OnLoadPath(lib, s.checkers[c]);
    WantsIsDemands(lib, Top(s.checkers[c]), s.checkers[c].waitsFor.value);
  }

  /** A reported cycle is a load cycle through the requested module. */
  lemma {:induction false} AlarmIsACycle(lib: Library, s: State, c: Cid, n: Name) returns (p: seq<Name>)
    requires Structure(s) && OnPaths(lib, s)
    requires c in s.checkers && HasName(s.checkers[c].phase) && s.checkers[c].phase.name == n
    requires Reaches(Wfg(s), n, c)
    ensures LoadCycle(lib, p) && p[0] == n
    ensures Diverges(lib, n)
  {
    var k: nat :| Meets(Wfg(s), n, c, k);
    p := WalkIsALoadPath(lib, s, n, c, k);
    WantsIsDemands(lib, Top(s.checkers[c]), n);
    JoinPaths(lib, p, [n]);
    p := p + [n];
    CycleDiverges(lib, p);
  }

  /* ---------- a step answers correctly if its alarms are real ---------- */

  ghost predicate Alarms(sys: System, s: State, c: Cid)
    requires Enabled(s, c)
  {
    (s.checkers[c].phase.Found? || s.checkers[c].phase.Walking?) && Move(sys, s, c).result.Some?
  }

  ghost predicate HonestAlarm(sys: System, s: State, c: Cid)
    requires Enabled(s, c)
  {
    Alarms(sys, s, c) ==> OnCycle(sys.lib, s.checkers[c].phase.name)
  }

  lemma ReachedIsHonest(sys: System, s: State, c: Cid)
    requires Structure(s) && OnPaths(sys.lib, s) && Enabled(s, c)
    requires Alarms(sys, s, c) ==> Reaches(Wfg(s), s.checkers[c].phase.name, c)
    ensures HonestAlarm(sys, s, c)
  {
    if Alarms(sys, s, c) { var p := AlarmIsACycle(sys.lib, s, c, s.checkers[c].phase.name); }
  }

  ghost predicate SoundEffect(lib: Library, ef: Effect, honest: bool) {
    && OnLoadPath(lib, ef.checker)
    && AnswerOk(lib, ef.checker, honest)
    && (ef.entry.Some? ==> StoredOk(lib, ef.entry.value.0, ef.entry.value.1, honest))
    && (ef.result.Some? ==> ResultTrue(lib, ef.result.value, honest))
  }

  lemma ExecutingIsSound(sys: System, s: State, c: Cid, honest: bool)
    requires Enabled(s, c) && s.checkers[c].phase.Executing?
    requires OnLoadPath(sys.lib, s.checkers[c])
    ensures SoundEffect(sys.lib, Move(sys, s, c), honest)
  {
    var f := Top(s.checkers[c]);
    var m := Lookup(sys.lib, f.name);
    var p := RunCode(sys.lib, f);
    if m.code(f.loaded).Throws? {
      ThrowIsCorrect(sys.lib, m, f.loaded);
      EvalIsRun(sys.lib, f.name, p.outcome);
    } else if |f.loaded| == |m.loads| {
      FinishIsCorrect(sys.lib, m, f.loaded);
      EvalIsRun(sys.lib, f.name, p.outcome);
    }
  }

  lemma ReturningIsSound(sys: System, s: State, c: Cid, honest: bool)
    requires Enabled(s, c) && s.checkers[c].phase.Returning?
    requires OnLoadPath(sys.lib, s.checkers[c]) && AnswerOk(sys.lib, s.checkers[c], honest)
    ensures SoundEffect(sys.lib, Move(sys, s, c), honest)
  {
    var ch := s.checkers[c];
    if ch.stack != [] {
      var f, dep := Top(ch), ch.phase.name;
      match ch.phase.outcome
      case Loaded(g) =>
        LoadedStep(sys.lib, Lookup(sys.lib, f.name), f.loaded, dep, g);
      case Failed(e) =>
        if Correct(sys.lib, dep, Failed(e)) {
          FailedLoadIsCorrect(sys.lib, Lookup(sys.lib, f.name), f.loaded, dep, e);
          EvalIsRun(sys.lib, f.name, Failed(CannotLoad(dep, e)));
        }
    }
  }

  lemma InsertingIsSound(sys: System, s: State, c: Cid, honest: bool)
    requires Enabled(s, c) && s.checkers[c].phase.Requesting? && s.checkers[c].phase.name !in s.entries
    requires OnLoadPath(sys.lib, s.checkers[c])
    ensures SoundEffect(sys.lib, Move(sys, s, c), honest)
  {
  }

  lemma ClosingIsSound(sys: System, s: State, c: Cid, honest: bool)
    requires Enabled(s, c) && s.checkers[c].phase.Released?
    requires OnLoadPath(sys.lib, s.checkers[c])
    requires StoredOk(sys.lib, Top(s.checkers[c]).name, s.entries[Top(s.checkers[c]).name], honest)
    ensures SoundEffect(sys.lib, Move(sys, s, c), honest)
  {
    var ch := s.checkers[c];
    if |ch.stack| > 1 {
      assert Wants(sys.lib, ch.stack[|ch.stack| - 2], ch.stack[|ch.stack| - 2 + 1].name);
    }
  }

  /** Steps that leave the stack and the requested name alone. */
  lemma WaitingIsSound(sys: System, s: State, c: Cid, honest: bool)
    requires Enabled(s, c) && Move(sys, s, c).result.None?
    requires var p := s.checkers[c].phase;
      p.Found? || p.Walking? || p.Hopping? || p.Checked? || p.Waiting? || (p.Requesting? && p.name in s.entries)
    requires OnLoadPath(sys.lib, s.checkers[c])
    ensures SoundEffect(sys.lib, Move(sys, s, c), honest)
  {
  }

  lemma WritingIsSound(sys: System, s: State, c: Cid, honest: bool)
    requires Enabled(s, c)
    requires var p := s.checkers[c].phase; p.Inserted? || p.Finished? || p.Stored?
    requires OnLoadPath(sys.lib, s.checkers[c]) && AnswerOk(sys.lib, s.checkers[c], honest)
    requires StoredOk(sys.lib, Top(s.checkers[c]).name, s.entries[Top(s.checkers[c]).name], honest)
    ensures SoundEffect(sys.lib, Move(sys, s, c), honest)
  {
  }

  lemma ResultIsSound(sys: System, s: State, c: Cid, honest: bool)
    requires Enabled(s, c) && OnLoadPath(sys.lib, s.checkers[c])
    requires var p := s.checkers[c].phase; p.Found? || p.Walking? || p.Woken?
    requires Move(sys, s, c).result.Some?
    requires ResultTrue(sys.lib, (s.checkers[c].phase.name, Move(sys, s, c).result.value.1), honest)
    ensures SoundEffect(sys.lib, Move(sys, s, c), honest)
  {
  }

  lemma WorkingIsSound(sys: System, s: State, c: Cid, honest: bool)
    requires Enabled(s, c) && WorksOnTop(s.checkers[c].phase)
    requires OnLoadPath(sys.lib, s.checkers[c]) && AnswerOk(sys.lib, s.checkers[c], honest)
    requires StoredOk(sys.lib, Top(s.checkers[c]).name, s.entries[Top(s.checkers[c]).name], honest)
    ensures SoundEffect(sys.lib, Move(sys, s, c), honest)
  {
    match s.checkers[c].phase
    case Executing => ExecutingIsSound(sys, s, c, honest);
    case Released => ClosingIsSound(sys, s, c, honest);
    case _ => WritingIsSound(sys, s, c, honest);
  }

  lemma GettingIsSound(sys: System, s: State, c: Cid, honest: bool)
    requires Enabled(s, c) && HasName(s.checkers[c].phase)
    requires OnLoadPath(sys.lib, s.checkers[c]) && AnswerOk(sys.lib, s.checkers[c], honest)
    requires var p := s.checkers[c].phase;
      Move(sys, s, c).result.Some? && !p.Returning? ==> ResultTrue(sys.lib, (p.name, Move(sys, s, c).result.value.1), honest)
    ensures SoundEffect(sys.lib, Move(sys, s, c), honest)
  {
    match s.checkers[c].phase
    case Returning(_, _) => ReturningIsSound(sys, s, c, honest);
    case Woken(_) => ResultIsSound(sys, s, c, honest);
    case Requesting(n) => if n !in s.entries { InsertingIsSound(sys, s, c, honest); } else { WaitingIsSound(sys, s, c, honest); }
    case _ => if Move(sys, s, c).result.Some? { ResultIsSound(sys, s, c, honest); } else { WaitingIsSound(sys, s, c, honest); }
  }

  lemma WokenResultIsCorrect(sys: System, s: State, c: Cid, honest: bool)
    requires Enabled(s, c) && s.checkers[c].phase.Woken?
    requires StoredOk(sys.lib, s.checkers[c].phase.name, s.entries[s.checkers[c].phase.name], honest)
    ensures Move(sys, s, c).result.Some?
    ensures ResultTrue(sys.lib, (s.checkers[c].phase.name, Move(sys, s, c).result.value.1), honest)
  {
  }

  lemma AlarmIsCorrect(lib: Library, n: Name, honest: bool)
    requires honest ==> OnCycle(lib, n)
    ensures ResultTrue(lib, (n, ALARM), honest)
  {
    if honest {
      var p :| LoadCycle(lib, p) && p[0] == n;
      CycleDiverges(lib, p);
    }
  }

  lemma OnlyAlarmsBeforeWaiting(sys: System, s: State, c: Cid)
    requires Enabled(s, c) && HasName(s.checkers[c].phase) && !s.checkers[c].phase.Woken?
    requires Move(sys, s, c).result.Some?
    ensures s.checkers[c].phase.Found? || s.checkers[c].phase.Walking?
    ensures Move(sys, s, c).result.value == (s.checkers[c].phase.name, ALARM)
  {
  }

  lemma MoveIsSound(sys: System, s: State, c: Cid, honest: bool)
    requires Structure(s) && Sound(sys.lib, s, honest) && Enabled(s, c) && (honest ==> HonestAlarm(sys, s, c))
    ensures SoundEffect(sys.lib, Move(sys, s, c), honest)
  {
    var ch := s.checkers[c];
    assert OnLoadPath(sys.lib, ch) && AnswerOk(sys.lib, ch, honest);
    if WorksOnTop(ch.phase) {
      assert StoredOk(sys.lib, Top(ch).name, s.entries[Top(ch).name], honest);
      WorkingIsSound(sys, s, c, honest);
    } else if HasName(ch.phase) {
      if ch.phase.Woken? {
        assert StoredOk(sys.lib, ch.phase.name, s.entries[ch.phase.name], honest);
        WokenResultIsCorrect(sys, s, c, honest);
      } else if Move(sys, s, c).result.Some? {
        OnlyAlarmsBeforeWaiting(sys, s, c);
        AlarmIsCorrect(sys.lib, ch.phase.name, honest);
      }
      GettingIsSound(sys, s, c, honest);
    }
  }

  lemma StepKeepsSound(sys: System, s: State, c: Cid, honest: bool)
    requires Structure(s) && Sound(sys.lib, s, honest) && Enabled(s, c) && (honest ==> HonestAlarm(sys, s, c))
    ensures Sound(sys.lib, Step(sys, s, c), honest)
  {
    MoveIsSound(sys, s, c, honest);
  }

  /* ---------- Fused: the waits-for graph stays acyclic ---------- */

  predicate FusedPhases(s: State) {
    forall c :: c in s.checkers ==>
      var p := s.checkers[c].phase; !p.Walking? && !p.Hopping? && !p.Checked?
  }

  /** No step but the one that starts a wait lengthens a walk. */
  lemma EdgesOnlyVanish(sys: System, s: State, c: Cid, x: Name)
    requires Structure(s) && Enabled(s, c)
    requires !Move(sys, s, c).checker.phase.Waiting?
    ensures var g, h := Wfg(s), Wfg(Step(sys, s, c));
      x in h.owner && h.owner[x] in h.waits ==>
        x in g.owner && g.owner[x] in g.waits && h.waits[h.owner[x]] == g.waits[g.owner[x]]
  {
    assert FramesOwned(s, c) && PhaseOk(s, c);
    MoveIsLocal(sys, s, c);
    MoveKeepsWaiting(sys, s, c);
  }

  /** The checker that steps waits for nothing afterwards, unless it did so before. */
  lemma MoveKeepsWaiting(sys: System, s: State, c: Cid)
    requires Enabled(s, c) && PhaseOk(s, c) && !Move(sys, s, c).checker.phase.Waiting?
    ensures var ch, ch' := s.checkers[c], Move(sys, s, c).checker;
      ch'.waitsFor.None? || (ch'.waitsFor == ch.waitsFor && Move(sys, s, c).entry.None?)
  {
  }

  lemma WaitAddsItsEdge(sys: System, s: State, c: Cid)
    requires Structure(s) && Enabled(s, c) && s.checkers[c].phase.Found?
    requires Move(sys, s, c).checker.phase.Waiting?
    ensures c !in Wfg(s).waits && !Reaches(Wfg(s), s.checkers[c].phase.name, c)
    ensures Wfg(Step(sys, s, c)) == AddWait(Wfg(s), c, s.checkers[c].phase.name)
  {
    assert PhaseOk(s, c);
  }

  lemma OnlyFoundWaits(sys: System, s: State, c: Cid)
    requires Enabled(s, c) && Move(sys, s, c).checker.phase.Waiting?
    ensures s.checkers[c].phase.Found? || s.checkers[c].phase.Checked?
  {
  }

  lemma StepKeepsAcyclic(sys: System, s: State, c: Cid)
    requires Structure(s) && Enabled(s, c) && FusedPhases(s)
    requires Acyclic(Wfg(s))
    ensures Acyclic(Wfg(Step(sys, s, c)))
  {
    if Move(sys, s, c).checker.phase.Waiting? {
      OnlyFoundWaits(sys, s, c);
      WaitAddsItsEdge(sys, s, c);
      CheckIsExact(Wfg(s), c, s.checkers[c].phase.name);
    } else {
      forall x { EdgesOnlyVanish(sys, s, c, x); }
      FewerEdgesAcyclic(Wfg(s), Wfg(Step(sys, s, c)));
    }
  }

  lemma FusedMove(sys: System, s: State, c: Cid)
    requires sys.grain.Fused? && Enabled(s, c) && FusedPhases(s)
    ensures var p := Move(sys, s, c).checker.phase; !p.Walking? && !p.Hopping? && !p.Checked?
    ensures Alarms(sys, s, c) ==> Reaches(Wfg(s), s.checkers[c].phase.name, c)
  {
  }

  ghost predicate FusedInvariant(lib: Library, s: State) {
    Structure(s) && Sound(lib, s, true) && FusedPhases(s) && Acyclic(Wfg(s))
  }

  lemma SpawnKeepsSound(sys: System, s: State, c: Cid, n: Name, honest: bool)
    requires Sound(sys.lib, s, honest)
    ensures Sound(sys.lib, Do(sys, s, Spawn(c, n)), honest)
    ensures Wfg(Do(sys, s, Spawn(c, n))) == Wfg(s)
  {
    assert Wfg(Do(sys, s, Spawn(c, n))) == Wfg(s);
  }

  lemma FusedStep(sys: System, s: State, c: Cid)
    requires sys.grain.Fused? && FusedInvariant(sys.lib, s) && Enabled(s, c)
    ensures Sound(sys.lib, Step(sys, s, c), true) && FusedPhases(Step(sys, s, c))
    ensures Acyclic(Wfg(Step(sys, s, c)))
  {
    FusedMove(sys, s, c);
    ReachedIsHonest(sys, s, c);
    StepKeepsSound(sys, s, c, true);
    StepKeepsAcyclic(sys, s, c);
  }

  lemma FusedDo(sys: System, s: State, l: Label)
    requires sys.grain.Fused? && FusedInvariant(sys.lib, s)
    ensures FusedInvariant(sys.lib, Do(sys, s, l))
  {
    DoKeepsStructure(sys, s, l);
    match l
    case Go(c) => if Enabled(s, c) { FusedStep(sys, s, c); }
    case Spawn(c, n) => SpawnKeepsSound(sys, s, c, n, true);
  }

  lemma {:induction false} FusedRun(sys: System, schedule: seq<Label>)
    requires sys.grain.Fused?
    ensures FusedInvariant(sys.lib, Run(sys, schedule))
  {
    if schedule != [] {
      FusedRun(sys, schedule[..|schedule| - 1]);
      FusedDo(sys, Run(sys, schedule[..|schedule| - 1]), schedule[|schedule| - 1]);
    }
  }

  /** Follows the waits of a blocked checker to one that can step. */
  lemma {:induction false} SomeoneCanStep(s: State, c: Cid, k: nat) returns (d: Cid)
    requires Structure(s) && c in s.checkers && !s.checkers[c].phase.Complete?
    requires s.checkers[c].phase.Waiting? ==> Ends(Wfg(s), s.checkers[c].phase.name, k)
    ensures Enabled(s, d)
    decreases k
  {
    var ch := s.checkers[c];
    assert FramesOwned(s, c) && PhaseOk(s, c);
    assert ch.phase.Woken? ==> EntryOk(s, ch.phase.name);
    d := c;
    if !Enabled(s, c) {
      var n := ch.phase.name;
      var i := LoadingEntry(s, n);
      d := s.entries[n].creator;
      assert FramesOwned(s, d) && PhaseOk(s, d);
      if !Enabled(s, d) && s.checkers[d].phase.Waiting? {
        d := SomeoneCanStep(s, d, k - 1);
      }
    }
  }

  /* ---------- calls that do not overlap, in the fine grain ---------- */

  predicate AllComplete(s: State) {
    forall c :: c in s.checkers ==> s.checkers[c].phase.Complete?
  }

  predicate StartsAlone(s: State, l: Label) {
    l.Spawn? && l.c !in s.checkers ==> AllComplete(s)
  }

  /** Each call starts after every earlier one has returned. */
  ghost predicate Serial(sys: System, schedule: seq<Label>) {
    schedule != [] ==>
      && Serial(sys, schedule[..|schedule| - 1])
      && StartsAlone(Run(sys, schedule[..|schedule| - 1]), schedule[|schedule| - 1])
  }

  /** One call at a time, and its cycle check never leaves the entry it asks for. */
  predicate SerialState(s: State) {
    && (forall c, d :: c in s.checkers && d in s.checkers && c != d ==>
         s.checkers[c].phase.Complete? || s.checkers[d].phase.Complete?)
    && (forall c :: c in s.checkers ==>
         var p := s.checkers[c].phase;
         && !p.Found? && !p.Hopping?
         && (p.Walking? ==> p.at == p.name)
         && (p.Checked? || p.Waiting? ==> p.name in s.entries && s.entries[p.name].ready))
  }

  /** Alone, a checker finds an entry ready or owned by itself. */
  lemma AloneReadyOrMine(s: State, c: Cid, n: Name)
    requires Structure(s) && SerialState(s) && n in s.entries
    requires c in s.checkers && s.checkers[c].phase.Walking?
    ensures if s.entries[n].owner.None? then s.entries[n].ready else s.entries[n].owner == Some(c)
  {
    assert EntryOk(s, n);
    if !s.entries[n].ready {
      var i := LoadingEntry(s, n);
      assert PhaseOk(s, s.entries[n].creator);
    }
  }

  lemma SerialStep(sys: System, s: State, c: Cid)
    requires sys.grain.Fine? && Structure(s) && OnPaths(sys.lib, s) && SerialState(s) && Enabled(s, c)
    ensures HonestAlarm(sys, s, c)
    ensures SerialState(Step(sys, s, c))
  {
    var p, ef, s' := s.checkers[c].phase, Move(sys, s, c), Step(sys, s, c);
    assert FramesOwned(s, c) && PhaseOk(s, c);
    MoveIsLocal(sys, s, c);
    if p.Walking? {
      AloneReadyOrMine(s, c, p.at);
      if s.entries[p.at].owner.Some? { assert Meets(Wfg(s), p.name, c, 0); }
    }
    ReachedIsHonest(sys, s, c);
    SerialMove(sys, s, c);
    forall d | d in s'.checkers
      ensures var q := s'.checkers[d].phase;
        (q.Checked? || q.Waiting? ==> q.name in s'.entries && s'.entries[q.name].ready)
    {
    }
  }

  lemma SerialMove(sys: System, s: State, c: Cid)
    requires sys.grain.Fine? && Enabled(s, c)
    requires var p := s.checkers[c].phase;
      && !p.Found? && !p.Hopping?
      && (p.Walking? ==> p.at == p.name)
      && (p.Checked? || p.Waiting? ==> p.name in s.entries && s.entries[p.name].ready)
      && (p.Walking? ==> if s.entries[p.at].owner.None? then s.entries[p.at].ready else s.entries[p.at].owner == Some(c))
    ensures var q := Move(sys, s, c).checker.phase;
      && !q.Found? && !q.Hopping?
      && (q.Walking? ==> q.at == q.name)
      && (q.Checked? || q.Waiting? ==> q.name in s.entries && s.entries[q.name].ready && Move(sys, s, c).entry.None?)
  {
  }

  lemma SerialDo(sys: System, s: State, l: Label)
    requires sys.grain.Fine? && Structure(s) && Sound(sys.lib, s, true) && SerialState(s)
    requires StartsAlone(s, l)
    ensures Sound(sys.lib, Do(sys, s, l), true) && SerialState(Do(sys, s, l))
  {
    match l
    case Go(c) =>
      if Enabled(s, c) {
        SerialStep(sys, s, c);
        StepKeepsSound(sys, s, c, true);
      }
    case Spawn(c, n) => SpawnKeepsSound(sys, s, c, n, true);
  }

  lemma {:induction false} SerialRun(sys: System, schedule: seq<Label>)
    requires sys.grain.Fine? && Serial(sys, schedule)
    ensures var s := Run(sys, schedule); Structure(s) && Sound(sys.lib, s, true) && SerialState(s)
  {
    RunKeepsStructure(sys, schedule);
    if schedule != [] {
      SerialRun(sys, schedule[..|schedule| - 1]);
      SerialDo(sys, Run(sys, schedule[..|schedule| - 1]), schedule[|schedule| - 1]);
    }
  }

  /* ---------- theorems ---------- */

  /** The two disciplines under which the cache keeps its promises. */
  ghost predicate Orderly(sys: System, schedule: seq<Label>) {
    sys.grain.Fused? || Serial(sys, schedule)
  }

  /**
    Whatever was loaded before and whatever runs beside it, a `get` returns the
    cache-free evaluator's answer when there is one, reports a cycle exactly when
    there is none, and raises the alarm itself only for a module on a load cycle.
   */
  lemma {:induction false} GetsAreCorrect(sys: System, schedule: seq<Label>, r: (Name, Outcome))
    requires Orderly(sys, schedule) && r in Run(sys, schedule).results
    ensures forall o :: Evaluates(sys.lib, r.0, o) ==> r.1 == o
    ensures CycleRooted(r.1) <==> Diverges(sys.lib, r.0)
    ensures r.1 == ALARM ==> OnCycle(sys.lib, r.0)
  {
    if sys.grain.Fused? { FusedRun(sys, schedule); } else { SerialRun(sys, schedule); }
    assert ResultTrue(sys.lib, r, true);
    CorrectIsDecisive(sys.lib, r.0, r.1);
  }

  /** No deadlock: while a call is unfinished, some call can step. */
  lemma {:induction false} NeverStuck(sys: System, schedule: seq<Label>, c: Cid)
    requires Orderly(sys, schedule)
    requires c in Run(sys, schedule).checkers && !Run(sys, schedule).checkers[c].phase.Complete?
    ensures exists d :: Enabled(Run(sys, schedule), d)
  {
    var s := Run(sys, schedule);
    if sys.grain.Fused? {
      FusedRun(sys, schedule);
      var k: nat :| s.checkers[c].phase.Waiting? ==> Ends(Wfg(s), s.checkers[c].phase.name, k) by {
        if s.checkers[c].phase.Waiting? { AWalkEnds(s, s.checkers[c].phase.name); }
      }
      var d := SomeoneCanStep(s, c, k);
    } else {
      NeverBlocks(sys, schedule, c);
    }
  }

  lemma AWalkEnds(s: State, n: Name)
    requires Acyclic(Wfg(s))
    ensures exists k: nat :: Ends(Wfg(s), n, k)
  {
    if n !in Wfg(s).owner { assert Ends(Wfg(s), n, 0); }
  }

  /** Calls that do not overlap never block at all, in particular not on a ready channel. */
  lemma {:induction false} NeverBlocks(sys: System, schedule: seq<Label>, c: Cid)
    requires sys.grain.Fine? && Serial(sys, schedule)
    requires c in Run(sys, schedule).checkers && !Run(sys, schedule).checkers[c].phase.Complete?
    ensures Enabled(Run(sys, schedule), c)
  {
    SerialRun(sys, schedule);
    var s := Run(sys, schedule);
    assert FramesOwned(s, c) && PhaseOk(s, c);
    assert s.checkers[c].phase.Woken? ==> EntryOk(s, s.checkers[c].phase.name);
  }

  /**
    In every reachable state the pointer walk of `cycleCheck` comes to an end, and it
    raises the alarm exactly when the wait it guards would close a cycle of waits.
   */
  lemma {:induction false} CycleCheckIsExact(sys: System, schedule: seq<Label>, c: Cid)
    requires sys.grain.Fused?
    requires c in Run(sys, schedule).checkers && Run(sys, schedule).checkers[c].phase.Found?
    ensures var g, n := Wfg(Run(sys, schedule)), Run(sys, schedule).checkers[c].phase.name;
      && (exists k: nat :: Ends(g, n, k))
      && (Reaches(g, n, c) <==> !Acyclic(AddWait(g, c, n)))
  {
    FusedRun(sys, schedule);
    var s := Run(sys, schedule);
    assert PhaseOk(s, c);
    AWalkEnds(s, s.checkers[c].phase.name);
    CheckIsExact(Wfg(s), c, s.checkers[c].phase.name);
  }
}
