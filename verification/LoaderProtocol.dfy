/**
  Concurrent `Load` calls on one module cache, as a step system.

  Every top-level call has its own cycle checker, and a checker is the unit that
  takes steps. A schedule may start any number of checkers and interleave their
  steps in any order. One step is one access to shared state, with one choice left
  open, the grain of the cycle check:

  - `Fine`: every pointer `cycleCheck` follows is loaded in its own step, and
    storing the waits-for edge afterwards is yet another step;
  - `Fused`: the walk and the store of the waits-for edge are one step.

  Map insertion and `setOwner`, storing the result, `setOwner(nil)`, `close(ready)`,
  waking up and clearing the waits-for edge are separate steps in both.
 */
module LoaderProtocol {
  import opened Basics
  import opened LoadGraph
  import opened WaitsForGraph

  type Cid = nat

  datatype Grain = Fused | Fine

  datatype System = System(lib: Library, grain: Grain)

  /** `creator` is the checker that inserted the entry; it never changes. */
  datatype Entry = Entry(creator: Cid, owner: Option<Cid>, outcome: Option<Outcome>, ready: bool)

  /** Where a checker stands; `name` is the module of its current `get`. */
  datatype Phase =
    | Requesting(name: Name)                    // about to look the name up under the lock
    | Inserted                                  // inserted the entry, about to set its owner
    | Executing                                 // running the code of the top module
    | Found(name: Name)                         // saw an entry, about to check and wait (Fused)
    | Walking(name: Name, at: Name)             // about to read the owner of `at` (Fine)
    | Hopping(name: Name, via: Cid)             // about to read what `via` waits for (Fine)
    | Checked(name: Name)                       // check passed, about to set waits-for (Fine)
    | Waiting(name: Name)                       // blocked until the entry is ready
    | Woken(name: Name)                         // about to clear waits-for
    | Finished(outcome: Outcome)                // the top module is done, about to store its result
    | Stored                                    // about to clear the owner
    | Released                                  // about to close the ready channel
    | Returning(name: Name, outcome: Outcome)   // `get(name)` has returned
    | Complete(name: Name, outcome: Outcome)    // the top-level call has returned

  datatype Checker = Checker(stack: seq<Frame>, phase: Phase, waitsFor: Option<Name>)

  /**
    The shared state and a record of what happened: how often the load of a name was
    started and its channel closed, and every result any `get` has returned.
   */
  datatype State = State(
    entries: map<Name, Entry>,
    checkers: map<Cid, Checker>,
    starts: multiset<Name>,
    closes: multiset<Name>,
    results: seq<(Name, Outcome)>)

  const ALARM := Failed(CycleInLoadGraph)

  function Top(ch: Checker): Frame
    requires |ch.stack| > 0
  {
    ch.stack[|ch.stack| - 1]
  }

  function Wfg(s: State): Graph<Name, Cid> {
    Graph(
      map n | n in s.entries && s.entries[n].owner.Some? :: s.entries[n].owner.value,
      map c | c in s.checkers && s.checkers[c].waitsFor.Some? :: s.checkers[c].waitsFor.value)
  }

  /* ---------- steps ---------- */

  /** A checker can step unless its call is over or it waits for an entry that is not ready. */
  predicate Enabled(s: State, c: Cid) {
    && c in s.checkers
    && var ch := s.checkers[c];
       match ch.phase
       case Complete(_, _) => false
       case Waiting(n) => n in s.entries && s.entries[n].ready
       case Woken(n) => n in s.entries && s.entries[n].outcome.Some?
       case Walking(_, at) => at in s.entries
       case Hopping(_, via) => via in s.checkers
       case Inserted | Executing | Finished(_) | Stored => |ch.stack| > 0 && Top(ch).name in s.entries
       case Released => |ch.stack| > 0 && Top(ch).name in s.entries && s.entries[Top(ch).name].outcome.Some?
       case _ => true
  }

  /**
    What one step does: the checker's new state, the one entry it writes if any, whether
    it starts a load or closes a channel, and the result it returns if any.
   */
  datatype Effect = Effect(
    checker: Checker,
    entry: Option<(Name, Entry)>,
    start: bool,
    close: bool,
    result: Option<(Name, Outcome)>)

  function Quiet(ch: Checker): Effect {
    Effect(ch, None, false, false, None)
  }

  function Write(ch: Checker, n: Name, e: Entry): Effect {
    Quiet(ch).(entry := Some((n, e)))
  }

  function Return(ch: Checker, n: Name, o: Outcome): Effect {
    Quiet(ch.(phase := Returning(n, o))).(result := Some((n, o)))
  }

  /** The next step of checker `c`, which its phase determines. */
  ghost function Move(sys: System, s: State, c: Cid): Effect
    requires Enabled(s, c)
  {
    var ch := s.checkers[c];
    match ch.phase
    case Requesting(n) =>
      if n in s.entries then
        Quiet(ch.(phase := if sys.grain.Fused? then Found(n) else Walking(n, n)))
      else
        Write(ch.(stack := ch.stack + [Frame(n, [])], phase := Inserted), n, Entry(c, None, None, false))
    case Inserted =>
      Write(ch.(phase := Executing), Top(ch).name, s.entries[Top(ch).name].(owner := Some(c))).(start := true)
    case Executing => Quiet(ch.(phase := RunCode(sys.lib, Top(ch))))
    case Found(n) =>
      if Reaches(Wfg(s), n, c) then Return(ch, n, ALARM)
      else Quiet(ch.(waitsFor := Some(n), phase := Waiting(n)))
    case Walking(n, at) =>
      (match s.entries[at].owner
       case None => Quiet(ch.(phase := Checked(n)))
       case Some(o) => if o == c then Return(ch, n, ALARM) else Quiet(ch.(phase := Hopping(n, o))))
    case Hopping(n, via) =>
      (match s.checkers[via].waitsFor
       case None => Quiet(ch.(phase := Checked(n)))
       case Some(at) => Quiet(ch.(phase := Walking(n, at))))
    case Checked(n) => Quiet(ch.(waitsFor := Some(n), phase := Waiting(n)))
    case Waiting(n) => Quiet(ch.(phase := Woken(n)))
    case Woken(n) => Return(ch.(waitsFor := None), n, s.entries[n].outcome.value)
    case Finished(o) => Write(ch.(phase := Stored), Top(ch).name, s.entries[Top(ch).name].(outcome := Some(o)))
    case Stored => Write(ch.(phase := Released), Top(ch).name, s.entries[Top(ch).name].(owner := None))
    case Released =>
      var n := Top(ch).name;
      Return(ch.(stack := ch.stack[..|ch.stack| - 1]), n, s.entries[n].outcome.value)
      .(entry := Some((n, s.entries[n].(ready := true))), close := true)
    case Returning(n, o) => Quiet(if ch.stack == [] then ch.(phase := Complete(n, o)) else Resumed(ch, n, o))
  }

  function Apply(s: State, c: Cid, ef: Effect): State {
    State(
      if ef.entry.Some? then s.entries[ef.entry.value.0 := ef.entry.value.1] else s.entries,
      s.checkers[c := ef.checker],
      if ef.start && ef.entry.Some? then s.starts + multiset{ef.entry.value.0} else s.starts,
      if ef.close && ef.entry.Some? then s.closes + multiset{ef.entry.value.0} else s.closes,
      if ef.result.Some? then s.results + [ef.result.value] else s.results)
  }

  ghost function Step(sys: System, s: State, c: Cid): State
    requires Enabled(s, c)
  {
    Apply(s, c, Move(sys, s, c))
  }

  /** Runs the code of a module up to its next `load`, its end, or an error. */
  function RunCode(lib: Library, f: Frame): Phase {
    var m := Lookup(lib, f.name);
    match m.code(f.loaded)
    case Throws(reason) => Finished(Failed(ExecFailed(reason)))
    case Yields(g) => if |f.loaded| < |m.loads| then Requesting(m.loads[|f.loaded|]) else Finished(Loaded(g))
  }

  /** Hands the result of a `load` to the module that asked for it. */
  function Resumed(ch: Checker, n: Name, o: Outcome): Checker
    requires |ch.stack| > 0
  {
    match o
    case Loaded(g) =>
      var f := Top(ch);
      ch.(stack := ch.stack[|ch.stack| - 1 := Frame(f.name, f.loaded + [g])], phase := Executing)
    case Failed(e) => ch.(phase := Finished(Failed(CannotLoad(n, e))))
  }

  datatype Label = Spawn(c: Cid, name: Name) | Go(c: Cid)

  const INIT := State(map[], map[], multiset{}, multiset{}, [])

  /** One scheduling decision; one that is not possible changes nothing. */
  ghost function Do(sys: System, s: State, l: Label): State {
    match l
    case Spawn(c, n) => if c in s.checkers then s else Apply(s, c, Quiet(Checker([], Requesting(n), None)))
    case Go(c) => if Enabled(s, c) then Step(sys, s, c) else s
  }

  ghost function Run(sys: System, schedule: seq<Label>): State {
    if schedule == [] then INIT
    else Do(sys, Run(sys, schedule[..|schedule| - 1]), schedule[|schedule| - 1])
  }

  lemma Then(sys: System, schedule: seq<Label>, l: Label)
    ensures Run(sys, schedule + [l]) == Do(sys, Run(sys, schedule), l)
  {
    assert (schedule + [l])[..|schedule|] == schedule;
  }

  /* ---------- what every reachable state satisfies, in both grains ---------- */

  predicate WorksOnTop(p: Phase) {
    p.Inserted? || p.Executing? || p.Finished? || p.Stored? || p.Released?
  }

  predicate HasName(p: Phase) {
    p.Requesting? || p.Found? || p.Walking? || p.Hopping? || p.Checked? || p.Waiting? || p.Woken? || p.Returning?
  }

  /** Only between insertion and `setOwner`, and after `setOwner(nil)`, has a loading entry no owner. */
  function OwnerOnStack(ch: Checker, c: Cid, i: nat): Option<Cid> {
    if i == |ch.stack| - 1 && (ch.phase.Inserted? || ch.phase.Released?) then None else Some(c)
  }

  ghost predicate FramesOwned(s: State, c: Cid)
    requires c in s.checkers
  {
    var ch := s.checkers[c];
    && (forall i :: 0 <= i < |ch.stack| ==>
         && ch.stack[i].name in s.entries
         && var e := s.entries[ch.stack[i].name];
            e.creator == c && !e.ready && e.owner == OwnerOnStack(ch, c, i))
    && (forall i, j :: 0 <= i < j < |ch.stack| ==> ch.stack[i].name != ch.stack[j].name)
  }

  ghost predicate PhaseOk(s: State, c: Cid)
    requires c in s.checkers
  {
    var ch := s.checkers[c];
    && (WorksOnTop(ch.phase) ==> |ch.stack| > 0)
    && (ch.phase.Complete? ==> ch.stack == [])
    && ((ch.phase.Stored? || ch.phase.Released?) && Top(ch).name in s.entries ==> s.entries[Top(ch).name].outcome.Some?)
    && ((ch.phase.Found? || ch.phase.Walking? || ch.phase.Hopping? || ch.phase.Checked? || ch.phase.Waiting? || ch.phase.Woken?)
         ==> ch.phase.name in s.entries)
    && (ch.phase.Walking? ==> ch.phase.at in s.entries)
    && (ch.phase.Hopping? ==> ch.phase.via in s.checkers)
    && (ch.phase.Woken? ==> s.entries[ch.phase.name].ready)
    && ch.waitsFor == (if ch.phase.Waiting? || ch.phase.Woken? then Some(ch.phase.name) else None)
  }

  ghost predicate EntryOk(s: State, n: Name)
    requires n in s.entries
  {
    var e := s.entries[n];
    && e.creator in s.checkers
    && (e.ready ==> e.owner.None? && e.outcome.Some?)
    && (!e.ready ==> exists i :: 0 <= i < |s.checkers[e.creator].stack| && s.checkers[e.creator].stack[i].name == n)
  }

  /** The load of `n` has been set going: its entry exists and its creator is past `setOwner`. */
  predicate Started(s: State, n: Name) {
    && n in s.entries
    && !(s.entries[n].creator in s.checkers
         && var ch := s.checkers[s.entries[n].creator];
            ch.phase.Inserted? && |ch.stack| > 0 && Top(ch).name == n)
  }

  ghost predicate Counted(s: State, n: Name) {
    && s.starts[n] == (if Started(s, n) then 1 else 0)
    && s.closes[n] == (if n in s.entries && s.entries[n].ready then 1 else 0)
  }

  /** A result is a cycle report or the published result of the one entry of that name. */
  ghost predicate ResultOk(s: State, r: (Name, Outcome)) {
    r.1 == ALARM || (r.0 in s.entries && s.entries[r.0].ready && s.entries[r.0].outcome == Some(r.1))
  }

  ghost predicate Structure(s: State) {
    && (forall c :: c in s.checkers ==> FramesOwned(s, c) && PhaseOk(s, c))
    && (forall n :: n in s.entries ==> EntryOk(s, n))
    && (forall n :: Counted(s, n))
    && (forall r :: r in s.results ==> ResultOk(s, r))
  }

  /** An entry that is loading is on its creator's stack; if it has an owner, that is its creator. */
  lemma LoadingEntry(s: State, n: Name) returns (i: nat)
    requires Structure(s) && n in s.entries && !s.entries[n].ready
    ensures var c := s.entries[n].creator;
      && c in s.checkers && i < |s.checkers[c].stack| && s.checkers[c].stack[i].name == n
      && s.entries[n].owner == OwnerOnStack(s.checkers[c], c, i)
  {
    assert EntryOk(s, n);
    i :| 0 <= i < |s.checkers[s.entries[n].creator].stack| && s.checkers[s.entries[n].creator].stack[i].name == n;
    assert FramesOwned(s, s.entries[n].creator);
  }

  /* ---------- a step only touches the top of its own stack ---------- */

  predicate SameNames(a: seq<Frame>, b: seq<Frame>) {
    |a| == |b| && forall i :: 0 <= i < |a| ==> a[i].name == b[i].name
  }

  /** The four ways a step relates a checker's stack to the entry it writes. */
  ghost predicate LocalEffect(s: State, c: Cid, ef: Effect)
    requires c in s.checkers
  {
    var ch, ch' := s.checkers[c], ef.checker;
    match ef.entry
    case None =>
      && !ef.start && !ef.close
      && SameNames(ch.stack, ch'.stack)
      && !ch.phase.Inserted? && !ch.phase.Released? && !ch'.phase.Inserted? && !ch'.phase.Released?
    case Some((n, e)) =>
      && (n in s.entries ==>
           && |ch.stack| > 0 && n == Top(ch).name && e.creator == c
           && !s.entries[n].ready && ef.start == ch.phase.Inserted?)
      && (n !in s.entries ==> // insertion
           && ch'.stack == ch.stack + [Frame(n, [])] && ch'.phase.Inserted? && !ef.start && !ef.close
           && e == Entry(c, None, None, false) && !ch.phase.Inserted? && !ch.phase.Released?)
      && (n in s.entries && !e.ready ==> // owner or result written
           && ch'.stack == ch.stack && !ch'.phase.Inserted? && !ef.close
           && e.owner == OwnerOnStack(ch', c, |ch.stack| - 1))
      && (n in s.entries && e.ready ==> // closed
           && ch'.stack == ch.stack[..|ch.stack| - 1] && ch'.phase.Returning? && ef.close
           && e.owner.None? && e.outcome.Some?)
  }

  lemma MoveIsLocal(sys: System, s: State, c: Cid)
    requires Enabled(s, c) && FramesOwned(s, c) && PhaseOk(s, c)
    ensures LocalEffect(s, c, Move(sys, s, c))
  {
  }

  lemma ApplyKeepsFrames(s: State, c: Cid, ef: Effect, d: Cid)
    requires c in s.checkers && FramesOwned(s, c) && LocalEffect(s, c, ef)
    requires d in s.checkers && FramesOwned(s, d)
    ensures FramesOwned(Apply(s, c, ef), d)
  {
  }

  lemma ApplyKeepsEntries(s: State, c: Cid, ef: Effect, n: Name)
    requires c in s.checkers && FramesOwned(s, c) && LocalEffect(s, c, ef)
    requires n in s.entries ==> EntryOk(s, n)
    requires n in Apply(s, c, ef).entries
    ensures EntryOk(Apply(s, c, ef), n)
  {
    var s' := Apply(s, c, ef);
    var cr := s'.entries[n].creator;
    if n in s.entries {
      if !s'.entries[n].ready {
        var i :| 0 <= i < |s.checkers[cr].stack| && s.checkers[cr].stack[i].name == n;
        assert s'.checkers[cr].stack[i].name == n;
      }
    } else {
      assert s'.checkers[cr].stack[|s'.checkers[cr].stack| - 1].name == n;
    }
  }

  lemma ApplyKeepsCounts(s: State, c: Cid, ef: Effect, n: Name)
    requires c in s.checkers && FramesOwned(s, c) && LocalEffect(s, c, ef)
    requires Counted(s, n)
    requires n in s.entries ==> EntryOk(s, n)
    ensures Counted(Apply(s, c, ef), n)
  {
  }

  /** What an entry says once it is ready, it says in every later state. */
  lemma ApplyKeepsReady(s: State, c: Cid, ef: Effect, n: Name)
    requires c in s.checkers && LocalEffect(s, c, ef)
    requires n in s.entries && s.entries[n].ready
    ensures n in Apply(s, c, ef).entries && Apply(s, c, ef).entries[n] == s.entries[n]
  {
  }

  lemma StepKeepsPhases(sys: System, s: State, c: Cid, d: Cid)
    requires Structure(s) && Enabled(s, c) && d in s.checkers
    ensures PhaseOk(Step(sys, s, c), d)
  {
    MoveIsLocal(sys, s, c);
    assert PhaseOk(s, c);
    if d == c {
      if s.checkers[c].phase.Walking? && s.entries[s.checkers[c].phase.at].owner.Some? {
        OwnersExist(s, s.checkers[c].phase.at);
      }
      MoveKeepsPhase(sys, s, c);
    } else { 
      OthersKeepPhase(s, c, Move(sys, s, c), d);
    }
  }

  lemma OthersKeepPhase(s: State, c: Cid, ef: Effect, d: Cid)
    requires c in s.checkers && FramesOwned(s, c) && LocalEffect(s, c, ef)
    requires d in s.checkers && d != c && FramesOwned(s, d) && PhaseOk(s, d)
    ensures PhaseOk(Apply(s, c, ef), d)
  {
  }

  /** The pointers a walking checker follows lead to existing checkers and entries. */
  lemma OwnersExist(s: State, n: Name)
    requires Structure(s) && n in s.entries && s.entries[n].owner.Some?
    ensures s.entries[n].owner == Some(s.entries[n].creator)
    ensures s.entries[n].creator in s.checkers && !s.entries[n].ready
  {
    assert EntryOk(s, n);
    var i := LoadingEntry(s, n);
  }

  lemma MoveKeepsPhase(sys: System, s: State, c: Cid)
    requires Enabled(s, c) && FramesOwned(s, c) && PhaseOk(s, c)
    requires s.checkers[c].phase.Walking? && s.entries[s.checkers[c].phase.at].owner.Some? ==>
               s.entries[s.checkers[c].phase.at].owner.value in s.checkers
    requires s.checkers[c].phase.Hopping? ==> PhaseOk(s, s.checkers[c].phase.via)
    ensures PhaseOk(Step(sys, s, c), c)
  {
    if WorksOnTop(s.checkers[c].phase) { WorkKeepsPhase(sys, s, c); } else { RequestKeepsPhase(sys, s, c); }
  }

  lemma WorkKeepsPhase(sys: System, s: State, c: Cid)
    requires Enabled(s, c) && FramesOwned(s, c) && PhaseOk(s, c) && WorksOnTop(s.checkers[c].phase)
    ensures PhaseOk(Step(sys, s, c), c)
  {
  }

  lemma RequestKeepsPhase(sys: System, s: State, c: Cid)
    requires Enabled(s, c) && FramesOwned(s, c) && PhaseOk(s, c) && !WorksOnTop(s.checkers[c].phase)
    requires s.checkers[c].phase.Walking? && s.entries[s.checkers[c].phase.at].owner.Some? ==>
               s.entries[s.checkers[c].phase.at].owner.value in s.checkers
    requires s.checkers[c].phase.Hopping? ==> PhaseOk(s, s.checkers[c].phase.via)
    ensures PhaseOk(Step(sys, s, c), c)
  {
  }

  lemma StepKeepsResults(sys: System, s: State, c: Cid, r: (Name, Outcome))
    requires Structure(s) && Enabled(s, c) && r in Step(sys, s, c).results
    ensures ResultOk(Step(sys, s, c), r)
  {
    assert FramesOwned(s, c) && PhaseOk(s, c);
    MoveIsLocal(sys, s, c);
    if r in s.results {
      assert ResultOk(s, r);
      if r.1 != ALARM { ApplyKeepsReady(s, c, Move(sys, s, c), r.0); }
    } else if s.checkers[c].phase.Woken? {
      assert EntryOk(s, r.0);
    }
  }

  lemma StepKeepsStructure(sys: System, s: State, c: Cid)
    requires Structure(s) && Enabled(s, c)
    ensures Structure(Step(sys, s, c))
  {
    var ef, s' := Move(sys, s, c), Step(sys, s, c);
    assert FramesOwned(s, c) && PhaseOk(s, c);
    MoveIsLocal(sys, s, c);
    forall d | d in s'.checkers ensures FramesOwned(s', d) && PhaseOk(s', d) {
      ApplyKeepsFrames(s, c, ef, d);
      StepKeepsPhases(sys, s, c, d);
    }
    forall n | n in s'.entries ensures EntryOk(s', n) { ApplyKeepsEntries(s, c, ef, n); }
    forall n ensures Counted(s', n) { ApplyKeepsCounts(s, c, ef, n); }
    forall r | r in s'.results ensures ResultOk(s', r) { StepKeepsResults(sys, s, c, r); }
  }

  lemma DoKeepsStructure(sys: System, s: State, l: Label)
    requires Structure(s)
    ensures Structure(Do(sys, s, l))
  {
    match l
    case Go(c) => if Enabled(s, c) { StepKeepsStructure(sys, s, c); }
    case Spawn(c, n) =>
      var s' := Do(sys, s, l);
      if c !in s.checkers {
        forall d | d in s'.checkers ensures FramesOwned(s', d) && PhaseOk(s', d) {
          if d != c { assert FramesOwned(s, d) && PhaseOk(s, d); }
        }
        forall m | m in s'.entries ensures EntryOk(s', m) { assert EntryOk(s, m); }
        forall m ensures Counted(s', m) {
          assert Counted(s, m);
          if m in s.entries { assert EntryOk(s, m); }
        }
        forall r | r in s'.results ensures ResultOk(s', r) { assert ResultOk(s, r); }
      }
  }

  /* ---------- theorems for every schedule, whatever the grain ---------- */

  lemma {:induction false} RunKeepsStructure(sys: System, schedule: seq<Label>)
    ensures Structure(Run(sys, schedule))
  {
    if schedule != [] {
      RunKeepsStructure(sys, schedule[..|schedule| - 1]);
      DoKeepsStructure(sys, Run(sys, schedule[..|schedule| - 1]), schedule[|schedule| - 1]);
    }
  }

  /** However the calls interleave, a module is executed at most once and its channel closed at most once, after that. */
  lemma {:induction false} LoadedAtMostOnce(sys: System, schedule: seq<Label>, n: Name)
    ensures var s := Run(sys, schedule);
      s.closes[n] <= s.starts[n] <= 1
  {
    RunKeepsStructure(sys, schedule);
    var s := Run(sys, schedule);
    assert Counted(s, n);
    if n in s.entries {
      assert EntryOk(s, n);
      if s.entries[n].creator in s.checkers { assert FramesOwned(s, s.entries[n].creator); }
    }
  }

  lemma DoKeepsReady(sys: System, s: State, l: Label, n: Name)
    requires Structure(s) && n in s.entries && s.entries[n].ready
    ensures n in Do(sys, s, l).entries && Do(sys, s, l).entries[n] == s.entries[n]
  {
    if l.Go? && Enabled(s, l.c) {
      assert FramesOwned(s, l.c) && PhaseOk(s, l.c);
      MoveIsLocal(sys, s, l.c);
      ApplyKeepsReady(s, l.c, Move(sys, s, l.c), n);
    }
  }

  lemma RunOneMore(sys: System, schedule: seq<Label>, more: seq<Label>)
    requires more != []
    ensures Run(sys, schedule + more) == Do(sys, Run(sys, schedule + more[..|more| - 1]), more[|more| - 1])
  {
    assert (schedule + more)[..|schedule + more| - 1] == schedule + more[..|more| - 1];
  }

  /** Once closed, an entry is never written again. */
  lemma {:induction false} ReadyIsForever(sys: System, schedule: seq<Label>, more: seq<Label>, n: Name)
    requires n in Run(sys, schedule).entries && Run(sys, schedule).entries[n].ready
    ensures n in Run(sys, schedule + more).entries
    ensures Run(sys, schedule + more).entries[n] == Run(sys, schedule).entries[n]
    decreases |more|
  {
    if more == [] {
      assert schedule + more == schedule;
    } else {
      var before := more[..|more| - 1];
      ReadyIsForever(sys, schedule, before, n);
      RunOneMore(sys, schedule, more);
      RunKeepsStructure(sys, schedule + before);
      DoKeepsReady(sys, Run(sys, schedule + before), more[|more| - 1], n);
    }
  }

  /** Any two calls of `get` for one name that do not report a cycle return the same result. */
  lemma {:induction false} GetsAgree(sys: System, schedule: seq<Label>, i: nat, j: nat)
    requires i < |Run(sys, schedule).results| && j < |Run(sys, schedule).results|
    ensures var r := Run(sys, schedule).results;
      r[i].0 == r[j].0 && r[i].1 != ALARM && r[j].1 != ALARM ==> r[i].1 == r[j].1
  {
    RunKeepsStructure(sys, schedule);
    var s := Run(sys, schedule);
    assert ResultOk(s, s.results[i]) && ResultOk(s, s.results[j]);
  }

  /* ---------- calls return what they were asked for ---------- */

  /** The module a call was started for. */
  function AskedFor(schedule: seq<Label>, c: Cid): Option<Name> {
    if schedule == [] then None
    else
      var before, l := AskedFor(schedule[..|schedule| - 1], c), schedule[|schedule| - 1];
      if before.Some? then before else if l.Spawn? && l.c == c then Some(l.name) else None
  }

  /** The call is about `n`, at the bottom of its stack or as what it gets, and what it returns is recorded. */
  predicate Serves(ch: Checker, n: Name, results: seq<(Name, Outcome)>) {
    && (if ch.stack == [] then (HasName(ch.phase) || ch.phase.Complete?) && ch.phase.name == n else ch.stack[0].name == n)
    && (ch.phase.Returning? || ch.phase.Complete? ==> (ch.phase.name, ch.phase.outcome) in results)
  }

  lemma MoveServes(sys: System, s: State, c: Cid, n: Name)
    requires Enabled(s, c) && PhaseOk(s, c) && Serves(s.checkers[c], n, s.results)
    ensures Serves(Move(sys, s, c).checker, n, Step(sys, s, c).results)
  {
  }

  ghost predicate AllServe(s: State, schedule: seq<Label>) {
    forall c :: c in s.checkers ==> AskedFor(schedule, c).Some? && Serves(s.checkers[c], AskedFor(schedule, c).value, s.results)
  }

  lemma DoServes(sys: System, s: State, schedule: seq<Label>, l: Label)
    requires Structure(s) && AllServe(s, schedule) && forall c :: c !in s.checkers ==> AskedFor(schedule, c).None?
    ensures var s' := Do(sys, s, l);
      AllServe(s', schedule + [l]) && forall c :: c !in s'.checkers ==> AskedFor(schedule + [l], c).None?
  {
    var s', all := Do(sys, s, l), schedule + [l];
    assert all[..|schedule|] == schedule;
    forall c | c in s'.checkers ensures AskedFor(all, c).Some? && Serves(s'.checkers[c], AskedFor(all, c).value, s'.results) {
      if c in s.checkers {
        assert Serves(s.checkers[c], AskedFor(schedule, c).value, s.results);
        if l == Go(c) && Enabled(s, c) {
          assert PhaseOk(s, c);
          MoveServes(sys, s, c, AskedFor(schedule, c).value);
        }
      }
    }
  }

  lemma {:induction false} RunServes(sys: System, schedule: seq<Label>)
    ensures AllServe(Run(sys, schedule), schedule)
    ensures forall c :: c !in Run(sys, schedule).checkers ==> AskedFor(schedule, c).None?
  {
    if schedule != [] {
      var front, l := schedule[..|schedule| - 1], schedule[|schedule| - 1];
      RunServes(sys, front);
      RunKeepsStructure(sys, front);
      DoServes(sys, Run(sys, front), front, l);
      assert schedule == front + [l];
    }
  }

  /** A call that has returned has returned a recorded result of the module it was started for. */
  lemma {:induction false} CallsReturn(sys: System, schedule: seq<Label>, c: Cid)
    requires c in Run(sys, schedule).checkers && Run(sys, schedule).checkers[c].phase.Complete?
    ensures var s := Run(sys, schedule);
      && AskedFor(schedule, c) == Some(s.checkers[c].phase.name)
      && (s.checkers[c].phase.name, s.checkers[c].phase.outcome) in s.results
  {
    RunServes(sys, schedule);
    RunKeepsStructure(sys, schedule);
    var s := Run(sys, schedule);
    assert PhaseOk(s, c) && Serves(s.checkers[c], AskedFor(schedule, c).value, s.results);
  }
}
