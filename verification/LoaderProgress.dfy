/**
  Every load returns: with the check and the wait as one step, or on a library in which no
  load cycle passes through two modules, the steps that a number of calls can take are
  bounded, whatever the schedule, and since the calls are never stuck, they all complete.
 */
module LoaderProgress {
  import opened Basics
  import opened LoadGraph
  import opened WaitsForGraph
  import opened LoaderProtocol
  import opened LoaderSoundness
  import opened LoaderOverlap

  /** Systems that cannot deadlock. */
  ghost predicate Tame(sys: System) {
    sys.grain.Fused? || !Entangled(sys.lib)
  }

  ghost predicate Regular(sys: System, s: State) {
    Loose(sys.lib, s) && (sys.grain.Fused? ==> FusedPhases(s))
  }

  /** All names a load can come to ask for, and the greatest number of loads of one module. */
  datatype Bounds = Bounds(names: set<Name>, width: nat)

  ghost predicate Bounded(lib: Library, b: Bounds) {
    forall n :: n in lib ==> |lib[n].loads| <= b.width && forall i :: 0 <= i < |lib[n].loads| ==> lib[n].loads[i] in b.names
  }

  /* ---------- the work a checker has left ---------- */

  function LeftOf(lib: Library, f: Frame): nat {
    var n := |Lookup(lib, f.name).loads|;
    if |f.loaded| < n then n - |f.loaded| else 0
  }

  function Left(lib: Library, stack: seq<Frame>): nat {
    if stack == [] then 0 else Left(lib, stack[..|stack| - 1]) + LeftOf(lib, stack[|stack| - 1])
  }

  /** Phases count down to the return of a `get`. */
  function Rank(p: Phase): nat {
    match p
    case Inserted => 10
    case Executing => 9
    case Requesting(_) => 8
    case Found(_) => 7
    case Walking(_, _) => 7
    case Hopping(_, _) => 7
    case Checked(_) => 6
    case Waiting(_) => 5
    case Woken(_) => 4
    case Returning(_, _) => 3
    case Finished(_) => 2
    case Stored => 1
    case Released => 0
    case Complete(_, _) => 0
  }

  function Work(lib: Library, ch: Checker): nat {
    10 * (Left(lib, ch.stack) + |ch.stack|) + Rank(ch.phase)
  }

  /** A frame that waits for a load has one left. */
  ghost predicate OnCourse(lib: Library, b: Bounds, ch: Checker) {
    && (forall i :: 0 <= i < |ch.stack| && (i < |ch.stack| - 1 || HasName(ch.phase)) ==> LeftOf(lib, ch.stack[i]) > 0)
    && (ch.phase.Requesting? ==> ch.phase.name in b.names)
  }

  lemma LeftPop(lib: Library, stack: seq<Frame>)
    requires |stack| > 0
    ensures Left(lib, stack) == Left(lib, stack[..|stack| - 1]) + LeftOf(lib, stack[|stack| - 1])
  {
  }

  lemma LeftPush(lib: Library, stack: seq<Frame>, f: Frame)
    ensures Left(lib, stack + [f]) == Left(lib, stack) + LeftOf(lib, f)
  {
    assert (stack + [f])[..|stack|] == stack;
  }

  lemma LeftSwap(lib: Library, stack: seq<Frame>, f: Frame)
    requires |stack| > 0
    ensures Left(lib, stack[|stack| - 1 := f]) + LeftOf(lib, stack[|stack| - 1]) == Left(lib, stack) + LeftOf(lib, f)
  {
    assert stack[|stack| - 1 := f][..|stack| - 1] == stack[..|stack| - 1];
  }

  /** The extra work a new entry brings. */
  function Unit(b: Bounds): nat {
    10 * b.width + 13
  }

  predicate Inserts(s: State, c: Cid)
    requires c in s.checkers
  {
    s.checkers[c].phase.Requesting? && s.checkers[c].phase.name !in s.entries
  }

  /** The steps of a walk: loads of one pointer each. */
  predicate Walks(p: Phase) {
    p.Walking? || p.Hopping?
  }

  ghost predicate Advances(lib: Library, b: Bounds, ch: Checker, ch': Checker, extra: nat) {
    OnCourse(lib, b, ch') && Work(lib, ch') < Work(lib, ch) + extra
  }

  lemma InsertAdvances(lib: Library, b: Bounds, ch: Checker, n: Name)
    requires Bounded(lib, b) && OnCourse(lib, b, ch) && ch.phase == Requesting(n)
    ensures Advances(lib, b, ch, ch.(stack := ch.stack + [Frame(n, [])], phase := Inserted), Unit(b))
  {
    LeftPush(lib, ch.stack, Frame(n, []));
  }

  lemma PopAdvances(lib: Library, b: Bounds, ch: Checker, p: Phase)
    requires OnCourse(lib, b, ch) && |ch.stack| > 0 && p.Returning?
    ensures Advances(lib, b, ch, ch.(stack := ch.stack[..|ch.stack| - 1], phase := p), 0)
  {
    LeftPop(lib, ch.stack);
  }

  lemma RunAdvances(lib: Library, b: Bounds, ch: Checker)
    requires Bounded(lib, b) && OnCourse(lib, b, ch) && |ch.stack| > 0 && ch.phase.Executing?
    ensures Advances(lib, b, ch, ch.(phase := RunCode(lib, Top(ch))), 0)
  {
  }

  lemma SameStackAdvances(lib: Library, b: Bounds, ch: Checker, ch': Checker)
    requires OnCourse(lib, b, ch) && ch'.stack == ch.stack && Rank(ch'.phase) <= Rank(ch.phase)
    requires !ch'.phase.Requesting? && (HasName(ch'.phase) ==> HasName(ch.phase))
    ensures Advances(lib, b, ch, ch', if Rank(ch'.phase) < Rank(ch.phase) then 0 else 1)
  {
  }

  lemma ResumeAdvances(lib: Library, b: Bounds, ch: Checker, n: Name, o: Outcome)
    requires ch.stack != [] && o.Loaded? && ch.phase == Returning(n, o) && OnCourse(lib, b, ch)
    ensures Advances(lib, b, ch, Resumed(ch, n, o), 0)
  {
    var f := Top(ch);
    LeftSwap(lib, ch.stack, Frame(f.name, f.loaded + [o.globals]));
  }

  /** What a step may add to the work: nothing, unless it inserts an entry or goes on with a walk. */
  ghost function Extra(b: Bounds, sys: System, s: State, c: Cid): nat
    requires Enabled(s, c)
  {
    if Inserts(s, c) then Unit(b) else if GoesOn(sys, s, c) then 1 else 0
  }

  /** The step leads from one pointer of a walk to the next. */
  ghost predicate GoesOn(sys: System, s: State, c: Cid)
    requires Enabled(s, c)
  {
    Walks(s.checkers[c].phase) && Walks(Move(sys, s, c).checker.phase)
  }

  lemma MoveAdvances(sys: System, b: Bounds, s: State, c: Cid)
    requires Bounded(sys.lib, b) && Enabled(s, c) && PhaseOk(s, c) && OnCourse(sys.lib, b, s.checkers[c])
    ensures Advances(sys.lib, b, s.checkers[c], Move(sys, s, c).checker, Extra(b, sys, s, c))
  {
    var ch, ch' := s.checkers[c], Move(sys, s, c).checker;
    if Inserts(s, c) {
      InsertAdvances(sys.lib, b, ch, ch.phase.name);
    } else if ch.phase.Executing? {
      RunAdvances(sys.lib, b, ch);
    } else if ch.phase.Released? {
      PopAdvances(sys.lib, b, ch, ch'.phase);
    } else if ch.phase.Returning? && ch.stack != [] && ch.phase.outcome.Loaded? {
      ResumeAdvances(sys.lib, b, ch, ch.phase.name, ch.phase.outcome);
    } else {
      OthersSameStack(sys, s, c);
      SameStackAdvances(sys.lib, b, ch, ch');
    }
  }

  lemma OthersSameStack(sys: System, s: State, c: Cid)
    requires Enabled(s, c)
    requires var p := s.checkers[c].phase;
      && !Inserts(s, c) && !p.Executing? && !p.Released?
      && (p.Returning? && s.checkers[c].stack != [] ==> p.outcome.Failed?)
    ensures var ch, ch' := s.checkers[c], Move(sys, s, c).checker;
      && ch'.stack == ch.stack
      && (if GoesOn(sys, s, c) then Rank(ch'.phase) == Rank(ch.phase) else Rank(ch'.phase) < Rank(ch.phase))
      && !ch'.phase.Requesting? && (HasName(ch'.phase) ==> HasName(ch.phase))
  {
  }

  /* ---------- sums over all checkers ---------- */

  /** `n` times `u`. */
  function Times(n: nat, u: nat): nat {
    if n == 0 then 0 else u + Times(n - 1, u)
  }

  lemma {:induction false} TimesAdd(m: nat, n: nat, u: nat)
    ensures Times(m + n, u) == Times(m, u) + Times(n, u)
  {
    if m > 0 { TimesAdd(m - 1, n, u); }
  }

  lemma TimesGrows(m: nat, n: nat, u: nat)
    requires m <= n
    ensures Times(m, u) <= Times(n, u)
  {
    TimesAdd(m, n - m, u);
  }

  ghost function Sum(m: map<Cid, nat>): nat
    decreases m.Keys
  {
    if c :| c in m then m[c] + Sum(m - {c}) else 0
  }

  lemma {:induction false} SumWithout(m: map<Cid, nat>, c: Cid)
    requires c in m
    ensures Sum(m) == m[c] + Sum(m - {c})
    decreases m.Keys
  {
    var d :| d in m && Sum(m) == m[d] + Sum(m - {d});
    if d != c {
      SumWithout(m - {d}, c);
      SumWithout(m - {c}, d);
      assert m - {d} - {c} == m - {c} - {d};
    }
  }

  lemma SumUpdate(m: map<Cid, nat>, c: Cid, v: nat)
    ensures Sum(m[c := v]) + (if c in m then m[c] else 0) == Sum(m) + v
  {
    SumWithout(m[c := v], c);
    assert m[c := v] - {c} == m - {c};
    if c in m { SumWithout(m, c); } else { assert m - {c} == m; }
  }

  lemma {:induction false} SumBound(m: map<Cid, nat>, b: nat)
    requires forall c :: c in m ==> m[c] <= b
    ensures Sum(m) <= Times(|m.Keys|, b)
    decreases m.Keys
  {
    if c :| c in m {
      SumWithout(m, c);
      SumBound(m - {c}, b);
      assert (m - {c}).Keys == m.Keys - {c};
    }
  }

  function Works(lib: Library, checkers: map<Cid, Checker>): map<Cid, nat> {
    map c | c in checkers :: Work(lib, checkers[c])
  }

  lemma WorkReplaced(lib: Library, checkers: map<Cid, Checker>, c: Cid, ch: Checker)
    ensures Sum(Works(lib, checkers[c := ch])) + (if c in checkers then Work(lib, checkers[c]) else 0)
         == Sum(Works(lib, checkers)) + Work(lib, ch)
  {
    assert Works(lib, checkers[c := ch]) == Works(lib, checkers)[c := Work(lib, ch)];
    SumUpdate(Works(lib, checkers), c, Work(lib, ch));
  }

  /** An upper bound for the steps still to come, walks aside. */
  ghost function Budget(sys: System, b: Bounds, s: State): nat {
    Times(|b.names - s.entries.Keys|, Unit(b)) + Sum(Works(sys.lib, s.checkers))
  }

  /** Everything asked for so far is within the bounds. */
  ghost predicate Within(sys: System, b: Bounds, s: State) {
    forall c :: c in s.checkers ==> OnCourse(sys.lib, b, s.checkers[c])
  }

  lemma StepSpends(sys: System, b: Bounds, s: State, c: Cid)
    requires Bounded(sys.lib, b) && Structure(s) && Within(sys, b, s) && Enabled(s, c)
    ensures Within(sys, b, Step(sys, s, c))
    ensures Budget(sys, b, Step(sys, s, c)) + (if GoesOn(sys, s, c) then 0 else 1) <= Budget(sys, b, s)
  {
    assert FramesOwned(s, c) && PhaseOk(s, c);
    MoveAdvances(sys, b, s, c);
    NewNames(sys, b, s, c);
    Spends(sys, b, s, c, Move(sys, s, c), Inserts(s, c), if GoesOn(sys, s, c) then 1 else 0);
  }

  lemma Spends(sys: System, b: Bounds, s: State, c: Cid, ef: Effect, inserts: bool, more: nat)
    requires c in s.checkers && Within(sys, b, s)
    requires Advances(sys.lib, b, s.checkers[c], ef.checker, if inserts then Unit(b) else more)
    requires |b.names - Apply(s, c, ef).entries.Keys| == |b.names - s.entries.Keys| - (if inserts then 1 else 0)
    ensures Within(sys, b, Apply(s, c, ef))
    ensures Budget(sys, b, Apply(s, c, ef)) < Budget(sys, b, s) + more
  {
    WorkReplaced(sys.lib, s.checkers, c, ef.checker);
  }

  /** An insertion uses up one of the names. */
  lemma NewNames(sys: System, b: Bounds, s: State, c: Cid)
    requires Enabled(s, c) && FramesOwned(s, c) && PhaseOk(s, c) && OnCourse(sys.lib, b, s.checkers[c])
    ensures var rest, rest' := b.names - s.entries.Keys, b.names - Step(sys, s, c).entries.Keys;
      |rest'| == |rest| - (if Inserts(s, c) then 1 else 0)
  {
    MoveIsLocal(sys, s, c);
    var s' := Step(sys, s, c);
    if Inserts(s, c) {
      var n := s.checkers[c].phase.name;
      assert b.names - s'.entries.Keys == b.names - s.entries.Keys - {n};
    } else {
      assert s'.entries.Keys == s.entries.Keys;
    }
  }

  /* ---------- walks ---------- */

  function Hops(g: Graph<Name, Cid>, at: Name, k: nat): (h: nat)
    ensures h <= k
    decreases k
  {
    if k > 0 && at in g.owner && g.owner[at] in g.waits then 1 + Hops(g, g.waits[g.owner[at]], k - 1) else 0
  }

  /** Where the walk ends anyway, a greater limit makes no difference. */
  lemma {:induction false} HopsEnd(g: Graph<Name, Cid>, at: Name, k: nat)
    requires Ends(g, at, k)
    ensures Hops(g, at, k + 1) == Hops(g, at, k)
    decreases k
  {
    if at in g.owner && g.owner[at] in g.waits { HopsEnd(g, g.waits[g.owner[at]], k - 1); }
  }

  /** The steps a walk still takes, if nothing else happens. */
  function WalkLeft(g: Graph<Name, Cid>, p: Phase, k: nat): (n: nat)
    ensures n <= 2 * k + 3
  {
    match p
    case Walking(_, at) => 2 * Hops(g, at, k) + 2
    case Hopping(_, via) => if via in g.waits then 2 * Hops(g, g.waits[via], k) + 3 else 1
    case _ => 0
  }

  lemma WalkShortens(sys: System, s: State, c: Cid)
    requires Regular(sys, s) && Tame(sys) && Enabled(s, c) && GoesOn(sys, s, c)
    ensures var k := |sys.lib|;
      WalkLeft(Wfg(s), Move(sys, s, c).checker.phase, k) < WalkLeft(Wfg(s), s.checkers[c].phase, k)
  {
    var p, g, k := s.checkers[c].phase, Wfg(s), |sys.lib|;
    if p.Walking? && g.owner[p.at] in g.waits {
      WalksAreShort(sys.lib, s, p.at);
      HopsEnd(g, g.waits[g.owner[p.at]], k - 1);
    }
  }

  function WalksLeft(g: Graph<Name, Cid>, checkers: map<Cid, Checker>, k: nat): map<Cid, nat> {
    map c | c in checkers :: WalkLeft(g, checkers[c].phase, k)
  }

  lemma WalkReplaced(g: Graph<Name, Cid>, checkers: map<Cid, Checker>, c: Cid, ch: Checker, k: nat)
    ensures Sum(WalksLeft(g, checkers[c := ch], k)) + (if c in checkers then WalkLeft(g, checkers[c].phase, k) else 0)
         == Sum(WalksLeft(g, checkers, k)) + WalkLeft(g, ch.phase, k)
  {
    assert WalksLeft(g, checkers[c := ch], k) == WalksLeft(g, checkers, k)[c := WalkLeft(g, ch.phase, k)];
    SumUpdate(WalksLeft(g, checkers, k), c, WalkLeft(g, ch.phase, k));
  }

  lemma SameGraph(s: State, s': State, c: Cid, ch: Checker)
    requires c in s.checkers && ch.waitsFor == s.checkers[c].waitsFor
    requires s'.entries == s.entries && s'.checkers == s.checkers[c := ch]
    ensures Wfg(s') == Wfg(s)
  {
  }

  /** A step of a walk leaves the waits-for graph alone. */
  lemma WalkKeepsGraph(sys: System, s: State, c: Cid)
    requires Enabled(s, c) && GoesOn(sys, s, c)
    ensures Wfg(Step(sys, s, c)) == Wfg(s)
  {
    SameGraph(s, Step(sys, s, c), c, Move(sys, s, c).checker);
  }

  ghost function AllWalks(sys: System, s: State): nat {
    Sum(WalksLeft(Wfg(s), s.checkers, |sys.lib|))
  }

  lemma WalksShorten(sys: System, s: State, c: Cid)
    requires Regular(sys, s) && Tame(sys) && Enabled(s, c) && GoesOn(sys, s, c)
    ensures AllWalks(sys, Step(sys, s, c)) < AllWalks(sys, s)
  {
    WalkKeepsGraph(sys, s, c);
    WalkShortens(sys, s, c);
    WalkReplaced(Wfg(s), s.checkers, c, Move(sys, s, c).checker, |sys.lib|);
  }

  /** More than all walks of that many calls. */
  function Span(sys: System, calls: nat): nat {
    Times(calls, 2 * |sys.lib| + 3) + 1
  }

  lemma WalksFit(sys: System, s: State, calls: nat)
    requires |s.checkers.Keys| <= calls
    ensures AllWalks(sys, s) < Span(sys, calls)
  {
    var m := WalksLeft(Wfg(s), s.checkers, |sys.lib|);
    SumBound(m, 2 * |sys.lib| + 3);
    assert m.Keys == s.checkers.Keys;
    TimesGrows(|s.checkers.Keys|, calls, 2 * |sys.lib| + 3);
  }

  /** An upper bound for all steps still to come. */
  ghost function Fuel(sys: System, b: Bounds, s: State, calls: nat): nat {
    Times(Budget(sys, b, s), Span(sys, calls)) + AllWalks(sys, s)
  }

  /** Either as much is left to do and the walks are shorter, or less is left to do. */
  lemma Burns(budget: nat, budget': nat, walks: nat, walks': nat, span: nat)
    requires budget' <= budget && (walks' < walks || (budget' < budget && walks' < span))
    ensures Times(budget', span) + walks' < Times(budget, span) + walks
  {
    if walks' < walks { TimesGrows(budget', budget, span); } else { TimesGrows(budget' + 1, budget, span); }
  }

  lemma FuelBurns(sys: System, b: Bounds, s: State, s': State, calls: nat)
    requires Budget(sys, b, s') <= Budget(sys, b, s)
    requires AllWalks(sys, s') < AllWalks(sys, s) || (Budget(sys, b, s') < Budget(sys, b, s) && |s'.checkers.Keys| <= calls)
    ensures Fuel(sys, b, s', calls) < Fuel(sys, b, s, calls)
  {
    if |s'.checkers.Keys| <= calls { WalksFit(sys, s', calls); }
    Burns(Budget(sys, b, s), Budget(sys, b, s'), AllWalks(sys, s), AllWalks(sys, s'), Span(sys, calls));
  }

  lemma WalkBurns(sys: System, b: Bounds, s: State, c: Cid, calls: nat)
    requires Tame(sys) && Bounded(sys.lib, b) && Regular(sys, s) && Within(sys, b, s) && Enabled(s, c) && GoesOn(sys, s, c)
    ensures Fuel(sys, b, Step(sys, s, c), calls) < Fuel(sys, b, s, calls)
  {
    StepSpends(sys, b, s, c);
    WalksShorten(sys, s, c);
    FuelBurns(sys, b, s, Step(sys, s, c), calls);
  }

  lemma WorkBurns(sys: System, b: Bounds, s: State, c: Cid, calls: nat)
    requires Bounded(sys.lib, b) && Structure(s) && Within(sys, b, s) && Enabled(s, c) && !GoesOn(sys, s, c)
    requires |s.checkers.Keys| <= calls
    ensures Fuel(sys, b, Step(sys, s, c), calls) < Fuel(sys, b, s, calls)
  {
    StepSpends(sys, b, s, c);
    SameCheckers(sys, s, c);
    FuelBurns(sys, b, s, Step(sys, s, c), calls);
  }

  lemma SameCheckers(sys: System, s: State, c: Cid)
    requires Enabled(s, c)
    ensures Step(sys, s, c).checkers.Keys == s.checkers.Keys
  {
  }

  lemma StepBurns(sys: System, b: Bounds, s: State, c: Cid, calls: nat)
    requires Tame(sys) && Bounded(sys.lib, b) && Regular(sys, s) && Within(sys, b, s) && Enabled(s, c)
    requires |s.checkers.Keys| <= calls
    ensures Within(sys, b, Step(sys, s, c))
    ensures Fuel(sys, b, Step(sys, s, c), calls) < Fuel(sys, b, s, calls)
  {
    StepSpends(sys, b, s, c);
    if GoesOn(sys, s, c) { WalkBurns(sys, b, s, c, calls); } else { WorkBurns(sys, b, s, c, calls); }
  }

  /* ---------- schedules ---------- */

  /** The steps of a schedule that were possible. */
  ghost function Taken(sys: System, schedule: seq<Label>): nat {
    if schedule == [] then 0
    else
      var l := schedule[|schedule| - 1];
      Taken(sys, schedule[..|schedule| - 1])
        + (if l.Go? && Enabled(Run(sys, schedule[..|schedule| - 1]), l.c) then 1 else 0)
  }

  function Spawned(schedule: seq<Label>): nat {
    if schedule == [] then 0
    else Spawned(schedule[..|schedule| - 1]) + (if schedule[|schedule| - 1].Spawn? then 1 else 0)
  }

  ghost predicate Asked(b: Bounds, schedule: seq<Label>) {
    forall i :: 0 <= i < |schedule| && schedule[i].Spawn? ==> schedule[i].name in b.names
  }

  lemma {:induction false} CheckersWereSpawned(sys: System, schedule: seq<Label>)
    ensures |Run(sys, schedule).checkers.Keys| <= Spawned(schedule)
  {
    if schedule != [] {
      CheckersWereSpawned(sys, schedule[..|schedule| - 1]);
      var s, l := Run(sys, schedule[..|schedule| - 1]), schedule[|schedule| - 1];
      var s' := Do(sys, s, l);
      if l.Spawn? && l.c !in s.checkers {
        assert s'.checkers.Keys == s.checkers.Keys + {l.c};
      } else {
        assert s'.checkers.Keys == s.checkers.Keys;
      }
    }
  }

  lemma {:induction false} RunIsRegular(sys: System, schedule: seq<Label>)
    ensures Regular(sys, Run(sys, schedule))
  {
    RunIsLoose(sys, schedule);
    if sys.grain.Fused? { FusedRun(sys, schedule); }
  }

  lemma SpawnAdds(sys: System, b: Bounds, s: State, c: Cid, n: Name)
    requires Within(sys, b, s) && n in b.names
    ensures var s' := Do(sys, s, Spawn(c, n));
      Within(sys, b, s') && Budget(sys, b, s') <= Budget(sys, b, s) + 8
  {
    var ch, s' := Checker([], Requesting(n), None), Do(sys, s, Spawn(c, n));
    if c !in s.checkers { WorkReplaced(sys.lib, s.checkers, c, ch); }
  }

  lemma SpawnKeepsWalks(sys: System, s: State, c: Cid, n: Name)
    ensures AllWalks(sys, Do(sys, s, Spawn(c, n))) == AllWalks(sys, s)
  {
    var s', k := Do(sys, s, Spawn(c, n)), |sys.lib|;
    if c !in s.checkers {
      assert Wfg(s') == Wfg(s);
      WalkReplaced(Wfg(s), s.checkers, c, Checker([], Requesting(n), None), k);
    }
  }

  /** What a scheduling decision costs: a step at least one, and a new call at most eight spans more. */
  lemma LabelBurns(sys: System, b: Bounds, s: State, l: Label, calls: nat)
    requires Tame(sys) && Bounded(sys.lib, b) && Regular(sys, s) && Within(sys, b, s)
    requires |s.checkers.Keys| <= calls && (l.Spawn? ==> l.name in b.names)
    ensures Within(sys, b, Do(sys, s, l))
    ensures Fuel(sys, b, Do(sys, s, l), calls) + (if l.Go? && Enabled(s, l.c) then 1 else 0)
      <= Fuel(sys, b, s, calls) + (if l.Spawn? then Times(8, Span(sys, calls)) else 0)
  {
    match l
    case Go(c) => if Enabled(s, c) { StepBurns(sys, b, s, c, calls); }
    case Spawn(c, n) =>
      SpawnAdds(sys, b, s, c, n);
      SpawnKeepsWalks(sys, s, c, n);
      AddsEight(Budget(sys, b, s), Budget(sys, b, Do(sys, s, l)), Span(sys, calls));
  }

  lemma AddsEight(budget: nat, budget': nat, span: nat)
    requires budget' <= budget + 8
    ensures Times(budget', span) <= Times(budget, span) + Times(8, span)
  {
    TimesGrows(budget', budget + 8, span);
    TimesAdd(budget, 8, span);
  }

  lemma LastLabel(sys: System, schedule: seq<Label>)
    requires schedule != []
    ensures var front, l := schedule[..|schedule| - 1], schedule[|schedule| - 1];
      && Run(sys, schedule) == Do(sys, Run(sys, front), l)
      && Taken(sys, schedule) == Taken(sys, front) + (if l.Go? && Enabled(Run(sys, front), l.c) then 1 else 0)
      && Spawned(schedule) == Spawned(front) + (if l.Spawn? then 1 else 0)
  {
  }

  /** The steps any schedule of so many calls can take. */
  function Limit(sys: System, b: Bounds, calls: nat, spawned: nat): nat {
    Times(Times(|b.names|, Unit(b)) + 8 * spawned, Span(sys, calls))
  }

  ghost function FuelAfter(sys: System, b: Bounds, schedule: seq<Label>, calls: nat): nat {
    Fuel(sys, b, Run(sys, schedule), calls)
  }

  /** The steps taken and those at most still to come. */
  ghost function Spent(sys: System, b: Bounds, schedule: seq<Label>, calls: nat): nat {
    Taken(sys, schedule) + FuelAfter(sys, b, schedule, calls)
  }

  lemma {:induction false} RunIsWithin(sys: System, b: Bounds, schedule: seq<Label>)
    requires Tame(sys) && Bounded(sys.lib, b) && Asked(b, schedule)
    ensures Within(sys, b, Run(sys, schedule))
  {
    if schedule != [] {
      var front := schedule[..|schedule| - 1];
      RunIsWithin(sys, b, front);
      LabelSpends(sys, b, schedule, Spawned(front));
    }
  }

  /** The last scheduling decision of a schedule. */
  lemma LabelSpends(sys: System, b: Bounds, schedule: seq<Label>, calls: nat)
    requires Tame(sys) && Bounded(sys.lib, b) && schedule != [] && Asked(b, schedule)
    requires Within(sys, b, Run(sys, schedule[..|schedule| - 1])) && Spawned(schedule[..|schedule| - 1]) <= calls
    ensures Within(sys, b, Run(sys, schedule))
    ensures var front, l := schedule[..|schedule| - 1], schedule[|schedule| - 1];
      Spent(sys, b, schedule, calls)
        <= Spent(sys, b, front, calls) + (if l.Spawn? then Times(8, Span(sys, calls)) else 0)
  {
    var front, l := schedule[..|schedule| - 1], schedule[|schedule| - 1];
    LastLabel(sys, schedule);
    RunIsRegular(sys, front);
    CheckersWereSpawned(sys, front);
    LabelBurns(sys, b, Run(sys, front), l, calls);
  }

  /**
    Whatever the schedule, the steps taken and those still to come are bounded by the
    library and the number of calls.
   */
  lemma {:induction false} StepsAreBounded(sys: System, b: Bounds, schedule: seq<Label>, calls: nat)
    requires Tame(sys) && Bounded(sys.lib, b) && Asked(b, schedule) && Spawned(schedule) <= calls
    ensures Spent(sys, b, schedule, calls) <= Limit(sys, b, calls, Spawned(schedule))
  {
    if schedule == [] {
      StartsFull(sys, b, calls);
    } else {
      var front := schedule[..|schedule| - 1];
      SpawnedBefore(schedule);
      StepsAreBounded(sys, b, front, calls);
      RunIsWithin(sys, b, front);
      LabelSpends(sys, b, schedule, calls);
      LimitAfter(sys, b, calls, Spawned(front), Spawned(schedule));
    }
  }

  lemma SpawnedBefore(schedule: seq<Label>)
    requires schedule != []
    ensures Spawned(schedule) == Spawned(schedule[..|schedule| - 1]) + (if schedule[|schedule| - 1].Spawn? then 1 else 0)
  {
  }

  lemma NothingAdds(m: map<Cid, nat>)
    requires m.Keys == {}
    ensures Sum(m) == 0
  {
  }

  lemma StartsFull(sys: System, b: Bounds, calls: nat)
    ensures Fuel(sys, b, INIT, calls) == Limit(sys, b, calls, 0)
  {
    assert b.names - INIT.entries.Keys == b.names;
    NothingAdds(Works(sys.lib, INIT.checkers));
    NothingAdds(WalksLeft(Wfg(INIT), INIT.checkers, |sys.lib|));
    assert Budget(sys, b, INIT) == Times(|b.names|, Unit(b));
  }

  lemma LimitAfter(sys: System, b: Bounds, calls: nat, spawned: nat, spawned': nat)
    requires spawned <= spawned' <= spawned + 1
    ensures Limit(sys, b, calls, spawned')
         == Limit(sys, b, calls, spawned) + (if spawned' > spawned then Times(8, Span(sys, calls)) else 0)
  {
    if spawned' > spawned { TimesAdd(Times(|b.names|, Unit(b)) + 8 * spawned, 8, Span(sys, calls)); }
  }

  ghost predicate AllReturned(s: State) {
    forall c :: c in s.checkers ==> s.checkers[c].phase.Complete?
  }

  /** One more possible step leaves less to do. */
  lemma OneStepOn(sys: System, b: Bounds, schedule: seq<Label>, d: Cid, calls: nat)
    requires Tame(sys) && Bounded(sys.lib, b) && Asked(b, schedule) && Enabled(Run(sys, schedule), d) && Spawned(schedule) <= calls
    ensures Asked(b, schedule + [Go(d)]) && Spawned(schedule + [Go(d)]) == Spawned(schedule)
    ensures FuelAfter(sys, b, schedule + [Go(d)], calls) < FuelAfter(sys, b, schedule, calls)
  {
    var next := schedule + [Go(d)];
    assert next[..|next| - 1] == schedule;
    SpawnedBefore(next);
    LastLabel(sys, next);
    RunIsWithin(sys, b, schedule);
    LabelSpends(sys, b, next, calls);
  }

  ghost predicate AllReturn(sys: System, schedule: seq<Label>) {
    AllReturned(Run(sys, schedule))
  }

  lemma SomeStep(sys: System, b: Bounds, schedule: seq<Label>) returns (d: Cid)
    requires Tame(sys) && Bounded(sys.lib, b) && Asked(b, schedule) && !AllReturn(sys, schedule)
    ensures Asked(b, schedule + [Go(d)]) && Spawned(schedule + [Go(d)]) == Spawned(schedule)
    ensures FuelAfter(sys, b, schedule + [Go(d)], Spawned(schedule)) < FuelAfter(sys, b, schedule, Spawned(schedule))
  {
    var s := Run(sys, schedule);
    var c :| c in s.checkers && !s.checkers[c].phase.Complete?;
    if sys.grain.Fused? { NeverStuck(sys, schedule, c); } else { NeverStuckUnlessEntangled(sys, schedule, c); }
    d :| Enabled(s, d);
    OneStepOn(sys, b, schedule, d, Spawned(schedule));
  }

  lemma {:induction false} DrivenToTheEnd(sys: System, b: Bounds, schedule: seq<Label>, fuel: nat) returns (more: seq<Label>)
    requires Tame(sys) && Bounded(sys.lib, b) && Asked(b, schedule)
    requires FuelAfter(sys, b, schedule, Spawned(schedule)) == fuel
    ensures forall l :: l in more ==> l.Go?
    ensures AllReturn(sys, schedule + more)
    decreases fuel
  {
    if AllReturn(sys, schedule) {
      more := [];
      assert schedule + more == schedule;
    } else {
      var d := SomeStep(sys, b, schedule);
      var next := schedule + [Go(d)];
      var rest := DrivenToTheEnd(sys, b, next, FuelAfter(sys, b, next, Spawned(next)));
      more := [Go(d)] + rest;
      Regroup(sys, schedule, d, rest);
    }
  }

  lemma Regroup(sys: System, schedule: seq<Label>, d: Cid, rest: seq<Label>)
    requires AllReturn(sys, (schedule + [Go(d)]) + rest)
    ensures AllReturn(sys, schedule + ([Go(d)] + rest))
  {
    assert schedule + ([Go(d)] + rest) == (schedule + [Go(d)]) + rest;
  }

  /**
    From any state the calls can be driven to their end: as long as one is unfinished
    some call can step, and any way of taking such steps comes to an end.
   */
  lemma {:induction false} EveryLoadReturns(sys: System, b: Bounds, schedule: seq<Label>) returns (more: seq<Label>)
    requires Tame(sys) && Bounded(sys.lib, b) && Asked(b, schedule)
    ensures forall l :: l in more ==> l.Go?
    ensures AllReturned(Run(sys, schedule + more))
  {
    more := DrivenToTheEnd(sys, b, schedule, FuelAfter(sys, b, schedule, Spawned(schedule)));
  }
}
