/**
  What each request to the syncer comes to, spelled out: how a request to run ends, what a
  restart and a deletion do to check runs, and which manual steps are offered.
 */
module Outcomes {
  import opened Basics
  import opened LogParser
  import opened Names
  import opened Syncer
  import opened Reconcile

  /* ---------- requests to run ---------- */

  /** The workflow of a request: the definition, with labels and annotations to tell whom it is for. */
  predicate MadeFor(cfg: Config, req: Request, id: nat, wf: Workflow) {
    && req.definition.Readable?
    && wf.managedBy == Some(cfg.managedBy) && wf.run == Some(id) && wf.branch == On(req.ref)
    && wf.org == Some(LabelSafe(50, [req.org])) && wf.repo == Some(LabelSafe(50, [req.repo]))
    && (wf.refKnown <==> req.ref != "")
    && var made := req.definition.workflow;
       && wf.published == made.published && wf.deployments == made.deployments && wf.cancelled == made.cancelled
       && wf.phase == made.phase && wf.nodes == made.nodes && wf.steps == made.steps && wf.version == made.version
  }

  /** Workflows in the syncer's namespace with the labels of the repository, and of this ref or without annotations. */
  predicate Outdone(cfg: Config, req: Request, k: Key, wf: Workflow) {
    && (cfg.namespace != "" ==> k.0 == cfg.namespace)
    && wf.org == Some(LabelSafe(50, [req.org])) && wf.repo == Some(LabelSafe(50, [req.repo]))
    && (wf.branch.On? ==> wf.branch.ref == req.ref)
  }

  /** A definition for this kind of ref with the entrypoint asked for, and permission to run it. */
  predicate Accepted(req: Request) {
    req.definition.Readable? && req.definition.forRef && req.entrypointOk && req.allowed
  }

  /**
    A request without a definition, or with one for other kinds of ref, is ignored. Any
    other gets one check run: queued and named by the new workflow, or failed. Accepted
    requests cancel their rivals, and nothing else is changed.
   */
  lemma {:induction false} RequestEnds(cfg: Config, c: Cluster, req: Request)
    ensures var d, id, k := RunOf(cfg, c, req), c.nextID, (cfg.namespace, req.name);
      var made := Accepted(req) && req.volumeOk && cfg.namespace != "" && k !in c.store;
      if req.definition.NotFound? || (req.definition.Readable? && !req.definition.forRef) then d == c
      else
        && d.nextID == id + 1
        && d.runs == c.runs[id := CheckRun(if made then Queued else Completed("failure"), [])]
        && d.store.Keys == c.store.Keys + (if made then {k} else {})
        && (made ==> MadeFor(cfg, req, id, d.store[k]))
        && forall j :: j in c.store ==>
             if Accepted(req) && Outdone(cfg, req, j, c.store[j])
             then d.store[j] == c.store[j].(cancelled := true, version := c.store[j].version + 1)
             else d.store[j] == c.store[j]
  {
    RunEffect(cfg, c, req);
    if Accepted(req) { RivalsOutdone(cfg, c.store, req); }
    if Creates(cfg, c, req) { WorkflowMade(cfg, req, c.nextID); }
  }

  lemma WorkflowMade(cfg: Config, req: Request, id: nat)
    requires req.definition.Readable?
    ensures MadeFor(cfg, req, id, Decorated(cfg, req, id))
  {
  }

  lemma RivalsOutdone(cfg: Config, store: map<Key, Workflow>, req: Request)
    ensures var after := CancelOf(cfg, store, req.org, req.repo, req.ref);
      && after.Keys == store.Keys
      && forall j :: j in store ==>
           if Outdone(cfg, req, j, store[j]) then after[j] == store[j].(cancelled := true, version := store[j].version + 1)
           else after[j] == store[j]
  {
  }

  /** Over any run, a managed workflow carries the ref it was made for, and knows it unless that is empty. */
  ghost predicate KnowRefs(cfg: Config, c: Cluster) {
    forall k :: k in c.store && c.store[k].managedBy == Some(cfg.managedBy) ==>
      var wf := c.store[k]; wf.branch.On? && (wf.refKnown <==> wf.branch.ref != "")
  }

  lemma RunKeepsRefs(cfg: Config, c: Cluster, req: Request)
    requires KnowRefs(cfg, c)
    ensures KnowRefs(cfg, RunOf(cfg, c, req))
  {
    RunEffect(cfg, c, req);
    var d := RunOf(cfg, c, req);
    forall k | k in d.store && d.store[k].managedBy == Some(cfg.managedBy)
      ensures d.store[k].branch.On? && (d.store[k].refKnown <==> d.store[k].branch.ref != "")
    {
      if k in AfterCancel(cfg, c, req) && d.store[k] == AfterCancel(cfg, c, req)[k] {
        assert d.store[k].branch == c.store[k].branch && d.store[k].refKnown == c.store[k].refKnown;
      }
    }
  }

  lemma StepKeepsRefs(cfg: Config, w: World, e: Event)
    requires KnowRefs(cfg, w.c)
    ensures KnowRefs(cfg, Step(cfg, w, e).c)
  {
    if Enabled(cfg, w, e) {
      match e
      case Run(req) => RunKeepsRefs(cfg, w.c, req);
      case Sync(k, order, pods) => SyncTouches(cfg, w.c, k, order, pods);
      case _ =>
    }
  }

  lemma {:induction false} RefsAreKnown(cfg: Config, w: World, es: seq<Event>)
    requires Start(cfg, w)
    ensures KnowRefs(cfg, Steps(cfg, w, es).c)
  {
    if es != [] {
      RefsAreKnown(cfg, w, es[..|es| - 1]);
      StepKeepsRefs(cfg, Steps(cfg, w, es[..|es| - 1]), es[|es| - 1]);
    }
  }

  /* ---------- manual steps ---------- */

  /** The check run for a manual step, complete from the start; an essential step is to be acted on. */
  predicate ForStep(run: CheckRun, essential: bool) {
    run == CheckRun(Completed(if essential then "action_required" else "neutral"), [])
  }

  predicate ForSteps(runs: seq<CheckRun>, steps: seq<bool>) {
    |runs| == |steps| && forall i :: 0 <= i < |steps| ==> ForStep(runs[i], steps[i])
  }

  /** The new check runs are these, in order. */
  ghost predicate Offered(c: Cluster, d: Cluster, runs: seq<CheckRun>, from: nat) {
    && from >= c.nextID
    && (forall id :: id in d.runs <==> id in c.runs || from <= id < from + |runs|)
    && forall id :: from <= id < from + |runs| ==> d.runs[id] == runs[id - from]
  }

  lemma {:induction false} OfferIs(c: Cluster, steps: seq<bool>) returns (runs: seq<CheckRun>)
    ensures var d := OfferSteps(c, steps); Offered(c, d, runs, c.nextID) && d.nextID == c.nextID + |steps|
    ensures ForSteps(runs, steps)
  {
    if steps == [] {
      runs := [];
    } else {
      var front := steps[..|steps| - 1];
      var before := OfferIs(c, front);
      var run := LastOffer(c, steps);
      runs := before + [run];
      OneMoreStep(before, run, steps);
      OneMoreRun(c, OfferSteps(c, front), OfferSteps(c, steps), before, run);
    }
  }

  lemma LastOffer(c: Cluster, steps: seq<bool>) returns (run: CheckRun)
    requires steps != []
    ensures var c', d := OfferSteps(c, steps[..|steps| - 1]), OfferSteps(c, steps);
      d.runs == c'.runs[c'.nextID := run] && d.nextID == c'.nextID + 1
    ensures ForStep(run, steps[|steps| - 1])
  {
    var c' := OfferSteps(c, steps[..|steps| - 1]);
    run := OfferSteps(c, steps).runs[c'.nextID];
  }

  lemma OneMoreStep(runs: seq<CheckRun>, run: CheckRun, steps: seq<bool>)
    requires steps != [] && ForSteps(runs, steps[..|steps| - 1]) && ForStep(run, steps[|steps| - 1])
    ensures ForSteps(runs + [run], steps)
  {
    forall i | 0 <= i < |steps| ensures ForStep((runs + [run])[i], steps[i]) {
      if i < |runs| { assert ForStep(runs[i], steps[..|steps| - 1][i]); }
    }
  }

  lemma OneMoreRun(c: Cluster, c': Cluster, d: Cluster, runs: seq<CheckRun>, run: CheckRun)
    requires Offered(c, c', runs, c.nextID) && c'.nextID == c.nextID + |runs|
    requires d.runs == c'.runs[c'.nextID := run]
    ensures Offered(c, d, runs + [run], c.nextID)
  {
  }

  /** Only check run `id` may be different. */
  ghost predicate SameButFor(c: Cluster, d: Cluster, id: nat) {
    d.runs.Keys == c.runs.Keys && forall i :: i in c.runs && i != id ==> d.runs[i] == c.runs[i]
  }

  lemma {:induction false} BatchesTouch(c: Cluster, id: nat, state: RunState, anns: seq<Annotation>, i: nat)
    ensures SameButFor(c, SendBatches(c, id, state, anns, i), id)
    decreases |anns| - i
  {
    if i < |anns| { BatchesTouch(Update(c, id, state, Batch(anns, i)), id, state, anns, i + BATCH); }
  }

  lemma {:induction false} DeployRuns(c: Cluster, k: Key, order: seq<NodeId>)
    requires k in c.store && forall n :: n in order ==> n in c.store[k].nodes
    ensures var d := DeployAll(c, k, order); d.runs == c.runs && d.nextID >= c.nextID
  {
    if order != [] { DeployRuns(c, k, order[..|order| - 1]); }
  }

  lemma ReportOffers(c: Cluster, k: Key, id: nat, pods: seq<NodeId>) returns (runs: seq<CheckRun>)
    requires k in c.store && (forall n :: n in pods ==> n in c.store[k].nodes)
    requires id in c.runs && id < c.nextID
    ensures var wf := c.store[k];
      Offered(c, Report(c, k, id, pods), runs, c.nextID) && ForSteps(runs, if wf.phase.Succeeded? then wf.steps else [])
  {
    var wf := c.store[k];
    runs := [];
    if !wf.phase.Unknown? {
      var state, anns := CompletionStatus(wf).value, AllAnnotations(wf.nodes, pods);
      runs := CompleteOffers(c, Update(c, id, state, []), k, wf, id, state, anns);
    }
  }

  lemma CompleteOffers(c: Cluster, c1: Cluster, k: Key, wf: Workflow, id: nat, state: RunState, anns: seq<Annotation>)
    returns (runs: seq<CheckRun>)
    requires id in c.runs && id < c.nextID && SameButFor(c, c1, id) && c1.nextID == c.nextID
    ensures Offered(c, c1, [], c.nextID)
    ensures Offered(c, Complete(c1, k, wf, id, state, anns), runs, c.nextID)
    ensures ForSteps(runs, if wf.phase.Succeeded? then wf.steps else [])
  {
    runs := [];
    if Publishes(wf.phase) {
      var c2 := if wf.phase.Succeeded? then OfferSteps(c1, wf.steps) else c1;
      if wf.phase.Succeeded? { runs := OfferIs(c1, wf.steps); }
      BatchesTouch(Update(c2, id, state, []), id, state, anns, 0);
      OfferedOn(c, c1, c2, Complete(c1, k, wf, id, state, anns), id, runs);
    }
  }

  lemma OfferedOn(c: Cluster, c1: Cluster, c2: Cluster, d: Cluster, id: nat, runs: seq<CheckRun>)
    requires SameButFor(c, c1, id) && c1.nextID == c.nextID && Offered(c1, c2, runs, c1.nextID)
    requires id in c2.runs ==> SameButFor(c2, d, id)
    requires id in c.runs && id < c.nextID
    ensures Offered(c, d, runs, c.nextID)
  {
  }

  /** The sync that finds a workflow succeeded offers its manual steps, once each; one that finds another phase offers none. */
  lemma {:induction false} SyncOffers(cfg: Config, c: Cluster, k: Key, order: seq<NodeId>, pods: seq<NodeId>)
    returns (from: nat, runs: seq<CheckRun>)
    requires Wired(cfg, c) && k in c.store && c.store[k].managedBy == Some(cfg.managedBy) && !c.store[k].published
    requires forall n :: n in order || n in pods ==> n in c.store[k].nodes
    ensures Offered(c, SyncOf(cfg, c, k, order, pods), runs, from)
    ensures ForSteps(runs, if c.store[k].phase.Succeeded? then c.store[k].steps else [])
  {
    assert Wires(c, c.store[k]);
    DeployRuns(c, k, order);
    var c1 := DeployAll(c, k, order);
    from := c1.nextID;
    runs := ReportOffers(c1, k, c.store[k].run.value, pods);
  }

  /* ---------- restarts and deletions ---------- */

  /**
    The sync that finds a published workflow pending or running gives it a new check run,
    which it alone names, and leaves every other check run as it is.
   */
  lemma {:induction false} SyncRestarts(cfg: Config, c: Cluster, k: Key, order: seq<NodeId>, pods: seq<NodeId>)
    requires Wired(cfg, c) && k in c.store && c.store[k].managedBy == Some(cfg.managedBy) && c.store[k].published
    requires forall n :: n in order || n in pods ==> n in c.store[k].nodes
    requires c.store[k].phase.Pending? || c.store[k].phase.Running?
    ensures var d, id := SyncOf(cfg, c, k, order, pods), c.nextID;
      && k in d.store && d.store[k].run == Some(id) && !d.store[k].published && id !in c.runs
      && d.runs == c.runs[id := CheckRun(if c.store[k].phase.Pending? then Queued else InProgress, [])]
  {
    var id, c1 := c.nextID, Reset(c, k);
    assert Wires(c, c.store[k]);
    DeployRuns(c1, k, order);
    var c2 := DeployAll(c1, k, order);
    var none: seq<Annotation> := [];
    assert none + none == none;
    ReportStore(c2, k, id, pods);
  }

  /** A deletion cancels the check run of a managed workflow that was not over, and leaves all others as they are. */
  lemma {:induction false} DeletionCancels(cfg: Config, c: Cluster, k: Key)
    requires Wired(cfg, c) && k in c.store
    ensures var d, wf := DeleteOf(cfg, c, k), c.store[k];
      && d.store == c.store - {k} && d.nextID == c.nextID
      && if wf.managedBy == Some(cfg.managedBy) && !(wf.phase.Succeeded? || wf.phase.Failed? || wf.phase.Error?)
         then wf.run.Some? && wf.run.value in c.runs
              && d.runs == c.runs[wf.run.value := CheckRun(Completed("cancelled"), c.runs[wf.run.value].annotations)]
         else d == c.(store := d.store)
  {
    var wf := c.store[k];
    if wf.managedBy == Some(cfg.managedBy) {
      assert Wires(c, wf);
      var anns := c.runs[wf.run.value].annotations;
      assert anns + [] == anns;
    }
  }

  /** A sync of a workflow in no phase that is known leaves its check run as it is. */
  lemma {:induction false} UnknownIsLeftAlone(cfg: Config, c: Cluster, k: Key, order: seq<NodeId>, pods: seq<NodeId>)
    requires k in c.store && c.store[k].phase.Unknown?
    requires forall n :: n in order || n in pods ==> n in c.store[k].nodes
    ensures SyncOf(cfg, c, k, order, pods).runs == c.runs
  {
    if Managed(cfg, c.store[k]) && c.store[k].run.Some? && !c.store[k].published { DeployRuns(c, k, order); }
  }

  /* ---------- the requests account for the check runs ---------- */

  /** The check runs that requests make of nothing. */
  function Replay(calls: seq<Call>): map<nat, CheckRun> {
    if calls == [] then map[]
    else
      var before := Replay(calls[..|calls| - 1]);
      match calls[|calls| - 1]
      case CreateRun(id, state) => before[id := CheckRun(state, [])]
      case ResetRun(_, id) => before[id := CheckRun(Queued, [])]
      case UpdateRun(id, state, anns) =>
        if id in before then before[id := CheckRun(state, before[id].annotations + anns)] else before
      case _ => before
  }

  ghost predicate Accounted(c: Cluster) {
    c.runs == Replay(c.calls)
  }

  lemma AccountedOn(c: Cluster, d: Cluster, call: Call)
    requires Accounted(c) && d.calls == c.calls + [call]
    ensures call.CreateRun? ==> (Accounted(d) <==> d.runs == c.runs[call.id := CheckRun(call.state, [])])
    ensures call.ResetRun? ==> (Accounted(d) <==> d.runs == c.runs[call.id := CheckRun(Queued, [])])
    ensures call.UpdateRun? ==> (Accounted(d) <==> d.runs == Update(c, call.id, call.state, call.annotations).runs)
    ensures call.CreateWorkflow? || call.CreateDeployment? || call.DeploymentStatus? ==> (Accounted(d) <==> d.runs == c.runs)
  {
    assert (c.calls + [call])[..|c.calls|] == c.calls;
  }

  lemma UpdateAccounted(c: Cluster, id: nat, state: RunState, anns: seq<Annotation>)
    requires Accounted(c)
    ensures Accounted(Update(c, id, state, anns))
  {
    AccountedOn(c, Update(c, id, state, anns), UpdateRun(id, state, anns));
  }

  lemma {:induction false} OfferAccounted(c: Cluster, steps: seq<bool>)
    requires Accounted(c)
    ensures Accounted(OfferSteps(c, steps))
  {
    if steps != [] {
      var c' := OfferSteps(c, steps[..|steps| - 1]);
      OfferAccounted(c, steps[..|steps| - 1]);
      var d := OfferSteps(c, steps);
      AccountedOn(c', d, d.calls[|d.calls| - 1]);
    }
  }

  lemma {:induction false} BatchesAccounted(c: Cluster, id: nat, state: RunState, anns: seq<Annotation>, i: nat)
    requires Accounted(c)
    ensures Accounted(SendBatches(c, id, state, anns, i))
    decreases |anns| - i
  {
    if i < |anns| {
      UpdateAccounted(c, id, state, Batch(anns, i));
      BatchesAccounted(Update(c, id, state, Batch(anns, i)), id, state, anns, i + BATCH);
    }
  }

  lemma ReportAccounted(c: Cluster, k: Key, id: nat, pods: seq<NodeId>)
    requires k in c.store && (forall n :: n in pods ==> n in c.store[k].nodes) && Accounted(c)
    ensures Accounted(Report(c, k, id, pods))
  {
    var wf := c.store[k];
    if !wf.phase.Unknown? {
      var state := CompletionStatus(wf).value;
      UpdateAccounted(c, id, state, []);
      CompleteAccounted(Update(c, id, state, []), k, wf, id, state, AllAnnotations(wf.nodes, pods));
    }
  }

  lemma CompleteAccounted(c: Cluster, k: Key, wf: Workflow, id: nat, state: RunState, anns: seq<Annotation>)
    requires Accounted(c)
    ensures Accounted(Complete(c, k, wf, id, state, anns))
  {
    if Publishes(wf.phase) {
      var c1 := if wf.phase.Succeeded? then OfferSteps(c, wf.steps) else c;
      OfferAccounted(c, wf.steps);
      UpdateAccounted(c1, id, state, []);
      BatchesAccounted(Update(c1, id, state, []), id, state, anns, 0);
      assert Complete(c, k, wf, id, state, anns).runs == GhComplete(c, wf, id, state, anns).runs;
    }
  }

  lemma {:induction false} DeployAccounted(c: Cluster, k: Key, order: seq<NodeId>)
    requires k in c.store && (forall n :: n in order ==> n in c.store[k].nodes) && Accounted(c)
    ensures Accounted(DeployAll(c, k, order))
  {
    if order != [] {
      var front, n := order[..|order| - 1], order[|order| - 1];
      DeployAccounted(c, k, front);
      VisitAccounted(DeployAll(c, k, front), k, n);
    }
  }

  lemma VisitAccounted(c: Cluster, k: Key, node: NodeId)
    requires k in c.store && node in c.store[k].nodes && Accounted(c)
    ensures Accounted(DeployNode(c, k, node))
  {
    var wf := c.store[k];
    if Reports(wf.nodes[node]) {
      var state, id := StateOf(wf.nodes[node].phase).value, IDOf(IDs(wf), node);
      if id != 0 {
        AccountedOn(c, DeployNode(c, k, node), DeploymentStatus(k, node, id, state));
      } else if wf.refKnown {
        var made := OnDemand(c, k, IDs(wf), node);
        AccountedOn(c, made, CreateDeployment(k, node, c.nextID));
        AccountedOn(made, DeployNode(c, k, node), DeploymentStatus(k, node, c.nextID, state));
      }
    }
  }

  lemma SyncAccounted(cfg: Config, c: Cluster, k: Key, order: seq<NodeId>, pods: seq<NodeId>)
    requires k in c.store && (forall n :: n in order || n in pods ==> n in c.store[k].nodes) && Accounted(c)
    ensures Accounted(SyncOf(cfg, c, k, order, pods))
  {
    var wf := c.store[k];
    if Managed(cfg, wf) && wf.run.Some? && !(wf.published && !Active(wf.phase)) {
      var c1 := if wf.published then Reset(c, k) else c;
      if wf.published { AccountedOn(c, c1, ResetRun(k, c.nextID)); }
      DeployAccounted(c1, k, order);
      ReportAccounted(DeployAll(c1, k, order), k, c1.store[k].run.value, pods);
    }
  }

  lemma RunAccounted(cfg: Config, c: Cluster, req: Request)
    requires Accounted(c)
    ensures Accounted(RunOf(cfg, c, req))
  {
    var id, d := c.nextID, RunOf(cfg, c, req);
    if !Ignored(req.definition) {
      var c0 := NewRun(c, Queued, CreateRun(id, Queued));
      AccountedOn(c, c0, CreateRun(id, Queued));
      var c1 := Update(c0, id, Queued, []);
      UpdateAccounted(c0, id, Queued, []);
      UpdateAccounted(c1, id, Completed("failure"), []);
      if Creates(cfg, c, req) { AccountedOn(c1, d, CreateWorkflow(Target(cfg, req))); }
    }
  }

  lemma StepAccounted(cfg: Config, w: World, e: Event)
    requires Accounted(w.c)
    ensures Accounted(Step(cfg, w, e).c)
  {
    if Enabled(cfg, w, e) {
      match e
      case Run(req) => RunAccounted(cfg, w.c, req);
      case Sync(k, order, pods) => SyncAccounted(cfg, w.c, k, order, pods);
      case Delete(k) => if w.c.store[k].run.Some? { UpdateAccounted(w.c, w.c.store[k].run.value, Completed("cancelled"), []); }
      case _ =>
    }
  }

  /** Over any run the check runs on GitHub are what the requests sent there amount to, one by one. */
  lemma {:induction false} RequestsAccount(cfg: Config, w: World, es: seq<Event>)
    requires Start(cfg, w)
    ensures Steps(cfg, w, es).c.runs == Replay(Steps(cfg, w, es).c.calls)
  {
    if es != [] {
      RequestsAccount(cfg, w, es[..|es| - 1]);
      StepAccounted(cfg, Steps(cfg, w, es[..|es| - 1]), es[|es| - 1]);
    }
  }
}
