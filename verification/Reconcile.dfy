/**
  What the syncer's handlers keep true over any run: no check run is left open that
  nothing will complete, annotations are published once, reconciliation comes to rest,
  and at most one workflow per ref is left running.
 */
module Reconcile {
  import opened Basics
  import opened LogParser
  import opened Syncer

  /** A workflow was created, perhaps marked as published already, or a managed one was synced in a phase. */
  datatype Sight = Made(k: Key, published: bool) | Saw(k: Key, phase: Phase)

  /** The cluster, the workflows synced since their status last changed, and what was seen. */
  datatype World = World(c: Cluster, synced: set<Key>, seen: seq<Sight>)

  /** The syncer's handlers, Argo's progress, and workflows others create. */
  datatype Event =
    | Run(req: Request)
    | Sync(k: Key, order: seq<NodeId>, pods: seq<NodeId>)
    | Progress(k: Key, phase: Phase, nodes: map<NodeId, Node>)
    | Delete(k: Key)
    | Foreign(k: Key, wf: Workflow)

  function Target(cfg: Config, req: Request): Key {
    (cfg.namespace, req.name)
  }

  /** The nodes, each once, in some order. */
  ghost predicate Visits(order: seq<NodeId>, nodes: map<NodeId, Node>) {
    && (forall n :: n in order <==> n in nodes)
    && (forall i, j :: 0 <= i < j < |order| ==> order[i] != order[j])
  }

  ghost predicate Enabled(cfg: Config, w: World, e: Event) {
    match e
    case Run(req) => true
    case Sync(k, order, pods) => k in w.c.store && Visits(order, w.c.store[k].nodes) && Visits(pods, w.c.store[k].nodes)
    case Progress(k, _, _) => k in w.c.store
    case Delete(k) => k in w.c.store
    case Foreign(k, wf) => k !in w.c.store && !Managed(cfg, wf)
  }

  ghost function Step(cfg: Config, w: World, e: Event): World {
    if !Enabled(cfg, w, e) then w
    else
      match e
      case Run(req) =>
        var c := RunOf(cfg, w.c, req);
        var k := Target(cfg, req);
        if k in c.store && k !in w.c.store then World(c, w.synced - {k}, w.seen + [Made(k, c.store[k].published)]) else w.(c := c)
      case Sync(k, order, pods) =>
        World(SyncOf(cfg, w.c, k, order, pods), w.synced + {k},
              if Managed(cfg, w.c.store[k]) then w.seen + [Saw(k, w.c.store[k].phase)] else w.seen)
      case Progress(k, phase, nodes) =>
        w.(c := Put(w.c, k, w.c.store[k].(phase := phase, nodes := nodes)), synced := w.synced - {k})
      case Delete(k) => w.(c := DeleteOf(cfg, w.c, k), synced := w.synced - {k})
      case Foreign(k, wf) => w.(c := w.c.(store := w.c.store[k := wf]))
  }

  ghost function Steps(cfg: Config, w: World, es: seq<Event>): World {
    if es == [] then w else Step(cfg, Steps(cfg, w, es[..|es| - 1]), es[|es| - 1])
  }

  /**
    What is asked of a run: the definition in a repository does not claim its annotations
    are published, and a workflow that is over is deleted only after a sync has seen it.
   */
  predicate Proper(cfg: Config, w: World, e: Event) {
    match e
    case Run(req) => req.definition.Readable? ==> !req.definition.workflow.published
    case Delete(k) => k in w.c.store && Managed(cfg, w.c.store[k]) && Finished(w.c.store[k].phase) ==> k in w.synced
    case _ => true
  }

  ghost predicate AllProper(cfg: Config, w: World, es: seq<Event>) {
    forall i :: 0 <= i < |es| ==> Proper(cfg, Steps(cfg, w, es[..i]), es[i])
  }

  lemma ProperPrefix(cfg: Config, w: World, es: seq<Event>)
    requires es != [] && AllProper(cfg, w, es)
    ensures AllProper(cfg, w, es[..|es| - 1])
    ensures Proper(cfg, Steps(cfg, w, es[..|es| - 1]), es[|es| - 1])
  {
    var front := es[..|es| - 1];
    forall i | 0 <= i < |front| ensures Proper(cfg, Steps(cfg, w, front[..i]), front[i]) {
      assert front[..i] == es[..i];
    }
  }

  /* ---------- the invariant ---------- */

  ghost predicate Fresh(c: Cluster) {
    forall id :: id in c.runs ==> id < c.nextID
  }

  /** Every open check run is named by a stored workflow the syncer manages. */
  ghost predicate NoOrphans(cfg: Config, c: Cluster) {
    forall id :: id in c.runs && !c.runs[id].state.Completed? ==> Named(cfg, c, id)
  }

  ghost predicate Named(cfg: Config, c: Cluster, id: nat) {
    exists k :: k in c.store && Managed(cfg, c.store[k]) && c.store[k].run == Some(id)
  }

  /** No two workflows share a check run. */
  ghost predicate Distinct(cfg: Config, c: Cluster) {
    forall j, k :: j in c.store && k in c.store && j != k && Managed(cfg, c.store[j]) && Managed(cfg, c.store[k])
      ==> c.store[j].run != c.store[k].run
  }

  /** The check run of a workflow exists, and has no annotations before they are published. */
  ghost predicate Wires(c: Cluster, wf: Workflow) {
    && wf.run.Some? && wf.run.value in c.runs
    && (!wf.published ==> c.runs[wf.run.value].annotations == [])
  }

  /** What every run keeps, whatever repositories and users do. */
  ghost predicate Wired(cfg: Config, c: Cluster) {
    && Fresh(c) && Distinct(cfg, c)
    && forall k :: k in c.store && Managed(cfg, c.store[k]) ==> Wires(c, c.store[k])
  }

  /** The check run of a workflow is complete once published, and once its end was seen. */
  ghost predicate Closes(c: Cluster, wf: Workflow, seen: bool) {
    var over := wf.published || (seen && Finished(wf.phase));
    over && wf.run.Some? && wf.run.value in c.runs ==> c.runs[wf.run.value].state.Completed?
  }

  ghost predicate AllClosed(cfg: Config, c: Cluster, synced: set<Key>) {
    forall k :: k in c.store && Managed(cfg, c.store[k]) ==> Closes(c, c.store[k], k in synced)
  }

  /** What proper runs keep besides. */
  ghost predicate Consistent(cfg: Config, c: Cluster, synced: set<Key>) {
    Wired(cfg, c) && NoOrphans(cfg, c) && AllClosed(cfg, c, synced)
  }

  /* ---------- what one handler changes ---------- */

  /** Everything of a workflow but its bookkeeping. */
  predicate SameWork(a: Workflow, b: Workflow) {
    b == a.(run := b.run, published := b.published, deployments := b.deployments, version := b.version)
  }

  /** Only workflow `k` and check run `id` changed, and every new check run is complete. */
  ghost predicate Extends(c: Cluster, d: Cluster, k: Key, id: nat) {
    && k in c.store && d.store.Keys == c.store.Keys
    && (forall j :: j in c.store && j != k ==> d.store[j] == c.store[j])
    && SameWork(c.store[k], d.store[k]) && d.store[k].run == c.store[k].run
    && c.nextID <= d.nextID
    && (forall i :: i in c.runs ==> i in d.runs && (i != id ==> d.runs[i] == c.runs[i]))
    && (forall i :: i in d.runs && i !in c.runs ==> i < d.nextID && d.runs[i].state.Completed?)
  }

  lemma ExtendsOn(c: Cluster, d: Cluster, e: Cluster, k: Key, id: nat)
    requires Extends(c, d, k, id) && Extends(d, e, k, id) && id in c.runs
    ensures Extends(c, e, k, id)
  {
    forall i | i in e.runs && i !in c.runs ensures i < e.nextID && e.runs[i].state.Completed? {
      assert i in d.runs ==> e.runs[i] == d.runs[i];
    }
  }

  lemma UpdateExtends(c: Cluster, k: Key, id: nat, state: RunState, anns: seq<Annotation>)
    requires k in c.store && id in c.runs
    ensures Extends(c, Update(c, id, state, anns), k, id)
  {
  }

  lemma DeployNodeExtends(c: Cluster, k: Key, node: NodeId, id: nat)
    requires k in c.store && node in c.store[k].nodes
    ensures var d := DeployNode(c, k, node);
      Extends(c, d, k, id) && d.runs == c.runs && d.store[k].published == c.store[k].published
  {
  }

  lemma {:induction false} DeployExtends(c: Cluster, k: Key, order: seq<NodeId>, id: nat)
    requires k in c.store && (forall n :: n in order ==> n in c.store[k].nodes) && id in c.runs
    ensures var d := DeployAll(c, k, order);
      Extends(c, d, k, id) && d.runs == c.runs && d.store[k].published == c.store[k].published
  {
    if order != [] {
      var front := order[..|order| - 1];
      DeployExtends(c, k, front, id);
      var d := DeployAll(c, k, front);
      DeployNodeExtends(d, k, order[|order| - 1], id);
      ExtendsOn(c, d, DeployNode(d, k, order[|order| - 1]), k, id);
    }
  }

  lemma {:induction false} OfferExtends(c: Cluster, steps: seq<bool>, k: Key, id: nat)
    requires k in c.store && Fresh(c)
    ensures var d := OfferSteps(c, steps);
      Extends(c, d, k, id) && Fresh(d) && d.store == c.store && (id in c.runs ==> d.runs[id] == c.runs[id])
  {
    if steps != [] { OfferExtends(c, steps[..|steps| - 1], k, id); }
  }

  /** The batches deliver every annotation, in order, once. */
  lemma {:induction false} BatchesDeliver(c: Cluster, k: Key, id: nat, state: RunState, anns: seq<Annotation>, i: nat)
    requires k in c.store && id in c.runs && c.runs[id].state == state && i <= |anns|
    ensures var d := SendBatches(c, id, state, anns, i);
      && Extends(c, d, k, id) && d.store == c.store
      && id in d.runs && d.runs[id] == CheckRun(state, c.runs[id].annotations + anns[i..])
    decreases |anns| - i
  {
    if i < |anns| {
      var c' := Update(c, id, state, Batch(anns, i));
      var j := if i + BATCH > |anns| then |anns| else i + BATCH;
      assert anns[i..j] + anns[j..] == anns[i..];
      if j == |anns| {
        assert SendBatches(c', id, state, anns, i + BATCH) == c';
        assert anns[j..] == [];
      } else {
        BatchesDeliver(c', k, id, state, anns, j);
        UpdateExtends(c, k, id, state, Batch(anns, i));
        ExtendsOn(c, c', SendBatches(c', id, state, anns, j), k, id);
      }
    } else {
      assert anns[i..] == [];
    }
  }

  /** No request carries more than fifty annotations. */
  lemma {:induction false} BatchesAreSmall(c: Cluster, id: nat, state: RunState, anns: seq<Annotation>, i: nat)
    requires i <= |anns|
    ensures var calls := SendBatches(c, id, state, anns, i).calls;
      && |c.calls| <= |calls| && calls[..|c.calls|] == c.calls
      && forall j :: |c.calls| <= j < |calls| ==> calls[j].UpdateRun? && 0 < |calls[j].annotations| <= 50
    decreases |anns| - i
  {
    if i < |anns| {
      var c' := Update(c, id, state, Batch(anns, i));
      if i + BATCH < |anns| { BatchesAreSmall(c', id, state, anns, i + BATCH); }
      var calls := SendBatches(c, id, state, anns, i).calls;
      assert calls[..|c'.calls|] == c'.calls;
      assert calls[..|c.calls|] == c'.calls[..|c.calls|];
      assert calls[|c.calls|] == c'.calls[|c.calls|];
    }
  }

  /** The check run has the state that goes with the phase, and the annotations if the phase publishes them. */
  ghost predicate Reported(c: Cluster, d: Cluster, k: Key, id: nat, pods: seq<NodeId>)
    requires k in c.store && forall n :: n in pods ==> n in c.store[k].nodes
  {
    var wf := c.store[k];
    && id in c.runs && Extends(c, d, k, id)
    && d.store[k].published == (wf.published || Publishes(wf.phase))
    && d.runs[id] == CheckRun(
         if wf.phase.Unknown? then c.runs[id].state else CompletionStatus(wf).value,
         c.runs[id].annotations + (if Publishes(wf.phase) then AllAnnotations(wf.nodes, pods) else []))
  }

  /** What reporting does to a workflow and its check run. */
  lemma ReportEffect(c: Cluster, k: Key, id: nat, pods: seq<NodeId>)
    requires k in c.store && (forall n :: n in pods ==> n in c.store[k].nodes)
    requires id in c.runs && Fresh(c)
    ensures Reported(c, Report(c, k, id, pods), k, id, pods)
  {
    var wf := c.store[k];
    if !wf.phase.Unknown? {
      var state := CompletionStatus(wf).value;
      var c1 := Update(c, id, state, []);
      UpdateExtends(c, k, id, state, []);
      assert c1.runs[id].annotations == c.runs[id].annotations;
      CompleteEffect(c1, k, wf, id, state, AllAnnotations(wf.nodes, pods));
      ExtendsOn(c, c1, Complete(c1, k, wf, id, state, AllAnnotations(wf.nodes, pods)), k, id);
    }
  }

  lemma CompleteEffect(c: Cluster, k: Key, wf: Workflow, id: nat, state: RunState, anns: seq<Annotation>)
    requires k in c.store && id in c.runs && Fresh(c) && c.runs[id].state == state
    ensures var d := Complete(c, k, wf, id, state, anns);
      && Extends(c, d, k, id)
      && d.store[k].published == (c.store[k].published || Publishes(wf.phase))
      && d.runs[id] == CheckRun(state, c.runs[id].annotations + (if Publishes(wf.phase) then anns else []))
  {
    if Publishes(wf.phase) {
      GhCompleteEffect(c, k, wf, id, state, anns);
      var c' := GhComplete(c, wf, id, state, anns);
      PublishedExtends(c', k, id);
      ExtendsOn(c, c', Published(c', k), k, id);
    }
  }

  lemma PublishedExtends(c: Cluster, k: Key, id: nat)
    requires k in c.store
    ensures Extends(c, Published(c, k), k, id) && Published(c, k).store[k].published
  {
  }

  lemma GhCompleteEffect(c: Cluster, k: Key, wf: Workflow, id: nat, state: RunState, anns: seq<Annotation>)
    requires k in c.store && id in c.runs && Fresh(c)
    ensures var d := GhComplete(c, wf, id, state, anns);
      && Extends(c, d, k, id) && d.store == c.store
      && d.runs[id] == CheckRun(state, c.runs[id].annotations + anns)
  {
    var c1 := if wf.phase.Succeeded? then OfferSteps(c, wf.steps) else c;
    if wf.phase.Succeeded? { OfferExtends(c, wf.steps, k, id); }
    var c2 := Update(c1, id, state, []);
    UpdateExtends(c1, k, id, state, []);
    ExtendsOn(c, c1, c2, k, id);
    BatchesDeliver(c2, k, id, state, anns, 0);
    ExtendsOn(c, c2, SendBatches(c2, id, state, anns, 0), k, id);
    assert c2.runs[id].annotations == c.runs[id].annotations;
    assert anns[0..] == anns;
  }

  /* ---------- the invariants are kept ---------- */

  /** One managed workflow moves on with its check run. */
  lemma MovedWired(cfg: Config, c: Cluster, d: Cluster, k: Key, id: nat)
    requires Wired(cfg, c) && Extends(c, d, k, id) && Managed(cfg, c.store[k]) && c.store[k].run == Some(id)
    requires Wires(d, d.store[k])
    ensures Wired(cfg, d)
  {
    forall j | j in d.store && Managed(cfg, d.store[j]) ensures Wires(d, d.store[j]) {
      if j != k { assert Wires(c, c.store[j]) && c.store[j].run != Some(id); }
    }
  }

  lemma MovedNamed(cfg: Config, c: Cluster, d: Cluster, k: Key, id: nat)
    requires NoOrphans(cfg, c) && Extends(c, d, k, id) && Managed(cfg, c.store[k]) && c.store[k].run == Some(id)
    ensures NoOrphans(cfg, d)
  {
    forall i | i in d.runs && !d.runs[i].state.Completed? ensures Named(cfg, d, i) {
      assert i in c.runs;
      if i == id {
        assert d.store[k].run == Some(id) && Managed(cfg, d.store[k]);
      } else {
        StaysNamed(cfg, c, d, i);
      }
    }
  }

  /** A named check run stays named while its workflow names it. */
  lemma StaysNamed(cfg: Config, c: Cluster, d: Cluster, i: nat)
    requires NoOrphans(cfg, c) && i in c.runs && !c.runs[i].state.Completed?
    requires forall j :: j in c.store && Managed(cfg, c.store[j]) && c.store[j].run == Some(i) ==>
      j in d.store && Managed(cfg, d.store[j]) && d.store[j].run == Some(i)
    ensures Named(cfg, d, i)
  {
    assert Named(cfg, c, i);
    var j :| j in c.store && Managed(cfg, c.store[j]) && c.store[j].run == Some(i);
    assert d.store[j].run == Some(i);
  }

  lemma MovedClosed(cfg: Config, c: Cluster, d: Cluster, k: Key, id: nat, synced: set<Key>, synced': set<Key>)
    requires Wired(cfg, c) && AllClosed(cfg, c, synced)
    requires Extends(c, d, k, id) && Managed(cfg, c.store[k]) && c.store[k].run == Some(id)
    requires Closes(d, d.store[k], k in synced')
    requires forall j :: j != k && j in synced' ==> j in synced
    ensures AllClosed(cfg, d, synced')
  {
    forall j | j in d.store && Managed(cfg, d.store[j]) ensures Closes(d, d.store[j], j in synced') {
      if j != k { assert Wires(c, c.store[j]) && Closes(c, c.store[j], j in synced) && c.store[j].run != Some(id); }
    }
  }

  lemma NextIsUnnamed(cfg: Config, c: Cluster, j: Key)
    requires Wired(cfg, c) && j in c.store && Managed(cfg, c.store[j])
    ensures c.store[j].run.Some? && c.store[j].run.value < c.nextID
  {
    assert Wires(c, c.store[j]);
  }

  lemma ResetWired(cfg: Config, c: Cluster, k: Key)
    requires Wired(cfg, c) && k in c.store && Managed(cfg, c.store[k])
    ensures Wired(cfg, Reset(c, k))
  {
    var d := Reset(c, k);
    forall j | j in c.store && Managed(cfg, c.store[j]) { NextIsUnnamed(cfg, c, j); }
    forall j | j in d.store && Managed(cfg, d.store[j]) ensures Wires(d, d.store[j]) {
      if j != k { assert Wires(c, c.store[j]); }
    }
  }

  /** A reset leaves the old check run to nobody. */
  lemma ResetNamed(cfg: Config, c: Cluster, k: Key)
    requires Wired(cfg, c) && NoOrphans(cfg, c) && k in c.store && Managed(cfg, c.store[k])
    requires c.store[k].run.Some? && c.store[k].run.value in c.runs && c.runs[c.store[k].run.value].state.Completed?
    ensures NoOrphans(cfg, Reset(c, k))
  {
    var d := Reset(c, k);
    forall i | i in d.runs && !d.runs[i].state.Completed? ensures Named(cfg, d, i) {
      if i == c.nextID {
        assert d.store[k].run == Some(i) && Managed(cfg, d.store[k]);
      } else {
        StaysNamed(cfg, c, d, i);
      }
    }
  }

  lemma ResetClosed(cfg: Config, c: Cluster, k: Key, synced: set<Key>)
    requires Wired(cfg, c) && AllClosed(cfg, c, synced) && k in c.store && Managed(cfg, c.store[k])
    requires Active(c.store[k].phase)
    ensures AllClosed(cfg, Reset(c, k), synced)
  {
    var d := Reset(c, k);
    forall j | j in d.store && Managed(cfg, d.store[j]) ensures Closes(d, d.store[j], j in synced) {
      if j != k {
        NextIsUnnamed(cfg, c, j);
        assert Closes(c, c.store[j], j in synced);
      }
    }
  }

  /** The part of a sync after a possible reset. */
  function Work(c: Cluster, k: Key, order: seq<NodeId>, pods: seq<NodeId>): Cluster
    requires k in c.store && c.store[k].run.Some? && forall n :: n in order || n in pods ==> n in c.store[k].nodes
  {
    Report(DeployAll(c, k, order), k, c.store[k].run.value, pods)
  }

  lemma WorkEffect(c: Cluster, k: Key, order: seq<NodeId>, pods: seq<NodeId>)
    requires k in c.store && c.store[k].run.Some? && forall n :: n in order || n in pods ==> n in c.store[k].nodes
    requires Fresh(c) && c.store[k].run.value in c.runs
    ensures Reported(c, Work(c, k, order, pods), k, c.store[k].run.value, pods)
  {
    var id := c.store[k].run.value;
    var c1 := DeployAll(c, k, order);
    DeployExtends(c, k, order, id);
    ReportEffect(c1, k, id, pods);
    ReportedAfter(c, c1, Report(c1, k, id, pods), k, id, pods);
  }

  lemma ReportedAfter(c: Cluster, c1: Cluster, d: Cluster, k: Key, id: nat, pods: seq<NodeId>)
    requires k in c.store && (forall n :: n in pods ==> n in c.store[k].nodes)
    requires Extends(c, c1, k, id) && c1.runs == c.runs && c1.store[k].published == c.store[k].published
    requires Reported(c1, d, k, id, pods)
    ensures Reported(c, d, k, id, pods)
  {
    ExtendsOn(c, c1, d, k, id);
  }

  lemma ReportedWires(c: Cluster, d: Cluster, k: Key, id: nat, pods: seq<NodeId>)
    requires k in c.store && (forall n :: n in pods ==> n in c.store[k].nodes)
    requires Reported(c, d, k, id, pods) && c.store[k].run == Some(id)
    requires !c.store[k].published && c.runs[id].annotations == []
    ensures Wires(d, d.store[k]) && Closes(d, d.store[k], true)
  {
  }

  /** The work of a sync on a workflow that is not published. */
  lemma WorkWired(cfg: Config, c: Cluster, k: Key, order: seq<NodeId>, pods: seq<NodeId>)
    requires Wired(cfg, c) && k in c.store && Managed(cfg, c.store[k]) && !c.store[k].published
    requires forall n :: n in order || n in pods ==> n in c.store[k].nodes
    ensures c.store[k].run.Some?
    ensures var d, id := Work(c, k, order, pods), c.store[k].run.value;
      && Wired(cfg, d) && Extends(c, d, k, id) && Closes(d, d.store[k], true)
  {
    assert Wires(c, c.store[k]);
    var d, id := Work(c, k, order, pods), c.store[k].run.value;
    WorkEffect(c, k, order, pods);
    ReportedWires(c, d, k, id, pods);
    MovedWired(cfg, c, d, k, id);
  }

  lemma SyncWired(cfg: Config, c: Cluster, k: Key, order: seq<NodeId>, pods: seq<NodeId>)
    requires Wired(cfg, c) && k in c.store
    requires forall n :: n in order || n in pods ==> n in c.store[k].nodes
    ensures Wired(cfg, SyncOf(cfg, c, k, order, pods))
  {
    var wf := c.store[k];
    if Managed(cfg, wf) {
      assert Wires(c, wf);
      if !wf.published {
        WorkWired(cfg, c, k, order, pods);
      } else if Active(wf.phase) {
        ResetWired(cfg, c, k);
        WorkWired(cfg, Reset(c, k), k, order, pods);
      }
    }
  }

  /** A sync that is about to replace a check run which is still open. */
  ghost predicate Replaces(cfg: Config, c: Cluster, wf: Workflow) {
    && Managed(cfg, wf) && wf.published && Active(wf.phase)
    && wf.run.Some? && wf.run.value in c.runs && !c.runs[wf.run.value].state.Completed?
  }

  lemma SyncNamed(cfg: Config, c: Cluster, k: Key, order: seq<NodeId>, pods: seq<NodeId>)
    requires Wired(cfg, c) && NoOrphans(cfg, c) && k in c.store && !Replaces(cfg, c, c.store[k])
    requires forall n :: n in order || n in pods ==> n in c.store[k].nodes
    ensures NoOrphans(cfg, SyncOf(cfg, c, k, order, pods))
  {
    var wf := c.store[k];
    if Managed(cfg, wf) {
      assert Wires(c, wf);
      if !wf.published {
        WorkWired(cfg, c, k, order, pods);
        MovedNamed(cfg, c, Work(c, k, order, pods), k, wf.run.value);
      } else if Active(wf.phase) {
        ResetWired(cfg, c, k);
        ResetNamed(cfg, c, k);
        var c1 := Reset(c, k);
        WorkWired(cfg, c1, k, order, pods);
        MovedNamed(cfg, c1, Work(c1, k, order, pods), k, c1.store[k].run.value);
      }
    }
  }

  lemma SyncClosed(cfg: Config, c: Cluster, k: Key, order: seq<NodeId>, pods: seq<NodeId>, synced: set<Key>)
    requires Wired(cfg, c) && AllClosed(cfg, c, synced) && k in c.store
    requires forall n :: n in order || n in pods ==> n in c.store[k].nodes
    ensures AllClosed(cfg, SyncOf(cfg, c, k, order, pods), synced + {k})
  {
    var wf := c.store[k];
    if Managed(cfg, wf) && !wf.published {
      WorkWired(cfg, c, k, order, pods);
      MovedClosed(cfg, c, Work(c, k, order, pods), k, wf.run.value, synced, synced + {k});
    } else if Managed(cfg, wf) && Active(wf.phase) {
      assert Wires(c, wf);
      ResetWired(cfg, c, k);
      ResetClosed(cfg, c, k, synced);
      var c1 := Reset(c, k);
      WorkWired(cfg, c1, k, order, pods);
      MovedClosed(cfg, c1, Work(c1, k, order, pods), k, c1.store[k].run.value, synced, synced + {k});
    } else {
      forall j | j in c.store && Managed(cfg, c.store[j]) ensures Closes(c, c.store[j], j in synced + {k}) {
        assert Closes(c, c.store[j], j in synced);
      }
    }
  }

  /** A sync changes no workflow but its own, and of that only the bookkeeping. */
  lemma SyncTouches(cfg: Config, c: Cluster, k: Key, order: seq<NodeId>, pods: seq<NodeId>)
    requires k in c.store && forall n :: n in order || n in pods ==> n in c.store[k].nodes
    ensures var d := SyncOf(cfg, c, k, order, pods);
      && d.store.Keys == c.store.Keys
      && (forall j :: j in c.store && j != k ==> d.store[j] == c.store[j])
      && SameWork(c.store[k], d.store[k])
      && d.nextID >= c.nextID
  {
    var wf := c.store[k];
    if Managed(cfg, wf) && wf.run.Some? && !(wf.published && !Active(wf.phase)) {
      WorkTouches(if wf.published then Reset(c, k) else c, k, order, pods);
    }
  }

  lemma WorkTouches(c: Cluster, k: Key, order: seq<NodeId>, pods: seq<NodeId>)
    requires k in c.store && c.store[k].run.Some? && forall n :: n in order || n in pods ==> n in c.store[k].nodes
    ensures var d := Work(c, k, order, pods);
      && d.store.Keys == c.store.Keys
      && (forall j :: j in c.store && j != k ==> d.store[j] == c.store[j])
      && SameWork(c.store[k], d.store[k])
      && d.nextID >= c.nextID
  {
    DeployStore(c, k, order);
    ReportStore(DeployAll(c, k, order), k, c.store[k].run.value, pods);
  }

  lemma {:induction false} DeployStore(c: Cluster, k: Key, order: seq<NodeId>)
    requires k in c.store && forall n :: n in order ==> n in c.store[k].nodes
    ensures var d := DeployAll(c, k, order);
      && (forall j :: j in c.store && j != k ==> d.store[j] == c.store[j])
      && d.nextID >= c.nextID
  {
    if order != [] { DeployStore(c, k, order[..|order| - 1]); }
  }

  lemma {:induction false} OfferStore(c: Cluster, steps: seq<bool>)
    ensures var d := OfferSteps(c, steps); d.store == c.store && d.nextID >= c.nextID
  {
    if steps != [] { OfferStore(c, steps[..|steps| - 1]); }
  }

  lemma {:induction false} BatchStore(c: Cluster, id: nat, state: RunState, anns: seq<Annotation>, i: nat)
    ensures var d := SendBatches(c, id, state, anns, i); d.store == c.store && d.nextID == c.nextID
    decreases |anns| - i
  {
    if i < |anns| { BatchStore(Update(c, id, state, Batch(anns, i)), id, state, anns, i + BATCH); }
  }

  /** Reporting writes a workflow only to mark it as published. */
  lemma ReportStore(c: Cluster, k: Key, id: nat, pods: seq<NodeId>)
    requires k in c.store && forall n :: n in pods ==> n in c.store[k].nodes
    ensures var d, wf := Report(c, k, id, pods), c.store[k];
      && d.store == (if Publishes(wf.phase) then c.store[k := wf.(published := true, version := wf.version + 1)] else c.store)
      && d.nextID >= c.nextID
  {
    var wf := c.store[k];
    if Publishes(wf.phase) {
      var state := CompletionStatus(wf).value;
      var c1 := Update(c, id, state, []);
      OfferStore(c1, wf.steps);
      var c2 := if wf.phase.Succeeded? then OfferSteps(c1, wf.steps) else c1;
      BatchStore(Update(c2, id, state, []), id, state, AllAnnotations(wf.nodes, pods), 0);
    }
  }

  /** Workflows change in ways their check runs do not depend on. */
  ghost predicate SameRuns(cfg: Config, c: Cluster, store: map<Key, Workflow>) {
    && (forall k :: k in c.store && Managed(cfg, c.store[k]) ==> k in store)
    && (forall k :: k in store && Managed(cfg, store[k]) ==> k in c.store && Managed(cfg, c.store[k]))
    && (forall k :: k in store && k in c.store && Managed(cfg, c.store[k]) ==>
          Managed(cfg, store[k]) && store[k].run == c.store[k].run && store[k].published == c.store[k].published)
  }

  lemma StoreChange(cfg: Config, c: Cluster, store: map<Key, Workflow>)
    requires Wired(cfg, c) && SameRuns(cfg, c, store)
    ensures Wired(cfg, c.(store := store))
    ensures NoOrphans(cfg, c) ==> NoOrphans(cfg, c.(store := store))
  {
    var d := c.(store := store);
    forall j | j in d.store && Managed(cfg, d.store[j]) ensures Wires(d, d.store[j]) {
      assert Wires(c, c.store[j]);
    }
    if NoOrphans(cfg, c) {
      forall i | i in d.runs && !d.runs[i].state.Completed? ensures Named(cfg, d, i) { StaysNamed(cfg, c, d, i); }
    }
  }

  lemma StoreClosed(cfg: Config, c: Cluster, store: map<Key, Workflow>, synced: set<Key>, synced': set<Key>)
    requires AllClosed(cfg, c, synced) && SameRuns(cfg, c, store)
    requires forall k :: k in store && k in synced' && k in c.store ==> k in synced && store[k].phase == c.store[k].phase
    ensures AllClosed(cfg, c.(store := store), synced')
  {
    var d := c.(store := store);
    forall j | j in d.store && Managed(cfg, d.store[j]) ensures Closes(d, d.store[j], j in synced') {
      assert Closes(c, c.store[j], j in synced);
    }
  }

  lemma AddsClosedRun(cfg: Config, c: Cluster, d: Cluster, run: CheckRun, synced: set<Key>)
    requires Wired(cfg, c)
    requires d.store == c.store && d.nextID == c.nextID + 1 && run.state.Completed?
    requires d.runs == c.runs[c.nextID := run]
    ensures Wired(cfg, d)
    ensures NoOrphans(cfg, c) ==> NoOrphans(cfg, d)
    ensures AllClosed(cfg, c, synced) ==> AllClosed(cfg, d, synced)
  {
    forall j | j in d.store && Managed(cfg, d.store[j])
      ensures Wires(d, d.store[j]) && (AllClosed(cfg, c, synced) ==> Closes(d, d.store[j], j in synced))
    {
      assert Wires(c, c.store[j]);
      assert AllClosed(cfg, c, synced) ==> Closes(c, c.store[j], j in synced);
    }
    if NoOrphans(cfg, c) {
      forall i | i in d.runs && !d.runs[i].state.Completed? ensures Named(cfg, d, i) { StaysNamed(cfg, c, d, i); }
    }
  }

  /** A new workflow with a new check run. */
  ghost predicate NewWorkflow(c: Cluster, d: Cluster, k: Key, wf: Workflow) {
    && k !in c.store && wf.run == Some(c.nextID)
    && d.store == c.store[k := wf] && d.nextID == c.nextID + 1
    && d.runs == c.runs[c.nextID := CheckRun(Queued, [])]
  }

  lemma AddsWorkflow(cfg: Config, c: Cluster, d: Cluster, k: Key, wf: Workflow)
    requires Wired(cfg, c) && Managed(cfg, wf) && NewWorkflow(c, d, k, wf)
    ensures Wired(cfg, d)
    ensures NoOrphans(cfg, c) ==> NoOrphans(cfg, d)
  {
    forall j | j in c.store && Managed(cfg, c.store[j]) { NextIsUnnamed(cfg, c, j); }
    forall j | j in d.store && Managed(cfg, d.store[j]) ensures Wires(d, d.store[j]) {
      if j != k { assert Wires(c, c.store[j]); }
    }
    if NoOrphans(cfg, c) {
      forall i | i in d.runs && !d.runs[i].state.Completed? ensures Named(cfg, d, i) {
        if i == c.nextID {
          assert d.store[k].run == Some(i);
        } else {
          StaysNamed(cfg, c, d, i);
        }
      }
    }
  }

  lemma AddsClosed(cfg: Config, c: Cluster, d: Cluster, k: Key, wf: Workflow, synced: set<Key>)
    requires Wired(cfg, c) && AllClosed(cfg, c, synced) && NewWorkflow(c, d, k, wf) && !wf.published
    ensures AllClosed(cfg, d, synced - {k})
  {
    forall j | j in d.store && Managed(cfg, d.store[j]) ensures Closes(d, d.store[j], j in synced - {k}) {
      if j != k {
        NextIsUnnamed(cfg, c, j);
        assert Closes(c, c.store[j], j in synced);
      }
    }
  }

  /** Whether a request gets as far as creating its workflow. */
  predicate Creates(cfg: Config, c: Cluster, req: Request) {
    && !Ignored(req.definition) && !Refused(req) && req.volumeOk
    && cfg.namespace != "" && Target(cfg, req) !in c.store
  }

  /** The store after the cancellations of a request, if it comes to them. */
  function AfterCancel(cfg: Config, c: Cluster, req: Request): map<Key, Workflow> {
    if Ignored(req.definition) || Refused(req) then c.store else CancelOf(cfg, c.store, req.org, req.repo, req.ref)
  }

  /** The three ways a request can end. */
  lemma RunEffect(cfg: Config, c: Cluster, req: Request)
    ensures var d := RunOf(cfg, c, req);
      if Ignored(req.definition) then d == c
      else
        && d.nextID == c.nextID + 1
        && if Creates(cfg, c, req)
           then d.store == AfterCancel(cfg, c, req)[Target(cfg, req) := Decorated(cfg, req, c.nextID)]
                && d.runs == c.runs[c.nextID := CheckRun(Queued, [])]
           else d.store == AfterCancel(cfg, c, req)
                && d.runs == c.runs[c.nextID := CheckRun(Completed("failure"), [])]
  {
    var id := c.nextID;
    var c1 := Update(NewRun(c, Queued, CreateRun(id, Queued)), id, Queued, []);
    var none: seq<Annotation> := [];
    assert none + none == none;
    assert c1.runs == c.runs[id := CheckRun(Queued, [])];
    assert Update(c1, id, Completed("failure"), []).runs == c.runs[id := CheckRun(Completed("failure"), [])];
  }

  lemma CancelKeeps(cfg: Config, c: Cluster, req: Request, synced: set<Key>)
    requires Wired(cfg, c)
    ensures var d := c.(store := AfterCancel(cfg, c, req));
      && Wired(cfg, d)
      && (NoOrphans(cfg, c) ==> NoOrphans(cfg, d))
      && (AllClosed(cfg, c, synced) ==> AllClosed(cfg, d, synced))
  {
    StoreChange(cfg, c, AfterCancel(cfg, c, req));
    if AllClosed(cfg, c, synced) { StoreClosed(cfg, c, AfterCancel(cfg, c, req), synced, synced); }
  }

  lemma RunKeeps(cfg: Config, c: Cluster, req: Request, synced: set<Key>)
    requires Wired(cfg, c)
    ensures var d := RunOf(cfg, c, req);
      && Wired(cfg, d)
      && (NoOrphans(cfg, c) ==> NoOrphans(cfg, d))
      && (AllClosed(cfg, c, synced) && (req.definition.Readable? ==> !req.definition.workflow.published) ==>
            AllClosed(cfg, d, if Creates(cfg, c, req) then synced - {Target(cfg, req)} else synced))
  {
    RunEffect(cfg, c, req);
    if !Ignored(req.definition) {
      CancelKeeps(cfg, c, req, synced);
      var c', d := c.(store := AfterCancel(cfg, c, req)), RunOf(cfg, c, req);
      if Creates(cfg, c, req) {
        var wf := Decorated(cfg, req, c.nextID);
        AddsWorkflow(cfg, c', d, Target(cfg, req), wf);
        if AllClosed(cfg, c', synced) && !wf.published { AddsClosed(cfg, c', d, Target(cfg, req), wf, synced); }
      } else {
        AddsClosedRun(cfg, c', d, CheckRun(Completed("failure"), []), synced);
      }
    }
  }

  /** The deletion of a workflow that is over while its check run is open. */
  ghost predicate Drops(cfg: Config, c: Cluster, wf: Workflow) {
    && Managed(cfg, wf) && Finished(wf.phase)
    && wf.run.Some? && wf.run.value in c.runs && !c.runs[wf.run.value].state.Completed?
  }

  lemma DeleteWired(cfg: Config, c: Cluster, k: Key)
    requires Wired(cfg, c) && k in c.store
    ensures Wired(cfg, DeleteOf(cfg, c, k))
  {
    var d := DeleteOf(cfg, c, k);
    assert Managed(cfg, c.store[k]) ==> Wires(c, c.store[k]);
    forall j | j in d.store && Managed(cfg, d.store[j]) ensures Wires(d, d.store[j]) {
      assert Wires(c, c.store[j]);
    }
  }

  lemma DeleteNamed(cfg: Config, c: Cluster, k: Key)
    requires Wired(cfg, c) && NoOrphans(cfg, c) && k in c.store && !Drops(cfg, c, c.store[k])
    ensures NoOrphans(cfg, DeleteOf(cfg, c, k))
  {
    var d := DeleteOf(cfg, c, k);
    assert Managed(cfg, c.store[k]) ==> Wires(c, c.store[k]);
    forall i | i in d.runs && !d.runs[i].state.Completed? ensures Named(cfg, d, i) {
      assert Named(cfg, c, i);
      var j :| j in c.store && Managed(cfg, c.store[j]) && c.store[j].run == Some(i);
      assert j != k && d.store[j] == c.store[j];
    }
  }

  lemma DeleteClosed(cfg: Config, c: Cluster, k: Key, synced: set<Key>)
    requires Wired(cfg, c) && AllClosed(cfg, c, synced) && k in c.store
    ensures AllClosed(cfg, DeleteOf(cfg, c, k), synced - {k})
  {
    var d := DeleteOf(cfg, c, k);
    forall j | j in d.store && Managed(cfg, d.store[j]) ensures Closes(d, d.store[j], j in synced - {k}) {
      assert Wires(c, c.store[j]) && Closes(c, c.store[j], j in synced);
    }
  }

  lemma StepWired(cfg: Config, w: World, e: Event)
    requires Wired(cfg, w.c)
    ensures Wired(cfg, Step(cfg, w, e).c)
  {
    if Enabled(cfg, w, e) {
      match e
      case Run(req) => RunKeeps(cfg, w.c, req, w.synced);
      case Sync(k, order, pods) => SyncWired(cfg, w.c, k, order, pods);
      case Progress(k, phase, nodes) => StoreChange(cfg, w.c, Step(cfg, w, e).c.store);
      case Delete(k) => DeleteWired(cfg, w.c, k);
      case Foreign(k, wf) => StoreChange(cfg, w.c, Step(cfg, w, e).c.store);
    }
  }

  /** Over any run: check runs of workflows are distinct and exist, and have no annotations before they are published. */
  lemma {:induction false} StepsWired(cfg: Config, w: World, es: seq<Event>)
    requires Wired(cfg, w.c)
    ensures Wired(cfg, Steps(cfg, w, es).c)
  {
    if es != [] {
      StepsWired(cfg, w, es[..|es| - 1]);
      StepWired(cfg, Steps(cfg, w, es[..|es| - 1]), es[|es| - 1]);
    }
  }

  /** Events that leave an open check run to nobody. */
  ghost predicate Abandons(cfg: Config, w: World, e: Event) {
    && Enabled(cfg, w, e)
    && match e
       case Sync(k, _, _) => Replaces(cfg, w.c, w.c.store[k])
       case Delete(k) => Drops(cfg, w.c, w.c.store[k])
       case _ => false
  }

  lemma StepNamed(cfg: Config, w: World, e: Event)
    requires Wired(cfg, w.c) && NoOrphans(cfg, w.c) && !Abandons(cfg, w, e)
    ensures NoOrphans(cfg, Step(cfg, w, e).c)
  {
    if Enabled(cfg, w, e) {
      match e
      case Run(req) => RunKeeps(cfg, w.c, req, w.synced);
      case Sync(k, order, pods) => SyncNamed(cfg, w.c, k, order, pods);
      case Progress(k, phase, nodes) => StoreChange(cfg, w.c, Step(cfg, w, e).c.store);
      case Delete(k) => DeleteNamed(cfg, w.c, k);
      case Foreign(k, wf) => StoreChange(cfg, w.c, Step(cfg, w, e).c.store);
    }
  }

  lemma StepClosed(cfg: Config, w: World, e: Event)
    requires Wired(cfg, w.c) && AllClosed(cfg, w.c, w.synced) && Proper(cfg, w, e)
    ensures var w' := Step(cfg, w, e); AllClosed(cfg, w'.c, w'.synced)
  {
    if Enabled(cfg, w, e) {
      match e
      case Run(req) =>
        RunEffect(cfg, w.c, req);
        RunKeeps(cfg, w.c, req, w.synced);
      case Sync(k, order, pods) => SyncClosed(cfg, w.c, k, order, pods, w.synced);
      case Progress(k, phase, nodes) =>
        StoreClosed(cfg, w.c, Step(cfg, w, e).c.store, w.synced, w.synced - {k});
      case Delete(k) => DeleteClosed(cfg, w.c, k, w.synced);
      case Foreign(k, wf) => StoreClosed(cfg, w.c, Step(cfg, w, e).c.store, w.synced, w.synced);
    }
  }

  /** In a consistent state a proper event abandons nothing. */
  lemma ProperAbandonsNothing(cfg: Config, w: World, e: Event)
    requires Consistent(cfg, w.c, w.synced) && Proper(cfg, w, e)
    ensures !Abandons(cfg, w, e)
  {
    if Enabled(cfg, w, e) && (e.Sync? || e.Delete?) && Managed(cfg, w.c.store[e.k]) {
      assert Closes(w.c, w.c.store[e.k], e.k in w.synced);
    }
  }

  /** Over any proper run, besides: published check runs are complete, as are those whose end was seen, and open ones are named. */
  lemma {:induction false} StepsKeep(cfg: Config, w: World, es: seq<Event>)
    requires Consistent(cfg, w.c, w.synced) && AllProper(cfg, w, es)
    ensures var w' := Steps(cfg, w, es); Consistent(cfg, w'.c, w'.synced)
  {
    if es != [] {
      var before, e := Steps(cfg, w, es[..|es| - 1]), es[|es| - 1];
      ProperPrefix(cfg, w, es);
      StepsKeep(cfg, w, es[..|es| - 1]);
      ProperAbandonsNothing(cfg, before, e);
      StepWired(cfg, before, e);
      StepNamed(cfg, before, e);
      StepClosed(cfg, before, e);
    }
  }

  /* ---------- the requests ---------- */

  /** Updates of check runs, and new ones that stand alone. */
  predicate Plain(call: Call) {
    call.UpdateRun? || call.CreateRun?
  }

  /** `b` is `a` with plain requests after it. */
  ghost predicate Adds(a: seq<Call>, b: seq<Call>) {
    |a| <= |b| && b[..|a|] == a && forall i :: |a| <= i < |b| ==> Plain(b[i])
  }

  lemma AddsOn(a: seq<Call>, b: seq<Call>, c: seq<Call>)
    requires Adds(a, b) && Adds(b, c)
    ensures Adds(a, c)
  {
    assert c[..|a|] == c[..|b|][..|a|];
    forall i | |a| <= i < |c| ensures Plain(c[i]) {
      if i < |b| { assert c[i] == c[..|b|][i] == b[i]; }
    }
  }

  lemma {:induction false} OfferAdds(c: Cluster, steps: seq<bool>)
    ensures Adds(c.calls, OfferSteps(c, steps).calls)
  {
    if steps != [] {
      OfferAdds(c, steps[..|steps| - 1]);
      AddsOn(c.calls, OfferSteps(c, steps[..|steps| - 1]).calls, OfferSteps(c, steps).calls);
    }
  }

  lemma {:induction false} BatchesAdd(c: Cluster, id: nat, state: RunState, anns: seq<Annotation>, i: nat)
    ensures Adds(c.calls, SendBatches(c, id, state, anns, i).calls)
    decreases |anns| - i
  {
    if i < |anns| {
      var c' := Update(c, id, state, Batch(anns, i));
      BatchesAdd(c', id, state, anns, i + BATCH);
      AddsOn(c.calls, c'.calls, SendBatches(c', id, state, anns, i + BATCH).calls);
    }
  }

  lemma CompleteAdds(c: Cluster, k: Key, wf: Workflow, id: nat, state: RunState, anns: seq<Annotation>)
    ensures Adds(c.calls, Complete(c, k, wf, id, state, anns).calls)
  {
    if Publishes(wf.phase) {
      var c1 := if wf.phase.Succeeded? then OfferSteps(c, wf.steps) else c;
      OfferAdds(c, wf.steps);
      var c2 := Update(c1, id, state, []);
      AddsOn(c.calls, c1.calls, c2.calls);
      BatchesAdd(c2, id, state, anns, 0);
      AddsOn(c.calls, c2.calls, SendBatches(c2, id, state, anns, 0).calls);
    }
  }

  lemma ReportAdds(c: Cluster, k: Key, id: nat, pods: seq<NodeId>)
    requires k in c.store && forall n :: n in pods ==> n in c.store[k].nodes
    ensures var d := Report(c, k, id, pods);
      Adds(c.calls, d.calls) && if c.store[k].phase.Unknown? then d == c else |d.calls| > |c.calls|
  {
    var wf := c.store[k];
    if !wf.phase.Unknown? {
      var state := CompletionStatus(wf).value;
      var c1 := Update(c, id, state, []);
      var anns := AllAnnotations(wf.nodes, pods);
      CompleteAdds(c1, k, wf, id, state, anns);
      AddsOn(c.calls, c1.calls, Complete(c1, k, wf, id, state, anns).calls);
    }
  }

  lemma RunAdds(cfg: Config, c: Cluster, req: Request)
    ensures var calls := RunOf(cfg, c, req).calls;
      if Creates(cfg, c, req)
      then calls != [] && calls[|calls| - 1] == CreateWorkflow(Target(cfg, req)) && Adds(c.calls, calls[..|calls| - 1])
      else Adds(c.calls, calls)
  {
    var id := c.nextID;
    var c1 := Update(NewRun(c, Queued, CreateRun(id, Queued)), id, Queued, []);
    assert Adds(c.calls, c1.calls);
    assert (c1.calls + [CreateWorkflow(Target(cfg, req))])[..|c1.calls|] == c1.calls;
  }

  /* ---------- check runs ---------- */

  /** Nothing of the syncer's is there yet. */
  ghost predicate Start(cfg: Config, w: World) {
    && w.c.runs == map[] && w.c.calls == [] && w.seen == []
    && forall k :: k in w.c.store ==> !Managed(cfg, w.c.store[k])
  }

  /** In every reachable state a check run is complete, or a stored workflow that is managed names it. */
  lemma {:induction false} NoOrphanedRuns(cfg: Config, w: World, es: seq<Event>, id: nat)
    requires Start(cfg, w) && AllProper(cfg, w, es)
    requires id in Steps(cfg, w, es).c.runs
    ensures var c := Steps(cfg, w, es).c;
      c.runs[id].state.Completed? || exists k :: k in c.store && Managed(cfg, c.store[k]) && c.store[k].run == Some(id)
  {
    StepsKeep(cfg, w, es);
    assert !Steps(cfg, w, es).c.runs[id].state.Completed? ==> Named(cfg, Steps(cfg, w, es).c, id);
  }

  /**
    One event after the other, and whatever happened before: an event leaves an open check
    run to nobody exactly if it is the sync of a published workflow that is active again,
    or the deletion of one that is over, while its check run is open.
   */
  lemma {:induction false} OrphansExactly(cfg: Config, w: World, e: Event)
    requires Wired(cfg, w.c) && NoOrphans(cfg, w.c)
    ensures NoOrphans(cfg, Step(cfg, w, e).c) <==> !Abandons(cfg, w, e)
  {
    if !Abandons(cfg, w, e) {
      StepNamed(cfg, w, e);
    } else if e.Sync? {
      SyncAbandons(cfg, w.c, e.k, e.order, e.pods);
    } else {
      DeleteAbandons(cfg, w.c, e.k);
    }
  }

  lemma SyncAbandons(cfg: Config, c: Cluster, k: Key, order: seq<NodeId>, pods: seq<NodeId>)
    requires Wired(cfg, c) && k in c.store && Replaces(cfg, c, c.store[k])
    requires forall n :: n in order || n in pods ==> n in c.store[k].nodes
    ensures !NoOrphans(cfg, SyncOf(cfg, c, k, order, pods))
  {
    var id, c1 := c.store[k].run.value, Reset(c, k);
    NextIsUnnamed(cfg, c, k);
    ResetWired(cfg, c, k);
    WorkWired(cfg, c1, k, order, pods);
    var d := Work(c1, k, order, pods);
    assert d == SyncOf(cfg, c, k, order, pods);
    assert id in c1.runs && d.runs[id] == c1.runs[id] == c.runs[id];
    assert !Named(cfg, d, id) by {
      forall j | j in d.store && Managed(cfg, d.store[j]) ensures d.store[j].run != Some(id) {
        if j != k { assert d.store[j] == c.store[j]; }
      }
    }
  }

  lemma DeleteAbandons(cfg: Config, c: Cluster, k: Key)
    requires Wired(cfg, c) && k in c.store && Drops(cfg, c, c.store[k])
    ensures !NoOrphans(cfg, DeleteOf(cfg, c, k))
  {
    var d, id := DeleteOf(cfg, c, k), c.store[k].run.value;
    assert id in d.runs && !d.runs[id].state.Completed?;
    assert !Named(cfg, d, id);
  }

  /** The cluster after a request has created its workflow and Argo has moved it on. */
  ghost predicate JustCreated(cfg: Config, w: World, req: Request, phase: Phase, nodes: map<NodeId, Node>, w': World) {
    Creates(cfg, w.c, req) && w' == Steps(cfg, w, [Run(req), Progress(Target(cfg, req), phase, nodes)])
  }

  lemma CreatedIs(cfg: Config, w: World, req: Request, phase: Phase, nodes: map<NodeId, Node>, w': World)
    requires Wired(cfg, w.c) && NoOrphans(cfg, w.c) && JustCreated(cfg, w, req, phase, nodes, w')
    ensures Wired(cfg, w'.c) && NoOrphans(cfg, w'.c)
    ensures var k := Target(cfg, req);
      && k in w'.c.store && Managed(cfg, w'.c.store[k])
      && w'.c.store[k].phase == phase && w'.c.store[k].nodes == nodes
      && w'.c.store[k].published == req.definition.workflow.published
      && w'.c.store[k].run == Some(w.c.nextID) && w.c.nextID in w'.c.runs && w'.c.runs[w.c.nextID].state == Queued
  {
    var run, progress := Run(req), Progress(Target(cfg, req), phase, nodes);
    var w1 := Step(cfg, w, run);
    TwoSteps(cfg, w, run, progress);
    RunEffect(cfg, w.c, req);
    StepWired(cfg, w, run);
    StepNamed(cfg, w, run);
    StepWired(cfg, w1, progress);
    StepNamed(cfg, w1, progress);
  }

  lemma TwoSteps(cfg: Config, w: World, e: Event, e': Event)
    ensures Steps(cfg, w, [e, e']) == Step(cfg, Step(cfg, w, e), e')
  {
    var es := [e, e'];
    assert es[..1] == [e] && [e][..0] == [];
    assert Steps(cfg, w, []) == w;
    assert Steps(cfg, w, [e]) == Step(cfg, w, e);
  }

  /**
    The first sync of a workflow whose definition presets the published annotation
    abandons the check run just created, if it finds the workflow pending or running; and
    only then.
   */
  lemma {:induction false} PresetPublishedOrphans(cfg: Config, w: World, req: Request, phase: Phase, nodes: map<NodeId, Node>,
                                                 w': World, order: seq<NodeId>, pods: seq<NodeId>)
    requires Wired(cfg, w.c) && NoOrphans(cfg, w.c) && JustCreated(cfg, w, req, phase, nodes, w')
    requires Visits(order, nodes) && Visits(pods, nodes)
    ensures NoOrphans(cfg, Step(cfg, w', Sync(Target(cfg, req), order, pods)).c)
      <==> !(req.definition.workflow.published && Active(phase))
  {
    CreatedIs(cfg, w, req, phase, nodes, w');
    OrphansExactly(cfg, w', Sync(Target(cfg, req), order, pods));
  }

  /** The deletion of a workflow that has not been synced since abandons its check run exactly if it finds the workflow over. */
  lemma {:induction false} EarlyDeletionOrphans(cfg: Config, w: World, req: Request, phase: Phase, nodes: map<NodeId, Node>, w': World)
    requires Wired(cfg, w.c) && NoOrphans(cfg, w.c) && JustCreated(cfg, w, req, phase, nodes, w')
    ensures NoOrphans(cfg, Step(cfg, w', Delete(Target(cfg, req))).c) <==> !Finished(phase)
  {
    CreatedIs(cfg, w, req, phase, nodes, w');
    OrphansExactly(cfg, w', Delete(Target(cfg, req)));
  }

  const CONFIG := Config("ci", "kube-ci")

  const NOTHING := World(Cluster(map[], map[], 1, []), {}, [])

  /** A request for a definition that says its annotations are published, or does not. */
  function Asking(published: bool): Request {
    var wf := Workflow(None, None, None, NoAnnotations, None, published, None, false, Unknown, map[], false, [], 0);
    Request("o", "r", "main", "w", Readable(wf, true), true, true, true)
  }

  /** Two runs that start from nothing and end with an open check run that no workflow names. */
  lemma {:induction false} OrphansHappen()
    ensures Start(CONFIG, NOTHING)
    ensures var k := Target(CONFIG, Asking(true));
      !NoOrphans(CONFIG, Steps(CONFIG, NOTHING, [Run(Asking(true)), Progress(k, Pending, map[]), Sync(k, [], [])]).c)
    ensures var k := Target(CONFIG, Asking(false));
      !NoOrphans(CONFIG, Steps(CONFIG, NOTHING, [Run(Asking(false)), Progress(k, Succeeded, map[]), Delete(k)]).c)
  {
    var k := Target(CONFIG, Asking(true));
    var w1 := Steps(CONFIG, NOTHING, [Run(Asking(true)), Progress(k, Pending, map[])]);
    assert JustCreated(CONFIG, NOTHING, Asking(true), Pending, map[], w1);
    PresetPublishedOrphans(CONFIG, NOTHING, Asking(true), Pending, map[], w1, [], []);
    ThirdStep(CONFIG, NOTHING, Run(Asking(true)), Progress(k, Pending, map[]), Sync(k, [], []));
    var w2 := Steps(CONFIG, NOTHING, [Run(Asking(false)), Progress(k, Succeeded, map[])]);
    assert JustCreated(CONFIG, NOTHING, Asking(false), Succeeded, map[], w2);
    EarlyDeletionOrphans(CONFIG, NOTHING, Asking(false), Succeeded, map[], w2);
    ThirdStep(CONFIG, NOTHING, Run(Asking(false)), Progress(k, Succeeded, map[]), Delete(k));
  }

  lemma ThirdStep(cfg: Config, w: World, e: Event, e': Event, e'': Event)
    ensures Steps(cfg, w, [e, e', e'']) == Step(cfg, Steps(cfg, w, [e, e']), e'')
  {
    assert [e, e', e''][..2] == [e, e'];
  }

  /** The state and conclusion that go with a phase. */
  predicate Tells(state: RunState, wf: Workflow) {
    && (wf.phase.Pending? ==> state == Queued)
    && (wf.phase.Running? ==> state == InProgress)
    && (wf.phase.Succeeded? ==> state == Completed("success"))
    && (wf.phase.Error? ==> state == Completed("failure"))
    && (wf.phase.Failed? ==> state == Completed(if wf.cancelled then "cancelled" else "failure"))
  }

  /** After a sync the check run that the workflow then names tells its phase, unless it was published and is still over. */
  lemma {:induction false} SyncTellsPhase(cfg: Config, c: Cluster, k: Key, order: seq<NodeId>, pods: seq<NodeId>)
    requires Wired(cfg, c) && k in c.store && Managed(cfg, c.store[k])
    requires forall n :: n in order || n in pods ==> n in c.store[k].nodes
    requires !c.store[k].published || Active(c.store[k].phase)
    ensures var d := SyncOf(cfg, c, k, order, pods);
      && k in d.store && d.store[k].run.Some? && d.store[k].run.value in d.runs
      && Tells(d.runs[d.store[k].run.value].state, c.store[k])
      && (c.store[k].published ==> d.store[k].run.value !in c.runs)
  {
    assert Wires(c, c.store[k]);
    if c.store[k].published {
      ResetWired(cfg, c, k);
      WorkTells(Reset(c, k), k, order, pods);
    } else {
      WorkTells(c, k, order, pods);
    }
  }

  lemma WorkTells(c: Cluster, k: Key, order: seq<NodeId>, pods: seq<NodeId>)
    requires k in c.store && c.store[k].run.Some? && forall n :: n in order || n in pods ==> n in c.store[k].nodes
    requires Fresh(c) && c.store[k].run.value in c.runs
    ensures var d := Work(c, k, order, pods);
      && k in d.store && d.store[k].run == c.store[k].run && c.store[k].run.value in d.runs
      && Tells(d.runs[c.store[k].run.value].state, c.store[k])
  {
    WorkEffect(c, k, order, pods);
  }

  /** What the logs of the pods say, node by node in the order of the visits. */
  ghost predicate Collected(anns: seq<Annotation>, nodes: map<NodeId, Node>, pods: seq<NodeId>, parts: seq<seq<Annotation>>)
    requires forall n :: n in pods ==> n in nodes
  {
    && anns == Flatten(parts) && |parts| == |pods|
    && forall i :: 0 <= i < |pods| ==>
         var n := nodes[pods[i]];
         parts[i] == if n.pod && n.log.Some? then ParseLog(n.log.value, "") else []
  }

  lemma {:induction false} AllCollected(nodes: map<NodeId, Node>, pods: seq<NodeId>) returns (parts: seq<seq<Annotation>>)
    requires forall n :: n in pods ==> n in nodes
    ensures Collected(AllAnnotations(nodes, pods), nodes, pods, parts)
  {
    if pods == [] {
      parts := [];
    } else {
      var front := pods[..|pods| - 1];
      var before := AllCollected(nodes, front);
      parts := before + [LogAnnotations(nodes[pods[|pods| - 1]])];
      OneMorePod(nodes, pods, before);
    }
  }

  lemma OneMorePod(nodes: map<NodeId, Node>, pods: seq<NodeId>, before: seq<seq<Annotation>>)
    requires pods != [] && forall n :: n in pods ==> n in nodes
    requires Collected(AllAnnotations(nodes, pods[..|pods| - 1]), nodes, pods[..|pods| - 1], before)
    ensures Collected(AllAnnotations(nodes, pods), nodes, pods, before + [LogAnnotations(nodes[pods[|pods| - 1]])])
  {
    var last := LogAnnotations(nodes[pods[|pods| - 1]]);
    FlattenAppend(before, last);
    var parts := before + [last];
    forall i | 0 <= i < |pods|
      ensures parts[i] == if nodes[pods[i]].pod && nodes[pods[i]].log.Some? then ParseLog(nodes[pods[i]].log.value, "") else []
    {
      if i < |pods| - 1 {
        assert parts[i] == before[i] && pods[..|pods| - 1][i] == pods[i];
      } else {
        assert parts[i] == last;
      }
    }
  }

  /** A line in the log of one of the pods is that annotation. */
  ghost predicate Logged(nodes: map<NodeId, Node>, pods: seq<NodeId>, a: Annotation)
    requires forall n :: n in pods ==> n in nodes
  {
    exists n, line :: n in pods && nodes[n].pod && nodes[n].log.Some?
                      && line in Lines(nodes[n].log.value) && ParseLine(line, "") == Some(a)
  }

  lemma {:induction false} InOneLog(nodes: map<NodeId, Node>, pods: seq<NodeId>, a: Annotation)
    requires forall n :: n in pods ==> n in nodes
    ensures a in AllAnnotations(nodes, pods) <==> Logged(nodes, pods, a)
  {
    if pods != [] {
      var front, last := pods[..|pods| - 1], pods[|pods| - 1];
      InOneLog(nodes, front, a);
      assert forall n :: n in pods <==> n in front || n == last by { assert pods == front + [last]; }
      if nodes[last].log.Some? { LogHas(Lines(nodes[last].log.value), "", a); }
    }
  }

  /** The workflow counts as published, and its check run has the conclusion of its phase. */
  ghost predicate HasPublished(d: Cluster, k: Key, wf: Workflow) {
    && k in d.store && d.store[k].published
    && wf.run.Some? && wf.run == d.store[k].run && wf.run.value in d.runs
    && Tells(d.runs[wf.run.value].state, wf)
  }

  /**
    The sync that finds a workflow succeeded or failed publishes what the logs of its pods
    say, pod after pod: every line that is an annotation, and nothing else.
   */
  lemma {:induction false} SyncPublishes(cfg: Config, c: Cluster, k: Key, order: seq<NodeId>, pods: seq<NodeId>)
    returns (parts: seq<seq<Annotation>>)
    requires Wired(cfg, c) && k in c.store && c.store[k].managedBy == Some(cfg.managedBy) && !c.store[k].published
    requires forall n :: n in order || n in pods ==> n in c.store[k].nodes
    requires c.store[k].phase.Succeeded? || c.store[k].phase.Failed?
    ensures var d, wf := SyncOf(cfg, c, k, order, pods), c.store[k];
      && HasPublished(d, k, wf)
      && Collected(d.runs[wf.run.value].annotations, wf.nodes, pods, parts)
      && forall a :: a in d.runs[wf.run.value].annotations <==> Logged(wf.nodes, pods, a)
  {
    var wf := c.store[k];
    assert Wires(c, wf);
    WorkEffect(c, k, order, pods);
    ReportedHasPublished(c, Work(c, k, order, pods), k, wf.run.value, pods);
    parts := AllCollected(wf.nodes, pods);
    forall a ensures a in AllAnnotations(wf.nodes, pods) <==> Logged(wf.nodes, pods, a) { InOneLog(wf.nodes, pods, a); }
  }

  lemma ReportedHasPublished(c: Cluster, d: Cluster, k: Key, id: nat, pods: seq<NodeId>)
    requires k in c.store && (forall n :: n in pods ==> n in c.store[k].nodes)
    requires Reported(c, d, k, id, pods) && c.store[k].run == Some(id)
    requires (c.store[k].phase.Succeeded? || c.store[k].phase.Failed?) && c.runs[id].annotations == []
    ensures HasPublished(d, k, c.store[k])
    ensures d.runs[id].annotations == AllAnnotations(c.store[k].nodes, pods)
  {
    var none: seq<Annotation> := [];
    assert none + AllAnnotations(c.store[k].nodes, pods) == AllAnnotations(c.store[k].nodes, pods);
  }

  /** Annotations of a check run are never added to nor replaced. */
  lemma AnnotationsStay(cfg: Config, w: World, e: Event, id: nat)
    requires Wired(cfg, w.c)
    requires id in w.c.runs && w.c.runs[id].annotations != []
    ensures var c := Step(cfg, w, e).c; id in c.runs && c.runs[id].annotations == w.c.runs[id].annotations
  {
    if Enabled(cfg, w, e) {
      match e
      case Run(req) => RunEffect(cfg, w.c, req);
      case Sync(k, order, pods) => SyncLeavesAnnotations(cfg, w.c, k, order, pods, id);
      case Progress(k, phase, nodes) =>
      case Delete(k) =>
      case Foreign(k, wf) =>
    }
  }

  lemma SyncLeavesAnnotations(cfg: Config, c: Cluster, k: Key, order: seq<NodeId>, pods: seq<NodeId>, id: nat)
    requires Wired(cfg, c) && k in c.store
    requires forall n :: n in order || n in pods ==> n in c.store[k].nodes
    requires id in c.runs && c.runs[id].annotations != []
    ensures var d := SyncOf(cfg, c, k, order, pods); id in d.runs && d.runs[id].annotations == c.runs[id].annotations
  {
    var wf := c.store[k];
    if Managed(cfg, wf) {
      assert Wires(c, wf);
      if !wf.published {
        WorkEffect(c, k, order, pods);
      } else if Active(wf.phase) {
        ResetWired(cfg, c, k);
        WorkEffect(Reset(c, k), k, order, pods);
        assert Reset(c, k).runs[id] == c.runs[id] && id != c.nextID;
      }
    }
  }

  /** A check run gets its annotations at one time, whatever happens later. */
  lemma {:induction false} AnnotationsArePublishedOnce(cfg: Config, w: World, es: seq<Event>, id: nat)
    requires Wired(cfg, w.c)
    requires id in w.c.runs && w.c.runs[id].annotations != []
    ensures var c := Steps(cfg, w, es).c; id in c.runs && c.runs[id].annotations == w.c.runs[id].annotations
  {
    if es != [] {
      AnnotationsArePublishedOnce(cfg, w, es[..|es| - 1], id);
      StepsWired(cfg, w, es[..|es| - 1]);
      AnnotationsStay(cfg, Steps(cfg, w, es[..|es| - 1]), es[|es| - 1], id);
    }
  }
}
