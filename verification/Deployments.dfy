/**
  On-demand deployments: a node gets at most one between two replacements of the check
  run, the recorded ids stay, and every status goes to the recorded deployment.
 */
module Deployments {
  import opened Basics
  import opened Syncer
  import opened Reconcile
  import opened Convergence

  /** A request after which the deployments of a workflow start afresh. */
  predicate Afresh(call: Call, k: Key) {
    (call.ResetRun? && call.k == k) || (call.CreateWorkflow? && call.k == k)
  }

  /** The deployments created for a node since then. */
  function Created(calls: seq<Call>, k: Key, node: NodeId): seq<nat> {
    if calls == [] then []
    else
      var front, call := Created(calls[..|calls| - 1], k, node), calls[|calls| - 1];
      if Afresh(call, k) then []
      else if call.CreateDeployment? && call.k == k && call.node == node then front + [call.id]
      else front
  }

  /** The deployments that were sent a status for the node since then. */
  function Told(calls: seq<Call>, k: Key, node: NodeId): set<nat> {
    if calls == [] then {}
    else
      var front, call := Told(calls[..|calls| - 1], k, node), calls[|calls| - 1];
      if Afresh(call, k) then {}
      else if call.DeploymentStatus? && call.k == k && call.node == node then front + {call.id}
      else front
  }

  lemma CreatedOne(calls: seq<Call>, call: Call, k: Key, node: NodeId)
    ensures Created(calls + [call], k, node) ==
      if Afresh(call, k) then []
      else if call.CreateDeployment? && call.k == k && call.node == node then Created(calls, k, node) + [call.id]
      else Created(calls, k, node)
    ensures Told(calls + [call], k, node) ==
      if Afresh(call, k) then {}
      else if call.DeploymentStatus? && call.k == k && call.node == node then Told(calls, k, node) + {call.id}
      else Told(calls, k, node)
  {
    assert (calls + [call])[..|calls|] == calls;
  }

  lemma {:induction false} AddsNone(a: seq<Call>, b: seq<Call>, k: Key, node: NodeId)
    requires Adds(a, b)
    ensures Created(b, k, node) == Created(a, k, node) && Told(b, k, node) == Told(a, k, node)
    decreases |b|
  {
    if |b| == |a| {
      assert a == b;
    } else {
      var front := b[..|b| - 1];
      assert front[..|a|] == a;
      AddsNone(a, front, k, node);
    }
  }

  /** At most one deployment was created, it is the recorded one, and statuses went to the recorded one. */
  ghost predicate Kept(calls: seq<Call>, ids: map<NodeId, nat>, k: Key, node: NodeId) {
    && (Created(calls, k, node) == [] || (Created(calls, k, node) == [IDOf(ids, node)] && IDOf(ids, node) != 0))
    && forall id :: id in Told(calls, k, node) ==> id == IDOf(ids, node) && id != 0
  }

  ghost predicate Recorded(cfg: Config, c: Cluster, k: Key, node: NodeId) {
    && c.nextID > 0
    && |Created(c.calls, k, node)| <= 1
    && (k in c.store && Managed(cfg, c.store[k]) ==> Kept(c.calls, IDs(c.store[k]), k, node))
  }

  lemma DeployNodeKeeps(c: Cluster, k: Key, n: NodeId, node: NodeId)
    requires k in c.store && n in c.store[k].nodes
    requires c.nextID > 0 && Kept(c.calls, IDs(c.store[k]), k, node)
    ensures var d := DeployNode(c, k, n);
      && d.nextID > 0 && Kept(d.calls, IDs(d.store[k]), k, node)
      && (IDOf(IDs(c.store[k]), node) != 0 ==> IDOf(IDs(d.store[k]), node) == IDOf(IDs(c.store[k]), node))
  {
    var wf := c.store[k];
    if Reports(wf.nodes[n]) {
      var state, id := StateOf(wf.nodes[n].phase).value, IDOf(IDs(wf), n);
      if id != 0 {
        CreatedOne(c.calls, DeploymentStatus(k, n, id, state), k, node);
      } else if wf.refKnown {
        CreatedOne(c.calls, CreateDeployment(k, n, c.nextID), k, node);
        CreatedOne(c.calls + [CreateDeployment(k, n, c.nextID)], DeploymentStatus(k, n, c.nextID, state), k, node);
      }
    }
  }

  lemma {:induction false} DeployKeeps(c: Cluster, k: Key, order: seq<NodeId>, node: NodeId)
    requires k in c.store && forall n :: n in order ==> n in c.store[k].nodes
    requires c.nextID > 0 && Kept(c.calls, IDs(c.store[k]), k, node)
    ensures var d := DeployAll(c, k, order);
      && d.nextID > 0 && Kept(d.calls, IDs(d.store[k]), k, node)
      && (IDOf(IDs(c.store[k]), node) != 0 ==> IDOf(IDs(d.store[k]), node) == IDOf(IDs(c.store[k]), node))
  {
    if order != [] {
      DeployKeeps(c, k, order[..|order| - 1], node);
      DeployNodeKeeps(DeployAll(c, k, order[..|order| - 1]), k, order[|order| - 1], node);
    }
  }

  lemma {:induction false} DeployElsewhere(c: Cluster, k: Key, order: seq<NodeId>, j: Key, node: NodeId)
    requires k in c.store && (forall n :: n in order ==> n in c.store[k].nodes) && j != k
    ensures var d := DeployAll(c, k, order);
      && Created(d.calls, j, node) == Created(c.calls, j, node) && Told(d.calls, j, node) == Told(c.calls, j, node)
      && d.nextID >= c.nextID
  {
    if order != [] {
      var front, n := order[..|order| - 1], order[|order| - 1];
      DeployElsewhere(c, k, front, j, node);
      var d := DeployAll(c, k, front);
      if Reports(d.store[k].nodes[n]) {
        var state, id := StateOf(d.store[k].nodes[n].phase).value, IDOf(IDs(d.store[k]), n);
        CreatedOne(d.calls, DeploymentStatus(k, n, id, state), j, node);
        CreatedOne(d.calls, CreateDeployment(k, n, d.nextID), j, node);
        CreatedOne(d.calls + [CreateDeployment(k, n, d.nextID)], DeploymentStatus(k, n, d.nextID, state), j, node);
      }
    }
  }

  /** Reporting leaves the deployments alone. */
  lemma ReportDeploys(c: Cluster, k: Key, id: nat, pods: seq<NodeId>, j: Key, node: NodeId)
    requires k in c.store && forall n :: n in pods ==> n in c.store[k].nodes
    ensures var d := Report(c, k, id, pods);
      && Created(d.calls, j, node) == Created(c.calls, j, node) && Told(d.calls, j, node) == Told(c.calls, j, node)
      && d.nextID >= c.nextID
      && k in d.store && IDs(d.store[k]) == IDs(c.store[k])
  {
    ReportAdds(c, k, id, pods);
    AddsNone(c.calls, Report(c, k, id, pods).calls, j, node);
    ReportStore(c, k, id, pods);
  }

  lemma WorkDeploys(c: Cluster, k: Key, order: seq<NodeId>, pods: seq<NodeId>, node: NodeId)
    requires k in c.store && c.store[k].run.Some? && (forall n :: n in order || n in pods ==> n in c.store[k].nodes)
    requires c.nextID > 0 && Kept(c.calls, IDs(c.store[k]), k, node)
    ensures var d := Work(c, k, order, pods);
      && d.nextID > 0 && k in d.store && Kept(d.calls, IDs(d.store[k]), k, node)
      && (IDOf(IDs(c.store[k]), node) != 0 ==> IDOf(IDs(d.store[k]), node) == IDOf(IDs(c.store[k]), node))
  {
    DeployKeeps(c, k, order, node);
    ReportDeploys(DeployAll(c, k, order), k, c.store[k].run.value, pods, k, node);
  }

  lemma WorkElsewhere(c: Cluster, k: Key, order: seq<NodeId>, pods: seq<NodeId>, j: Key, node: NodeId)
    requires k in c.store && c.store[k].run.Some? && (forall n :: n in order || n in pods ==> n in c.store[k].nodes)
    requires j != k
    ensures var d := Work(c, k, order, pods);
      && Created(d.calls, j, node) == Created(c.calls, j, node) && Told(d.calls, j, node) == Told(c.calls, j, node)
      && d.nextID >= c.nextID
  {
    DeployElsewhere(c, k, order, j, node);
    ReportDeploys(DeployAll(c, k, order), k, c.store[k].run.value, pods, j, node);
  }

  lemma SyncKeepsOwn(cfg: Config, c: Cluster, k: Key, order: seq<NodeId>, pods: seq<NodeId>, node: NodeId)
    requires k in c.store && Recorded(cfg, c, k, node)
    requires forall n :: n in order || n in pods ==> n in c.store[k].nodes
    ensures Recorded(cfg, SyncOf(cfg, c, k, order, pods), k, node)
  {
    var wf := c.store[k];
    if Managed(cfg, wf) && wf.run.Some? {
      if !wf.published {
        WorkDeploys(c, k, order, pods, node);
      } else if Active(wf.phase) {
        CreatedOne(c.calls, ResetRun(k, c.nextID), k, node);
        WorkDeploys(Reset(c, k), k, order, pods, node);
      }
    }
  }

  lemma SyncKeepsOther(cfg: Config, c: Cluster, k: Key, order: seq<NodeId>, pods: seq<NodeId>, j: Key, node: NodeId)
    requires k in c.store && j != k && Recorded(cfg, c, j, node)
    requires forall n :: n in order || n in pods ==> n in c.store[k].nodes
    ensures Recorded(cfg, SyncOf(cfg, c, k, order, pods), j, node)
  {
    var wf := c.store[k];
    SyncTouches(cfg, c, k, order, pods);
    if Managed(cfg, wf) && wf.run.Some? {
      if !wf.published {
        WorkElsewhere(c, k, order, pods, j, node);
      } else if Active(wf.phase) {
        CreatedOne(c.calls, ResetRun(k, c.nextID), j, node);
        WorkElsewhere(Reset(c, k), k, order, pods, j, node);
      }
    }
  }

  lemma RunKeepsRecords(cfg: Config, c: Cluster, req: Request, j: Key, node: NodeId)
    requires Recorded(cfg, c, j, node)
    ensures Recorded(cfg, RunOf(cfg, c, req), j, node)
  {
    var d := RunOf(cfg, c, req);
    RunEffect(cfg, c, req);
    if Creates(cfg, c, req) {
      CreationKeepsRecords(cfg, c, req, j, node);
    } else {
      assert Adds(c.calls, d.calls) by { RunAdds(cfg, c, req); }
      AddsNone(c.calls, d.calls, j, node);
    }
  }

  lemma CreationKeepsRecords(cfg: Config, c: Cluster, req: Request, j: Key, node: NodeId)
    requires Recorded(cfg, c, j, node) && Creates(cfg, c, req)
    ensures Recorded(cfg, RunOf(cfg, c, req), j, node)
  {
    var d, k := RunOf(cfg, c, req), Target(cfg, req);
    RunAdds(cfg, c, req);
    var calls := d.calls[..|d.calls| - 1];
    AddsNone(c.calls, calls, j, node);
    assert d.calls == calls + [CreateWorkflow(k)];
    CreatedOne(calls, CreateWorkflow(k), j, node);
    RunEffect(cfg, c, req);
    assert j != k && j in d.store ==> j in c.store && d.store[j].deployments == c.store[j].deployments;
  }

  lemma StepRecords(cfg: Config, w: World, e: Event, k: Key, node: NodeId)
    requires Recorded(cfg, w.c, k, node)
    ensures Recorded(cfg, Step(cfg, w, e).c, k, node)
  {
    if Enabled(cfg, w, e) {
      match e
      case Run(req) => RunKeepsRecords(cfg, w.c, req, k, node);
      case Sync(j, order, pods) =>
        if j == k { SyncKeepsOwn(cfg, w.c, k, order, pods, node); }
        else { SyncKeepsOther(cfg, w.c, j, order, pods, k, node); }
      case Progress(_, _, _) =>
      case Delete(j) =>
        if w.c.store[j].run.Some? { CreatedOne(w.c.calls, UpdateRun(w.c.store[j].run.value, Completed("cancelled"), []), k, node); }
      case Foreign(_, _) =>
    }
  }

  /**
    Over any run: since its check run was last replaced, a node of a workflow had at most
    one deployment created; that is the recorded one, and it alone was sent statuses.
   */
  lemma {:induction false} DeploymentsAreRecorded(cfg: Config, w: World, es: seq<Event>, k: Key, node: NodeId)
    requires Start(cfg, w) && w.c.nextID > 0
    ensures Recorded(cfg, Steps(cfg, w, es).c, k, node)
  {
    if es != [] {
      DeploymentsAreRecorded(cfg, w, es[..|es| - 1], k, node);
      StepRecords(cfg, Steps(cfg, w, es[..|es| - 1]), es[|es| - 1], k, node);
    }
  }

  /* ---------- the record only grows ---------- */

  lemma SyncGrows(cfg: Config, c: Cluster, k: Key, order: seq<NodeId>, pods: seq<NodeId>, node: NodeId)
    requires k in c.store && Recorded(cfg, c, k, node) && Managed(cfg, c.store[k])
    requires forall n :: n in order || n in pods ==> n in c.store[k].nodes
    requires IDOf(IDs(c.store[k]), node) != 0
    ensures var d := SyncOf(cfg, c, k, order, pods);
      && k in d.store && Managed(cfg, d.store[k])
      && (Resets(d.calls, k) == Resets(c.calls, k) ==> IDOf(IDs(d.store[k]), node) == IDOf(IDs(c.store[k]), node))
  {
    SyncResets(cfg, c, k, order, pods, k);
    SyncTouches(cfg, c, k, order, pods);
    if !c.store[k].published && c.store[k].run.Some? { WorkDeploys(c, k, order, pods, node); }
  }

  lemma RunGrows(cfg: Config, c: Cluster, req: Request, k: Key)
    requires k in c.store
    ensures var d := RunOf(cfg, c, req);
      k in d.store && d.store[k].deployments == c.store[k].deployments && d.store[k].managedBy == c.store[k].managedBy
  {
    RunEffect(cfg, c, req);
  }

  lemma StepGrows(cfg: Config, w: World, e: Event, k: Key, node: NodeId)
    requires Recorded(cfg, w.c, k, node)
    requires k in w.c.store && Managed(cfg, w.c.store[k]) && IDOf(IDs(w.c.store[k]), node) != 0 && e != Delete(k)
    ensures var c := Step(cfg, w, e).c;
      && k in c.store && Managed(cfg, c.store[k])
      && (Resets(c.calls, k) == Resets(w.c.calls, k) ==> IDOf(IDs(c.store[k]), node) == IDOf(IDs(w.c.store[k]), node))
  {
    if Enabled(cfg, w, e) {
      match e
      case Run(req) => RunGrows(cfg, w.c, req, k);
      case Sync(j, order, pods) =>
        if j == k { SyncGrows(cfg, w.c, k, order, pods, node); }
        else { SyncTouches(cfg, w.c, j, order, pods); }
      case _ =>
    }
  }

  lemma StepResets(cfg: Config, w: World, e: Event, k: Key)
    ensures Resets(Step(cfg, w, e).c.calls, k) >= Resets(w.c.calls, k)
  {
    if Enabled(cfg, w, e) {
      match e
      case Run(req) => RunResets(cfg, w.c, req, k);
      case Sync(j, order, pods) =>
        SyncResets(cfg, w.c, j, order, pods, k);
      case Delete(j) =>
        if w.c.store[j].run.Some? { OneMore(w.c.calls, UpdateRun(w.c.store[j].run.value, Completed("cancelled"), []), k); }
      case _ =>
    }
  }

  /** While a workflow is neither deleted nor gets a new check run, an id once recorded stays. */
  lemma {:induction false} RecordsGrow(cfg: Config, w: World, es: seq<Event>, k: Key, node: NodeId)
    requires Recorded(cfg, w.c, k, node)
    requires k in w.c.store && Managed(cfg, w.c.store[k]) && IDOf(IDs(w.c.store[k]), node) != 0
    requires Delete(k) !in es
    ensures var c := Steps(cfg, w, es).c;
      && Recorded(cfg, c, k, node) && Resets(c.calls, k) >= Resets(w.c.calls, k)
      && (Resets(c.calls, k) == Resets(w.c.calls, k) ==>
            k in c.store && Managed(cfg, c.store[k]) && IDOf(IDs(c.store[k]), node) == IDOf(IDs(w.c.store[k]), node))
  {
    if es != [] {
      var front, e := es[..|es| - 1], es[|es| - 1];
      RecordsGrow(cfg, w, front, k, node);
      var before := Steps(cfg, w, front);
      StepRecords(cfg, before, e, k, node);
      StepResets(cfg, before, e, k);
      if Resets(before.c.calls, k) == Resets(w.c.calls, k) { StepGrows(cfg, before, e, k, node); }
    }
  }

  /* ---------- every deployment is reported ---------- */

  /** Of the requests, those about the deployments of one node. */
  function About(calls: seq<Call>, k: Key, node: NodeId): seq<Call> {
    if calls == [] then []
    else
      var call := calls[|calls| - 1];
      About(calls[..|calls| - 1], k, node)
      + (if (call.CreateDeployment? || call.DeploymentStatus?) && call.k == k && call.node == node then [call] else [])
  }

  /** The recorded deployment of a node. */
  function Held(wf: Workflow, node: NodeId): Option<nat> {
    if wf.deployments.Some? && node in wf.deployments.value && wf.deployments.value[node] != 0
    then Some(wf.deployments.value[node]) else None
  }

  /** A deployment node in a phase that GitHub is told about, and with a deployment or the means to make one. */
  predicate HasNews(n: Node, had: Option<nat>, refKnown: bool) {
    n.deploys && n.env != "" && (n.phase.NodeRunning? || n.phase.NodeSucceeded? || n.phase.NodeFailed? || n.phase.NodeError?)
    && (had.Some? || refKnown)
  }

  /** What GitHub is asked for one node: a deployment if there was none, and its status. */
  function News(k: Key, node: NodeId, n: Node, had: Option<nat>, refKnown: bool, id: nat): seq<Call> {
    if !HasNews(n, had, refKnown) then []
    else
      (if had.None? then [CreateDeployment(k, node, id)] else []) +
      [DeploymentStatus(k, node, id,
         if n.phase.NodeRunning? then DeployRuns else if n.phase.NodeSucceeded? then DeploySucceeded
         else if n.phase.NodeFailed? then DeployFailed else DeployErred)]
  }

  /** From `before` to `after`, the requests about a node are its news, about the deployment that is then recorded. */
  ghost predicate Informed(before: seq<Call>, after: seq<Call>, k: Key, node: NodeId, n: Node, had: Option<nat>, refKnown: bool, has: Option<nat>) {
    && (had.Some? ==> has == had)
    && (has.Some? <==> had.Some? || HasNews(n, had, refKnown))
    && About(after, k, node) == About(before, k, node) + News(k, node, n, had, refKnown, if has.Some? then has.value else 0)
  }

  lemma AboutOne(calls: seq<Call>, call: Call, k: Key, node: NodeId)
    ensures About(calls + [call], k, node) == About(calls, k, node) +
      (if (call.CreateDeployment? || call.DeploymentStatus?) && call.k == k && call.node == node then [call] else [])
  {
    assert (calls + [call])[..|calls|] == calls;
  }

  lemma {:induction false} AboutNone(a: seq<Call>, b: seq<Call>, k: Key, node: NodeId)
    requires Adds(a, b)
    ensures About(b, k, node) == About(a, k, node)
    decreases |b|
  {
    if |b| == |a| {
      assert a == b;
    } else {
      var front := b[..|b| - 1];
      assert front[..|a|] == a;
      AboutNone(a, front, k, node);
    }
  }

  lemma HeldIs(wf: Workflow, node: NodeId)
    ensures Held(wf, node) == var id := IDOf(IDs(wf), node); if id == 0 then None else Some(id)
  {
  }

  lemma NewsIs(k: Key, node: NodeId, n: Node, had: Option<nat>, refKnown: bool, id: nat)
    ensures HasNews(n, had, refKnown) <==> Reports(n) && (had.Some? || refKnown)
    ensures News(k, node, n, had, refKnown, id) ==
      if !Reports(n) then []
      else if had.Some? then [DeploymentStatus(k, node, id, StateOf(n.phase).value)]
      else if refKnown then [CreateDeployment(k, node, id), DeploymentStatus(k, node, id, StateOf(n.phase).value)]
      else []
  {
  }

  /** A visit to a node is about that node. */
  lemma OwnVisit(c: Cluster, k: Key, node: NodeId)
    requires k in c.store && node in c.store[k].nodes && c.nextID > 0
    ensures var d, wf := DeployNode(c, k, node), c.store[k];
      Informed(c.calls, d.calls, k, node, wf.nodes[node], Held(wf, node), wf.refKnown, Held(d.store[k], node))
  {
    var d, wf := DeployNode(c, k, node), c.store[k];
    var n := wf.nodes[node];
    HeldIs(wf, node);
    HeldIs(d.store[k], node);
    var had, has := Held(wf, node), Held(d.store[k], node);
    NewsIs(k, node, n, had, wf.refKnown, if has.Some? then has.value else 0);
    assert About(c.calls, k, node) + [] == About(c.calls, k, node);
    if Reports(n) {
      if had.Some? {
        AboutOne(c.calls, DeploymentStatus(k, node, had.value, StateOf(n.phase).value), k, node);
      } else if wf.refKnown {
        CreatedThenTold(c, k, node, StateOf(n.phase).value);
      }
    }
  }

  lemma CreatedThenTold(c: Cluster, k: Key, node: NodeId, state: DeployState)
    requires k in c.store
    ensures var d := SetStatus(OnDemand(c, k, IDs(c.store[k]), node), k, node, c.nextID, state);
      && About(d.calls, k, node) == About(c.calls, k, node) + [CreateDeployment(k, node, c.nextID), DeploymentStatus(k, node, c.nextID, state)]
      && d.store[k].deployments == Some(IDs(c.store[k])[node := c.nextID])
  {
    var created, told := CreateDeployment(k, node, c.nextID), DeploymentStatus(k, node, c.nextID, state);
    AboutOne(c.calls, created, k, node);
    AboutOne(c.calls + [created], told, k, node);
    assert About(c.calls, k, node) + [created] + [told] == About(c.calls, k, node) + [created, told];
  }

  /** And leaves what is recorded for others. */
  lemma OtherVisit(c: Cluster, k: Key, n: NodeId, node: NodeId)
    requires k in c.store && n in c.store[k].nodes && n != node
    ensures var d, wf := DeployNode(c, k, n), c.store[k];
      About(d.calls, k, node) == About(c.calls, k, node) && Held(d.store[k], node) == Held(wf, node)
  {
    var wf := c.store[k];
    if Reports(wf.nodes[n]) {
      var state, id := StateOf(wf.nodes[n].phase).value, IDOf(IDs(wf), n);
      AboutOne(c.calls, DeploymentStatus(k, n, id, state), k, node);
      AboutOne(c.calls, CreateDeployment(k, n, c.nextID), k, node);
      AboutOne(c.calls + [CreateDeployment(k, n, c.nextID)], DeploymentStatus(k, n, c.nextID, state), k, node);
    }
  }

  lemma VisitKeeps(c: Cluster, k: Key, n: NodeId)
    requires k in c.store && n in c.store[k].nodes && c.nextID > 0
    ensures var d, wf := DeployNode(c, k, n), c.store[k];
      d.nextID > 0 && d.store[k].nodes == wf.nodes && d.store[k].refKnown == wf.refKnown
  {
  }

  /** So that of the nodes a pass visits, each gets exactly what it has coming, and the others nothing. */
  lemma {:induction false} EveryDeploymentIsReported(c: Cluster, k: Key, order: seq<NodeId>, node: NodeId)
    requires k in c.store && c.nextID > 0 && forall n :: n in order ==> n in c.store[k].nodes
    requires forall i, j :: 0 <= i < j < |order| ==> order[i] != order[j]
    ensures var d, wf := DeployAll(c, k, order), c.store[k];
      && d.nextID > 0
      && if node in order
         then Informed(c.calls, d.calls, k, node, wf.nodes[node], Held(wf, node), wf.refKnown, Held(d.store[k], node))
         else About(d.calls, k, node) == About(c.calls, k, node) && Held(d.store[k], node) == Held(wf, node)
  {
    if order != [] {
      var front, n := order[..|order| - 1], order[|order| - 1];
      EveryDeploymentIsReported(c, k, front, node);
      VisitKeeps(DeployAll(c, k, front), k, n);
      if n == node { OwnVisit(DeployAll(c, k, front), k, n); } else { OtherVisit(DeployAll(c, k, front), k, n, node); }
      assert order == front + [n];
    }
  }

  /** A sync that gets to the deployments of a workflow. */
  predicate Attends(cfg: Config, wf: Workflow) {
    wf.managedBy == Some(cfg.managedBy) && wf.run.Some? && (wf.published ==> wf.phase.Pending? || wf.phase.Running?)
  }

  /**
    A sync asks GitHub, for each node of the workflow, for exactly its news. After the
    check run was replaced nothing counts as recorded before. Other syncs ask nothing.
   */
  lemma {:induction false} SyncReportsDeployments(cfg: Config, c: Cluster, k: Key, order: seq<NodeId>, pods: seq<NodeId>, node: NodeId)
    requires k in c.store && c.nextID > 0 && Visits(order, c.store[k].nodes) && Visits(pods, c.store[k].nodes)
    requires node in c.store[k].nodes
    ensures var d, wf := SyncOf(cfg, c, k, order, pods), c.store[k];
      && k in d.store
      && if Attends(cfg, wf)
         then Informed(c.calls, d.calls, k, node, wf.nodes[node],
                       if wf.published then None else Held(wf, node), wf.refKnown, Held(d.store[k], node))
         else d == c
  {
    var wf := c.store[k];
    if Attends(cfg, wf) {
      if wf.published {
        AboutOne(c.calls, ResetRun(k, c.nextID), k, node);
        var c1 := Reset(c, k);
        assert About(c1.calls, k, node) == About(c.calls, k, node) && Held(c1.store[k], node) == None;
        WorkReports(c1, k, order, pods, node);
        assert SyncOf(cfg, c, k, order, pods) == Work(c1, k, order, pods);
      } else {
        WorkReports(c, k, order, pods, node);
      }
    }
  }

  lemma WorkReports(c: Cluster, k: Key, order: seq<NodeId>, pods: seq<NodeId>, node: NodeId)
    requires k in c.store && c.store[k].run.Some? && c.nextID > 0
    requires Visits(order, c.store[k].nodes) && Visits(pods, c.store[k].nodes) && node in c.store[k].nodes
    ensures var d, wf := Work(c, k, order, pods), c.store[k];
      && k in d.store
      && Informed(c.calls, d.calls, k, node, wf.nodes[node], Held(wf, node), wf.refKnown, Held(d.store[k], node))
  {
    EveryDeploymentIsReported(c, k, order, node);
    var d := DeployAll(c, k, order);
    ReportAdds(d, k, c.store[k].run.value, pods);
    AboutNone(d.calls, Work(c, k, order, pods).calls, k, node);
    ReportStore(d, k, c.store[k].run.value, pods);
  }

  /** About the nodes of other workflows a sync says nothing. */
  lemma {:induction false} SyncIsAboutItsOwn(cfg: Config, c: Cluster, k: Key, order: seq<NodeId>, pods: seq<NodeId>, j: Key, node: NodeId)
    requires k in c.store && j != k && Visits(order, c.store[k].nodes) && Visits(pods, c.store[k].nodes)
    ensures About(SyncOf(cfg, c, k, order, pods).calls, j, node) == About(c.calls, j, node)
  {
    var wf := c.store[k];
    if Attends(cfg, wf) {
      var c1 := if wf.published then Reset(c, k) else c;
      AboutOne(c.calls, ResetRun(k, c.nextID), j, node);
      PassIsAboutItsOwn(c1, k, order, j, node);
      var c2 := DeployAll(c1, k, order);
      ReportAdds(c2, k, c1.store[k].run.value, pods);
      AboutNone(c2.calls, SyncOf(cfg, c, k, order, pods).calls, j, node);
    }
  }

  lemma {:induction false} PassIsAboutItsOwn(c: Cluster, k: Key, order: seq<NodeId>, j: Key, node: NodeId)
    requires k in c.store && (forall n :: n in order ==> n in c.store[k].nodes) && j != k
    ensures About(DeployAll(c, k, order).calls, j, node) == About(c.calls, j, node)
  {
    if order != [] {
      var front, n := order[..|order| - 1], order[|order| - 1];
      PassIsAboutItsOwn(c, k, front, j, node);
      var d := DeployAll(c, k, front);
      if Reports(d.store[k].nodes[n]) {
        var state, id := StateOf(d.store[k].nodes[n].phase).value, IDOf(IDs(d.store[k]), n);
        AboutOne(d.calls, DeploymentStatus(k, n, id, state), j, node);
        AboutOne(d.calls, CreateDeployment(k, n, d.nextID), j, node);
        AboutOne(d.calls + [CreateDeployment(k, n, d.nextID)], DeploymentStatus(k, n, d.nextID, state), j, node);
      }
    }
  }
}
