/**
  The workflow syncer: what `runWorkflow`, `sync` and `doDelete` do to the workflow store
  and to GitHub. Requests to Kubernetes and GitHub succeed and the lister is current;
  creating a workflow fails if the name is taken or there is no namespace. Titles, texts,
  buttons and URLs are not part of this model.
 */
module Syncer {
  import opened Basics
  import opened Names
  import opened LogParser

  /** Namespace and name. */
  type Key = (string, string)
  type NodeId = string

  datatype Phase = Unknown | Pending | Running | Succeeded | Failed | Error

  predicate Active(p: Phase) { p.Pending? || p.Running? }

  /** Argo stamps a finish time on workflows in these phases. */
  predicate Finished(p: Phase) { p.Succeeded? || p.Failed? || p.Error? }

  /** The phases whose annotations `completeCheckRun` publishes. */
  predicate Publishes(p: Phase) { p.Succeeded? || p.Failed? }

  /** The states of a deployment that GitHub is told: in_progress, success, failure and error. */
  datatype DeployState = DeployRuns | DeploySucceeded | DeployFailed | DeployErred

  datatype NodePhase = NodeRunning | NodeSucceeded | NodeFailed | NodeError | NodeOther

  /**
    `deploys`: the node's template is one of the deploy templates; `env`: the environment
    parameter or nothing; `log`: the log of the pod, if it can be had.
   */
  datatype Node = Node(deploys: bool, phase: NodePhase, env: string, pod: bool, log: Option<string>)

  /** The branch annotation; a workflow with other annotations only has an empty one. */
  datatype Branch = NoAnnotations | On(ref: string)

  /**
    `run`: the check run in the annotations, if everything that `githubInfoFromWorkflow`
    needs is there; `published`: that annotation reads "true"; `deployments`: the ids in
    the annotation, if there is one; `cancelled`: the active deadline is zero; `refKnown`:
    the parameters give the type and name of a ref; `steps`: the manual steps to offer
    once it succeeds, and whether they are essential; `version` changes with every write.
   */
  datatype Workflow = Workflow(
    managedBy: Option<string>, org: Option<string>, repo: Option<string>,
    branch: Branch, run: Option<nat>, published: bool, deployments: Option<map<NodeId, nat>>,
    cancelled: bool, phase: Phase, nodes: map<NodeId, Node>,
    refKnown: bool, steps: seq<bool>, version: nat)

  datatype RunState = Queued | InProgress | Completed(conclusion: string)

  datatype CheckRun = CheckRun(state: RunState, annotations: seq<Annotation>)

  datatype Call =
    | CreateRun(id: nat, state: RunState)
    | ResetRun(k: Key, id: nat)
    | UpdateRun(id: nat, state: RunState, annotations: seq<Annotation>)
    | CreateWorkflow(k: Key)
    | CreateDeployment(k: Key, node: NodeId, id: nat)
    | DeploymentStatus(k: Key, node: NodeId, id: nat, deployState: DeployState)

  /** The workflows, the check runs of GitHub, the next unused id and the requests so far. */
  datatype Cluster = Cluster(store: map<Key, Workflow>, runs: map<nat, CheckRun>, nextID: nat, calls: seq<Call>)

  datatype Config = Config(namespace: string, managedBy: string)

  datatype Definition = NotFound | Unreadable | Readable(workflow: Workflow, forRef: bool)

  /** A request to run: the definition in the repository, and what later checks say. */
  datatype Request = Request(
    org: string, repo: string, ref: string, name: string,
    definition: Definition, entrypointOk: bool, allowed: bool, volumeOk: bool)

  /* ---------- what the handlers do, as functions ---------- */

  function Update(c: Cluster, id: nat, state: RunState, anns: seq<Annotation>): Cluster {
    c.(runs := if id in c.runs then c.runs[id := CheckRun(state, c.runs[id].annotations + anns)] else c.runs,
       calls := c.calls + [UpdateRun(id, state, anns)])
  }

  function NewRun(c: Cluster, state: RunState, call: Call): Cluster {
    c.(runs := c.runs[c.nextID := CheckRun(state, [])], nextID := c.nextID + 1, calls := c.calls + [call])
  }

  function Put(c: Cluster, k: Key, wf: Workflow): Cluster {
    c.(store := c.store[k := wf.(version := wf.version + 1)])
  }

  function Renewed(wf: Workflow, id: nat): Workflow {
    wf.(run := Some(id), published := false, deployments := if wf.deployments.Some? then Some(map[]) else None)
  }

  function Reset(c: Cluster, k: Key): Cluster
    requires k in c.store
  {
    Put(NewRun(c, Queued, ResetRun(k, c.nextID)), k, Renewed(c.store[k], c.nextID))
  }

  function IDs(wf: Workflow): map<NodeId, nat> {
    if wf.deployments.Some? then wf.deployments.value else map[]
  }

  function IDOf(ids: map<NodeId, nat>, node: NodeId): nat {
    if node in ids then ids[node] else 0
  }

  /** `deployStatusFromPhase`; nothing stands for its empty string. */
  function StateOf(p: NodePhase): Option<DeployState> {
    match p
    case NodeRunning => Some(DeployRuns)
    case NodeSucceeded => Some(DeploySucceeded)
    case NodeFailed => Some(DeployFailed)
    case NodeError => Some(DeployErred)
    case NodeOther => None
  }

  /** Whether the node is a deployment worth reporting. */
  predicate Reports(n: Node) {
    n.deploys && StateOf(n.phase).Some? && n.env != ""
  }

  /** A new deployment, recorded with the workflow. */
  function OnDemand(c: Cluster, k: Key, ids: map<NodeId, nat>, node: NodeId): Cluster
    requires k in c.store
  {
    Put(c, k, c.store[k].(deployments := Some(ids[node := c.nextID])))
      .(nextID := c.nextID + 1, calls := c.calls + [CreateDeployment(k, node, c.nextID)])
  }

  function SetStatus(c: Cluster, k: Key, node: NodeId, id: nat, state: DeployState): Cluster {
    c.(calls := c.calls + [DeploymentStatus(k, node, id, state)])
  }

  function DeployNode(c: Cluster, k: Key, node: NodeId): Cluster
    requires k in c.store && node in c.store[k].nodes
  {
    var wf := c.store[k];
    var n, id := wf.nodes[node], IDOf(IDs(wf), node);
    if !Reports(n) then c
    else if id != 0 then SetStatus(c, k, node, id, StateOf(n.phase).value)
    else if !wf.refKnown then c
    else SetStatus(OnDemand(c, k, IDs(wf), node), k, node, c.nextID, StateOf(n.phase).value)
  }

  function DeployAll(c: Cluster, k: Key, order: seq<NodeId>): (r: Cluster)
    requires k in c.store && forall n :: n in order ==> n in c.store[k].nodes
    ensures r.store.Keys == c.store.Keys
    ensures r.store[k] == c.store[k].(deployments := r.store[k].deployments, version := r.store[k].version)
  {
    if order == [] then c else DeployNode(DeployAll(c, k, order[..|order| - 1]), k, order[|order| - 1])
  }

  lemma DeployStep(c: Cluster, k: Key, order: seq<NodeId>, i: nat)
    requires k in c.store && (forall n :: n in order ==> n in c.store[k].nodes) && i < |order|
    ensures DeployAll(c, k, order[..i + 1]) == DeployNode(DeployAll(c, k, order[..i]), k, order[i])
  {
    assert order[..i + 1][..i] == order[..i];
  }

  function CompletionStatus(wf: Workflow): Option<RunState> {
    match wf.phase
    case Pending => Some(Queued)
    case Running => Some(InProgress)
    case Failed => Some(Completed(if wf.cancelled then "cancelled" else "failure"))
    case Error => Some(Completed("failure"))
    case Succeeded => Some(Completed("success"))
    case Unknown => None
  }

  function LogAnnotations(n: Node): seq<Annotation> {
    if n.pod && n.log.Some? then ParseLog(n.log.value, "") else []
  }

  function AllAnnotations(nodes: map<NodeId, Node>, order: seq<NodeId>): seq<Annotation>
    requires forall n :: n in order ==> n in nodes
  {
    if order == [] then []
    else AllAnnotations(nodes, order[..|order| - 1]) + LogAnnotations(nodes[order[|order| - 1]])
  }

  /** A check run for every manual step, complete from the start. */
  function OfferSteps(c: Cluster, steps: seq<bool>): Cluster {
    if steps == [] then c
    else
      var c' := OfferSteps(c, steps[..|steps| - 1]);
      var state := Completed(if steps[|steps| - 1] then "action_required" else "neutral");
      NewRun(c', state, CreateRun(c'.nextID, state))
  }

  const BATCH := 50

  function Batch(anns: seq<Annotation>, i: nat): seq<Annotation>
    requires i <= |anns|
  {
    anns[i..if i + BATCH > |anns| then |anns| else i + BATCH]
  }

  /** The annotations from the `i`-th on, at most fifty at a time. */
  function SendBatches(c: Cluster, id: nat, state: RunState, anns: seq<Annotation>, i: nat): Cluster
    decreases |anns| - i
  {
    if i >= |anns| then c else SendBatches(Update(c, id, state, Batch(anns, i)), id, state, anns, i + BATCH)
  }

  function GhComplete(c: Cluster, wf: Workflow, id: nat, state: RunState, anns: seq<Annotation>): Cluster {
    var c1 := if wf.phase.Succeeded? then OfferSteps(c, wf.steps) else c;
    SendBatches(Update(c1, id, state, []), id, state, anns, 0)
  }

  function Complete(c: Cluster, k: Key, wf: Workflow, id: nat, state: RunState, anns: seq<Annotation>): Cluster {
    if !Publishes(wf.phase) then c else Published(GhComplete(c, wf, id, state, anns), k)
  }

  function Published(c: Cluster, k: Key): Cluster {
    if k in c.store then Put(c, k, c.store[k].(published := true)) else c
  }

  /** Reporting the phase of the workflow, and once it is over the annotations. */
  function Report(c: Cluster, k: Key, id: nat, pods: seq<NodeId>): Cluster
    requires k in c.store && forall n :: n in pods ==> n in c.store[k].nodes
  {
    var wf := c.store[k];
    var state := CompletionStatus(wf);
    if state.None? then c
    else
      var c' := Update(c, id, state.value, []);
      if state.value.Completed? then Complete(c', k, wf, id, state.value, AllAnnotations(wf.nodes, pods)) else c'
  }

  predicate Managed(cfg: Config, wf: Workflow) {
    wf.managedBy == Some(cfg.managedBy)
  }

  /** `order` and `pods` are the orders in which the two loops over the nodes visit them. */
  function SyncOf(cfg: Config, c: Cluster, k: Key, order: seq<NodeId>, pods: seq<NodeId>): Cluster
    requires k in c.store
    requires forall n :: n in order || n in pods ==> n in c.store[k].nodes
  {
    var wf := c.store[k];
    if !Managed(cfg, wf) || (wf.published && !Active(wf.phase)) || wf.run.None? then c
    else
      var c1 := if wf.published then Reset(c, k) else c;
      Report(DeployAll(c1, k, order), k, c1.store[k].run.value, pods)
  }

  predicate InScope(cfg: Config, k: Key) {
    cfg.namespace == "" || k.0 == cfg.namespace
  }

  predicate Labelled(wf: Workflow, org: string, repo: string) {
    wf.org == Some(LabelSafe(50, [org])) && wf.repo == Some(LabelSafe(50, [repo]))
  }

  /** What `cancelRunningWorkflows` cancels. */
  predicate Victim(cfg: Config, k: Key, wf: Workflow, org: string, repo: string, ref: string) {
    InScope(cfg, k) && Labelled(wf, org, repo) && OfRef(wf, ref)
  }

  predicate OfRef(wf: Workflow, ref: string) {
    wf.branch == NoAnnotations || wf.branch == On(ref)
  }

  function Cancelled(wf: Workflow): Workflow {
    wf.(cancelled := true, version := wf.version + 1)
  }

  function CancelOf(cfg: Config, store: map<Key, Workflow>, org: string, repo: string, ref: string): map<Key, Workflow> {
    map k | k in store :: if Victim(cfg, k, store[k], org, repo, ref) then Cancelled(store[k]) else store[k]
  }

  /** Labels and annotations of a workflow as `decorateWorkflow` and `runWorkflow` leave them. */
  function Decorated(cfg: Config, req: Request, id: nat): Workflow
    requires req.definition.Readable?
  {
    req.definition.workflow.(
      managedBy := Some(cfg.managedBy), org := Some(LabelSafe(50, [req.org])), repo := Some(LabelSafe(50, [req.repo])),
      branch := On(req.ref), run := Some(id), refKnown := req.ref != "")
  }

  predicate Ignored(d: Definition) {
    d.NotFound? || (d.Readable? && !d.forRef)
  }

  predicate Refused(req: Request) {
    req.definition.Unreadable? || !req.entrypointOk || !req.allowed
  }

  function RunOf(cfg: Config, c: Cluster, req: Request): Cluster {
    if Ignored(req.definition) then c
    else
      var id := c.nextID;
      var c1 := Update(NewRun(c, Queued, CreateRun(id, Queued)), id, Queued, []);
      if Refused(req) then Update(c1, id, Completed("failure"), [])
      else
        var c2 := c1.(store := CancelOf(cfg, c1.store, req.org, req.repo, req.ref));
        var k := (cfg.namespace, req.name);
        if !req.volumeOk || cfg.namespace == "" || k in c2.store then Update(c2, id, Completed("failure"), [])
        else c2.(store := c2.store[k := Decorated(cfg, req, id)], calls := c2.calls + [CreateWorkflow(k)])
  }

  /** The workflow disappears and `doDelete` is told. */
  function DeleteOf(cfg: Config, c: Cluster, k: Key): Cluster
    requires k in c.store
  {
    var wf := c.store[k];
    var c' := c.(store := c.store - {k});
    if !Managed(cfg, wf) || Finished(wf.phase) || wf.run.None? then c' else Update(c', wf.run.value, Completed("cancelled"), [])
  }

  function CancelAmong(store: map<Key, Workflow>, ks: set<Key>, ref: string): map<Key, Workflow> {
    map k | k in store :: if k in ks && OfRef(store[k], ref) then Cancelled(store[k]) else store[k]
  }

  lemma CancelOne(store: map<Key, Workflow>, ks: set<Key>, todo: set<Key>, k: Key, ref: string)
    requires k in todo && todo <= ks && k in store
    ensures CancelAmong(store, ks - (todo - {k}), ref) ==
              if OfRef(store[k], ref) then CancelAmong(store, ks - todo, ref)[k := Cancelled(store[k])]
              else CancelAmong(store, ks - todo, ref)
  {
    var before, after := CancelAmong(store, ks - todo, ref), CancelAmong(store, ks - (todo - {k}), ref);
    assert after.Keys == before.Keys == store.Keys;
    assert forall j :: j in store && j != k ==> after[j] == before[j];
  }

  lemma AllVictims(cfg: Config, store: map<Key, Workflow>, ks: set<Key>, org: string, repo: string, ref: string)
    requires forall k :: k in ks <==> k in store && InScope(cfg, k) && Labelled(store[k], org, repo)
    ensures CancelAmong(store, ks - {}, ref) == CancelOf(cfg, store, org, repo, ref)
  {
  }

  /* ---------- the handlers ---------- */

  /** What `githubInfoFromWorkflow` finds. */
  class GithubInfo {
    const checkRunID: nat
    var deploymentIDs: map<NodeId, nat>

    constructor (checkRunID: nat, deploymentIDs: map<NodeId, nat>)
      ensures this.checkRunID == checkRunID && this.deploymentIDs == deploymentIDs
    {
      this.checkRunID, this.deploymentIDs := checkRunID, deploymentIDs;
    }
  }

  class WorkflowSyncer {
    const cfg: Config
    var store: map<Key, Workflow>
    var runs: map<nat, CheckRun>
    var nextID: nat
    var calls: seq<Call>

    constructor (cfg: Config, c: Cluster)
      ensures this.cfg == cfg && Look() == c
    {
      this.cfg := cfg;
      store, runs, nextID, calls := c.store, c.runs, c.nextID, c.calls;
    }

    function Look(): Cluster
      reads this
    {
      Cluster(store, runs, nextID, calls)
    }

    method StatusUpdate(id: nat, state: RunState, anns: seq<Annotation>)
      modifies this
      ensures Look() == Update(old(Look()), id, state, anns)
    {
      if id in runs {
        runs := runs[id := CheckRun(state, runs[id].annotations + anns)];
      }
      calls := calls + [UpdateRun(id, state, anns)];
    }

    method CreateCheckRun(state: RunState, call: Call) returns (id: nat)
      modifies this
      ensures id == old(nextID) && Look() == NewRun(old(Look()), state, call)
    {
      id := nextID;
      runs := runs[id := CheckRun(state, [])];
      nextID := nextID + 1;
      calls := calls + [call];
    }

    method ResetCheckRun(k: Key, wf: Workflow) returns (r: Option<Workflow>)
      requires k in store && wf == store[k]
      modifies this
      ensures r.None? <==> wf.run.None?
      ensures Look() == if wf.run.None? then old(Look()) else Reset(old(Look()), k)
      ensures r.Some? ==> k in store && r.value == store[k]
    {
      if wf.run.None? {
        return None;
      }
      var id := CreateCheckRun(Queued, ResetRun(k, nextID));
      var up := wf.(published := false, run := Some(id));
      if up.deployments.Some? {
        up := up.(deployments := Some(map[]));
      }
      up := up.(version := up.version + 1);
      store := store[k := up];
      return Some(up);
    }

    method CreateOnDemandDeployment(k: Key, wf: Workflow, info: GithubInfo, node: NodeId) returns (id: Option<nat>)
      requires k in store && wf.refKnown == store[k].refKnown && IDOf(info.deploymentIDs, node) == 0
      modifies this, info
      ensures id == if wf.refKnown then Some(old(nextID)) else None
      ensures Look() == if wf.refKnown then OnDemand(old(Look()), k, old(info.deploymentIDs), node) else old(Look())
      ensures info.deploymentIDs == if wf.refKnown then old(info.deploymentIDs)[node := old(nextID)] else old(info.deploymentIDs)
    {
      if !wf.refKnown {
        return None;
      }
      id := Some(nextID);
      nextID := nextID + 1;
      calls := calls + [CreateDeployment(k, node, id.value)];
      info.deploymentIDs := info.deploymentIDs[node := id.value];
      var latest := store[k];
      latest := latest.(deployments := Some(info.deploymentIDs), version := latest.version + 1);
      store := store[k := latest];
    }

    method CreateDeploymentStatus(k: Key, node: NodeId, id: nat, state: DeployState)
      modifies this
      ensures Look() == SetStatus(old(Look()), k, node, id, state)
    {
      calls := calls + [DeploymentStatus(k, node, id, state)];
    }

    method SyncDeployments(k: Key, wf: Workflow, info: GithubInfo, order: seq<NodeId>)
      requires k in store && wf == store[k] && info.deploymentIDs == IDs(wf)
      requires forall n :: n in order ==> n in wf.nodes
      modifies this, info
      ensures Look() == DeployAll(old(Look()), k, order)
    {
      var i := 0;
      ghost var c := Look();
      while i < |order|
        invariant 0 <= i <= |order|
        invariant Look() == DeployAll(c, k, order[..i])
        invariant info.deploymentIDs == IDs(store[k])
        invariant store[k].nodes == wf.nodes && store[k].refKnown == wf.refKnown
      {
        var node := order[i];
        DeployStep(c, k, order, i);
        i := i + 1;
        var n := wf.nodes[node];
        if !n.deploys {
          continue;
        }
        var state := StateOf(n.phase);
        if state.None? {
          continue;
        }
        if n.env == "" {
          continue;
        }
        var id := IDOf(info.deploymentIDs, node);
        if id == 0 {
          var new_ := CreateOnDemandDeployment(k, wf, info, node);
          if new_.None? {
            continue;
          }
          id := new_.value;
        }
        CreateDeploymentStatus(k, node, id, state.value);
      }
      assert order[..i] == order;
    }

    method GhCompleteCheckRun(wf: Workflow, info: GithubInfo, state: RunState, anns: seq<Annotation>)
      modifies this
      ensures Look() == GhComplete(old(Look()), wf, info.checkRunID, state, anns)
    {
      if wf.phase.Succeeded? {
        NextCheckRuns(wf.steps);
      }
      StatusUpdate(info.checkRunID, state, []);
      ghost var c := Look();
      var i := 0;
      while i < |anns|
        invariant SendBatches(c, info.checkRunID, state, anns, 0) == SendBatches(Look(), info.checkRunID, state, anns, i)
      {
        var end := i + BATCH;
        if end > |anns| {
          end := |anns|;
        }
        StatusUpdate(info.checkRunID, state, anns[i..end]);
        i := i + BATCH;
      }
    }

    method NextCheckRuns(steps: seq<bool>)
      modifies this
      ensures Look() == OfferSteps(old(Look()), steps)
    {
      var i := 0;
      ghost var c := Look();
      while i < |steps|
        invariant 0 <= i <= |steps|
        invariant Look() == OfferSteps(c, steps[..i])
      {
        assert steps[..i + 1][..i] == steps[..i];
        var conclusion := "neutral";
        if steps[i] {
          conclusion := "action_required";
        }
        var _ := CreateCheckRun(Completed(conclusion), CreateRun(nextID, Completed(conclusion)));
        i := i + 1;
      }
      assert steps[..i] == steps;
    }

    method CompleteCheckRun(k: Key, wf: Workflow, info: GithubInfo, state: RunState, pods: seq<NodeId>)
      requires k in store && forall n :: n in pods ==> n in wf.nodes
      modifies this
      ensures Look() == Complete(old(Look()), k, wf, info.checkRunID, state, AllAnnotations(wf.nodes, pods))
    {
      if wf.phase != Failed && wf.phase != Succeeded {
        return;
      }
      var anns := FindAnnotations(wf.nodes, pods);
      GhCompleteCheckRun(wf, info, state, anns);
      MarkPublished(k);
    }

    /** The annotations in the logs of the pods. */
    method FindAnnotations(nodes: map<NodeId, Node>, pods: seq<NodeId>) returns (anns: seq<Annotation>)
      requires forall n :: n in pods ==> n in nodes
      ensures anns == AllAnnotations(nodes, pods)
    {
      anns := [];
      var i := 0;
      while i < |pods|
        invariant 0 <= i <= |pods|
        invariant anns == AllAnnotations(nodes, pods[..i])
      {
        assert pods[..i + 1][..i] == pods[..i];
        var n := nodes[pods[i]];
        i := i + 1;
        if !n.pod {
          continue;
        }
        if n.log.None? {
          continue;
        }
        var found := ParseAnnotations(n.log.value, "");
        anns := anns + found;
      }
      assert pods[..i] == pods;
    }

    /** Through `updateWorkflow`, on the latest state of the workflow. */
    method MarkPublished(k: Key)
      modifies this
      ensures Look() == Published(old(Look()), k)
    {
      if k in store {
        var latest := store[k];
        latest := latest.(published := true);
        store := store[k := latest.(version := latest.version + 1)];
      }
    }

    method Sync(k: Key, order: seq<NodeId>, pods: seq<NodeId>)
      requires k in store && forall n :: n in order || n in pods ==> n in store[k].nodes
      modifies this
      ensures Look() == SyncOf(cfg, old(Look()), k, order, pods)
    {
      var wf := store[k];
      if wf.managedBy != Some(cfg.managedBy) {
        return;
      }
      if wf.published {
        if !Active(wf.phase) {
          return;
        }
        var renewed := ResetCheckRun(k, wf);
        if renewed.None? {
          return;
        }
        wf := renewed.value;
      }
      if wf.run.None? {
        return;
      }
      var info := new GithubInfo(wf.run.value, IDs(wf));
      ghost var c1 := Look();
      SyncDeployments(k, wf, info, order);
      ghost var c2 := Look();
      assert CompletionStatus(wf) == CompletionStatus(c2.store[k]) && wf.nodes == c2.store[k].nodes;
      var state := CompletionStatus(wf);
      if state.None? {
        return;
      }
      StatusUpdate(info.checkRunID, state.value, []);
      if state.value.Completed? {
        assert Complete(Look(), k, wf, info.checkRunID, state.value, AllAnnotations(wf.nodes, pods))
            == Complete(Look(), k, c2.store[k], info.checkRunID, state.value, AllAnnotations(wf.nodes, pods));
        CompleteCheckRun(k, wf, info, state.value, pods);
      }
    }

    method CancelRunningWorkflows(org: string, repo: string, ref: string)
      modifies this`store
      ensures store == CancelOf(cfg, old(store), org, repo, ref)
    {
      var wfs := map k | k in store && InScope(cfg, k) && Labelled(store[k], org, repo) :: store[k];
      AllVictims(cfg, store, wfs.Keys, org, repo, ref);
      CancelListed(wfs, ref);
    }

    /** The loop over the listed workflows. */
    method CancelListed(wfs: map<Key, Workflow>, ref: string)
      requires forall k :: k in wfs ==> k in store && wfs[k] == store[k]
      modifies this`store
      ensures store == CancelAmong(old(store), wfs.Keys - {}, ref)
    {
      var todo := wfs.Keys;
      ghost var before := store;
      while todo != {}
        invariant todo <= wfs.Keys
        invariant store == CancelAmong(before, wfs.Keys - todo, ref)
        decreases todo
      {
        var k :| k in todo;
        CancelOne(before, wfs.Keys, todo, k, ref);
        todo := todo - {k};
        var wf := wfs[k];
        if wf.branch.On? {
          if wf.branch.ref != ref {
            continue;
          }
        }
        store := store[k := wf.(cancelled := true, version := wf.version + 1)];
      }
    }

    method RunWorkflow(req: Request)
      modifies this
      ensures Look() == RunOf(cfg, old(Look()), req)
    {
      if req.definition.NotFound? {
        return;
      }
      if req.definition.Readable? && !req.definition.forRef {
        return;
      }
      var id := CreateCheckRun(Queued, CreateRun(nextID, Queued));
      StatusUpdate(id, Queued, []);
      if req.definition.Unreadable? {
        StatusUpdate(id, Completed("failure"), []);
        return;
      }
      if !req.entrypointOk {
        StatusUpdate(id, Completed("failure"), []);
        return;
      }
      if !req.allowed {
        StatusUpdate(id, Completed("failure"), []);
        return;
      }
      var wf := Decorated(cfg, req, id);
      CancelRunningWorkflows(req.org, req.repo, req.ref);
      if !req.volumeOk {
        StatusUpdate(id, Completed("failure"), []);
        return;
      }
      var k := (cfg.namespace, req.name);
      if cfg.namespace == "" || k in store {
        StatusUpdate(id, Completed("failure"), []);
        return;
      }
      store := store[k := wf];
      calls := calls + [CreateWorkflow(k)];
    }

    /** The workflow is deleted; the informer hands its last state to `doDelete`. */
    method Delete(k: Key)
      requires k in store
      modifies this
      ensures Look() == DeleteOf(cfg, old(Look()), k)
    {
      var wf := store[k];
      store := store - {k};
      DoDelete(wf);
    }

    method DoDelete(wf: Workflow)
      modifies this
      ensures Look() == if !Managed(cfg, wf) || Finished(wf.phase) || wf.run.None? then old(Look())
                        else Update(old(Look()), wf.run.value, Completed("cancelled"), [])
    {
      if wf.managedBy != Some(cfg.managedBy) {
        return;
      }
      if Finished(wf.phase) {
        return;
      }
      if wf.run.None? {
        return;
      }
      StatusUpdate(wf.run.value, Completed("cancelled"), []);
    }
  }
}
