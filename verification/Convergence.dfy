/**
  Reconciliation comes to rest: a workflow that is over and published costs no further
  request, and a new check run is made exactly when a published workflow starts again.
 */
module Convergence {
  import opened Syncer
  import opened Reconcile

  /* ---------- when a sync does nothing ---------- */

  /** Nothing to report for a node: not a deployment, or one that cannot be created for want of a ref. */
  predicate Idle(wf: Workflow, node: NodeId)
    requires node in wf.nodes
  {
    !Reports(wf.nodes[node]) || (IDOf(IDs(wf), node) == 0 && !wf.refKnown)
  }

  /** A workflow a sync has no business with. */
  ghost predicate Quiet(cfg: Config, wf: Workflow) {
    || !Managed(cfg, wf)
    || wf.run.None?
    || (wf.published && !Active(wf.phase))
    || (wf.phase.Unknown? && forall n :: n in wf.nodes ==> Idle(wf, n))
  }

  lemma {:induction false} DeployCalls(c: Cluster, k: Key, order: seq<NodeId>)
    requires k in c.store && forall n :: n in order ==> n in c.store[k].nodes
    ensures var d := DeployAll(c, k, order);
      && |d.calls| >= |c.calls|
      && (|d.calls| == |c.calls| ==> d == c && forall n :: n in order ==> Idle(c.store[k], n))
      && ((forall n :: n in order ==> Idle(c.store[k], n)) ==> d == c)
  {
    if order != [] {
      var front, last := order[..|order| - 1], order[|order| - 1];
      DeployCalls(c, k, front);
      assert order == front + [last];
    }
  }

  /** A sync changes nothing and asks nothing of GitHub exactly for the quiet workflows; otherwise it makes a request. */
  lemma {:induction false} QuietExactly(cfg: Config, c: Cluster, k: Key, order: seq<NodeId>, pods: seq<NodeId>)
    requires k in c.store && Visits(order, c.store[k].nodes) && Visits(pods, c.store[k].nodes)
    ensures var d := SyncOf(cfg, c, k, order, pods);
      if Quiet(cfg, c.store[k]) then d == c else |d.calls| > |c.calls|
  {
    var wf := c.store[k];
    if Managed(cfg, wf) && wf.run.Some? && !(wf.published && !Active(wf.phase)) {
      var c1 := if wf.published then Reset(c, k) else c;
      DeployCalls(c1, k, order);
      var c2 := DeployAll(c1, k, order);
      ReportAdds(c2, k, c1.store[k].run.value, pods);
    }
  }

  /** Any number of syncs of a workflow that is over and published leave the cluster as it is. */
  lemma {:induction false} StaysQuiet(cfg: Config, w: World, k: Key, es: seq<Event>)
    requires k in w.c.store && w.c.store[k].published && !Active(w.c.store[k].phase)
    requires forall e :: e in es ==> e.Sync? && e.k == k
    ensures Steps(cfg, w, es).c == w.c
  {
    if es != [] {
      StaysQuiet(cfg, w, k, es[..|es| - 1]);
      var before, e := Steps(cfg, w, es[..|es| - 1]), es[|es| - 1];
      if Enabled(cfg, before, e) { QuietExactly(cfg, before.c, k, e.order, e.pods); }
    }
  }

  /** Once a sync has found a workflow succeeded or failed, further syncs in that phase do nothing. */
  lemma {:induction false} Converges(cfg: Config, w: World, k: Key, order: seq<NodeId>, pods: seq<NodeId>, es: seq<Event>)
    requires Enabled(cfg, w, Sync(k, order, pods))
    requires Managed(cfg, w.c.store[k]) && w.c.store[k].run.Some? && Publishes(w.c.store[k].phase)
    requires forall e :: e in es ==> e.Sync? && e.k == k
    ensures var w' := Step(cfg, w, Sync(k, order, pods)); Steps(cfg, w', es).c == w'.c
  {
    SyncPublished(cfg, w.c, k, order, pods);
    SyncTouches(cfg, w.c, k, order, pods);
    StaysQuiet(cfg, Step(cfg, w, Sync(k, order, pods)), k, es);
  }

  /* ---------- restarts ---------- */

  /**
    What an observer of the phases of one workflow counts: after it was seen succeeded or
    failed, or was created with its annotations marked as published, the next time it is
    seen pending or running is a restart.
   */
  function Watch(seen: seq<Sight>, k: Key): (r: (bool, nat)) {
    if seen == [] then (false, 0)
    else
      var (armed, n) := Watch(seen[..|seen| - 1], k);
      match seen[|seen| - 1]
      case Made(j, published) => if j == k then (published, n) else (armed, n)
      case Saw(j, phase) =>
        if j != k then (armed, n)
        else if Publishes(phase) then (true, n)
        else if Active(phase) && armed then (false, n + 1)
        else (armed, n)
  }

  function Restarts(seen: seq<Sight>, k: Key): nat {
    Watch(seen, k).1
  }

  /** The check runs made to replace a published one. */
  function Resets(calls: seq<Call>, k: Key): nat {
    if calls == [] then 0
    else Resets(calls[..|calls| - 1], k) + (if calls[|calls| - 1].ResetRun? && calls[|calls| - 1].k == k then 1 else 0)
  }

  lemma OneMore(calls: seq<Call>, call: Call, k: Key)
    ensures Resets(calls + [call], k) == Resets(calls, k) + (if call.ResetRun? && call.k == k then 1 else 0)
  {
    assert (calls + [call])[..|calls|] == calls;
  }

  lemma {:induction false} DeployResets(c: Cluster, k: Key, order: seq<NodeId>, j: Key)
    requires k in c.store && forall n :: n in order ==> n in c.store[k].nodes
    ensures Resets(DeployAll(c, k, order).calls, j) == Resets(c.calls, j)
  {
    if order != [] {
      var front, node := order[..|order| - 1], order[|order| - 1];
      DeployResets(c, k, front, j);
      var d := DeployAll(c, k, front);
      var n, id := d.store[k].nodes[node], IDOf(IDs(d.store[k]), node);
      if Reports(n) {
        var state := StateOf(n.phase).value;
        OneMore(d.calls, DeploymentStatus(k, node, id, state), j);
        OneMore(d.calls, CreateDeployment(k, node, d.nextID), j);
        OneMore(d.calls + [CreateDeployment(k, node, d.nextID)], DeploymentStatus(k, node, d.nextID, state), j);
      }
    }
  }

  lemma {:induction false} AddsNoResets(a: seq<Call>, b: seq<Call>, k: Key)
    requires Adds(a, b)
    ensures Resets(b, k) == Resets(a, k)
    decreases |b|
  {
    if |b| == |a| {
      assert a == b;
    } else {
      var front := b[..|b| - 1];
      assert front[..|a|] == a;
      AddsNoResets(a, front, k);
    }
  }

  lemma RunResets(cfg: Config, c: Cluster, req: Request, j: Key)
    ensures Resets(RunOf(cfg, c, req).calls, j) == Resets(c.calls, j)
  {
    RunAdds(cfg, c, req);
    var d := RunOf(cfg, c, req);
    if Creates(cfg, c, req) {
      AddsNoResets(c.calls, d.calls[..|d.calls| - 1], j);
    } else {
      AddsNoResets(c.calls, d.calls, j);
    }
  }

  /** The sync is of a published workflow that is active again. */
  predicate Renews(cfg: Config, wf: Workflow) {
    Managed(cfg, wf) && wf.run.Some? && wf.published && Active(wf.phase)
  }

  /** A sync makes one replacement if the workflow was published and is active again, and none otherwise. */
  lemma SyncResets(cfg: Config, c: Cluster, k: Key, order: seq<NodeId>, pods: seq<NodeId>, j: Key)
    requires k in c.store && (forall n :: n in order || n in pods ==> n in c.store[k].nodes)
    ensures Resets(SyncOf(cfg, c, k, order, pods).calls, j)
         == Resets(c.calls, j) + (if j == k && Renews(cfg, c.store[k]) then 1 else 0)
  {
    var wf := c.store[k];
    if Managed(cfg, wf) && wf.run.Some? && !(wf.published && !Active(wf.phase)) {
      OneMore(c.calls, ResetRun(k, c.nextID), j);
      var c1 := if wf.published then Reset(c, k) else c;
      DeployResets(c1, k, order, j);
      var c2 := DeployAll(c1, k, order);
      ReportAdds(c2, k, c1.store[k].run.value, pods);
      AddsNoResets(c2.calls, Report(c2, k, c1.store[k].run.value, pods).calls, j);
    }
  }

  /** The count is right, and what is published is what the observer waits to see restarted. */
  ghost predicate Counted(cfg: Config, w: World, k: Key) {
    && Resets(w.c.calls, k) == Restarts(w.seen, k)
    && (k in w.c.store && Managed(cfg, w.c.store[k]) ==>
          w.c.store[k].run.Some? && Watch(w.seen, k).0 == w.c.store[k].published)
  }

  lemma WatchOne(seen: seq<Sight>, s: Sight)
    ensures (seen + [s])[..|seen|] == seen
  {
  }

  lemma RunCounts(cfg: Config, w: World, req: Request, k: Key)
    requires Counted(cfg, w, k)
    ensures Counted(cfg, Step(cfg, w, Run(req)), k)
  {
    var w' := Step(cfg, w, Run(req));
    RunResets(cfg, w.c, req, k);
    RunEffect(cfg, w.c, req);
    if Creates(cfg, w.c, req) && k == Target(cfg, req) {
      WatchOne(w.seen, Made(k, w'.c.store[k].published));
    } else {
      if Creates(cfg, w.c, req) { WatchOne(w.seen, Made(Target(cfg, req), w'.c.store[Target(cfg, req)].published)); }
      CountsMove(cfg, w, w', k);
    }
  }

  lemma SyncCountsOwn(cfg: Config, w: World, e: Event)
    requires e.Sync? && Counted(cfg, w, e.k) && Enabled(cfg, w, e)
    ensures Counted(cfg, Step(cfg, w, e), e.k)
  {
    var w', wf := Step(cfg, w, e), w.c.store[e.k];
    if Managed(cfg, wf) {
      assert Resets(w'.c.calls, e.k) == Resets(w.c.calls, e.k) + (if Renews(cfg, wf) then 1 else 0) by {
        SyncResets(cfg, w.c, e.k, e.order, e.pods, e.k);
      }
      assert e.k in w'.c.store && w'.c.store[e.k].run.Some? && w'.c.store[e.k].published
          == if Publishes(wf.phase) then true else if Active(wf.phase) then false else wf.published by {
        SyncPublished(cfg, w.c, e.k, e.order, e.pods);
      }
      WatchOne(w.seen, Saw(e.k, wf.phase));
      SawCounts(cfg, w, w', e.k, wf);
    }
  }

  lemma SawCounts(cfg: Config, w: World, w': World, k: Key, wf: Workflow)
    requires Counted(cfg, w, k) && k in w.c.store && w.c.store[k] == wf && Managed(cfg, wf)
    requires w'.seen == w.seen + [Saw(k, wf.phase)] && w'.seen[..|w.seen|] == w.seen
    requires Resets(w'.c.calls, k) == Resets(w.c.calls, k) + (if Renews(cfg, wf) then 1 else 0)
    requires k in w'.c.store && w'.c.store[k].run.Some? && w'.c.store[k].published
      == if Publishes(wf.phase) then true else if Active(wf.phase) then false else wf.published
    ensures Counted(cfg, w', k)
  {
  }

  lemma SyncCountsOther(cfg: Config, w: World, e: Event, k: Key)
    requires e.Sync? && e.k != k && Counted(cfg, w, k) && Enabled(cfg, w, e)
    ensures Counted(cfg, Step(cfg, w, e), k)
  {
    var w' := Step(cfg, w, e);
    SyncResets(cfg, w.c, e.k, e.order, e.pods, k);
    assert k in w'.c.store ==> k in w.c.store && w'.c.store[k] == w.c.store[k] by {
      SyncTouches(cfg, w.c, e.k, e.order, e.pods);
    }
    WatchOne(w.seen, Saw(e.k, w.c.store[e.k].phase));
    CountsMove(cfg, w, w', k);
  }

  lemma CountsMove(cfg: Config, w: World, w': World, k: Key)
    requires Counted(cfg, w, k) && Resets(w'.c.calls, k) == Resets(w.c.calls, k) && Watch(w'.seen, k) == Watch(w.seen, k)
    requires k in w'.c.store ==>
      && k in w.c.store && Managed(cfg, w'.c.store[k]) == Managed(cfg, w.c.store[k])
      && w'.c.store[k].run == w.c.store[k].run && w'.c.store[k].published == w.c.store[k].published
    ensures Counted(cfg, w', k)
  {
  }

  lemma SyncPublished(cfg: Config, c: Cluster, k: Key, order: seq<NodeId>, pods: seq<NodeId>)
    requires k in c.store && Managed(cfg, c.store[k]) && c.store[k].run.Some?
    requires forall n :: n in order || n in pods ==> n in c.store[k].nodes
    ensures var d, wf := SyncOf(cfg, c, k, order, pods), c.store[k];
      && k in d.store && Managed(cfg, d.store[k]) && d.store[k].run.Some?
      && d.store[k].published == if Publishes(wf.phase) then true else if Active(wf.phase) then false else wf.published
  {
    var wf := c.store[k];
    if !(wf.published && !Active(wf.phase)) {
      WorkPublished(if wf.published then Reset(c, k) else c, k, order, pods);
    }
  }

  lemma WorkPublished(c: Cluster, k: Key, order: seq<NodeId>, pods: seq<NodeId>)
    requires k in c.store && c.store[k].run.Some? && forall n :: n in order || n in pods ==> n in c.store[k].nodes
    ensures var d, wf := Work(c, k, order, pods), c.store[k];
      && k in d.store && d.store[k].managedBy == wf.managedBy && d.store[k].run == wf.run
      && d.store[k].published == (wf.published || Publishes(wf.phase))
  {
    ReportStore(DeployAll(c, k, order), k, c.store[k].run.value, pods);
  }

  lemma OthersCount(cfg: Config, w: World, e: Event, k: Key)
    requires Counted(cfg, w, k) && !e.Run? && !e.Sync? && Enabled(cfg, w, e)
    ensures Counted(cfg, Step(cfg, w, e), k)
  {
    if e.Delete? && w.c.store[e.k].run.Some? {
      OneMore(w.c.calls, UpdateRun(w.c.store[e.k].run.value, Completed("cancelled"), []), k);
    }
    CountsUnlessNew(cfg, w, Step(cfg, w, e), k);
  }

  /** A workflow that others create is not managed. */
  lemma CountsUnlessNew(cfg: Config, w: World, w': World, k: Key)
    requires Counted(cfg, w, k) && Resets(w'.c.calls, k) == Resets(w.c.calls, k) && w'.seen == w.seen
    requires k in w'.c.store && Managed(cfg, w'.c.store[k]) ==>
      && k in w.c.store && Managed(cfg, w.c.store[k])
      && w'.c.store[k].run == w.c.store[k].run && w'.c.store[k].published == w.c.store[k].published
    ensures Counted(cfg, w', k)
  {
  }

  lemma StepCounts(cfg: Config, w: World, e: Event, k: Key)
    requires Counted(cfg, w, k)
    ensures Counted(cfg, Step(cfg, w, e), k)
  {
    if Enabled(cfg, w, e) {
      match e
      case Run(req) => RunCounts(cfg, w, req, k);
      case Sync(j, _, _) => if j == k { SyncCountsOwn(cfg, w, e); } else { SyncCountsOther(cfg, w, e, k); }
      case _ => OthersCount(cfg, w, e, k);
    }
  }

  /** Over any run the replacement check runs made for a workflow are as many as the restarts seen. */
  lemma {:induction false} ResetsAreRestarts(cfg: Config, w: World, es: seq<Event>, k: Key)
    requires Start(cfg, w)
    ensures Counted(cfg, Steps(cfg, w, es), k)
    ensures Resets(Steps(cfg, w, es).c.calls, k) == Restarts(Steps(cfg, w, es).seen, k)
  {
    if es != [] {
      ResetsAreRestarts(cfg, w, es[..|es| - 1], k);
      StepCounts(cfg, Steps(cfg, w, es[..|es| - 1]), es[|es| - 1], k);
    }
  }
}
