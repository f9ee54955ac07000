/** At most one workflow per repository and ref is left to run. */
module Exclusive {
  import opened Syncer
  import opened Reconcile

  /** Workflows of one repository, as far as their labels tell, and of one ref. */
  predicate Rivals(a: Workflow, b: Workflow) {
    a.org == b.org && a.repo == b.repo && a.branch == b.branch
  }

  ghost predicate Alone(cfg: Config, c: Cluster) {
    && (forall k :: k in c.store && Managed(cfg, c.store[k]) ==> k.0 == cfg.namespace)
    && (forall j, k ::
          j in c.store && k in c.store && j != k && Managed(cfg, c.store[j]) && Managed(cfg, c.store[k])
          && Rivals(c.store[j], c.store[k])
          ==> c.store[j].cancelled || c.store[k].cancelled)
  }

  /** After a request has created its workflow every other one in the namespace for that repository and ref is cancelled, whoever made it. */
  lemma LastOneRunning(cfg: Config, c: Cluster, req: Request, k: Key)
    requires Creates(cfg, c, req) && k in RunOf(cfg, c, req).store && InScope(cfg, k)
    requires var wf := RunOf(cfg, c, req).store[k]; Labelled(wf, req.org, req.repo) && OfRef(wf, req.ref)
    ensures RunOf(cfg, c, req).store[k].cancelled || k == Target(cfg, req)
  {
    RunEffect(cfg, c, req);
  }

  /** A request leaves workflows with other labels, or annotated with another ref, as they were. */
  lemma OthersKeepRunning(cfg: Config, c: Cluster, req: Request, k: Key)
    requires k in c.store
    requires !Labelled(c.store[k], req.org, req.repo) || (c.store[k].branch.On? && c.store[k].branch.ref != req.ref)
    ensures var d := RunOf(cfg, c, req); k in d.store && d.store[k] == c.store[k]
  {
    RunEffect(cfg, c, req);
  }

  /** Where nothing but bookkeeping and progress changes. */
  lemma SameRivals(cfg: Config, c: Cluster, d: Cluster)
    requires Alone(cfg, c)
    requires forall k :: k in d.store && Managed(cfg, d.store[k]) ==>
      && k in c.store && Managed(cfg, c.store[k]) && Rivals(c.store[k], d.store[k])
      && (c.store[k].cancelled ==> d.store[k].cancelled)
    ensures Alone(cfg, d)
  {
  }

  lemma NewcomerAlone(cfg: Config, c: Cluster, d: Cluster, k: Key, wf: Workflow)
    requires Alone(cfg, c) && k !in c.store && k.0 == cfg.namespace && d.store == c.store[k := wf]
    requires forall j :: j in c.store && Managed(cfg, c.store[j]) && Rivals(c.store[j], wf) ==> c.store[j].cancelled
    ensures Alone(cfg, d)
  {
    forall j | j in d.store && j != k ensures j in c.store && d.store[j] == c.store[j] {}
  }

  lemma RunKeepsAlone(cfg: Config, c: Cluster, req: Request)
    requires Alone(cfg, c)
    ensures Alone(cfg, RunOf(cfg, c, req))
  {
    RunEffect(cfg, c, req);
    var c' := c.(store := AfterCancel(cfg, c, req));
    SameRivals(cfg, c, c');
    if Creates(cfg, c, req) {
      NewcomerAlone(cfg, c', RunOf(cfg, c, req), Target(cfg, req), Decorated(cfg, req, c.nextID));
    } else {
      SameRivals(cfg, c', RunOf(cfg, c, req));
    }
  }

  lemma SyncKeepsAlone(cfg: Config, c: Cluster, k: Key, order: seq<NodeId>, pods: seq<NodeId>)
    requires Alone(cfg, c) && k in c.store
    requires forall n :: n in order || n in pods ==> n in c.store[k].nodes
    ensures Alone(cfg, SyncOf(cfg, c, k, order, pods))
  {
    SyncTouches(cfg, c, k, order, pods);
    SameRivals(cfg, c, SyncOf(cfg, c, k, order, pods));
  }

  lemma OthersKeepAlone(cfg: Config, w: World, e: Event)
    requires Alone(cfg, w.c) && Enabled(cfg, w, e) && !e.Run? && !e.Sync?
    ensures Alone(cfg, Step(cfg, w, e).c)
  {
    SameRivals(cfg, w.c, Step(cfg, w, e).c);
  }

  lemma StepKeepsAlone(cfg: Config, w: World, e: Event)
    requires Alone(cfg, w.c)
    ensures Alone(cfg, Step(cfg, w, e).c)
  {
    if Enabled(cfg, w, e) {
      match e
      case Run(req) => RunKeepsAlone(cfg, w.c, req);
      case Sync(k, order, pods) => SyncKeepsAlone(cfg, w.c, k, order, pods);
      case _ => OthersKeepAlone(cfg, w, e);
    }
  }

  /** Over any run, of the workflows created for one repository and ref at most one is not cancelled. */
  lemma {:induction false} OneRunPerRef(cfg: Config, w: World, es: seq<Event>)
    requires Start(cfg, w)
    ensures Alone(cfg, Steps(cfg, w, es).c)
  {
    if es != [] {
      OneRunPerRef(cfg, w, es[..|es| - 1]);
      StepKeepsAlone(cfg, Steps(cfg, w, es[..|es| - 1]), es[|es| - 1]);
    }
  }
}
