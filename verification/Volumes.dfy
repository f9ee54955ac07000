/**
  Cache volumes: created for workflows by `ensurePVC`, removed by `deletePVC` when a
  branch or a repository goes away or its cache is cleared.

  The cluster is the set of volumes and pods the API server holds. Requests succeed,
  except that a lookup without a name or namespace is refused, a volume that exists
  cannot be created and one that does not cannot be deleted. A deleted volume is gone
  at once; Kubernetes keeps it until the pods that use it are gone.
 */
module Volumes {
  import opened Basics
  import opened Names

  datatype LabelKey = ManagedBy | Org | Repo | Scope | CacheHash | OtherLabel(name: string)

  datatype AnnKey =
    | AnnOrg | AnnRepo | AnnBranch
    | AnnCacheScope | AnnCacheSize | AnnCacheClass | AnnCacheName
    | OtherAnn(name: string)

  /** Namespace and name. */
  type Key = (string, string)

  datatype Volume = Volume(labels: map<LabelKey, string>, annotations: map<AnnKey, string>, size: string, class_: string)

  /** The volumes of a pod; some are backed by the claim of that name. */
  datatype Pod = Pod(claims: seq<Option<string>>)

  datatype CacheSpec = CacheSpec(scope: string, size: string, class_: string)

  /** `hash` and quantity parsing are functions this model does not look into. */
  datatype Config = Config(
    namespace: string,
    managedBy: string,
    hash: seq<string> -> string,
    quantityOk: string -> bool,
    defaults: CacheSpec)

  ghost predicate ValidConfig(cfg: Config) {
    forall strs :: HashShape(cfg.hash(strs))
  }

  /** What `ensurePVC` is asked: the workflow's namespace and annotations, and what it runs for. */
  datatype Request = Request(namespace: string, annotations: map<AnnKey, string>, org: string, repo: string, branch: string)

  const BRANCH := "branch"
  const PROJECT := "project"
  const NONE := "none"

  function Setting(anns: map<AnnKey, string>, k: AnnKey, default: string): string {
    if k in anns then anns[k] else default
  }

  function ScopeOf(cfg: Config, req: Request): string {
    Setting(req.annotations, AnnCacheScope, cfg.defaults.scope)
  }

  datatype Plan = NoVolume | Rejected | Wanted(name: string, volume: Volume)

  function CacheHashOf(cfg: Config, scope: string, req: Request): string {
    if scope == BRANCH then cfg.hash([req.org, req.repo, req.branch]) else cfg.hash([req.org, req.repo])
  }

  function VolumeLabels(managedBy: string, org: string, repo: string, scope: string, cacheHash: Option<string>): map<LabelKey, string> {
    var ls := map[ManagedBy := managedBy, Org := org, Repo := repo, Scope := scope];
    if cacheHash.Some? then ls[CacheHash := cacheHash.value] else ls
  }

  function VolumeAnnotations(req: Request, scope: string): map<AnnKey, string> {
    var anns := map[AnnRepo := req.repo, AnnOrg := req.org];
    if scope == BRANCH && req.branch != "" then anns[AnnBranch := req.branch] else anns
  }

  function VolumeFor(cfg: Config, req: Request, scope: string, size: string): Volume {
    Volume(
      VolumeLabels(cfg.managedBy, LabelSafe(50, [req.org]), LabelSafe(50, [req.repo]), LabelSafe(50, [scope]),
                   if scope == BRANCH then Some(LabelSafe(50, [CacheHashOf(cfg, scope, req)])) else None),
      VolumeAnnotations(req, scope),
      size,
      Setting(req.annotations, AnnCacheClass, cfg.defaults.class_))
  }

  /** The volume a request calls for. */
  function PlanFor(cfg: Config, req: Request): Plan {
    var scope := ScopeOf(cfg, req);
    var size := Setting(req.annotations, AnnCacheSize, cfg.defaults.size);
    if scope == NONE || scope == "" then NoVolume
    else if scope != BRANCH && scope != PROJECT then Rejected
    else if size == "" || !cfg.quantityOk(size) then Rejected
    else Wanted(
      Setting(req.annotations, AnnCacheName, VolumeName(scope, req.org, req.repo, CacheHashOf(cfg, scope, req))),
      VolumeFor(cfg, req, scope, size))
  }

  /** Where the volume of a request lives, if the request gets one. */
  function TargetOf(cfg: Config, req: Request): Option<(Key, Volume)> {
    TargetIn(req.namespace, PlanFor(cfg, req))
  }

  function TargetIn(namespace: string, plan: Plan): Option<(Key, Volume)> {
    match plan
    case Wanted(name, v) => if namespace == "" || name == "" then None else Some(((namespace, name), v))
    case _ => None
  }

  /** The volumes after `ensurePVC`: one that exists, whoever made it, is left as it is. */
  function WithVolume(volumes: map<Key, Volume>, target: Option<(Key, Volume)>): map<Key, Volume> {
    if target.None? || target.value.0 in volumes then volumes else volumes[target.value.0 := target.value.1]
  }

  /** The label selector of `deletePVC`: every label present with that value. */
  predicate Selected(cfg: Config, org: string, repo: string, branch: string, v: Volume) {
    && ManagedBy in v.labels && v.labels[ManagedBy] == cfg.managedBy
    && Org in v.labels && v.labels[Org] == LabelSafe(50, [org])
    && Repo in v.labels && v.labels[Repo] == LabelSafe(50, [repo])
    && (branch != "" ==> Scope in v.labels && v.labels[Scope] == BRANCH)
  }

  /** What `deletePVC` is to delete; an empty namespace stands for all of them. */
  predicate Doomed(cfg: Config, org: string, repo: string, branch: string, k: Key, v: Volume) {
    && (cfg.namespace == "" || k.0 == cfg.namespace)
    && Selected(cfg, org, repo, branch, v)
    && OfBranch(v, branch)
  }

  predicate OfBranch(v: Volume, branch: string) {
    branch != "" ==> AnnBranch in v.annotations && v.annotations[AnnBranch] == branch
  }

  predicate Uses(p: Pod, claim: string) {
    Some(claim) in p.claims
  }

  /** A pod that mounts one of `ks`. */
  predicate UsesAny(pk: Key, p: Pod, ks: set<Key>) {
    exists k :: k in ks && k.0 == pk.0 && Uses(p, k.1)
  }

  function PodsWithout(pods: map<Key, Pod>, ks: set<Key>): map<Key, Pod> {
    map pk | pk in pods && !UsesAny(pk, pods[pk], ks) :: pods[pk]
  }

  /** The same as the documentation of `deletePVC` has it, label by label. */
  predicate ForDeletion(cfg: Config, org: string, repo: string, branch: string, k: Key, v: Volume) {
    && (cfg.namespace != "" ==> k.0 == cfg.namespace)
    && Has(v.labels, ManagedBy, cfg.managedBy)
    && Has(v.labels, Org, LabelSafe(50, [org])) && Has(v.labels, Repo, LabelSafe(50, [repo]))
    && (branch != "" ==> Has(v.labels, Scope, "branch") && Has(v.annotations, AnnBranch, branch))
  }

  predicate Has<T(==)>(m: map<T, string>, k: T, v: string) {
    k in m && m[k] == v
  }

  function DoomedKeys(cfg: Config, org: string, repo: string, branch: string, volumes: map<Key, Volume>): set<Key> {
    set k | k in volumes && Doomed(cfg, org, repo, branch, k, volumes[k])
  }

  class Workflow {
    const namespace: string
    const annotations: map<AnnKey, string>
    var parameters: seq<(string, string)>

    constructor (namespace: string, annotations: map<AnnKey, string>)
      ensures this.namespace == namespace && this.annotations == annotations && parameters == []
    {
      this.namespace, this.annotations, parameters := namespace, annotations, [];
    }
  }

  datatype Result = Ok | Failed

  /** The storage manager and the cluster it works on. */
  class StorageManager {
    const cfg: Config
    var volumes: map<Key, Volume>
    var pods: map<Key, Pod>

    constructor (cfg: Config, volumes: map<Key, Volume>, pods: map<Key, Pod>)
      ensures this.cfg == cfg && this.volumes == volumes && this.pods == pods
    {
      this.cfg, this.volumes, this.pods := cfg, volumes, pods;
    }

    ghost predicate Named()
      reads this
    {
      forall k :: k in volumes ==> k.0 != "" && k.1 != ""
    }

    method EnsurePVC(wf: Workflow, org: string, repo: string, branch: string) returns (r: Result)
      requires Named()
      modifies this`volumes, wf
      ensures Named()
      ensures var req := Request(wf.namespace, wf.annotations, org, repo, branch);
        var target := TargetOf(cfg, req);
        && volumes == WithVolume(old(volumes), target)
        && (r == Ok <==> target.Some? || PlanFor(cfg, req).NoVolume?)
        && wf.parameters == old(wf.parameters)
             + (if target.Some? then [("cacheVolumeClaimName", target.value.0.1)] else [])
      ensures forall k :: k in old(volumes) ==> k in volumes && volumes[k] == old(volumes)[k]
      ensures var plan := PlanFor(cfg, Request(wf.namespace, wf.annotations, org, repo, branch));
        forall k :: k in volumes && k !in old(volumes) ==>
          plan.Wanted? && k == (wf.namespace, plan.name) && volumes[k] == plan.volume
      ensures var plan := PlanFor(cfg, Request(wf.namespace, wf.annotations, org, repo, branch));
        if plan.Wanted? && wf.namespace != "" && plan.name != ""
        then r == Ok && (wf.namespace, plan.name) in volumes
             && wf.parameters == old(wf.parameters) + [("cacheVolumeClaimName", plan.name)]
        else volumes == old(volumes) && wf.parameters == old(wf.parameters) && (r == Ok <==> plan == NoVolume)
    {
      var plan := Choose(Request(wf.namespace, wf.annotations, org, repo, branch));
      r := Provide(wf, plan);
    }

    /** Creates the volume unless it exists, and tells the workflow its name. */
    method Provide(wf: Workflow, plan: Plan) returns (r: Result)
      requires Named()
      modifies this`volumes, wf
      ensures Named()
      ensures var target := TargetIn(wf.namespace, plan);
        && volumes == WithVolume(old(volumes), target)
        && (r == Ok <==> target.Some? || plan.NoVolume?)
        && wf.parameters == old(wf.parameters)
             + (if target.Some? then [("cacheVolumeClaimName", target.value.0.1)] else [])
    {
      match plan {
        case NoVolume => return Ok;
        case Rejected => return Failed;
        case Wanted(name, v) =>
          if wf.namespace == "" || name == "" {
            return Failed;
          }
          if (wf.namespace, name) !in volumes {
            volumes := volumes[(wf.namespace, name) := v];
          }
          wf.parameters := wf.parameters + [("cacheVolumeClaimName", name)];
          return Ok;
      }
    }

    /** An annotation overrides the default. */
    method Get(anns: map<AnnKey, string>, k: AnnKey, default: string) returns (v: string)
      ensures v == Setting(anns, k, default)
    {
      v := default;
      if k in anns {
        v := anns[k];
      }
    }

    /** Whether there is to be a volume, and which. */
    method Choose(req: Request) returns (plan: Plan)
      ensures plan == PlanFor(cfg, req)
    {
      var scope := Get(req.annotations, AnnCacheScope, cfg.defaults.scope);
      if scope == NONE || scope == "" {
        return NoVolume;
      }
      if scope != BRANCH && scope != PROJECT {
        return Rejected;
      }
      var class_ := Get(req.annotations, AnnCacheClass, cfg.defaults.class_);
      var size := Get(req.annotations, AnnCacheSize, cfg.defaults.size);
      if size == "" {
        return Rejected;
      }
      if !cfg.quantityOk(size) {
        return Rejected;
      }
      var name, v := Describe(req, scope, size, class_);
      return Wanted(name, v);
    }

    /** Name, labels and annotations of the volume. */
    method Describe(req: Request, scope: string, size: string, class_: string) returns (name: string, v: Volume)
      requires class_ == Setting(req.annotations, AnnCacheClass, cfg.defaults.class_)
      ensures v == VolumeFor(cfg, req, scope, size)
      ensures name == Setting(req.annotations, AnnCacheName, VolumeName(scope, req.org, req.repo, CacheHashOf(cfg, scope, req)))
    {
      var org, repo := LabelSafe(50, [req.org]), LabelSafe(50, [req.repo]);
      var cacheHash := cfg.hash([req.org, req.repo]);
      name := LabelSafe(50, ["ci", scope, req.org, req.repo, cacheHash]);
      if scope == BRANCH {
        cacheHash := cfg.hash([req.org, req.repo, req.branch]);
        name := LabelSafe(50, ["ci", scope, req.org, req.repo, cacheHash]);
      }
      name := Escape(name);

      var scopeLabel, hashLabel := LabelSafe(50, [scope]), LabelSafe(50, [cacheHash]);
      var ls := map[ManagedBy := cfg.managedBy, Org := org, Repo := repo, Scope := scopeLabel];
      if scope == BRANCH {
        ls := ls[CacheHash := hashLabel];
      }
      if AnnCacheName in req.annotations {
        name := req.annotations[AnnCacheName];
      }
      var anns := map[AnnRepo := req.repo, AnnOrg := req.org];
      if scope == BRANCH && req.branch != "" {
        anns := anns[AnnBranch := req.branch];
      }
      v := Volume(ls, anns, size, class_);
    }

    /** The pods that mount a volume, once for every mount. */
    method GetPodsForPVC(ns: string, claim: string) returns (ok: bool, found: seq<Key>)
      ensures ok <==> ns != "" && claim != ""
      ensures ok ==> forall pk :: pk in found <==> pk in pods && pk.0 == ns && Some(claim) in pods[pk].claims
    {
      if ns == "" || claim == "" {
        return false, [];
      }
      found := [];
      var todo := set pk | pk in pods && pk.0 == ns;
      while todo != {}
        invariant todo <= pods.Keys && forall pk :: pk in todo ==> pk.0 == ns
        invariant forall pk :: pk in found <==> pk in pods && pk !in todo && pk.0 == ns && Uses(pods[pk], claim)
        decreases todo
      {
        var pk :| pk in todo;
        todo := todo - {pk};
        var claims := pods[pk].claims;
        ghost var before := found;
        var i := 0;
        while i < |claims|
          invariant 0 <= i <= |claims|
          invariant forall q :: q in found <==> q in before || (q == pk && Some(claim) in claims[..i])
        {
          if claims[i] == Some(claim) {
            found := found + [pk];
          }
          i := i + 1;
        }
        assert claims[..i] == claims;
      }
      return true, found;
    }

    /** Deletes the pods of a list; one that is listed twice is gone the second time. */
    method DeletePods(found: seq<Key>)
      modifies this`pods
      ensures pods == map pk | pk in old(pods) && pk !in found :: old(pods)[pk]
    {
      var i := 0;
      while i < |found|
        invariant 0 <= i <= |found|
        invariant pods == map pk | pk in old(pods) && pk !in found[..i] :: old(pods)[pk]
      {
        pods := pods - {found[i]};
        i := i + 1;
      }
      assert found[..i] == found;
    }

    /** Deletes a volume and the pods that mount it. */
    method DeleteOne(k: Key)
      requires k.0 != "" && k.1 != "" && k in volumes
      modifies this
      ensures volumes == old(volumes) - {k}
      ensures pods == PodsWithout(old(pods), {k})
    {
      volumes := volumes - {k};
      var ok, found := GetPodsForPVC(k.0, k.1);
      DeletePods(found);
    }

    method DeletePVC(org: string, repo: string, branch: string)
      requires Named()
      modifies this
      ensures Named()
      ensures volumes == old(volumes) - DoomedKeys(cfg, org, repo, branch, old(volumes))
      ensures pods == PodsWithout(old(pods), DoomedKeys(cfg, org, repo, branch, old(volumes)))
      ensures forall k :: k in volumes <==> k in old(volumes) && !ForDeletion(cfg, org, repo, branch, k, old(volumes)[k])
      ensures forall k :: k in volumes ==> volumes[k] == old(volumes)[k]
    {
      var pvcs := map k | k in volumes && (cfg.namespace == "" || k.0 == cfg.namespace)
                       && Selected(cfg, org, repo, branch, volumes[k]) :: volumes[k];
      var todo := pvcs.Keys;
      ghost var doomed := DoomedKeys(cfg, org, repo, branch, volumes);
      ghost var gone: set<Key> := {};
      PodsWithoutNone(pods);
      while todo != {}
        invariant todo <= pvcs.Keys && gone == doomed - todo
        invariant volumes == old(volumes) - gone
        invariant pods == PodsWithout(old(pods), gone)
        decreases todo
      {
        var k :| k in todo;
        LastOne(doomed, todo, k);
        todo := todo - {k};
        if branch != "" {
          if AnnBranch !in pvcs[k].annotations {
            continue;
          }
          if pvcs[k].annotations[AnnBranch] != branch {
            continue;
          }
        }
        RemoveOne(old(volumes), old(pods), gone, k);
        DeleteOne(k);
        gone := gone + {k};
      }
    }
  }

  lemma LastOne(doomed: set<Key>, todo: set<Key>, k: Key)
    requires k in todo
    ensures doomed - (todo - {k}) == doomed - todo + (if k in doomed then {k} else {})
  {
  }

  lemma PodsWithoutNone(pods: map<Key, Pod>)
    ensures PodsWithout(pods, {}) == pods
  {
  }

  lemma RemoveOne(volumes: map<Key, Volume>, pods: map<Key, Pod>, gone: set<Key>, k: Key)
    ensures volumes - gone - {k} == volumes - (gone + {k})
    ensures PodsWithout(PodsWithout(pods, gone), {k}) == PodsWithout(pods, gone + {k})
  {
    forall pk | pk in pods
      ensures UsesAny(pk, pods[pk], gone + {k}) <==> UsesAny(pk, pods[pk], gone) || UsesAny(pk, pods[pk], {k})
    {
      if UsesAny(pk, pods[pk], gone) {
        var j :| j in gone && j.0 == pk.0 && Uses(pods[pk], j.1);
        assert j in gone + {k};
      }
      if UsesAny(pk, pods[pk], {k}) { assert k in gone + {k}; }
    }
  }

  /* ---------- runs ---------- */

  /** For whom a volume was created. */
  datatype Origin = Origin(org: string, repo: string, branch: string, scope: string)

  /** The cluster, and for every volume `ensurePVC` created and that still exists, its origin. */
  datatype World = World(volumes: map<Key, Volume>, pods: map<Key, Pod>, origins: map<Key, Origin>)

  /** Requests to the storage manager, and what others do to pods and volumes. */
  datatype Op =
    | Ensure(req: Request)
    | Delete(org: string, repo: string, branch: string)
    | AddPod(pk: Key, pod: Pod)
    | RemovePod(pk: Key)
    | AddVolume(k: Key, v: Volume)
    | RemoveVolume(k: Key)

  function Apply(cfg: Config, w: World, op: Op): World {
    match op
    case Ensure(req) =>
      var t := TargetOf(cfg, req);
      if t.None? || t.value.0 in w.volumes then w
      else
        w.(volumes := WithVolume(w.volumes, t),
           origins := w.origins[t.value.0 := Origin(req.org, req.repo, req.branch, ScopeOf(cfg, req))])
    case Delete(org, repo, branch) =>
      var d := DoomedKeys(cfg, org, repo, branch, w.volumes);
      World(w.volumes - d, PodsWithout(w.pods, d), w.origins - d)
    case AddPod(pk, p) => w.(pods := w.pods[pk := p])
    case RemovePod(pk) => w.(pods := w.pods - {pk})
    case AddVolume(k, v) => if k in w.volumes then w else w.(volumes := w.volumes[k := v])
    case RemoveVolume(k) => w.(volumes := w.volumes - {k}, origins := w.origins - {k})
  }

  function Run(cfg: Config, w: World, ops: seq<Op>): World {
    if ops == [] then w else Apply(cfg, Run(cfg, w, ops[..|ops| - 1]), ops[|ops| - 1])
  }

  /** The labels and annotations a volume of that origin carries. */
  ghost predicate Marked(cfg: Config, o: Origin, v: Volume) {
    && (o.scope == BRANCH || o.scope == PROJECT)
    && ManagedBy in v.labels && v.labels[ManagedBy] == cfg.managedBy
    && Org in v.labels && v.labels[Org] == LabelSafe(50, [o.org])
    && Repo in v.labels && v.labels[Repo] == LabelSafe(50, [o.repo])
    && Scope in v.labels && v.labels[Scope] == o.scope
    && (AnnBranch in v.annotations <==> o.scope == BRANCH && o.branch != "")
    && (AnnBranch in v.annotations ==> v.annotations[AnnBranch] == o.branch)
  }

  ghost predicate AllMarked(cfg: Config, w: World) {
    forall k :: k in w.origins ==> k in w.volumes && Marked(cfg, w.origins[k], w.volumes[k])
  }

  lemma ScopesAreLabels(scope: string)
    requires scope == BRANCH || scope == PROJECT
    ensures LabelSafe(50, [scope]) == scope
  {
    assert Label(scope) && |scope| <= 50;
    LabelIsSafe(50, scope);
  }

  /** The labels, with the label texts as parameters. */
  lemma LabelsSet(managedBy: string, org: string, repo: string, scope: string, cacheHash: Option<string>)
    ensures var ls := VolumeLabels(managedBy, org, repo, scope, cacheHash);
      && ManagedBy in ls && ls[ManagedBy] == managedBy
      && Org in ls && ls[Org] == org
      && Repo in ls && ls[Repo] == repo
      && Scope in ls && ls[Scope] == scope
  {
  }

  lemma AnnotationsSet(req: Request, scope: string)
    ensures var anns := VolumeAnnotations(req, scope);
      && (AnnBranch in anns <==> scope == BRANCH && req.branch != "")
      && (AnnBranch in anns ==> anns[AnnBranch] == req.branch)
  {
  }

  lemma VolumeForIsMarked(cfg: Config, req: Request, scope: string, size: string)
    requires scope == BRANCH || scope == PROJECT
    ensures Marked(cfg, Origin(req.org, req.repo, req.branch, scope), VolumeFor(cfg, req, scope, size))
  {
    ScopesAreLabels(scope);
    AnnotationsSet(req, scope);
    LabelsSet(cfg.managedBy, LabelSafe(50, [req.org]), LabelSafe(50, [req.repo]), LabelSafe(50, [scope]),
              if scope == BRANCH then Some(LabelSafe(50, [CacheHashOf(cfg, scope, req)])) else None);
  }

  lemma TargetIsMarked(cfg: Config, req: Request)
    requires TargetOf(cfg, req).Some?
    ensures Marked(cfg, Origin(req.org, req.repo, req.branch, ScopeOf(cfg, req)), TargetOf(cfg, req).value.1)
  {
    VolumeForIsMarked(cfg, req, ScopeOf(cfg, req), Setting(req.annotations, AnnCacheSize, cfg.defaults.size));
  }

  lemma EnsureMarks(cfg: Config, w: World, req: Request)
    requires AllMarked(cfg, w)
    ensures AllMarked(cfg, Apply(cfg, w, Ensure(req)))
  {
    if TargetOf(cfg, req).Some? { TargetIsMarked(cfg, req); }
  }

  lemma {:induction false} RunMarks(cfg: Config, w: World, ops: seq<Op>)
    requires AllMarked(cfg, w)
    ensures AllMarked(cfg, Run(cfg, w, ops))
  {
    if ops != [] {
      RunMarks(cfg, w, ops[..|ops| - 1]);
      var before, op := Run(cfg, w, ops[..|ops| - 1]), ops[|ops| - 1];
      if op.Ensure? { EnsureMarks(cfg, before, op.req); } else { OthersMark(cfg, before, op); }
    }
  }

  lemma OthersMark(cfg: Config, w: World, op: Op)
    requires AllMarked(cfg, w) && !op.Ensure?
    ensures AllMarked(cfg, Apply(cfg, w, op))
  {
    var w' := Apply(cfg, w, op);
    forall k | k in w'.origins ensures k in w'.volumes && Marked(cfg, w'.origins[k], w'.volumes[k]) {
      OtherKeeps(cfg, w, op, k);
    }
  }

  lemma OtherKeeps(cfg: Config, w: World, op: Op, k: Key)
    requires !op.Ensure? && k in Apply(cfg, w, op).origins && k in w.volumes
    ensures var w' := Apply(cfg, w, op);
      k in w.origins && w'.origins[k] == w.origins[k] && k in w'.volumes && w'.volumes[k] == w.volumes[k]
  {
  }

  predicate Covers(cfg: Config, k: Key) {
    cfg.namespace == "" || k.0 == cfg.namespace
  }

  /** What a deletion is after: the labels of the organisation and repository, and of a branch its own volumes only. */
  predicate Meant(o: Origin, org: string, repo: string, branch: string) {
    && LabelSafe(50, [o.org]) == LabelSafe(50, [org]) && LabelSafe(50, [o.repo]) == LabelSafe(50, [repo])
    && (branch != "" ==> o.scope == BRANCH && o.branch == branch)
  }

  /**
    A deletion, whatever happened before, removes of the volumes created here exactly those
    whose organisation and repository have these labels, and if it is for a branch, of
    these exactly the branch-scoped ones of that branch.
   */
  lemma {:induction false} DeletionIsExact(cfg: Config, w: World, ops: seq<Op>, org: string, repo: string, branch: string, k: Key)
    requires AllMarked(cfg, w) && Covers(cfg, k) && k in Run(cfg, w, ops).origins
    ensures var o, after := Run(cfg, w, ops).origins[k], Run(cfg, w, ops + [Delete(org, repo, branch)]);
      && (k !in after.volumes <==> Meant(o, org, repo, branch))
      && (k in after.volumes <==> k in after.origins)
  {
    assert (ops + [Delete(org, repo, branch)])[..|ops|] == ops;
    RunMarks(cfg, w, ops);
    var before := Run(cfg, w, ops);
    DoomedOfOrigin(cfg, before.origins[k], org, repo, branch, k, before.volumes[k]);
  }

  lemma DoomedOfOrigin(cfg: Config, o: Origin, org: string, repo: string, branch: string, k: Key, v: Volume)
    requires Marked(cfg, o, v) && Covers(cfg, k)
    ensures Doomed(cfg, org, repo, branch, k, v) <==> Meant(o, org, repo, branch)
  {
  }

  /** After a repository is deleted no volume created for it is left. */
  lemma {:induction false} RepoDeletionIsComplete(cfg: Config, w: World, ops: seq<Op>, org: string, repo: string, k: Key)
    requires AllMarked(cfg, w)
    requires Covers(cfg, k) && k in Run(cfg, w, ops + [Delete(org, repo, "")]).origins
    ensures var o := Run(cfg, w, ops + [Delete(org, repo, "")]).origins[k]; !(o.org == org && o.repo == repo)
  {
    assert (ops + [Delete(org, repo, "")])[..|ops|] == ops;
    RunMarks(cfg, w, ops);
    var before := Run(cfg, w, ops);
    assert k in before.origins && k !in DoomedKeys(cfg, org, repo, "", before.volumes);
  }

  /** Strings that are sanitised alike have the same label, so that deleting one repository can remove volumes of another. */
  lemma LabelsCollide(a: string, b: string)
    requires Sanitize(a) == Sanitize(b)
    ensures LabelSafe(50, [a]) == LabelSafe(50, [b])
  {
    assert Escape(a) == Escape(b);
    EscapeAllAppend([], a);
    EscapeAllAppend([], b);
    assert [] + [a] == [a] && [] + [b] == [b];
  }

  /** Two such repositories. */
  lemma {:induction false} UnderscoreIsADash()
    ensures LabelSafe(50, ["a_b"]) == LabelSafe(50, ["a-b"])
  {
    SanitizeAscii("a_b");
    SanitizeAscii("a-b");
    SanitizeAscii("_b");
    SanitizeAscii("-b");
    assert "a_b"[1..] == "_b" && "a-b"[1..] == "-b" && "_b"[1..] == "b" == "-b"[1..];
    LabelsCollide("a_b", "a-b");
  }

  /** A pod survives a deletion exactly if it mounts none of the deleted volumes. */
  lemma {:induction false} NoPodKeepsADeletedVolume(cfg: Config, w: World, org: string, repo: string, branch: string, pk: Key)
    requires pk in w.pods
    ensures var after := Apply(cfg, w, Delete(org, repo, branch));
      pk in after.pods <==>
        forall k :: k in w.volumes && k !in after.volumes && k.0 == pk.0 ==> Some(k.1) !in w.pods[pk].claims
  {
    var d := DoomedKeys(cfg, org, repo, branch, w.volumes);
    var after := Apply(cfg, w, Delete(org, repo, branch));
    assert forall k :: k in d <==> k in w.volumes && k !in after.volumes;
    if UsesAny(pk, w.pods[pk], d) {
      var k :| k in d && k.0 == pk.0 && Uses(w.pods[pk], k.1);
      assert k in w.volumes && k !in after.volumes;
    }
  }

  /** A second request finds what the first one made. */
  lemma EnsureIsIdempotent(cfg: Config, w: World, req: Request)
    ensures Apply(cfg, Apply(cfg, w, Ensure(req)), Ensure(req)) == Apply(cfg, w, Ensure(req))
  {
  }

  /* ---------- which volume a request gets ---------- */

  /** An annotation of the workflow overrides the default. */
  predicate Settles(anns: map<AnnKey, string>, k: AnnKey, default: string, v: string) {
    (k in anns ==> v == anns[k]) && (k !in anns ==> v == default)
  }

  /** The hash of organisation and repository, and for the scope of a branch of the branch too. */
  predicate HashedFor(cfg: Config, scope: string, org: string, repo: string, branch: string, h: string) {
    && (scope == "branch" ==> h == cfg.hash([org, repo, branch]))
    && (scope == "project" ==> h == cfg.hash([org, repo]))
  }

  /** A volume made for a request, label by label and annotation by annotation. */
  predicate MadeFor(cfg: Config, req: Request, scope: string, size: string, class_: string, h: string, v: Volume) {
    && v.size == size && v.class_ == class_
    && v.labels.Keys == {ManagedBy, Org, Repo, Scope} + (if scope == "branch" then {CacheHash} else {})
    && Has(v.labels, ManagedBy, cfg.managedBy) && Has(v.labels, Scope, scope)
    && Has(v.labels, Org, LabelSafe(50, [req.org])) && Has(v.labels, Repo, LabelSafe(50, [req.repo]))
    && (scope == "branch" ==> Has(v.labels, CacheHash, Escape(h)))
    && v.annotations.Keys == {AnnOrg, AnnRepo} + (if scope == "branch" && req.branch != "" then {AnnBranch} else {})
    && Has(v.annotations, AnnOrg, req.org) && Has(v.annotations, AnnRepo, req.repo)
    && (scope == "branch" && req.branch != "" ==> Has(v.annotations, AnnBranch, req.branch))
  }

  /** The name that was chosen, or one label of at most 50 characters that ends in the escaped hash. */
  ghost predicate NamedFor(req: Request, scope: string, h: string, name: string) {
    if AnnCacheName in req.annotations then name == req.annotations[AnnCacheName]
    else
      && Label(name) && |name| <= 50 && Suffix(Escape(h), name)
      && name == DotsToDashes(LabelSafe(50, ["ci", scope, req.org, req.repo, h]))
  }

  /** No volume, a refusal, or the volume of the request. */
  ghost predicate Serves(cfg: Config, req: Request, scope: string, size: string, class_: string, h: string, plan: Plan) {
    if scope == "none" || scope == "" then plan == NoVolume
    else if (scope != "branch" && scope != "project") || size == "" || !cfg.quantityOk(size) then plan == Rejected
    else plan.Wanted? && NamedFor(req, scope, h, plan.name) && MadeFor(cfg, req, scope, size, class_, h, plan.volume)
  }

  /** Scope, size and class come from annotations or defaults, and they and the hash decide. */
  lemma {:induction false} PlanServes(cfg: Config, req: Request) returns (scope: string, size: string, class_: string, h: string)
    requires ValidConfig(cfg)
    ensures Settles(req.annotations, AnnCacheScope, cfg.defaults.scope, scope)
    ensures Settles(req.annotations, AnnCacheSize, cfg.defaults.size, size)
    ensures Settles(req.annotations, AnnCacheClass, cfg.defaults.class_, class_)
    ensures HashedFor(cfg, scope, req.org, req.repo, req.branch, h)
    ensures Serves(cfg, req, scope, size, class_, h, PlanFor(cfg, req))
  {
    scope, h := ScopeOf(cfg, req), CacheHashOf(cfg, ScopeOf(cfg, req), req);
    size := Setting(req.annotations, AnnCacheSize, cfg.defaults.size);
    class_ := Setting(req.annotations, AnnCacheClass, cfg.defaults.class_);
    HashHasShape(cfg, scope, req);
    VolumeNameIs(scope, req.org, req.repo, h);
    if scope == BRANCH || scope == PROJECT {
      VolumeMade(cfg, req, scope, size);
    }
  }

  lemma VolumeMade(cfg: Config, req: Request, scope: string, size: string)
    requires ValidConfig(cfg) && (scope == BRANCH || scope == PROJECT)
    ensures MadeFor(cfg, req, scope, size, Setting(req.annotations, AnnCacheClass, cfg.defaults.class_),
                    CacheHashOf(cfg, scope, req), VolumeFor(cfg, req, scope, size))
  {
    ScopesAreLabels(scope);
    HashHasShape(cfg, scope, req);
    HashIsItsLabel(CacheHashOf(cfg, scope, req));
    LabelsMade(cfg.managedBy, LabelSafe(50, [req.org]), LabelSafe(50, [req.repo]), scope, Escape(CacheHashOf(cfg, scope, req)));
    AnnotationsMade(req, scope);
  }

  /** The labels, with the label texts as parameters. */
  lemma LabelsMade(managedBy: string, org: string, repo: string, scope: string, h: string)
    ensures var ls := VolumeLabels(managedBy, org, repo, scope, if scope == BRANCH then Some(h) else None);
      && ls.Keys == {ManagedBy, Org, Repo, Scope} + (if scope == "branch" then {CacheHash} else {})
      && Has(ls, ManagedBy, managedBy) && Has(ls, Org, org) && Has(ls, Repo, repo) && Has(ls, Scope, scope)
      && (scope == "branch" ==> Has(ls, CacheHash, h))
  {
  }

  lemma AnnotationsMade(req: Request, scope: string)
    ensures var anns := VolumeAnnotations(req, scope);
      && anns.Keys == {AnnOrg, AnnRepo} + (if scope == "branch" && req.branch != "" then {AnnBranch} else {})
      && Has(anns, AnnOrg, req.org) && Has(anns, AnnRepo, req.repo)
      && (scope == "branch" && req.branch != "" ==> Has(anns, AnnBranch, req.branch))
  {
  }

  /** As a label value a hash loses no more than when it is escaped. */
  lemma HashIsItsLabel(h: string)
    requires HashShape(h)
    ensures LabelSafe(50, [h]) == Escape(h)
  {
    HashFits(h);
    EscapeAllAppend([], h);
    assert [] + [h] == [h];
    LabelSafeIs(50, [h]);
  }

  /** A request for a volume of the default name, and the hash in that name. */
  ghost predicate Default(cfg: Config, req: Request, h: string) {
    && PlanFor(cfg, req).Wanted? && AnnCacheName !in req.annotations
    && exists scope :: Settles(req.annotations, AnnCacheScope, cfg.defaults.scope, scope)
                       && HashedFor(cfg, scope, req.org, req.repo, req.branch, h)
  }

  /** Requests whose hashes differ once escaped, and are as long, get volumes of their own. */
  lemma {:induction false} HashesSeparate(cfg: Config, a: Request, b: Request, ha: string, hb: string)
    requires ValidConfig(cfg) && Default(cfg, a, ha) && Default(cfg, b, hb)
    requires |Escape(ha)| == |Escape(hb)| && Escape(ha) != Escape(hb)
    ensures PlanFor(cfg, a).name != PlanFor(cfg, b).name
  {
    DefaultEnds(cfg, a, ha);
    DefaultEnds(cfg, b, hb);
  }

  lemma DefaultEnds(cfg: Config, req: Request, h: string)
    requires ValidConfig(cfg) && Default(cfg, req, h)
    ensures Suffix(Escape(h), PlanFor(cfg, req).name)
  {
    var scope, size, class_, h' := PlanServes(cfg, req);
    assert h' == h;
  }

  /** Two branches of one repository, whose volumes do not exist yet and whose hashes differ. */
  ghost predicate TwoBranches(cfg: Config, w: World, a: Request, b: Request) {
    && a.org == b.org && a.repo == b.repo && a.branch != "" && b.branch != "" && a.branch != b.branch
    && a.annotations == b.annotations && a.namespace == b.namespace && Covers(cfg, (a.namespace, ""))
    && AnnCacheName !in a.annotations && Settles(a.annotations, AnnCacheScope, cfg.defaults.scope, "branch")
    && TargetOf(cfg, a).Some? && TargetOf(cfg, a).value.0 !in w.volumes
    && TargetOf(cfg, b).Some? && TargetOf(cfg, b).value.0 !in w.volumes
    && var ha, hb := Escape(cfg.hash([a.org, a.repo, a.branch])), Escape(cfg.hash([b.org, b.repo, b.branch]));
       |ha| == |hb| && ha != hb
  }

  /** Each branch gets its own volume, and deleting one branch leaves the other its volume. */
  lemma {:induction false} BranchesAreApart(cfg: Config, w: World, a: Request, b: Request)
    requires ValidConfig(cfg) && AllMarked(cfg, w) && TwoBranches(cfg, w, a, b)
    ensures var w1 := Run(cfg, w, [Ensure(a), Ensure(b)]);
      var w2 := Run(cfg, w, [Ensure(a), Ensure(b)] + [Delete(a.org, a.repo, a.branch)]);
      var ka, kb := TargetOf(cfg, a).value.0, TargetOf(cfg, b).value.0;
      ka in w1.volumes && kb in w1.volumes && ka !in w2.volumes && kb in w2.volumes && w2.volumes[kb] == w1.volumes[kb]
  {
    HashesSeparate(cfg, a, b, cfg.hash([a.org, a.repo, a.branch]), cfg.hash([b.org, b.repo, b.branch]));
    var ops := [Ensure(a), Ensure(b)];
    var ka, kb := TargetOf(cfg, a).value.0, TargetOf(cfg, b).value.0;
    BothMade(cfg, w, a, b);
    DeletionIsExact(cfg, w, ops, a.org, a.repo, a.branch, ka);
    DeletionIsExact(cfg, w, ops, a.org, a.repo, a.branch, kb);
    SparedStays(cfg, w, ops, a.org, a.repo, a.branch, kb);
  }

  lemma BothMade(cfg: Config, w: World, a: Request, b: Request)
    requires TargetOf(cfg, a).Some? && TargetOf(cfg, a).value.0 !in w.volumes
    requires TargetOf(cfg, b).Some? && TargetOf(cfg, b).value.0 !in w.volumes
    requires TargetOf(cfg, a).value.0 != TargetOf(cfg, b).value.0
    ensures var w1 := Run(cfg, w, [Ensure(a), Ensure(b)]);
      var ka, kb := TargetOf(cfg, a).value.0, TargetOf(cfg, b).value.0;
      && ka in w1.volumes && ka in w1.origins && w1.origins[ka] == Origin(a.org, a.repo, a.branch, ScopeOf(cfg, a))
      && kb in w1.volumes && kb in w1.origins && w1.origins[kb] == Origin(b.org, b.repo, b.branch, ScopeOf(cfg, b))
  {
    RunTwo(cfg, w, Ensure(a), Ensure(b));
    MadeOne(cfg, w, a);
    MadeOne(cfg, Apply(cfg, w, Ensure(a)), b);
  }

  lemma RunTwo(cfg: Config, w: World, a: Op, b: Op)
    ensures Run(cfg, w, [a, b]) == Apply(cfg, Apply(cfg, w, a), b)
  {
    var ops := [a, b];
    var first := ops[..|ops| - 1];
    assert first == [a] && first[..|first| - 1] == [];
    assert Run(cfg, w, first) == Apply(cfg, Run(cfg, w, []), a);
  }

  lemma MadeOne(cfg: Config, w: World, req: Request)
    requires TargetOf(cfg, req).Some? && TargetOf(cfg, req).value.0 !in w.volumes
    ensures var k, v := TargetOf(cfg, req).value.0, TargetOf(cfg, req).value.1;
      Apply(cfg, w, Ensure(req)) ==
        w.(volumes := w.volumes[k := v], origins := w.origins[k := Origin(req.org, req.repo, req.branch, ScopeOf(cfg, req))])
  {
  }

  lemma SparedStays(cfg: Config, w: World, ops: seq<Op>, org: string, repo: string, branch: string, k: Key)
    requires k in Run(cfg, w, ops + [Delete(org, repo, branch)]).volumes
    ensures k in Run(cfg, w, ops).volumes
    ensures Run(cfg, w, ops + [Delete(org, repo, branch)]).volumes[k] == Run(cfg, w, ops).volumes[k]
  {
    assert (ops + [Delete(org, repo, branch)])[..|ops|] == ops;
  }

  lemma HashHasShape(cfg: Config, scope: string, req: Request)
    requires ValidConfig(cfg)
    ensures HashShape(CacheHashOf(cfg, scope, req))
  {
    assert HashShape(cfg.hash([req.org, req.repo, req.branch])) && HashShape(cfg.hash([req.org, req.repo]));
  }
}
