# kube-ci, modelled and proved

kube-ci runs CI workflows on Argo for events from GitHub and reports them back as check
runs. This project models the parts of it where state or arithmetic is hard to get right
and proves what they promise, for every input, run or interleaving.

- **The Starlark module loader** (`LoadGraph`, `WaitsForGraph`, `LoaderProtocol`,
  `LoaderSoundness`, `LoaderOverlap`, `LoaderTrees`, `LoaderProgress`, `LoaderRaces`,
  `LoaderDeadlock`, `LoaderCache`). A module is an ordered
  list of loads and a deterministic code function. `LoadGraph` defines the meaning of a load
  without any cache: a recursive evaluator that ends exactly when no load cycle can be
  reached. `LoaderProtocol` is `modCache` as a step system for any number of concurrent
  top-level loads, with one choice open, the grain of the cycle check: in the grain `Fused`
  the walk of `cycleCheck` and the `setWaitsFor` after it are one step, in the grain `Fine`
  every pointer read and the store are separate steps, as the code has it. `LoaderCache` is
  the same cache as heap objects, driven by the single thread of `LoadWorkflow`.
- **Check runs and workflows** (`Syncer`, `Reconcile`, `Convergence`, `Exclusive`,
  `Deployments`, `Outcomes`). `Syncer` holds the handlers as methods of a class over the workflow store
  and GitHub, each proved equal to a function on cluster states; the other modules prove
  invariants of all runs of these functions, Argo's progress, deletions and workflows
  created by others.
- **Names** (`Names`): `escape`, `labelSafeLen`, `wfName` on bytes, with Go's UTF-8 decoding.
- **Cache volumes** (`Volumes`): `ensurePVC` and `deletePVC` and their runs.
- **Two round trips and module URLs** (`Conversion`, `LogParser`, `ModURL`).

## What was found

- `cycleCheck` and `setWaitsFor` are separate and unlocked (cistarlark/starlark.go:400-404).
  With two or more overlapping top-level loads the calls can get stuck if and only if some
  load cycle of the library passes through two different modules
  (`LoaderDeadlock.LiveExactly`). Around such a deadlock a third call never leaves the loop
  of `cycleCheck` (`LoaderDeadlock.EndlessWalk`). Without such a cycle every load returns,
  in any interleaving (`LoaderProgress.EveryLoadReturns`).
- A diamond of loads without any cycle can be reported as a cycle
  (`LoaderRaces.FalseAlarmsHappen`). Nothing else can go wrong with an answer: one that does
  not report a cycle is always right (`LoaderOverlap.OnlyCycleReportsAreWrong`), and where no
  module is loaded by two others there are no false alarms (`LoaderTrees.TreesAreCorrect`).
- For every library at once, the fine-grained cache is correct and live exactly when at most
  one top-level load is under way at a time (`LoaderDeadlock.OverlapLimit`), which is how
  `LoadWorkflow` uses it.
- A definition in a repository that presets the annotations-published annotation makes the
  first sync that finds the workflow active abandon its check run and count as a restart
  (`Reconcile.PresetPublishedOrphans`); a finished workflow deleted before a sync has seen
  the end leaves its check run open (`Reconcile.EarlyDeletionOrphans`). Both lemmas say
  exactly when, `Reconcile.OrphansExactly` does so for every event in any state, and
  `Reconcile.OrphansHappen` gives two runs from an empty cluster.
- Repositories whose names are sanitised alike, such as `a_b` and `a-b`, share a label, so
  deleting one deletes the volumes of the other (`Volumes.DeletionIsExact`,
  `Volumes.UnderscoreIsADash`).
- From `github://r.o/`, the name `github://repo:80/f` is accepted and becomes
  `github://repo:80.o/f`, which does not parse again (`ModURL.PortsAreNotStable`). A query is
  handed on through all loads that have none of their own, so the ref of a github module can
  come from a module on another host (`ModURL.RefOfChain`), while `loadFile` takes over a
  ref on the same host only (`ModURL.RefIs`).
- `load("github://repo/file")` and `load("github:///file")`, described in the comments above
  `parseModURL` and in STARLARK.md, panic: `doLoad` resolves the URL against itself and takes
  the organisation of its host for granted. A name that does not parse panics as well
  (`ModURL.LoadPanics`). From a working URL that is not a github one, `loadFile` drops even
  an explicit ref (`ModURL.RefIs`).
- A Starlark dictionary with an unsupported value anywhere in it makes the conversion panic;
  the error path of `ConvertToWorkflow` for it is never taken (`Conversion.ConvertsExactly`).
- `file:line: message` lines lose what stands before the first colon of the message, which is
  taken for a column (`LogParser.PrintedWithoutColumn`).
- README.md of the repository says that with a cacheName other cache settings are ignored;
  the code still needs a valid scope and size (pvc.go:51-79), and so does the model.

Smaller facts that follow from definitions are in the modules and not in the table: that a
repeated request for a volume changes nothing, what a new workflow leaves running, and the
ref, the fetch and the panics of one load.

## Model

| member | source | states |
|---|---|---|
| `LoadGraph.DivergenceIsACycle` | cistarlark/starlark.go:444-456 | The cache-free evaluator fails to end on a module if and only if a load cycle can be reached from it. |
| `LoadGraph.EvaluatorIs` | cistarlark/starlark.go:369-386 | Without fuel: a module evaluates to a result if and only if its loads return one after the other up to where its code throws, ends, or asks for a module that fails. |
| `LoadGraph.CorrectIsDecisive` | cistarlark/starlark.go:369-426 | The notion of a correct answer leaves no choice: the evaluator's result when it has one, a cycle error exactly when it has none. |
| `LoadGraph.CycleDiverges` | cistarlark/starlark.go:454-456 | Every module on a load cycle has no result. |
| `WaitsForGraph.CheckIsExact` | cistarlark/starlark.go:444-469 | In an acyclic waits-for graph the new edge keeps it acyclic if and only if the walk from the entry does not meet the waiter. |
| `LoaderCache.CycleCheck` | cistarlark/starlark.go:457-469 | Given that the walk ends, as it does for the single thread (`LoaderCache.ModCache.Get` calls it only then), the loop reports a cycle exactly if the checker can be reached from the entry. |
| `LoaderCache.ModCache.Get` | cistarlark/starlark.go:389-421 | Ends and never waits for an entry that is not ready; returns the evaluator's answer; reports a cycle itself exactly for a module being loaded; keeps every entry ready and correct or on the load stack. |
| `LoaderCache.ModCache.GetFirst` | cistarlark/starlark.go:407-420 | A first request leaves a ready entry that holds the answer returned. |
| `LoaderCache.ModCache.DoLoad` | cistarlark/starlark.go:369-386 | Runs the module's code, loading as it asks, with the evaluator's answer as its result. |
| `LoaderCache.ModCache.Load` | cistarlark/starlark.go:423-426 | A top-level load returns the evaluator's answer whatever was loaded before, and leaves all entries ready and correct. |
| `LoaderCache.ModCache.RunScript` | cistarlark/starlark.go:738-758 | A script run through the cache ends as it would without one. |
| `LoaderProtocol.RunKeepsStructure` | cistarlark/starlark.go:389-421 | In every state of every schedule, in both grains: loading entries lie on their creator's stack and are owned by it, pointers lead somewhere, starts, closes and results are as counted. |
| `LoaderProtocol.LoadedAtMostOnce` | cistarlark/starlark.go:392-420 | In every interleaving a module is executed at most once and its channel closed at most once, after it was started. |
| `LoaderProtocol.ReadyIsForever` | cistarlark/starlark.go:407-420 | Once closed, an entry never changes again. |
| `LoaderProtocol.GetsAgree` | cistarlark/starlark.go:389-421 | All gets of one name that do not report a cycle return the same result. |
| `LoaderProtocol.CallsReturn` | cistarlark/starlark.go:423-426 | A top-level call that has returned has returned a recorded result of the module it was started for. |
| `LoaderSoundness.AlarmIsACycle` | cistarlark/starlark.go:444-469 | Where a checker can be reached from the entry it asks for, there is a load cycle through the requested module. |
| `LoaderSoundness.GetsAreCorrect` | cistarlark/starlark.go:369-426 | In the fused grain, or with calls that do not overlap in either grain, every get returns the evaluator's result when there is one, a cycle error exactly when there is none, and the alarm itself only for a module on a cycle. |
| `LoaderSoundness.NeverStuck` | cistarlark/starlark.go:399-406 | In the fused grain, or with calls that do not overlap, some call can step as long as one is unfinished. |
| `LoaderSoundness.NeverBlocks` | cistarlark/starlark.go:399-406 | In the fine grain, calls that do not overlap never block at all. |
| `LoaderSoundness.CycleCheckIsExact` | cistarlark/starlark.go:457-469 | In every reachable state of the fused grain the walk ends and raises the alarm exactly when the wait would close a cycle of waits. |
| `LoaderOverlap.OnlyCycleReportsAreWrong` | cistarlark/starlark.go:389-421 | Any number of overlapping calls in either grain: an answer that reports no cycle is the evaluator's. |
| `LoaderOverlap.NeverStuckUnlessEntangled` | cistarlark/starlark.go:399-406 | Any number of overlapping calls in either grain: without a load cycle through two different modules some call can step as long as one is unfinished. |
| `LoaderTrees.TreesAreCorrect` | cistarlark/starlark.go:389-421 | Any number of overlapping calls in either grain: where no module is loaded by two others, every get is as correct as in the fused grain. |
| `LoaderProgress.StepsAreBounded` | cistarlark/starlark.go:389-426 | In the fused grain for any library, and in the fine grain for one without a load cycle through two modules: the steps taken in any schedule and those still possible are bounded by the library and the number of calls. |
| `LoaderProgress.EveryLoadReturns` | cistarlark/starlark.go:389-426 | Under the same condition the calls can be driven, from every reachable state, until all have returned. |
| `LoaderRaces.OverlappingLoadsFalseAlarm` | cistarlark/starlark.go:400-405 | For any diamond of loads there is a fine-grained schedule of two calls in which a module the evaluator accepts is reported as a cycle. |
| `LoaderRaces.FalseAlarmsHappen` | cistarlark/starlark.go:400-405 | Such a library, and the false report. |
| `LoaderDeadlock.EntangledDeadlocks` | cistarlark/starlark.go:400-405 | For every library with a load cycle through two different modules there is a fine-grained schedule of two calls after which neither can ever step. |
| `LoaderDeadlock.EndlessWalk` | cistarlark/starlark.go:457-469 | For every such library there is a schedule after which a third call is all that can step, and steps forever inside the check. |
| `LoaderDeadlock.LiveExactly` | cistarlark/starlark.go:400-405 | For each library and each bound of at least two on the calls under way: no schedule of the fine grain gets stuck if and only if no load cycle passes through two different modules. |
| `LoaderDeadlock.OverlapLimit` | cistarlark/starlark.go:400-405 | The fine grain is correct and live for all libraries if and only if at most one call is under way at a time. |
| `Names.EscapeIs` | controller.go:243-254 | The result is what lies between the first letter and the last letter or digit of the sanitised string: nothing or an RFC 1035 label, never longer than the input. |
| `Names.EscapeKeepsLabels` | controller.go:248-254 | A label escapes to itself, so escaping is idempotent. |
| `Names.SanitizeIs` | controller.go:243-249 | Text is sanitised rune by rune: capitals become small letters, small letters, digits and dashes stay, the dotted capital I and the Kelvin sign become i and k, everything else a dash. |
| `Names.DecodesRunes` | controller.go:248-249 | Decoding finds only runes whose UTF-8 encoding is there; with `Names.DecodeEncoded` it finds exactly those. |
| `Names.GarbageIsADash` | controller.go:248-249 | A byte at which no rune is encoded becomes a dash. |
| `Names.JoinedIs` | controller.go:256-267 | The joined name is, between its dots, the non-empty escapes of the strings, in order. |
| `Names.LabelSafeLen` | controller.go:256-278 | The loop, the cut to the tail and the two trims compute the specified string. |
| `Names.LabelSafeIs` | controller.go:256-278 | For all strings and bounds: the longest tail of the joined labels that fits and starts with a letter, made of RFC 1035 labels or empty; all of them if they fit. |
| `Names.LabelIsSafe` | controller.go:280-282 | A label that fits is its own label value. |
| `Names.WfName` | workflow.go:49-102 | For every repository, entrypoint, ref and digest no slice is out of range; between its dots the name is what escaping leaves of the repository (20 characters, or 15 beside an entrypoint), the entrypoint (15), the ref (the rest of 50) and the hash, in that order. |
| `Names.WfPartsFit` | workflow.go:69-99 | The parts of a workflow name fit in 50 characters with their dots, so nothing is cut later. |
| `Names.WfNameIs` | workflow.go:66-101 | The same of the label-safe parts, and the name is non-empty, at most 50 characters of RFC 1035 labels, and ends in the whole escaped hash. |
| `Names.HashSurvives` | pvc.go:34-42 | An escaped hash is a label that starts with its x and loses dashes at its end only. |
| `Names.VolumeNameIs` | pvc.go:81-90 | The default volume name is one label of at most 50 characters: the label-safe name with dots turned into dashes, ending in the whole escaped hash. |
| `Names.ShortVolumeName` | pvc.go:81-90 | If there is room, the dotted name is ci, scope, organisation, repository and hash, each escaped, in order. |
| `Volumes.StorageManager.EnsurePVC` | pvc.go:44-168 | The volume called for exists afterwards, one that existed is untouched, and the workflow is told its name, or the request fails and nothing changes. |
| `Volumes.StorageManager.Choose` | pvc.go:51-90 | Scope, size, class and name as annotations and defaults determine them, or a refusal. |
| `Volumes.StorageManager.Describe` | pvc.go:81-144 | Name, labels and annotations of the volume. |
| `Volumes.StorageManager.GetPodsForPVC` | pvc.go:170-191 | Exactly the pods of the namespace that mount the claim. |
| `Volumes.StorageManager.DeleteOne` | pvc.go:244-282 | The volume and exactly the pods that mount it are gone. |
| `Volumes.StorageManager.DeletePVC` | pvc.go:195-286 | Exactly the volumes are gone that are in the namespace and carry the labels of the manager, the organisation and the repository, and for a branch its scope and annotation, and with them the pods that mount them. |
| `Volumes.RunMarks` | pvc.go:92-144 | Over any run every volume created here carries the labels and annotations of the request it was created for. |
| `Volumes.PlanServes` | pvc.go:51-144 | Annotations override the defaults for scope, size and class; a request gets no volume, a refusal, or a volume with the chosen name or one that ends in its hash, with exactly the labels and annotations spelled out; the hash is of organisation and repository, and for the branch scope of the branch too. |
| `Volumes.HashesSeparate` | pvc.go:81-90 | Requests whose hashes are of one length once escaped, and differ, get volumes of different names. |
| `Volumes.BranchesAreApart` | pvc.go:193-286 | Two branches of a repository with such hashes get a volume each, and deleting one branch leaves the other its volume. |
| `Volumes.RepoDeletionIsComplete` | pvc.go:193-286 | After deleting a repository no volume created for it is left. |
| `Volumes.DeletionIsExact` | pvc.go:193-286 | After any run a deletion removes, of the volumes created here, exactly those whose organisation and repository have these labels, and for a branch, of these exactly the branch-scoped ones of that branch. |
| `Volumes.LabelsCollide` | controller.go:243-282 | Any two names that are sanitised alike have the same label, so that a deletion cannot tell their volumes apart. |
| `Syncer.WorkflowSyncer.StatusUpdate` | ghclient.go:60-109 | Sets the state of a check run and appends its annotations; an unknown one is only asked for. |
| `Syncer.WorkflowSyncer.ResetCheckRun` | controller.go:824-862 | A new queued check run replaces the old one, published turns false and recorded deployments are dropped; without the annotations it needs it fails and changes nothing. |
| `Syncer.WorkflowSyncer.CreateOnDemandDeployment` | controller.go:468-542 | Creates and records a deployment, or does nothing if the ref is not known. |
| `Syncer.WorkflowSyncer.SyncDeployments` | controller.go:557-609 | One pass over the nodes, in any order, creating and reporting deployments. |
| `Syncer.WorkflowSyncer.GhCompleteCheckRun` | controller.go:1020-1065 | Manual steps, a completing update, then the annotations in batches. |
| `Syncer.WorkflowSyncer.CompleteCheckRun` | controller.go:1069-1112 | For a succeeded or failed workflow the annotations of its pods are sent and it is marked published. |
| `Syncer.WorkflowSyncer.Sync` | controller.go:629-689 | The whole handler: ignore, reset, deployments, status, completion. |
| `Syncer.WorkflowSyncer.CancelRunningWorkflows` | workflow.go:120-154 | Cancels exactly the listed workflows with both labels that have no annotations or this branch. |
| `Syncer.WorkflowSyncer.RunWorkflow` | workflow.go:646-790 | All ways a request can end, with what each leaves in GitHub and the store. |
| `Syncer.WorkflowSyncer.DoDelete` | controller.go:294-327 | Completes the check run of a managed workflow that was not over as cancelled. |
| `Reconcile.StepsWired` | controller.go:629-689 | Over any run whatever: check runs of workflows are distinct and exist, and have no annotations before they are published. |
| `Reconcile.StepsKeep` | controller.go:629-689 | Over any run without the events below: besides, published check runs are complete, as are those whose end a sync has seen, and open ones are named by a stored workflow. |
| `Reconcile.NoOrphanedRuns` | workflow.go:695-789 | In every state reached without a preset published annotation and without a deletion before the last sync, each check run is complete or named by a stored workflow. |
| `Reconcile.OrphansExactly` | controller.go:294-327 | In any state in which open check runs are named, an event keeps that if and only if it is neither a sync that replaces an open check run nor a deletion of a finished workflow whose check run is open. |
| `Reconcile.OrphansHappen` | controller.go:371-387 | Two runs from an empty cluster that end with an open check run no workflow names. |
| `Reconcile.PresetPublishedOrphans` | controller.go:371-387 | After a request and any move of its workflow, a sync keeps every open check run named, unless the definition presets the published annotation and the workflow is active: if and only if. |
| `Reconcile.EarlyDeletionOrphans` | controller.go:305-307 | After a request and any move of its workflow, a deletion before any sync keeps every open check run named if and only if the workflow is not over. |
| `Reconcile.SyncTellsPhase` | controller.go:409-444 | In every reachable state: after a sync the check run a workflow names has the state and conclusion of its phase, a new one if it was published and runs again. |
| `Reconcile.SyncPublishes` | controller.go:1069-1112 | In every reachable state: the sync that finds a workflow succeeded or failed leaves its check run with the right conclusion and with the annotations of the logs of its pods, pod after pod; an annotation is there if and only if some line of the log of some pod is that annotation. |
| `Reconcile.AnnotationsArePublishedOnce` | controller.go:371-387 | Over any run: once a check run has annotations, no later event adds to them or changes them. |
| `Reconcile.BatchesDeliver` | controller.go:1048-1064 | The batches deliver every annotation once and in order. |
| `Reconcile.BatchesAreSmall` | controller.go:1048-1064 | No request carries more than fifty annotations, and none is empty. |
| `Convergence.QuietExactly` | controller.go:629-689 | A sync leaves store and GitHub alone exactly for workflows it has no business with; for all others it makes a request. |
| `Convergence.Converges` | controller.go:371-387 | After a sync has found a workflow succeeded or failed, any number of further syncs in that phase change nothing and ask nothing. |
| `Convergence.ResetsAreRestarts` | controller.go:371-387 | Over any run the replacement check runs of a workflow are as many as the syncs that found it active after it was last published, by a sync or by its definition. |
| `Exclusive.OneRunPerRef` | workflow.go:762-789 | In every reachable state at most one workflow per label-safe organisation, repository and ref is not cancelled. |
| `Outcomes.RequestEnds` | workflow.go:646-790 | Every request that is not ignored gets one check run, queued and named by the new workflow or failed; when there is which, with all labels and annotations of the workflow, and which workflows are cancelled. |
| `Outcomes.RefsAreKnown` | workflow.go:240-247 | Over any run a managed workflow is annotated with the ref it was made for and knows it unless it is empty. |
| `Outcomes.SyncOffers` | controller.go:988-1018 | A sync that finds a workflow succeeded makes one complete check run per manual step, in order, to be acted on if it is essential; in other phases none. |
| `Outcomes.SyncRestarts` | controller.go:371-387 | A sync that finds a published workflow pending or running gives it a new check run in that state, and leaves all others as they are. |
| `Outcomes.UnknownIsLeftAlone` | controller.go:438-441 | A sync that finds a workflow in no known phase leaves all check runs as they are. |
| `Outcomes.DeletionCancels` | controller.go:294-327 | A deletion completes as cancelled the check run of a managed workflow that was not over, and changes no other. |
| `Outcomes.RequestsAccount` | ghclient.go:60-109 | Over any run the check runs are what the requests sent to GitHub amount to. |
| `Deployments.DeploymentsAreRecorded` | controller.go:468-542 | Over any run, since its check run was last replaced a node had at most one deployment created; it is the recorded one, and all statuses went to the recorded one. |
| `Deployments.RecordsGrow` | controller.go:506-538 | Until the next replacement or deletion a recorded deployment stays recorded. |
| `Deployments.EveryDeploymentIsReported` | controller.go:563-607 | For each node, the requests a pass makes about it are: a deployment if none was recorded, and one status with the state of its phase for the recorded deployment, if it is a deployment node with an environment, in a phase GitHub is told about, and has a deployment or a ref; else none. |
| `Deployments.SyncReportsDeployments` | controller.go:557-609 | The same of a whole sync, in which after a replacement of the check run nothing counts as recorded; a sync of any other workflow does nothing. |
| `Deployments.SyncIsAboutItsOwn` | controller.go:557-609 | A sync asks nothing about the nodes of other workflows. |
| `Conversion.ConvertJSONToValue` | cistarlark/starlark.go:521-536 | Succeeds exactly on trees without nulls and byte strings, with a value that means the same, whatever the order of map iteration. |
| `Conversion.ConvertJSONDictToValue` | cistarlark/starlark.go:495-506 | The same for objects: every field once, under its own name. |
| `Conversion.ConvertValueToJSON` | cistarlark/starlark.go:546-566 | Succeeds exactly on supported values, with a tree that says the same, and panics exactly where a dictionary with something unsupported in it is reached. |
| `Conversion.ConvertListToJSON` | cistarlark/starlark.go:568-578 | The first element that cannot be converted decides. |
| `Conversion.ConvertDictToJSON` | cistarlark/starlark.go:580-603 | A value that cannot be converted panics, under whatever key; other entries are kept if their key is a string. |
| `Conversion.RoundTrip` | cistarlark/starlark.go:521-603 | JSON to Starlark to JSON is the identity at any nesting and for every order of fields. |
| `Conversion.ConvertsExactly` | cistarlark/starlark.go:546-603 | A value converts if and only if everything in it is of a supported kind; a dictionary otherwise panics. |
| `Conversion.ConversionIs` | cistarlark/starlark.go:546-603 | A value converts to a tree if and only if it is supported and the tree says the same, kind by kind, with the last entry under a string key; and it panics if and only if the first element that fails leads to a dictionary. |
| `Conversion.KeepsExactlyStringKeys` | cistarlark/starlark.go:580-603 | Of a supported dictionary exactly the entries with string keys are kept. |
| `LogParser.ParseAnnotations` | annotations.go:30-86 | The scanner loop collects what each line contributes, in order. |
| `LogParser.ParseText` | annotations.go:36-81 | The branches for one line compute its annotation or skip it. |
| `LogParser.LineMeans` | annotations.go:37-82 | A line is an annotation if and only if it is a file, a number and a text after a space, with at most one field in between; it is a notice for that one line. |
| `LogParser.AtoiOfItoa` | annotations.go:50-53 | Every 64-bit line number is read back from its decimal text. |
| `LogParser.AtoiIs` | annotations.go:50-53 | A line number is a sign or none and decimal digits that write a 64-bit number. |
| `LogParser.CleanedIs` | annotations.go:43-48 | A file name loses white space around it and the dots and slashes it starts with, and nothing else. |
| `LogParser.LogHas` | annotations.go:36-82 | The annotations of a log are exactly those of its lines. |
| `LogParser.PrintedWithColumn` | annotations.go:36-82 | With a column an annotation is read back if and only if its file name is plain and its message trimmed, colons and all. |
| `LogParser.PrintedWithoutColumn` | annotations.go:58-70 | Without a column it is read back if and only if, besides, the message has no colon. |
| `LogParser.LogRoundTrip` | annotations.go:36-82 | A whole log reads back as the annotations printed into it, in order, between any other lines and with either line ending. |
| `ModURL.ValidateModURL` | cistarlark/starlark.go:95-114 | Accepts exactly github hosts that are a repository, a dot and an organisation, and empty hosts for builtin and context. |
| `ModURL.ParseModURL` | cistarlark/starlark.go:163-202 | The edits of the parsed URL compute the specified outcome, panics included. |
| `ModURL.OthersResolve` | cistarlark/starlark.go:163-202 | URLs of other schemes resolve as they parse, and builtin and context ones with a host are refused. |
| `ModURL.ResolutionIsStable` | cistarlark/starlark.go:163-202 | Resolving a resolved URL gives it back if its host can be read back, and fails otherwise. |
| `ModURL.StableHosts` | cistarlark/starlark.go:177-182 | For a base without brackets: a resolved URL resolves to itself if and only if the given host needed no organisation, or has no brackets and no port that the organisation does not have; otherwise it does not resolve again. |
| `ModURL.UnstableHosts` | cistarlark/starlark.go:177-182 | Every other given host is accepted, and what it resolves to is not. |
| `ModURL.PortsAreNotStable` | cistarlark/starlark.go:177-182 | An input for which it happens. |
| `ModURL.ChainsAreSound` | cistarlark/starlark.go:356-386 | However deep loads are nested: github modules name a repository and an organisation, `loadFile` in a module does not panic, and a load in it panics exactly for a name that does not parse or has a github host without a dot. |
| `ModURL.RefOfChain` | cistarlark/starlark.go:356-366 | A module at the end of a chain of loads has the query of the last load that gave one, across all hosts in between, or that of the root, and is fetched with its ref. |
| `ModURL.KeyDecides` | cistarlark/starlark.go:369-390 | Modules with the same cache key, loaded from anywhere, fetch the same. |
| `ModURL.BareNamesResolve` | cistarlark/starlark.go:177-199 | In a github module a bare repository name resolves, in the organisation of the module. |

## Left out

- HTTP servers, webhooks, Slack and slash commands, the GitHub and Kubernetes client wrappers and `DefaultMain`: plumbing over libraries that are not part of this model.
- The Starlark interpreter, regular expressions, SHA-1, base64, randomness, YAML and JSON text, and the inside of `net/url`: parameters, or functions with a stated contract (`ModURL.Lawful`, `Names.HashShape`). Regular expressions over templates and branches are fields of the model's workflows and requests; the four sanitising patterns are modelled as character scans.
- API failures, stale listers, rate limiting, timestamps, titles, texts, buttons and URLs in reports: requests succeed and the lister is current. A workflow can be created unless its name is taken or there is no namespace; ids given out by GitHub are new and not zero.
- Argo stamps a finish time exactly in the phases Succeeded, Failed and Error and leaves deadlines, labels and annotations alone; a retry by Argo that lifts the deadline of a cancelled workflow is not modelled.
- GitHub is taken to append annotations, and to complete a check run with the update or creation that carries a conclusion.
- LoaderSoundness.GetsAreCorrect: for overlapping calls it needs the check and the wait as one step, where the code has two; what holds of the code is in `LoaderOverlap`, `LoaderTrees`, `LoaderRaces` and `LoaderDeadlock`.
- LoaderSoundness.NeverStuck: likewise; for the code `LoaderDeadlock.LiveExactly` has the exact condition.
- LoaderSoundness.CycleCheckIsExact: for the fused grain; in the code the walk reads one pointer at a time while others move on, can miss a cycle and can see one that is not there.
- LoaderTrees.TreesAreCorrect: a sufficient condition, and a diamond of loads is a sufficient one for the opposite; for libraries between the two it depends on the order of loads in all modules whether a false alarm can be raised.
- Reconcile.NoOrphanedRuns: assumes that finished workflows are deleted after a sync has seen them and that definitions do not preset the published annotation; `Reconcile.OrphansExactly` says what each event does without that.
- Reconcile.StepsKeep: likewise; what needs no assumption is `Reconcile.StepsWired`.
- Reconcile.StepsWired: workflows that others create are unmanaged. A resubmitted workflow that carries the labels, annotations and check run of an old one (controller.go:375) is excluded: two workflows would then report to one check run.
- Deleted volumes are gone at once, where Kubernetes keeps them until their pods are gone.
- The scanner's limit on the length of a line, cyclic Starlark values, and `convertToStarlarkValue`, which goes through JSON text.
- Names with user information, a fragment or an opaque part, and names with a single slash after their scheme, in `ModURL`; what the fetched content is.
- The override of essential templates in `nextCheckRunsForWorkflow` (controller.go:956-963) assigns to the pattern for manual templates, so the documented override does not hold; which steps are offered is an input here.
- `policy`, `runBranchOrTag`, `setupEntrypoint` and `isInteractiveBranch` as claims of their own: they enter as outcomes.
