# Deployment core

A Dafny model of the Go backend's deployment core with proofs about it. The backend keeps applications as Kubernetes
manifests in a Git repository, queues deployments in a database, and keeps applications in step with their source
repositories. Each module below models one part, in the form the code has: a class where the code updates fields, loops
where it loops, a state machine where threads or processes interleave.

| file | models |
|---|---|
| `operation_store.dfy`, `operation_runs.dfy` | the leased queue of deployment operations: rows, lease locks, the claim and mark transactions, and runs of many workers with failures, crashes and passing time |
| `deployment_history.dfy` | the merged history of stored and queued deployments, on top of those runs |
| `managed_repository.dfy`, `managed_clone.dfy` | the managed Git repository: file lock, in-process read-write lock, single-flight sync and unforced push as interleaved steps in which any command may fail, and the critical section as it runs |
| `manifest_tree.dfy`, `manifest_store.dfy`, `manifest_runs.dfy`, `manifest_effects.dfy` | the manifest tree as directories of structured files, the store operations on it, reference integrity over every run, and what each operation leaves behind |
| `orphan_cleanup.dfy` | removal of Flux children nobody needs, on arbitrary trees |
| `catalog_cache.dfy`, `catalog_runs.dfy` | the application catalog cache and its staleness bound under racing refreshers and two-query reads |
| `change_workflow.dfy` | drafts, submission, approval and merge under role guards, with a trace |
| `change_effects.dfy` | what a merge's operation does to the tree, the queue and the policies, and what a repeated merge does |
| `image_reference.dfy`, `repository_sync.dfy` | tags and repositories of image references, and the fixed point of repository sync |
| `batch_metrics.dfy` | one grouped metrics query for many applications against one read per application |
| `poll_tracker.dfy` | when repositories are checked and what is shown about it |
| `text.dfy` | the string helpers the others rely on |

Runs are sequences of events from an initial state; a theorem about the final state of every run is one about every
reachable state. Time is a whole number that never decreases, the same clock for all workers; a step may use a reading
taken earlier.

Where the code and an expectation disagree, the code is kept. Lemmas then give inputs for which the expectation fails
and say exactly when it holds: `OddEnvironmentDangles` and `NewChildHasOverlay`, `SavedLastOwnsChild` and
`ChildNamesCollide`, `PaddedIdLosesChild` and `StaleAfterRun`, `LostUpdateAppliesTwice` and `RepeatedMerge`,
`UntaggedDescriptorNeedsTwo`, `PaddedImageNeverSettles` and `OneSyncSettles`, `OneAppLosesPod` and `BatchAgreesExactly`,
`PatchDuringCheck` and `DueByShownTime`. `SpacingIsAttained` and `StalenessIsAttained` show two bounds to be exact, and
`OrphanIsNeverReclaimed` shows that a crashed worker's operation is not recovered.

`dafny verify dfyconfig.toml` checks everything.

## Model

| member | source | states |
|---|---|---|
| OperationStore.MariaDBStore.EnqueueDeploymentOperation | backend/internal/application/deployment_operations_mariadb.go:66-123 | a new id and request id add one untried row with application, environment, image tag, request and lock key as submitted and the defaults filled in; an existing id or request id changes nothing; the row read back by id is returned |
| OperationStore.MariaDBStore.SelectDue | backend/internal/application/deployment_operations_mariadb.go:193-204 | the candidates are the oldest at most ten queued or retrying rows whose next attempt is due, oldest first, without rows another transaction holds; nothing older is left out |
| OperationStore.MariaDBStore.AcquireOperationLock | backend/internal/application/deployment_operations_mariadb.go:374-422 | a blank key is an error; otherwise the lock is had exactly when it is free, expired or the worker's own, and then names the worker until the new expiry; else nothing changes |
| OperationStore.MariaDBStore.ReleaseOperationLock | backend/internal/application/deployment_operations_mariadb.go:424-439 | frees the lock row for everybody if it still names this worker, and changes no other |
| OperationStore.MariaDBStore.ClaimNextDeploymentOperation | backend/internal/application/deployment_operations_mariadb.go:179-275 | one claim transaction over the candidates it selected: a due row gets one more attempt and a lease for the worker, in the row, in its lock and in the returned operation, until now plus the duration asked for, or plus five minutes if that is not positive; a blank lock key rolls everything back |
| OperationStore.ClaimFromScans | backend/internal/application/deployment_operations_mariadb.go:225-272 | the claim passes over exactly the candidates whose lock another live owner holds and stops at the first it need not pass over |
| OperationStore.ClaimIsComplete | backend/internal/application/deployment_operations_mariadb.go:193-275 | no due row that could have been claimed is older than the claimed one; nothing is returned only if every candidate waits for another live owner, and a row outside the candidates is missed only when ten older ones fill the list |
| OperationStore.MariaDBStore.MarkOperationTerminal | backend/internal/application/deployment_operations_mariadb.go:329-372 | effective exactly when the row still has the snapshot's lease owner; then it ends with the given status, error and completion time, its lease and lock freed, otherwise everything stays |
| OperationStore.MariaDBStore.MarkDeploymentOperationRetry | backend/internal/application/deployment_operations_mariadb.go:282-323 | attempts used up make the operation fail, otherwise the row is retrying from the given time on; the same lease guard, the lock freed |
| OperationStore.DeploymentOperationBackoff | backend/internal/application/deployment_operations.go:187-199 | the doubling loop returns min(2^(n-1), 15) minutes for attempt n, one minute for n below 1 |
| OperationStore.BackoffMonotone | backend/internal/application/deployment_operations.go:187-199 | the backoff grows with the attempt and stays between one and fifteen minutes |
| OperationRuns.ProcessOnce | backend/internal/application/deployment_operations.go:74-122 | one worker pass with nobody in between: the claimed row ends completed after a success, failed after a permanent error or with its attempts used up, and otherwise waits for its backoff, with the error message kept; every other row stays |
| OperationRuns.ClaimEffect | backend/internal/application/deployment_operations_mariadb.go:225-272 | a claim changes one due row and its lock row, or nothing at all |
| OperationRuns.RunKeepsLeases | backend/internal/application/deployment_operations_mariadb.go:225-269 | every step of every interleaving keeps: a row has an owner exactly when running, each busy worker's snapshot is its row, and an unexpired lease is backed by a lock row naming the worker with at least that expiry |
| OperationRuns.MutualExclusion | backend/internal/application/deployment_operations_mariadb.go:225-269 | in every reachable state two workers with unexpired leases never process operations with one lock key |
| OperationRuns.LeaseExcludesOthers | backend/internal/application/deployment_operations_mariadb.go:183-237 | from a claim until the lease it asked for has run out, no other worker claims an operation with that lock key, whatever happens in between, as long as the worker is busy with it |
| OperationRuns.LateReleaseIsHarmless | backend/internal/application/deployment_operations_mariadb.go:424-439 | a mark, however late, leaves a lock that names another worker as it is |
| OperationRuns.LeaseIsNeverLost | backend/internal/application/deployment_operations_mariadb.go:300-370 | until a worker marks it, its snapshot equals the row, so the guarded update hits one row and the lost-lease errors cannot occur with distinct workers |
| OperationRuns.MarkFollowsOutcome | backend/internal/application/deployment_operations.go:80-122 | in every run a mark completes the row of a successful execution, fails or schedules the row of another one as its error and attempts demand, leaves every other row alone and frees the lock |
| OperationRuns.SubmissionIsKept | backend/internal/application/deployment_operations_mariadb.go:66-123 | in every state after an accepted enqueue the row asks for the submitted application, environment and image tag under the submitted ids and lock key |
| OperationRuns.StepsAreBounded | backend/internal/application/deployment_operations.go:94-112 | a run takes at most two claim and mark steps per allowed attempt, summed over all rows |
| OperationRuns.TerminalIsAbsorbing | backend/internal/application/deployment_operations_mariadb.go:86-94 | no row disappears, completed and failed rows never change again, attempts never exceed the maximum, and a row keeps its request, application, image tag, lock key, limit and creation time whatever is enqueued again |
| OperationRuns.OrphanIsNeverReclaimed | backend/internal/application/deployment_operations_mariadb.go:197-202 | a running row that no worker holds any more stays as it is in every continuation: there is no recovery after a crash |
| OperationRuns.RunKeepsSpacing | backend/internal/application/deployment_operations.go:109-110 | claims of one row lie at least the backoff apart in every reachable state |
| OperationRuns.RetriesAreSpaced | backend/internal/application/deployment_operations.go:109-110 | claim n+1 of an operation comes at least the backoff after claim n, and the n-th claim no earlier than all backoffs before it add up to |
| OperationRuns.SpacingIsAttained | backend/internal/application/deployment_operations.go:74-122 | for every submission and every number of retries its attempts allow, some run makes the n-th claim exactly when all backoffs before it add up, so the bound cannot be raised |
| OperationRuns.TotalBackoffIs | backend/internal/application/deployment_operations.go:187-199 | that bound is 1, 3, 7 and 15 minutes for the second to fifth attempt and a quarter of an hour more for each further one |
| DeploymentHistory.MergeDeploymentRecords | backend/internal/application/deployment_operations.go:157-178 | store records, then queue records with an id not seen yet, newest first; no record is lost or doubled by the sort |
| DeploymentHistory.MergeShowsEachOnce | backend/internal/application/deployment_operations.go:157-178 | an id in both lists shows once and as the store's record; an id in neither does not show |
| DeploymentHistory.RunKeepsHistory | backend/internal/application/service.go:539-589 | a completed operation of an application that was not deleted has its record in the store, because execution writes it before the mark |
| DeploymentHistory.EveryDeploymentIsListedOnce | backend/internal/application/service.go:1685-1706 | in every reachable state each enqueued deployment of a live application appears exactly once in the merged history, as the store's record once there is one, until then with its own application, environment, image tag, status and creation time |
| ManagedRepository.NoLostUpdate | backend/internal/gitops/repository.go:107-148 | over all interleavings with failing commands, background syncs and foreign pushes the remote branch only grows and is the replay of the accepted writes, each on exactly the head before it; success with changes means once on the branch, failure or no change means never, a push whose reply was lost is left open |
| ManagedRepository.OutcomeTellsWhatHappened | backend/internal/gitops/repository.go:107-148 | whatever interleaves, the step that settles a write settles it truly: pushed exactly with the commit that its callback makes of the branch on top of it, unchanged only if the callback left the tree of a head on the branch as it was, failed only after a failing command or a refused lock |
| ManagedRepository.UndisturbedWriteIsPushed | backend/internal/gitops/repository.go:107-148 | from any state and any leftover clone, a write whose commands all succeed with nobody else moving ends pushed with exactly its commit on top, or unchanged with the branch as it was if the callback changes nothing |
| ManagedRepository.WriteCanBePushed | backend/internal/gitops/repository.go:107-148 | and there is such a run whenever its locks are free and the callback accepts the branch's tree |
| ManagedRepository.AcceptedProposal | backend/internal/gitops/repository.go:142-145 | a proposal that an unforced push gets accepted extends the branch by exactly one commit |
| ManagedRepository.CommandKeepsSession | backend/internal/gitops/repository.go:312-362 | after clone, fetch, checkout, reset and clean have succeeded, nothing of an earlier failed write is left when the callback starts |
| ManagedRepository.WorktreeIsExclusive | backend/internal/gitops/repository.go:196-291 | while a thread refreshes the worktree or runs a write callback, no other thread of its process reads and no thread of any process is past the file lock of that directory |
| ManagedRepository.ReadersSeeOneTree | backend/internal/gitops/repository.go:61-78 | a reader whose process has the directory to itself sees one unchanging tree from lock to unlock |
| ManagedRepository.WhoDisturbsReaders | backend/internal/gitops/repository.go:451-514 | in a directory that processes share, the tree under a reader is changed only by a command of another process, which holds the directory's file lock but not the reader's in-process lock |
| ManagedRepository.SingleFlight | backend/internal/gitops/repository.go:196-291 | a process has at most one sync leader and its channel is still open, so it is closed exactly once |
| ManagedRepository.SyncsAreJoined | backend/internal/gitops/repository.go:196-226 | a sync that finds one of its process in flight is dropped in the background and otherwise waits for that one's leader; one that finds none leads a sync on a channel of its own |
| ManagedRepository.WaitersHaveALeader | backend/internal/gitops/repository.go:208-226 | the channel a waiter sleeps on is closed already or has a leader that will close it |
| ManagedRepository.HolderProceeds | backend/internal/gitops/repository.go:451-514 | following the lock order from any waiting thread leads to a thread that can move |
| ManagedRepository.NoDeadlock | backend/internal/gitops/repository.go:451-514 | whenever a call is in progress, some thread can take a step that is not a timeout or a refusal |
| ManagedRepository.RunKeepsAll | backend/internal/gitops/repository.go:96-149 | locks, syncs, critical sections and write results stay consistent over every run |
| ManagedClone.Repository.RefreshWorktree | backend/internal/gitops/repository.go:349-362 | whatever the clone was left with, a successful refresh makes head, index and worktree those of the remote-tracking branch |
| ManagedClone.Repository.SyncLocked | backend/internal/gitops/repository.go:312-337 | an unforced sync of a fresh clone does nothing; any other that succeeds leaves exactly the remote branch in the clone |
| ManagedClone.Repository.WithWrite | backend/internal/gitops/repository.go:96-149 | from any clone at all, a write adds exactly its own commit on top of the head or nothing; if no command fails, a callback that changes the tree is pushed; no change means the callback left the tree alone; only a failed push leaves open which |
| ManagedClone.WriteExtendsFold | backend/internal/gitops/repository.go:96-149 | the branch after a write is a fold of distinct writes again, with this one added |
| ManifestTree.SplitThenBuild | backend/internal/application/service.go:1930-1940 | an application id that splits is rebuilt from its parts |
| ManifestTree.BuildThenSplit | backend/internal/application/service.go:1930-1940 | a built id splits into the same project and name exactly when neither is empty and the project, with an underscore after it, has no double underscore |
| ManifestTree.ClusterNamesAreNormal | backend/internal/application/flux_support.go:19-56 | every cluster that an environment is given to is a name the scaffold leaves as it is, through all fallbacks |
| ManifestTree.BaseIsPartitioned | backend/internal/application/store_local.go:727-758 | every base file is either written or removed for a record, and the base kustomization lists the written ones, each once |
| ManifestStore.LocalManifestStore.WriteApplicationFiles | backend/internal/application/store_local.go:1586-1641 | writes the base files and overlays a record and its environments call for and removes the base files it has switched off |
| ManifestStore.LocalManifestStore.RewriteClusterRoot | backend/internal/fluxscaffold/scaffold.go:52-82 | the cluster's kustomization lists exactly the yaml files of its applications directory |
| ManifestStore.LocalManifestStore.EnsureClusters | backend/internal/fluxscaffold/scaffold.go:26-50 | scaffolds every cluster of the project and rewrites its root |
| ManifestStore.LocalManifestStore.SyncFluxWiring | backend/internal/application/flux_support.go:58-84 | the child sits in the default environment's cluster, is gone from the previous one, and all roots involved are rewritten |
| ManifestStore.WiredInSteps | backend/internal/application/flux_support.go:58-84 | the scaffold, write, rewrite, remove and rewrite steps add up to that end state |
| ManifestStore.LocalManifestStore.RemoveFluxChildren | backend/internal/application/store_local.go:547-577 | the application's child leaves every cluster that has one, and those roots are rewritten |
| ManifestStore.LocalManifestStore.CreateApplication | backend/internal/application/store_local.go:73-158 | conflict if the directory exists, otherwise files, wiring, metadata and the first history entry |
| ManifestStore.LocalManifestStore.UpdateApplicationImage | backend/internal/application/store_local.go:160-199 | a live application gets the tag, its files and wiring are written again, and a history entry under the deployment id is added |
| ManifestStore.LocalManifestStore.PatchApplication | backend/internal/application/store_local.go:397-470 | the given settings change, a new default environment joins the recorded ones, and the child moves with it |
| ManifestStore.LocalManifestStore.SaveApplicationSecretPath | backend/internal/application/store_local.go:472-496 | the trimmed secret path is stored and the files follow it |
| ManifestStore.LocalManifestStore.ArchiveApplication | backend/internal/application/store_local.go:319-361 | children and desired state go, metadata stays marked as archived; a second archive is an error |
| ManifestStore.LocalManifestStore.DeleteApplication | backend/internal/application/store_local.go:363-395 | children and directory go, archived or not |
| ManifestRuns.SavedChildren | backend/internal/application/flux_support.go:58-84 | a save moves the application's own child to its home cluster and touches no other child |
| ManifestRuns.StepKeepsTree | backend/internal/application/store_local.go:73-577 | each store operation keeps the tree consistent, drops no environment and revives no archived application |
| ManifestRuns.RunKeepsTree | backend/internal/application/store_local.go:73-577 | over every run of store operations from a consistent tree, the tree stays consistent |
| ManifestRuns.LiveApplicationIsConsistent | backend/internal/application/store_local.go:727-758 | after any run a live application's kustomization lists exactly the manifests in its base directory, each once and rendered from its record, and its overlays are its recorded environments, the default among them |
| ManifestRuns.EnvironmentsOnlyGrow | backend/internal/application/store_local.go:1559-1575 | until an application is deleted its environments only grow and archived stays archived |
| ManifestRuns.OneFluxChild | backend/internal/application/flux_support.go:58-84 | a live application has exactly one Flux child in the whole tree, in its default environment's cluster, pointing at the overlay named by that environment, which exists |
| ManifestRuns.NoOtherChildren | backend/internal/application/store_local.go:547-577 | no child belongs to an archived or deleted application |
| ManifestRuns.RootsListTheirChildren | backend/internal/fluxscaffold/scaffold.go:52-82 | after any run every cluster's root, also that of a cluster without children, lists exactly the files of its directory |
| ManifestEffects.CreateIsRecorded | backend/internal/application/store_local.go:73-158 | a create stores every setting as requested, in the trimmed environment requested or else the project's first, with the project's environments that are not blank, the manifests these settings call for, and one history entry; an existing directory is a conflict |
| ManifestEffects.PatchIsRecorded | backend/internal/application/store_local.go:397-470 | a patch of a live application stores each setting it names, trimmed where it is text, keeps every other, adds a new default environment to the recorded ones and leaves the manifests of the new settings |
| ManifestEffects.RedeployIsRecorded | backend/internal/application/store_local.go:160-199 | a redeploy of a live application always succeeds, replaces the tag of its image and puts that image and tag into the history under the deployment id, every other entry and setting unchanged |
| ManifestEffects.SecretPathIsRecorded | backend/internal/application/store_local.go:472-496 | the secret path is stored trimmed, everything else is kept |
| ManifestEffects.SavedManifests | backend/internal/application/store_local.go:1586-1641 | whatever the directory held, a save leaves Rollout and CanaryService exactly for the canary strategy and Deployment otherwise, the mesh manifests exactly with the mesh, the secret manifests exactly with their paths, each rendered from the record, and a kustomization that lists them |
| ManifestEffects.LiveManifests | backend/internal/application/store_local.go:727-758 | the same holds of every live application after any run |
| ManifestEffects.SaveScaffolds | backend/internal/application/flux_support.go:58-84 | a save registers every cluster of the project and leaves each with a root that lists its manifests |
| ManifestEffects.UpdatedDeploymentIsRecorded | backend/internal/application/store_local.go:601-620 | a rewritten history entry is the given one and nothing else changes |
| ManifestEffects.ArchiveIsRecorded | backend/internal/application/store_local.go:319-361 | archiving keeps record, environments and history, removes every manifest and leaves no child of the application in any cluster |
| ManifestEffects.DeleteIsRecorded | backend/internal/application/store_local.go:363-395 | deleting removes the directory, live or archived before, and leaves no child |
| ManifestEffects.OthersKeepTheirChildren | backend/internal/application/store_local.go:547-577 | neither touches the child of another application |
| ManifestEffects.RefusalsAreExact | backend/internal/application/store_local.go:160-395 | the operations on an application are refused exactly for an id that does not split, a missing and an archived application, each with its own error; an archived one can only be deleted |
| ManifestEffects.EnvironmentGoesTo | backend/internal/application/flux_support.go:19-56 | an environment goes to the cluster it is mapped to, else to that of the first mapped environment, else to the first allowed target, else to the default cluster |
| ManifestEffects.ProjectScaffolds | backend/internal/application/flux_support.go:19-56 | the clusters of a project are exactly those its environments are mapped to, or without any the one everything goes to |
| ManifestEffects.DirectoryOf | backend/internal/fluxscaffold/scaffold.go:106-112 | a cluster's directory is its trimmed id, or default |
| ManifestEffects.ChildGoesToItsCluster | backend/internal/application/flux_support.go:58-84 | after any run the child of a live application with a mapped environment lies in that cluster under the project's and its own name, with the application's id and overlay |
| ManifestRuns.NewChildHasOverlay | backend/internal/application/flux_support.go:195-201 | a new application's child points at an existing overlay exactly when an environment is requested, or the project has none, or the overlay name made of its first environment is one of its environments |
| ManifestRuns.OddEnvironmentDangles | backend/internal/application/service.go:2442-2453 | a project whose only environment has a blank or padded name gives a child that points nowhere when none is requested |
| ManifestRuns.BlankEnvironmentIsForgotten | backend/internal/application/store_local.go:1559-1575 | an application created in a blank first environment keeps the overlay but loses the environment from its record with the first patch to another one |
| ManifestRuns.ChildNamesCollide | backend/internal/application/flux_support.go:187-193 | two applications share a child file exactly when one's project is the other's with a dash and a part of its name |
| ManifestRuns.SavedLastOwnsChild | backend/internal/application/flux_support.go:104-119 | of two such applications the one saved last owns the child |
| OrphanCleanup.LoadKnownApplicationRecords | backend/internal/application/orphan_cleanup.go:186-228 | fails exactly when an application is archived, otherwise indexes every record that loads by its id |
| OrphanCleanup.CleanupOrphanFluxManifests | backend/internal/application/orphan_cleanup.go:86-163 | an archived application or an unreadable catalog is an error before anything is removed; otherwise exactly the stale children go, are counted, and the touched roots are rewritten |
| OrphanCleanup.CleanupRemovesOnlyStale | backend/internal/application/orphan_cleanup.go:110-147 | on any tree, unmanaged files, children at their expected path and children of applications missing from the catalog stay, everything stale goes |
| OrphanCleanup.CleanupKeeps | backend/internal/application/orphan_cleanup.go:110-147 | a child survives exactly if its file is no yaml, or it names no application, or it names one on record whose project the catalog lacks or whose place by the project's last catalog entry is this very one |
| OrphanCleanup.NoStaleChildIsLeft | backend/internal/application/orphan_cleanup.go:121-139 | afterwards every managed child is at its expected path or belongs to an existing application whose project the catalog lacks |
| OrphanCleanup.TouchedRootsMatch | backend/internal/application/orphan_cleanup.go:150-160 | the root of the directory that a cluster which lost a child normalizes to lists exactly what is left there |
| OrphanCleanup.RootAfterLoss | backend/internal/application/orphan_cleanup.go:150-160 | so a directory whose root was right and that loses a child has a right root afterwards exactly if its name is one that normalizing keeps; otherwise its root is left stale |
| OrphanCleanup.SecondCleanupIsIdle | backend/internal/application/orphan_cleanup.go:86-163 | with distinct ids a second cleanup removes nothing and changes nothing |
| OrphanCleanup.StaleAfterRun | backend/internal/application/orphan_cleanup.go:230-316 | after any run of store operations every child is a live application's, and the cleanup takes it exactly if its id has blanks around it and the trimmed id is either unknown or that of an application whose project the catalog lists |
| OrphanCleanup.RunsLeaveNothingStale | backend/internal/application/orphan_cleanup.go:230-257 | so where ids have no blanks around them the cleanup finds nothing to do after any run, whatever part of the catalog is there |
| OrphanCleanup.PaddedIdLosesChild | backend/internal/application/orphan_cleanup.go:299-316 | one create is a run that reaches the exception: the child of a new live application whose id has blanks around it is removed by the next cleanup |
| OrphanCleanup.PaddedNameIsAccepted | backend/internal/application/service.go:1942-1948 | such a name passes the check of the service, which trims the name it matches and keeps the one it was given |
| CatalogCache.MariaDBApplicationCatalogCache.ListApplications | backend/internal/application/catalog_cache_mariadb.go:47-109 | serves the stored rows exactly if maxAge is positive, the snapshot is no older and the row count is the promised one; the Postgres store does the same |
| CatalogCache.MariaDBApplicationCatalogCache.ReplaceProjectApplications | backend/internal/application/catalog_cache_mariadb.go:111-166 | replaces rows and snapshot together, the rows being the given ones in ascending order of name and id, or changes nothing when an id occurs twice |
| CatalogCache.MariaDBApplicationCatalogCache.InvalidateProject | backend/internal/application/catalog_cache_mariadb.go:168-174 | drops the snapshot and leaves the rows |
| CatalogCache.SortedIsOrdered | backend/internal/application/catalog_cache_mariadb.go:124-136 | no row comes before an earlier one in the order of names with ids breaking ties |
| CatalogCache.SortedIsAscending | backend/internal/application/catalog_cache_mariadb.go:124-136 | of two rows the earlier one has the name that is a prefix of the other or the smaller at the first difference, or the same name and such an id; no row is lost or doubled |
| CatalogCache.ReplaceThenList | backend/internal/application/catalog_cache_mariadb.go:47-166 | read back within its freshness, the list is the one written; later it is a miss |
| CatalogCache.CachedManifestStore.ListApplications | backend/internal/application/catalog_cache.go:27-38 | a usable cached list is served as it is and the tables stay; anything else is the source's list, which the cache holds afterwards if it could be written |
| CatalogCache.CachedManifestStore.GetApplication | backend/internal/application/catalog_cache.go:53-74 | the record of a usable cached list that has the id, and what the source answers if there is none |
| CatalogCache.CachedManifestStore.RefreshProject | backend/internal/application/catalog_cache.go:40-51 | returns the source's list whether or not the cache could be written |
| CatalogCache.CachedManifestStore.Write | backend/internal/application/catalog_cache.go:227-253 | a successful write refreshes the cache; a failed list invalidates, a failed cache write leaves the old list in place |
| CatalogCache.ReadYourWrite | backend/internal/application/catalog_cache.go:227-253 | the read after a write agrees with the source or misses exactly when the refresh arrived, or the list failed and the snapshot could be dropped, or the old list was no longer served or is the same |
| CatalogRuns.RunKeepsInv | backend/internal/application/catalog_cache_mariadb.go:47-166 | snapshots, pending refreshes and half-done reads stay tied to lists the source had, over every interleaving |
| CatalogRuns.BoundedStaleness | backend/internal/application/catalog_cache_mariadb.go:47-109 | whatever refreshers, failures and invalidations run between the two queries, a served list is one whole list of the source, from a moment at most freshness plus refresh gap before the read began |
| CatalogRuns.StalenessIsAttained | backend/internal/application/catalog_cache_mariadb.go:47-166 | the bound is exact: whatever the source lists and changes to, some run serves the old list to a read that begins the whole freshness and gap after it was read |
| ChangeWorkflow.GuardAgreesWithWorkflow | backend/internal/change/service.go:245-258 | the service's guard and the workflow agree on which environments need a pull request, except exactly for a prod environment with another explicit mode in a project that asks for pull requests there |
| ChangeWorkflow.ResolvedIsBlank | backend/internal/application/service.go:2442-2453 | the environment a change or a create is resolved to is blank exactly if none is requested and the first default environment of the catalog has a blank id |
| ChangeWorkflow.ResolvesTo | backend/internal/change/service.go:232-243 | the environment is the trimmed request, else the first default one, else shared |
| ChangeWorkflow.WriteModeIs | backend/internal/change/service.go:245-258 | the write mode is the one the first environment of that id states; where none is stated, a pull request exactly for prod in a project that asks for it |
| ChangeWorkflow.CreateIsAllowed | backend/internal/change/service.go:35-89 | a draft is stored exactly for a deployer or an admin with a known operation that nothing outside refuses; a viewer and a stranger get their errors and nothing changes |
| ChangeWorkflow.SubmitIsAllowed | backend/internal/change/service.go:102-120 | a change is submitted exactly if it is a draft and the caller is a deployer or an admin; a viewer and a stranger get their errors and nothing changes |
| ChangeWorkflow.ApproveIsAllowed | backend/internal/change/service.go:122-146 | a change is approved exactly if it is submitted and the caller is an admin; anybody else gets an error and nothing changes |
| ChangeWorkflow.MergeIsAllowed | backend/internal/change/service.go:148-230 | a change is merged exactly if the caller is a deployer or an admin, it is approved or, unless it is a pull request, submitted, and the calls outside succeed; who may not merge and what is not ready are told apart by their errors |
| ChangeWorkflow.Service.Create | backend/internal/change/service.go:35-89 | role, operation and image checks in order, then a draft with environment and write mode resolved |
| ChangeWorkflow.Service.Submit | backend/internal/change/service.go:102-120 | only a draft is submitted, by a deployer or admin |
| ChangeWorkflow.Service.Approve | backend/internal/change/service.go:122-146 | only a submitted change is approved, by an admin, whose name is kept |
| ChangeWorkflow.Service.Merge | backend/internal/change/service.go:148-230 | a pull request needs approval, any other change submission; a failed operation changes nothing, a failed store update comes after the operation was carried out |
| ChangeWorkflow.RunKeepsState | backend/internal/change/service.go:102-230 | over every run the milestones of a change are exactly those its status stands for, in order and under the right roles |
| ChangeWorkflow.StatusOnlyMovesForward | backend/internal/change/service.go:102-230 | along a run a change's status only moves forward and its mode, request and author never change |
| ChangeWorkflow.MergedChangesWentThrough | backend/internal/change/service.go:148-230 | a merged pull request was created, submitted, approved by an admin and merged, each once, in this order and by deployers or admins only; any other merged change was submitted first |
| ChangeWorkflow.EffectsAreAccounted | backend/internal/change/service.go:174-229 | a change's operation succeeds once for its successful merge, of which there is at most one, and once for each merge whose final store update failed |
| ChangeWorkflow.LostUpdateAppliesTwice | backend/internal/change/service.go:219-229 | a merge whose final update failed leaves the change as it was, so it is let through again and calls the operation a second time |
| ChangeEffects.MergeCarriesOut | backend/internal/change/service.go:174-229 | a merge that goes through has carried its operation out once; one that is refused or whose operation fails has touched nothing |
| ChangeEffects.QueuedRedeployIsEnqueued | backend/internal/application/service.go:497-537 | with a queue, a redeploy adds one untried operation for the application, the tag and the requested environment or else its own, locked per application and environment |
| ChangeEffects.DirectRedeployIsStored | backend/internal/application/service.go:539-589 | without a queue, a redeploy leaves the application with the new tag in the requested environment and the deployment in its history |
| ChangeEffects.PoliciesAreStored | backend/internal/project/service.go:378-397 | new policies are stored for a known project, with at least one replica and the project's environments allowed if none are given |
| ChangeEffects.DeploymentIdIs | backend/internal/application/service.go:508 | a deployment id is the request id with its first req_ turned into dep_ |
| ChangeEffects.RepeatedCreate | backend/internal/application/store_local.go:73-85 | a repeated create of an application that is still there is refused and changes nothing |
| ChangeEffects.RepeatedQueuedRedeploy | backend/internal/application/service.go:445-537 | with a queue, a repeated redeploy of one change adds no second operation, in whatever later state of the queue |
| ChangeEffects.RepeatedUpdate | backend/internal/application/store_local.go:397-470 | a repeated update of a live application of a consistent tree leaves the tree as it is |
| ChangeEffects.RepeatedDirectRedeploy | backend/internal/application/service.go:539-589 | without a queue a repeated redeploy, with a move to another environment or without one, leaves the tree as it is exactly if the tag reads back as a tag, and otherwise appends the tag once more |
| ChangeEffects.RepeatedPolicies | backend/internal/project/service.go:378-397 | setting the same policies again changes nothing |
| ChangeEffects.RepeatedMerge | backend/internal/change/service.go:148-229 | a merge that lost its final update, done again: a create is refused, so the change can never be merged; any other operation is merged, and has no second effect exactly unless it is a redeploy without a queue with a tag that does not read back |
| RepositorySync.AutoUpdatePoller.ReconcileRepositoryState | backend/internal/application/poller.go:488-523 | patches exactly the settings that differ, the image by its repository, and continues with the stored application if anything changed |
| RepositorySync.AutoUpdatePoller.SyncRepositoryNow | backend/internal/application/poller.go:211-327 | one sync: a desired state is chosen, settings are patched, a new tag is deployed, and each failure stops where the code stops |
| RepositorySync.SyncFollowsDescriptor | backend/internal/application/poller.go:211-327 | a sync with a usable descriptor that nothing refuses stores port, replicas and service id of the chosen service, reports settings exactly if some differed, and deploys exactly if the tag of the service's image is a new one |
| RepositorySync.UnusableSourceFails | backend/internal/application/poller.go:255-261 | a source that cannot be read, a descriptor with an invalid service or none, and one without the application's service fail the sync and leave the application alone |
| RepositorySync.RefusalFails | backend/internal/application/poller.go:275-281 | a refused patch or a record that cannot be read back fails the sync; a refused patch leaves the application alone |
| RepositorySync.ChoosesByIdThenName | backend/internal/application/poller.go:624-640 | the service is the first with the application's service id, or its name if it has none, else the only one there is |
| RepositorySync.ResolvesSameService | backend/internal/application/poller.go:624-640 | storing the chosen service's id chooses the same service again, blanks and the single-service fallback included |
| RepositorySync.OneSyncSettles | backend/internal/application/poller.go:211-327 | for every valid descriptor: after one successful sync the same service is resolved, and a second sync patches and deploys nothing exactly if, where the repository was the application's already, the descriptor does not name a repository with a slash untagged while the application carries a tag of it, and otherwise trimming the image keeps its repository |
| RepositorySync.TaggedImageSettles | backend/internal/application/poller.go:211-327 | so one sync settles every trimmed and tagged image |
| RepositorySync.UntaggedDescriptorNeedsTwo | backend/internal/application/poller.go:283-284 | that exception occurs for every such repository and tag: the whole reference is deployed as a tag |
| RepositorySync.TwoSyncsSettle | backend/internal/application/poller.go:211-327 | two successful syncs settle every trimmed image |
| RepositorySync.PaddedImageNeverSettles | backend/internal/application/poller.go:506-510 | a descriptor image with blanks around its repository is compared padded and stored trimmed, so every sync patches again or fails |
| RepositorySync.TagFileSettles | backend/internal/application/poller.go:556-570 | with a file that only holds a tag, one successful sync settles exactly when the tag has no slash or colon before a digest sign |
| ImageReference.ReplaceTagAlgebra | backend/internal/application/store_local.go:1454-1467 | for every image and every tag without slash, colon and at sign: the tag reads back, the repository stays, a second replacement forgets the first |
| ImageReference.ReplaceOwnTag | backend/internal/application/store_local.go:1651-1663 | replacing an image's tag by its own gives it back, without digest, exactly when it is tagged |
| ImageReference.ParseAfterReplace | backend/internal/application/image_verifier.go:277-331 | parsing after a tag replacement keeps registry, ports included, and repository, and yields the tag |
| ImageReference.CanonicalParses | backend/internal/application/image_verifier.go:277-331 | the default registry, library prefix and tag are filled in once: a parsed image written out in full parses to the same parts |
| ImageReference.ParsesWithRegistry | backend/internal/application/image_verifier.go:277-331 | a first part with a dot or a port, or localhost, is the registry and the rest the repository, put into the library if it is one part of Docker Hub |
| ImageReference.ParsesWithoutRegistry | backend/internal/application/image_verifier.go:277-331 | any other name lies in Docker Hub, in the library if it has one part |
| ImageReference.ParsesUntagged | backend/internal/application/image_verifier.go:277-331 | without tag and digest the identifier is latest |
| ImageReference.ParsesDigest | backend/internal/application/image_verifier.go:277-331 | what follows the last at sign is the identifier |
| ImageReference.ParseFailsExactly | backend/internal/application/image_verifier.go:277-331 | a reference is refused exactly if it is blank, its digest or tag is empty, or it names a registry without a path |
| BatchMetrics.MergeMetricValues | backend/internal/application/metrics_prometheus.go:410-422 | adds sample maps pointwise |
| BatchMetrics.MergeGroups | backend/internal/application/metrics_prometheus.go:383-402 | after one grouped query every application without earlier values has the total of the groups it owns, in whatever order the groups come |
| BatchMetrics.QueryMetricPointsMany | backend/internal/application/metrics_prometheus.go:355-408 | the queries in turn until every application has values; one failure fails the batch |
| BatchMetrics.BatchFailsExactly | backend/internal/application/metrics_prometheus.go:355-408 | the batch fails exactly if a query fails before every application has values |
| BatchMetrics.FirstMatchOwnsPod | backend/internal/application/metrics_prometheus.go:424-431 | a pod goes to the first application in the list whose name it matches |
| BatchMetrics.PodShape | backend/internal/application/metrics_prometheus.go:433-436 | a pod belongs to a name exactly if it is the name, a dash and one or two words of lower-case letters and digits joined by a dash |
| BatchMetrics.AmbiguousPods | backend/internal/application/metrics_prometheus.go:433-436 | two different names can claim one pod exactly when one is the other with a dash and one more segment |
| BatchMetrics.BatchRefinesSingleReads | backend/internal/application/metrics_prometheus.go:355-431 | when ids and names are distinct and no name extends another, the batch gives each application what reading it alone gives: its samples in the first query that has any |
| BatchMetrics.PodSamplesAreConserved | backend/internal/application/metrics_prometheus.go:424-431 | at every timestamp the values a pod query hands out add up to those of all matching pods, none counted twice, ambiguous or not |
| BatchMetrics.OneAppLosesPod | backend/internal/application/metrics_prometheus.go:424-431 | of two applications in any list that a pod fits, one gets less from the batch than from its own read |
| BatchMetrics.BatchAgreesExactly | backend/internal/application/metrics_prometheus.go:355-431 | for every list of distinct applications, all queries give each application the same in the batch as alone exactly if no name extends another by one segment |
| PollTracker.RepositoryPollTracker.MarkAttempt | backend/internal/application/poll_tracker.go:62-80 | records check time, next time and pending result of an application with a source, and nothing for another |
| PollTracker.RepositoryPollTracker.MarkSuccess | backend/internal/application/poll_tracker.go:82-101 | the same with success and its time |
| PollTracker.RepositoryPollTracker.MarkFailure | backend/internal/application/poll_tracker.go:103-123 | the same with the error, the last success kept |
| PollTracker.RepositoryPollTracker.Reschedule | backend/internal/application/poll_tracker.go:125-142 | moves the next time shown and keeps the last check |
| PollTracker.RepositoryPollTracker.Due | backend/internal/application/poll_tracker.go:144-159 | due an interval after the last check, or after the start if there is none |
| PollTracker.RepositoryPollTracker.Snapshot | backend/internal/application/poll_tracker.go:161-188 | shows the stored status with its gaps filled, or a pending first check an interval after the start, and nothing without a source |
| PollTracker.IntervalIs | backend/internal/application/poll_tracker.go:220-237 | one, five or ten minutes as the application asks, else the tracker's interval, else five minutes; an application has a source if it names a repository |
| PollTracker.MarksRecord | backend/internal/application/poll_tracker.go:62-123 | each mark records when the check began, when the next is due, how it went and where it looked, and nothing else; only a success moves the time of the last success |
| PollTracker.RescheduleMovesNext | backend/internal/application/poll_tracker.go:125-142 | a reschedule moves the next time and keeps what is known of the checks |
| PollTracker.DueIs | backend/internal/application/poll_tracker.go:144-159 | an application is due exactly if it has a source and an interval has passed since its last check, or since the start if there was none |
| PollTracker.ShownIs | backend/internal/application/poll_tracker.go:161-188 | the stored status is shown with only missing interval and source filled in, and before the first check a pending one an interval after the start |
| PollTracker.RunKeepsWorld | backend/internal/application/poll_tracker.go:62-188 | over every run the tracker remembers the latest check and what the shown time was computed from |
| PollTracker.PollerChecksArePaced | backend/internal/application/poller.go:162-181 | every check the poller starts begins at least the interval it found after the application's previous check, manual or automatic, when checks of one application do not overlap |
| PollTracker.DueByShownTime | backend/internal/application/poll_tracker.go:125-188 | in every state of a run an application falls due no later than the time shown, exactly if every check of it, the poller's or a manual one, began and ended with a record whose interval was no shorter than the one stored at that step |
| PollTracker.PatchDuringCheck | backend/internal/application/poller.go:218-226 | a longer interval saved while a check runs breaks it: the end of the check shows the time its own older record gives |

## Left out

- HTTP handlers, authentication, Kubernetes and Prometheus clients, registry calls, configuration, logging and the frontend: their answers are parameters where a modelled step depends on them.
- Text of YAML, SQL and JSON: contents are structured, each SQL transaction is one step, names compare by characters although the database collation may not.
- Clocks of different hosts: one clock is assumed, so lease exclusion says nothing about hosts whose clocks differ; worker ids are assumed distinct.
- Integer width and float rounding: counts, times and metric values are mathematical integers.
- Go's defaults in EnqueueDeploymentOperation beyond those a caller of the queue can meet, and the queue's read methods.
- OperationRuns.ProcessOnce: the execution in the middle is the outcome it ends with; what it writes is part of the runs, not of this method.
- ManagedRepository.ReadersSeeOneTree: assumes that no other process works in the reader's directory, since the in-process lock does not reach other processes; WhoDisturbsReaders says what can happen in a shared directory.
- ManagedRepository.UndisturbedWriteIsPushed: nobody else moves while the write holds its locks; with others moving, NoLostUpdate and OutcomeTellsWhatHappened say what becomes of it.
- ManagedRepository.NoDeadlock: says that some thread can move, not that every thread eventually does.
- ManagedClone.Repository.WithWrite: nobody else pushes meanwhile; a push refused because somebody did is a failed command here and a step of its own in ManagedRepository.
- EnsureFile, redaction of command lines and the time to live of a sync: a fresh clone is a choice of the environment.
- Git objects and files ignored by `clean -fd`: a clone is its branch, its remote-tracking branch, index and worktree.
- Applications without metadata: the fallback that reads a record from its manifests is not modelled, so such directories count as not found.
- Events and rollback policies of an application, and writing an event for a deleted application, which recreates its directory.
- Failures in the middle of a store operation: the repository discards what they leave (see ManagedClone).
- Order of environment lists: they are sets here; names that contain path separators.
- ManifestStore.LocalManifestStore.PatchApplication: of the settings that can be patched only image, deployment strategy, mesh and environment, since the others only fill in manifests.
- ManifestRuns.RunKeepsTree: environment-to-cluster mappings are fixed during a run, child file names of the applications are distinct, and a create without a requested environment meets a project without environments or with a first one that is not blank and is listed trimmed; ChildNamesCollide, OddEnvironmentDangles and BlankEnvironmentIsForgotten show why, ResolvedIsBlank when the service requests none.
- OrphanCleanup.SecondCleanupIsIdle: record ids are distinct, since of two records with one id either may be indexed.
- Registry credentials, secrets, network profile and policy checks of the service, reduced to whether they refuse.
- RepositorySync.OneSyncSettles: without a deployment queue, where a deployment takes effect before the sync returns.
- Automatic rollback and its metric thresholds.
- BatchMetrics.BatchRefinesSingleReads: a single read is the batch query restricted to one application; the two error-rate query texts differ, the grouped one yielding zero where the other yields nothing. Names are matched literally, as for slugs.
- Merging of primary and fallback metric readers and the conversion of samples to points.
- PollTracker.PollerChecksArePaced: an application keeps its repository source, and its checks do not overlap, from the moment the poller finds it due.
- Change ids are given; deriving them from request ids, summaries and diff previews are not modelled.
- ChangeEffects.RepeatedMerge: the backend is as the first merge left it, and the refusals by role, policy and image checks are left out; so are events, a configured lock key, the policies with other defaults, and an operation that reports an error after it has taken effect.
- ChangeWorkflow.MergedChangesWentThrough: calls follow one another and ids are fresh; concurrent merges of one change are not covered.
- CatalogRuns.BoundedStaleness: assumes that a refresher commits within the gap after its list.
- Cluster catalog defaults, resource quantities, efficiency counters and authority mapping are not modelled.
