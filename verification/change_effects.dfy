/** What a merge's operation does to the applications, the deployment queue and the policies (the calls of
    change/service.go into application/service.go and project/service.go), and what a repeated merge does. */
module ChangeEffects {
  import opened Text
  import opened ManifestTree
  import opened ManifestRuns
  import ManifestEffects
  import ManifestStore
  import OperationStore
  import ImageReference
  import RepositorySync
  import W = ChangeWorkflow

  /** The other policies are kept as they come. */
  datatype PolicySet = PolicySet(minReplicas: int, allowedEnvironments: seq<string>, others: string)

  /** Without a queue a redeploy is carried out at once. */
  datatype Backend = Backend(tree: Tree, db: OperationStore.Db, hasQueue: bool, policies: map<string, PolicySet>)

  /** The operation of one change, with what its request and its project say. */
  datatype Call =
    | Create(project: Project, input: CreateRequest, secretPath: string, initialId: string)
    | Update(project: Project, id: string, patch: UpdateRequest)
    | Redeploy(project: Project, id: string, tag: string, environment: string, maxAttempts: int)
    | SetPolicies(projectId: string, environments: seq<string>, policies: PolicySet)

  /** strings.Replace(requestId, "req_", "dep_", 1). */
  function DeploymentId(requestId: string): string {
    if |requestId| < 4 then requestId
    else if requestId[..4] == "req_" then "dep_" + requestId[4..]
    else [requestId[0]] + DeploymentId(requestId[1..])
  }

  /** applyPolicyDefaults. */
  function WithDefaults(policies: PolicySet, environments: seq<string>): PolicySet {
    policies.(minReplicas := if policies.minReplicas <= 0 then 1 else policies.minReplicas,
              allowedEnvironments := if policies.allowedEnvironments == [] then environments else policies.allowedEnvironments)
  }

  /** The environment to deploy in: the requested one, or the application's own. */
  function TargetEnvironment(r: Record, requested: string): string {
    if TrimSpace(requested) != "" then TrimSpace(requested) else r.defaultEnvironment
  }

  /** prepareDeploymentOperation for a change, whose id is the request id. */
  function SubmissionFor(r: Record, call: Call, changeId: string, now: OperationStore.Time): OperationStore.Submission
    requires call.Redeploy?
  {
    var environment := TargetEnvironment(r, call.environment);
    OperationStore.Submission(DeploymentId(changeId), r.id, environment, call.tag, changeId, "application:" + r.id + ":" + environment,
                              Some(OperationStore.Queued), if call.maxAttempts <= 0 then 5 else call.maxAttempts, Some(now), Some(now))
  }

  /** executeDeploymentOperation: a move to another environment first, then the image. */
  function Executed(t: Tree, p: Project, id: string, tag: string, requested: string, deploymentId: string): Result {
    match GetApplication(t, id)
    case LoadError(f) => Error(f)
    case Loaded(r) =>
      var environment := TargetEnvironment(r, requested);
      if environment == r.defaultEnvironment then ImageUpdated(t, p, id, tag, deploymentId)
      else
        match Patched(t, p, id, UpdateRequest(None, None, None, Some(environment)))
        case Error(f) => Error(f)
        case Done(moved) => ImageUpdated(moved, p, id, tag, deploymentId)
  }

  /** Carries the operation out; false is an error, after which nothing has changed. */
  function CarriedOut(b: Backend, call: Call, changeId: string, now: OperationStore.Time): (Backend, bool) {
    match call
    case Create(p, input, secretPath, initialId) => AfterStore(b, Created(b.tree, p, input, secretPath, initialId))
    case Update(p, id, patch) => AfterStore(b, Patched(b.tree, p, id, patch))
    case Redeploy(p, id, tag, environment, _) =>
      var loaded := GetApplication(b.tree, id);
      if loaded.LoadError? || TrimSpace(tag) == "" then (b, false)
      else if b.hasQueue then (b.(db := OperationStore.Enqueued(b.db, SubmissionFor(loaded.record, call, changeId, now), now)), true)
      else AfterStore(b, Executed(b.tree, p, id, tag, environment, DeploymentId(changeId)))
    case SetPolicies(project, environments, policies) =>
      if project !in b.policies then (b, false)
      else (b.(policies := b.policies[project := WithDefaults(policies, environments)]), true)
  }

  function AfterStore(b: Backend, result: Result): (Backend, bool) {
    match result
    case Done(t) => (b.(tree := t), true)
    case Error(_) => (b, false)
  }

  /** The call that belongs to an operation. */
  predicate IsCallOf(call: Call, operation: W.Operation) {
    match operation
    case CreateApplication => call.Create?
    case UpdateApplication => call.Update?
    case Redeploy => call.Redeploy?
    case UpdatePolicies => call.SetPolicies?
    case Unsupported(_) => false
  }

  /** The merge gets as far as carrying the operation out. */
  predicate ReachesOperation(s: W.State, caller: W.Caller, id: string) {
    && id in s.records && caller.role.Some? && W.CanDeploy(caller.role.value)
    && W.MergeRefusal(s.records[id]).None? && W.IsSupported(s.records[id].request.operation)
    && (s.records[id].request.operation.UpdatePolicies? ==> s.records[id].request.hasPolicies)
  }

  datatype MergeResult = MergeResult(state: W.State, backend: Backend, error: Option<W.Error>)

  /** A merge with its operation: refused merges carry nothing out. */
  function Merge(s: W.State, b: Backend, caller: W.Caller, id: string, call: Call, storeSucceeds: bool, now: OperationStore.Time): MergeResult {
    if !ReachesOperation(s, caller, id) then
      var (s', error) := W.MergedChange(s, caller, id, W.Outcomes(true, true, storeSucceeds));
      MergeResult(s', b, error)
    else
      var (b', ok) := CarriedOut(b, call, id, now);
      var (s', error) := W.MergedChange(s, caller, id, W.Outcomes(true, ok, storeSucceeds));
      MergeResult(s', b', error)
  }

  // ---------------------------------------------------------------- what each operation does once

  predicate IsMarkAt(id: string, k: nat) {
    k + 4 <= |id| && id[k..k + 4] == "req_"
  }

  lemma MarkInTail(id: string, k: nat)
    requires id != ""
    ensures IsMarkAt(id[1..], k) <==> IsMarkAt(id, k + 1)
  {
    if k + 5 <= |id| { assert id[1..][k..k + 4] == id[k + 1..k + 5]; }
  }

  /** A deployment carries the id of its request with the first "req_" turned into "dep_". */
  lemma {:induction false} DeploymentIdIs(id: string, k: nat)
    ensures IsMarkAt(id, k) && (forall j: nat :: j < k ==> !IsMarkAt(id, j)) ==> DeploymentId(id) == id[..k] + "dep_" + id[k + 4..]
    ensures (forall j: nat :: !IsMarkAt(id, j)) ==> DeploymentId(id) == id
  {
    hide IsMarkAt, DeploymentId;
    MarkAtStart(id);
    if id != "" {
      forall j: nat ensures IsMarkAt(id[1..], j) <==> IsMarkAt(id, j + 1) { MarkInTail(id, j); }
      DeploymentIdIs(id[1..], if k > 0 then k - 1 else 0);
      if k > 0 && k + 4 <= |id| { TailOfMarked(id, k); }
      assert id == [id[0]] + id[1..];
    }
  }

  lemma MarkAtStart(id: string)
    ensures IsMarkAt(id, 0) ==> |id| >= 4 && id[..4] == "req_" && id[..0] == "" && DeploymentId(id) == "dep_" + id[4..]
    ensures id != "" && !IsMarkAt(id, 0) ==> DeploymentId(id) == if |id| < 4 then id else [id[0]] + DeploymentId(id[1..])
    ensures forall k: nat :: IsMarkAt(id, k) ==> k + 4 <= |id|
    ensures id == "" ==> DeploymentId(id) == id
  {
  }

  lemma TailOfMarked(id: string, k: nat)
    requires 0 < k && k + 4 <= |id|
    ensures [id[0]] + (id[1..][..k - 1] + "dep_" + id[1..][k + 3..]) == id[..k] + "dep_" + id[k + 4..]
  {
    assert [id[0]] + id[1..][..k - 1] == id[..k];
    assert id[1..][k + 3..] == id[k + 4..];
  }

  /** With a queue, a redeploy of a new change adds one untried operation: for the application, the tag and the requested
      environment, or else the application's own, locked per application and environment. */
  lemma QueuedRedeployIsEnqueued(b: Backend, call: Call, changeId: string, now: OperationStore.Time)
    requires call.Redeploy? && b.hasQueue && GetApplication(b.tree, call.id).Loaded? && !IsBlank(call.tag)
    requires DeploymentId(changeId) !in b.db.rows && forall id :: id in b.db.rows ==> b.db.rows[id].requestId != changeId
    ensures CarriedOut(b, call, changeId, now).1
    ensures var r, b', id := GetApplication(b.tree, call.id).record, CarriedOut(b, call, changeId, now).0, DeploymentId(changeId);
            var environment := if IsBlank(call.environment) then r.defaultEnvironment else TrimSpace(call.environment);
            && id in b'.db.rows && b' == b.(db := b.db.(rows := b.db.rows[id := b'.db.rows[id]]))
            && var row := b'.db.rows[id];
               && row.id == id && row.requestId == changeId && row.applicationId == r.id && row.environment == environment
               && row.imageTag == call.tag && row.lockKey == "application:" + r.id + ":" + environment
               && row.status == OperationStore.Queued && row.attemptCount == 0 && row.nextAttemptAt == row.createdAt == now
               && row.maxAttempts == if call.maxAttempts > 0 then call.maxAttempts else 5
  {
    TrimSpaceBlank(call.tag);
    TrimSpaceBlank(call.environment);
    hide TrimSpace, IsBlank, GetApplication, DeploymentId;
  }

  /** Without a queue, a redeploy is carried out at once: the application carries the new tag, lives in the requested
      environment, and has the deployment in its history. */
  lemma DirectRedeployIsStored(s: Setting, b: Backend, call: Call, changeId: string, now: OperationStore.Time) returns (k: Key)
    requires IsSetting(s) && TreeOk(s, b.tree) && call.Redeploy? && !b.hasQueue && CarriedOut(b, call, changeId, now).1
    requires ProjectOf(s, call.id) == Some(call.project)
    ensures IsLive(b.tree, k) && SplitApplicationId(call.id) == Some(k)
    ensures var t' := CarriedOut(b, call, changeId, now).0.tree;
            var before := MetadataAt(b.tree, k);
            var environment := if IsBlank(call.environment) then before.record.defaultEnvironment else TrimSpace(call.environment);
            var image := ImageReference.ReplaceImageTag(before.record.image, call.tag);
            var entry := DeploymentEntry(before.record.id, environment, image, ImageReference.ExtractImageTag(image), "Syncing");
            && IsLive(t', k)
            && MetadataAt(t', k) == Metadata(before.record.(image := image, defaultEnvironment := environment),
                                             before.environments + {environment}, false)
            && t'.apps[k].history == b.tree.apps[k].history[DeploymentId(changeId) := entry]
  {
    hide TreeOk, IsSetting, Patched, ImageUpdated, SplitApplicationId, TrimSpace, IsBlank, DeploymentId, ManifestEffects.IsPatched;
    hide ImageReference.ReplaceImageTag, ImageReference.ExtractImageTag, ManifestEffects.HasManifestsOf;
    TrimSpaceBlank(call.environment);
    k := LiveById(s, b.tree, call.id);
    var record := MetadataAt(b.tree, k).record;
    var environment := TargetEnvironment(record, call.environment);
    if environment == record.defaultEnvironment {
      var _ := ManifestEffects.RedeployIsRecorded(s, b.tree, call.project, call.id, call.tag, DeploymentId(changeId));
      DefaultIsAmong(s, b.tree, k);
    } else {
      var patch := UpdateRequest(None, None, None, Some(environment));
      var _ := ManifestEffects.PatchIsRecorded(s, b.tree, call.project, call.id, patch);
      var moved := Patched(b.tree, call.project, call.id, patch).tree;
      TargetIsTrimmed(record, call.environment);
      OnlyEnvironmentMoves(record, MetadataAt(moved, k).record, environment);
      StepKeepsTree(s, b.tree, Patch(call.id, patch));
      var _ := ManifestEffects.RedeployIsRecorded(s, moved, call.project, call.id, call.tag, DeploymentId(changeId));
    }
  }

  lemma DefaultIsAmong(s: Setting, t: Tree, k: Key)
    requires TreeOk(s, t) && IsLive(t, k)
    ensures MetadataAt(t, k).environments + {MetadataAt(t, k).record.defaultEnvironment} == MetadataAt(t, k).environments
  {
    assert AppOk(s, t, k);
    hide FilesOk;
  }

  lemma OnlyEnvironmentMoves(r: Record, r': Record, environment: string)
    requires ManifestEffects.IsPatched(r, r', UpdateRequest(None, None, None, Some(environment)))
    requires TrimSpace(environment) == environment != ""
    ensures r' == r.(defaultEnvironment := environment)
  {
    TrimSpaceBlank(environment);
    hide TrimSpace, IsBlank;
  }

  /** New policies are stored for the project, with at least one replica and some environment allowed. */
  lemma PoliciesAreStored(b: Backend, call: Call, changeId: string, now: OperationStore.Time)
    requires call.SetPolicies?
    ensures var (b', ok) := CarriedOut(b, call, changeId, now);
            && (ok <==> call.projectId in b.policies) && (!ok ==> b' == b)
            && (ok ==>
                  && call.projectId in b'.policies && b' == b.(policies := b.policies[call.projectId := b'.policies[call.projectId]])
                  && var stored := b'.policies[call.projectId];
                     && stored.others == call.policies.others
                     && stored.minReplicas == (if call.policies.minReplicas > 0 then call.policies.minReplicas else 1)
                     && (call.policies.allowedEnvironments != [] ==> stored.allowedEnvironments == call.policies.allowedEnvironments)
                     && (call.policies.allowedEnvironments == [] ==> stored.allowedEnvironments == call.environments))
  {
  }

  /** A merge that goes through has carried its operation out, and one that is refused or whose operation fails has not
      touched anything. */
  lemma MergeCarriesOut(s: W.State, b: Backend, caller: W.Caller, id: string, call: Call, storeSucceeds: bool, now: OperationStore.Time)
    ensures var result := Merge(s, b, caller, id, call, storeSucceeds, now);
            && (result.error == None ==> CarriedOut(b, call, id, now).1 && result.backend == CarriedOut(b, call, id, now).0)
            && (result.error != None && result.error != Some(W.StoreFailed) ==> result.state == s)
            && (result.error != None && result.error != Some(W.StoreFailed) && result.error != Some(W.OperationFailed) ==>
                  result.backend == b)
            && (result.error == Some(W.StoreFailed) ==> result.state.records == s.records && result.backend == CarriedOut(b, call, id, now).0)
            && (result.error == Some(W.OperationFailed) ==> !CarriedOut(b, call, id, now).1 && result.backend == b)
  {
    hide Created, Patched, Executed, GetApplication, SubmissionFor, WithDefaults;
  }

  // ---------------------------------------------------------------- saving again changes nothing

  lemma FilesAgain(d: AppDir, r: Record, environments: set<string>)
    ensures WithFiles(WithFiles(d, r, environments), r, environments) == WithFiles(d, r, environments)
  {
    BaseIsPartitioned(r);
    hide WrittenFiles, RemovedFiles, ContentOf, NormalizedEnvironments;
    var once := WithFiles(d, r, environments);
    assert WithFiles(once, r, environments).base == once.base;
    assert WithFiles(once, r, environments).overlays == once.overlays;
  }

  lemma WiredAgain(t: Tree, r: Record, p: Project, previous: string)
    ensures Wired(Wired(t, r, p, previous), r, p, r.defaultEnvironment) == Wired(t, r, p, previous)
  {
    hide ClusterFor, ClusterIds, ChildFile, ChildFor, YamlFiles;
    var once := Wired(t, r, p, previous);
    var twice := Wired(once, r, p, r.defaultEnvironment);
    assert twice.bootstrap == once.bootstrap;
    assert twice.clusters.Keys == once.clusters.Keys;
    forall c | c in once.clusters ensures twice.clusters[c] == once.clusters[c] {
      assert once.clusters[c] == WiredCluster(ClusterAt(t, c), c, r, p, previous);
      assert once.clusters[c].children[ChildFile(r) := ChildFor(r)] == once.clusters[c].children || c != ClusterFor(p, r.defaultEnvironment);
    }
    assert twice.clusters == once.clusters;
  }

  /** Saving the saved record once more, with whatever history was added since. */
  lemma SavedAgain(t: Tree, r: Record, environments: set<string>, p: Project, previous: string, history: map<string, DeploymentEntry>)
    ensures var once := Saved(t, r, environments, p, previous);
            var t' := once.(apps := once.apps[KeyOf(r) := once.apps[KeyOf(r)].(history := history)]);
            Saved(t', r, environments, p, r.defaultEnvironment) == t'
  {
    hide WithFiles, Wired;
    FilesAgain(AppAt(t, KeyOf(r)), r, environments);
    WiredAgain(t, r, p, previous);
    FilesKeepRest(AppAt(t, KeyOf(r)), r, environments, Some(Metadata(r, environments, false)), history);
    var once := Saved(t, r, environments, p, previous);
    var t' := once.(apps := once.apps[KeyOf(r) := once.apps[KeyOf(r)].(history := history)]);
    ManifestStore.WiringIgnoresApps(once, t', r, p, r.defaultEnvironment);
    ManifestStore.WiringIgnoresApps(Wired(t, r, p, previous), once, r, p, r.defaultEnvironment);
    assert t'.apps[KeyOf(r) := t'.apps[KeyOf(r)]] == t'.apps;
  }

  lemma FilesKeepRest(d: AppDir, r: Record, environments: set<string>, m: Option<Metadata>, history: map<string, DeploymentEntry>)
    ensures var files := WithFiles(d, r, environments).(metadata := m, history := history);
            WithFiles(files, r, environments).(metadata := m) == WithFiles(WithFiles(d, r, environments), r, environments).(metadata := m, history := history)
  {
    hide WrittenFiles, RemovedFiles, ContentOf, NormalizedEnvironments;
  }

  /** A tag replaced twice is the tag replaced once exactly if it reads back as a tag. */
  lemma TagTwice(image: string, tag: string)
    ensures ImageReference.ReplaceImageTag(ImageReference.ReplaceImageTag(image, tag), tag) == ImageReference.ReplaceImageTag(image, tag)
            <==> ImageReference.IsPlainTag(ImageReference.WithoutDigest(tag))
  {
    hide ImageReference.ReplaceImageTag, ImageReference.ExtractImageTag, ImageReference.ImageRepositoryRef,
         ImageReference.WithoutDigest, ImageReference.IsTagged, ImageReference.IsPlainTag;
    var once := ImageReference.ReplaceImageTag(image, tag);
    var a, b := ImageReference.ImageRepositoryRef(image), ImageReference.ImageRepositoryRef(once);
    RepositorySync.DesiredByTag(image, tag);
    ImageReference.ImageShape(image);
    ImageReference.ImageShape(once);
    assert once == a + ":" + tag && ImageReference.ReplaceImageTag(once, tag) == b + ":" + tag;
    SameTail(a, b, ":" + tag);
    assert a + ":" + tag == a + (":" + tag) && b + ":" + tag == b + (":" + tag);
  }

  lemma SameTail(a: string, b: string, tail: string)
    ensures a + tail == b + tail <==> a == b
  {
    if a + tail == b + tail {
      assert |a + tail| == |a| + |tail| && |b + tail| == |b| + |tail|;
      assert a == (a + tail)[..|a|] == b;
    }
  }

  // ---------------------------------------------------------------- each operation a second time

  /** An application that is there cannot be created, so a repeated create is refused for as long as it stays. */
  lemma RepeatedCreate(b: Backend, call: Call, changeId: string, now: OperationStore.Time, later: Backend, again: OperationStore.Time)
    requires call.Create? && CarriedOut(b, call, changeId, now).1
    requires forall k :: k in CarriedOut(b, call, changeId, now).0.tree.apps && k !in b.tree.apps ==> k in later.tree.apps
    ensures CarriedOut(later, call, changeId, again) == (later, false)
  {
    var r := CreatedRecord(call.project, call.input, call.secretPath);
    hide Wired, WithFiles, NormalizedEnvironments, CreatedRecord, EntryFor;
    assert KeyOf(r) in CarriedOut(b, call, changeId, now).0.tree.apps;
  }

  /** The queue knows the operation by the change's id, so a repeated redeploy adds nothing, then or at any later state of
      the queue, whose rows never disappear. */
  lemma RepeatedQueuedRedeploy(b: Backend, call: Call, changeId: string, now: OperationStore.Time, later: Backend, again: OperationStore.Time)
    requires call.Redeploy? && b.hasQueue && CarriedOut(b, call, changeId, now).1
    requires later.hasQueue && CarriedOut(b, call, changeId, now).0.db.rows.Keys <= later.db.rows.Keys
    requires forall id :: id in CarriedOut(b, call, changeId, now).0.db.rows ==>
               later.db.rows[id].requestId == CarriedOut(b, call, changeId, now).0.db.rows[id].requestId
    ensures CarriedOut(later, call, changeId, again).0 == later
    ensures GetApplication(later.tree, call.id).Loaded? ==> CarriedOut(later, call, changeId, again).1
  {
    hide TrimSpace, GetApplication, DeploymentId;
    var s := SubmissionFor(GetApplication(b.tree, call.id).record, call, changeId, now);
    var after := CarriedOut(b, call, changeId, now).0.db;
    if s.id !in after.rows {
      var id :| id in b.db.rows && b.db.rows[id].requestId == changeId;
      assert later.db.rows[id].requestId == changeId;
    }
  }

  /** What is recorded stays recorded: a saved record loads as it is, and the saved environments are read back. */
  lemma SavedLoads(t: Tree, k: Key, r: Record, environments: set<string>)
    requires k in t.apps && t.apps[k].metadata == Some(Metadata(r, environments, false))
    requires KeyOf(r) == k && r.defaultEnvironment != ""
    requires environments != {} && NormalizedEnvironments(environments, r.defaultEnvironment) == environments
    ensures LoadRecord(t, k) == Loaded(r) && RecordedEnvironments(t, r) == environments
  {
    hide NormalizedEnvironments;
  }

  lemma RecordedAgain(t: Tree, r: Record)
    ensures var environments := RecordedEnvironments(t, r);
            environments != {} && NormalizedEnvironments(environments, r.defaultEnvironment) == environments
  {
    hide IsBlank;
    assert r.defaultEnvironment in RecordedEnvironments(t, r);
  }

  /** The default environment of a live application, patched or not, is never empty. */
  lemma DefaultIsKnown(s: Setting, t: Tree, k: Key, patch: UpdateRequest)
    requires TreeOk(s, t) && IsLive(t, k)
    ensures PatchedRecord(MetadataAt(t, k).record, patch).defaultEnvironment != ""
  {
    hide FilesOk, TrimSpace, FluxEnvironment;
    assert AppOk(s, t, k);
    TrimSpaceBlank(MetadataAt(t, k).record.defaultEnvironment);
  }

  /** The tree after a save that is done again. */
  lemma SavedTree(t: Tree, k: Key, r: Record, p: Project, previous: string, history: map<string, DeploymentEntry>) returns (t': Tree)
    requires KeyOf(r) == k && r.defaultEnvironment != ""
    ensures var once := Saved(t, r, RecordedEnvironments(t, r), p, previous);
            k in once.apps && t' == once.(apps := once.apps[k := once.apps[k].(history := history)])
    ensures LoadRecord(t', k) == Loaded(r)
    ensures Saved(t', r, RecordedEnvironments(t', r), p, r.defaultEnvironment) == t'
  {
    hide Saved, RecordedEnvironments, NormalizedEnvironments;
    var environments := RecordedEnvironments(t, r);
    RecordedAgain(t, r);
    SavedRecord(t, r, environments, p, previous);
    var once := Saved(t, r, environments, p, previous);
    t' := once.(apps := once.apps[k := once.apps[k].(history := history)]);
    SavedAgain(t, r, environments, p, previous, history);
    SavedLoads(t', k, r, environments);
  }

  /** A repeated update finds its settings in place. */
  lemma RepeatedUpdate(s: Setting, b: Backend, call: Call, changeId: string, now: OperationStore.Time, again: OperationStore.Time)
    requires TreeOk(s, b.tree) && call.Update? && CarriedOut(b, call, changeId, now).1
    ensures var once := CarriedOut(b, call, changeId, now).0;
            CarriedOut(once, call, changeId, again) == (once, true)
  {
    hide TreeOk, Saved, RecordedEnvironments, TrimSpace, SplitApplicationId;
    var k := LiveById(s, b.tree, call.id);
    var record := MetadataAt(b.tree, k).record;
    var r := PatchedRecord(record, call.patch);
    DefaultIsKnown(s, b.tree, k, call.patch);
    var once := Saved(b.tree, r, RecordedEnvironments(b.tree, r), call.project, record.defaultEnvironment);
    SavedRecord(b.tree, r, RecordedEnvironments(b.tree, r), call.project, record.defaultEnvironment);
    var t' := SavedTree(b.tree, k, r, call.project, record.defaultEnvironment, once.apps[k].history);
    assert t' == once by {
      assert once.apps[k := once.apps[k].(history := once.apps[k].history)] == once.apps;
    }
    assert PatchedRecord(r, call.patch) == r;
  }

  /** Without a queue, the second of two redeploys changes nothing exactly if the tag reads back as a tag; otherwise it
      appends the tag once more. */
  lemma RepeatedDirectRedeploy(s: Setting, b: Backend, call: Call, changeId: string, now: OperationStore.Time, again: OperationStore.Time)
    requires TreeOk(s, b.tree) && call.Redeploy? && !b.hasQueue && CarriedOut(b, call, changeId, now).1
    ensures var once := CarriedOut(b, call, changeId, now).0;
            var twice := CarriedOut(once, call, changeId, again);
            twice.1 && (twice.0 == once <==> ImageReference.IsPlainTag(ImageReference.WithoutDigest(call.tag)))
  {
    hide TreeOk, Saved, RecordedEnvironments, TrimSpace, SplitApplicationId, EntryFor;
    hide ImageReference.ReplaceImageTag, ImageReference.IsPlainTag, ImageReference.WithoutDigest;
    var k := LiveById(s, b.tree, call.id);
    var record := MetadataAt(b.tree, k).record;
    var environment := TargetEnvironment(record, call.environment);
    var patch := UpdateRequest(None, None, None, Some(environment));
    DefaultIsKnown(s, b.tree, k, UpdateRequest(None, None, None, None));
    if environment == record.defaultEnvironment {
      ImageTwice(b.tree, call, k, record, DeploymentId(changeId));
    } else {
      var r := PatchedRecord(record, patch);
      DefaultIsKnown(s, b.tree, k, patch);
      TargetIsTrimmed(record, call.environment);
      SavedRecord(b.tree, r, RecordedEnvironments(b.tree, r), call.project, record.defaultEnvironment);
      var moved := Saved(b.tree, r, RecordedEnvironments(b.tree, r), call.project, record.defaultEnvironment);
      ImageTwice(moved, call, k, r, DeploymentId(changeId));
    }
  }

  lemma TargetIsTrimmed(r: Record, requested: string)
    requires TargetEnvironment(r, requested) != r.defaultEnvironment
    ensures TargetEnvironment(r, requested) == TrimSpace(requested) == TrimSpace(TrimSpace(requested)) != ""
  {
    var _, _ := TrimSpaceCuts(requested);
    TrimSpaceFixed(TrimSpace(requested));
    hide TrimSpace;
  }

  /** Two redeploys of an application that is already in its target environment. */
  lemma ImageTwice(t: Tree, call: Call, k: Key, r: Record, deploymentId: string)
    requires call.Redeploy? && SplitApplicationId(call.id) == Some(k) && LoadRecord(t, k) == Loaded(r) && KeyOf(r) == k
    requires r.defaultEnvironment != "" && TargetEnvironment(r, call.environment) == r.defaultEnvironment
    ensures ImageUpdated(t, call.project, call.id, call.tag, deploymentId).Done?
    ensures var once := ImageUpdated(t, call.project, call.id, call.tag, deploymentId).tree;
            && GetApplication(once, call.id).Loaded?
            && TargetEnvironment(GetApplication(once, call.id).record, call.environment) == GetApplication(once, call.id).record.defaultEnvironment
            && var twice := ImageUpdated(once, call.project, call.id, call.tag, deploymentId);
            && twice.Done?
            && (twice.tree == once <==> ImageReference.IsPlainTag(ImageReference.WithoutDigest(call.tag)))
  {
    hide Saved, RecordedEnvironments, TrimSpace, SplitApplicationId, EntryFor;
    hide ImageReference.ReplaceImageTag, ImageReference.IsPlainTag, ImageReference.WithoutDigest;
    var next := r.(image := ImageReference.ReplaceImageTag(r.image, call.tag));
    TagTwice(r.image, call.tag);
    SavedRecord(t, next, RecordedEnvironments(t, next), call.project, r.defaultEnvironment);
    var entry := EntryFor(next, "Syncing");
    var saved := Saved(t, next, RecordedEnvironments(t, next), call.project, r.defaultEnvironment);
    var once := SavedTree(t, k, next, call.project, r.defaultEnvironment, saved.apps[k].history[deploymentId := entry]);
    assert once == ImageUpdated(t, call.project, call.id, call.tag, deploymentId).tree;
    var last := next.(image := ImageReference.ReplaceImageTag(next.image, call.tag));
    if last == next {
      assert once.apps[k].history[deploymentId := entry] == once.apps[k].history;
      assert once.apps[k := once.apps[k].(history := once.apps[k].history)] == once.apps;
    } else {
      SavedRecord(once, last, RecordedEnvironments(once, last), call.project, last.defaultEnvironment);
    }
  }

  /** Setting the same policies again changes nothing. */
  lemma RepeatedPolicies(b: Backend, call: Call, changeId: string, now: OperationStore.Time, again: OperationStore.Time)
    requires call.SetPolicies? && CarriedOut(b, call, changeId, now).1
    ensures var once := CarriedOut(b, call, changeId, now).0;
            CarriedOut(once, call, changeId, again) == (once, true)
  {
    var once := CarriedOut(b, call, changeId, now).0;
    assert once.policies[call.projectId := once.policies[call.projectId]] == once.policies;
  }

  // ---------------------------------------------------------------- a merge whose store update failed

  /** The repeated operation leaves things as the first one did. */
  predicate IsIdempotent(b: Backend, call: Call) {
    match call
    case Create(_, _, _, _) => false
    case Redeploy(_, _, tag, _, _) => b.hasQueue || ImageReference.IsPlainTag(ImageReference.WithoutDigest(tag))
    case _ => true
  }

  /** A merge that carried its operation out but could not be stored leaves the change as it was, so it may be merged again.
      A create is then refused, and the change stays unmerged. Any other operation is called again and the change is merged;
      the second call changes nothing exactly if the operation is idempotent, a queued redeploy included. */
  lemma RepeatedMerge(st: Setting, s: W.State, b: Backend, caller: W.Caller, id: string, call: Call,
                      now: OperationStore.Time, again: OperationStore.Time)
    requires TreeOk(st, b.tree) && ReachesOperation(s, caller, id) && IsCallOf(call, s.records[id].request.operation)
    requires s.records[id].id == id && CarriedOut(b, call, id, now).1
    ensures var first := Merge(s, b, caller, id, call, false, now);
            var second := Merge(first.state, first.backend, caller, id, call, true, again);
            && first.error == Some(W.StoreFailed) && first.state.records == s.records
            && first.backend == CarriedOut(b, call, id, now).0
            && if call.Create? then second == MergeResult(first.state, first.backend, Some(W.OperationFailed))
               else
                 && second.error == None && second.state.records[id].status == W.Merged
                 && (second.backend == first.backend <==> IsIdempotent(b, call))
  {
    var once := CarriedOut(b, call, id, now).0;
    match call
    case Create(_, _, _, _) => RepeatedCreate(b, call, id, now, once, again);
    case Update(_, _, _) => RepeatedUpdate(st, b, call, id, now, again);
    case SetPolicies(_, _, _) => RepeatedPolicies(b, call, id, now, again);
    case Redeploy(_, _, _, _, _) =>
      if b.hasQueue {
        RepeatedQueuedRedeploy(b, call, id, now, once, again);
      } else {
        RepeatedDirectRedeploy(st, b, call, id, now, again);
      }
    hide CarriedOut, TreeOk, W.MergeRefusal, ImageReference.IsPlainTag, ImageReference.WithoutDigest;
  }
}
