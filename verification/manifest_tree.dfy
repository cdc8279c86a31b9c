/** The manifest repository as a tree of structured files, and what each store operation makes of it
    (store_local.go, store_support.go, flux_support.go, fluxscaffold/scaffold.go). */
module ManifestTree {
  import opened Text
  import opened ImageReference

  // ---------------------------------------------------------------- application ids

  /** An application's directory: apps/<project>/<name>. */
  datatype Key = Key(project: string, name: string)

  function BuildApplicationId(k: Key): string {
    k.project + "__" + k.name
  }

  /** strings.Index(s, "__"); -1 when there is none. */
  function SeparatorAt(s: string): (k: int)
    ensures -1 <= k && (k >= 0 ==> k + 2 <= |s| && s[k] == s[k + 1] == '_')
    ensures forall j :: 0 <= j < |s| - 1 && s[j] == s[j + 1] == '_' ==> 0 <= k <= j
  {
    if |s| < 2 then -1
    else if s[0] == s[1] == '_' then 0
    else
      var k := SeparatorAt(s[1..]);
      if k < 0 then -1 else k + 1
  }

  function SplitApplicationId(id: string): Option<Key> {
    var k := SeparatorAt(id);
    if k < 0 || k == 0 || k + 2 == |id| then None else Some(Key(id[..k], id[k + 2..]))
  }

  lemma SplitThenBuild(id: string)
    requires SplitApplicationId(id).Some?
    ensures BuildApplicationId(SplitApplicationId(id).value) == id
  {
    var k := SeparatorAt(id);
    assert id == id[..k] + "__" + id[k + 2..];
  }

  /** An id leads back to its application exactly when neither part is empty and the project has no double underscore,
      not even one that its last character forms with the separator. */
  lemma BuildThenSplit(k: Key)
    ensures SplitApplicationId(BuildApplicationId(k)) == Some(k)
            <==> k.project != "" && k.name != "" && SeparatorAt(k.project + "_") < 0
  {
    var id, padded := BuildApplicationId(k), k.project + "_";
    var n := |k.project|;
    assert id[n] == id[n + 1] == '_';
    assert id[..n] == k.project && id[n + 2..] == k.name;
    var j := SeparatorAt(padded);
    if j < 0 {
      SeparatorBefore(k, SeparatorAt(id));
      assert SeparatorAt(id) == n;
    } else {
      assert id[j] == padded[j] && id[j + 1] == padded[j + 1];
      assert 0 <= SeparatorAt(id) < n;
    }
  }

  /** A separator that starts within the project is one that the project has with one underscore added. */
  lemma SeparatorBefore(k: Key, j: nat)
    requires j + 1 < |BuildApplicationId(k)| && BuildApplicationId(k)[j] == BuildApplicationId(k)[j + 1] == '_'
    ensures j < |k.project| ==> SeparatorAt(k.project + "_") >= 0
  {
    if j < |k.project| {
      var id, padded := BuildApplicationId(k), k.project + "_";
      assert padded[j] == id[j] && padded[j + 1] == id[j + 1];
    }
  }

  // ---------------------------------------------------------------- projects and clusters

  datatype Project = Project(
    id: string, environments: seq<string>, clusters: map<string, string>, allowedClusterTargets: seq<string>)

  function NormalizeClusterId(cluster: string): string {
    if TrimSpace(cluster) == "" then "default" else TrimSpace(cluster)
  }

  /** The cluster a project maps an environment to; "" if there is none. */
  function MappedCluster(p: Project, environment: string): string {
    if environment in p.clusters then TrimSpace(p.clusters[environment]) else ""
  }

  function FirstMappedCluster(p: Project, environments: seq<string>): string {
    if environments == [] then ""
    else if MappedCluster(p, environments[0]) != "" then MappedCluster(p, environments[0])
    else FirstMappedCluster(p, environments[1..])
  }

  function FirstTarget(targets: seq<string>): string {
    if targets == [] then ""
    else if TrimSpace(targets[0]) != "" then TrimSpace(targets[0])
    else FirstTarget(targets[1..])
  }

  /** clusterIDForEnvironment. */
  function ClusterFor(p: Project, environment: string): string {
    if MappedCluster(p, TrimSpace(environment)) != "" then MappedCluster(p, TrimSpace(environment))
    else if FirstMappedCluster(p, p.environments) != "" then FirstMappedCluster(p, p.environments)
    else if FirstTarget(p.allowedClusterTargets) != "" then FirstTarget(p.allowedClusterTargets)
    else "default"
  }

  /** clusterIDs. */
  function ClusterIds(p: Project): set<string> {
    var mapped := set e | e in p.environments && MappedCluster(p, e) != "" :: MappedCluster(p, e);
    if mapped == {} then {ClusterFor(p, "")} else mapped
  }

  predicate IsClusterName(c: string) {
    c != "" && IsTrimmed(c)
  }

  lemma {:induction false} FirstMappedIsName(p: Project, environments: seq<string>)
    ensures FirstMappedCluster(p, environments) == "" || IsClusterName(FirstMappedCluster(p, environments))
  {
    if environments != [] {
      MappedIsName(p, environments[0]);
      FirstMappedIsName(p, environments[1..]);
    }
  }

  lemma MappedIsName(p: Project, environment: string)
    ensures MappedCluster(p, environment) == "" || IsClusterName(MappedCluster(p, environment))
  {
    if environment in p.clusters {
      var _, _ := TrimSpaceCuts(p.clusters[environment]);
    }
  }

  lemma {:induction false} FirstTargetIsName(targets: seq<string>)
    ensures FirstTarget(targets) == "" || IsClusterName(FirstTarget(targets))
  {
    if targets != [] {
      var _, _ := TrimSpaceCuts(targets[0]);
      FirstTargetIsName(targets[1..]);
    }
  }

  /** Every cluster an environment is given to is a directory name that the scaffold leaves as it is. */
  lemma ClusterNamesAreNormal(p: Project, environment: string)
    ensures NormalizeClusterId(ClusterFor(p, environment)) == ClusterFor(p, environment)
    ensures forall c :: c in ClusterIds(p) ==> NormalizeClusterId(c) == c
  {
    NameOfCluster(p, environment);
    NameOfCluster(p, "");
    TrimSpaceFixed(ClusterFor(p, environment));
    forall c | c in ClusterIds(p) ensures NormalizeClusterId(c) == c {
      if c != ClusterFor(p, "") {
        var e :| e in p.environments && MappedCluster(p, e) == c;
        MappedIsName(p, e);
      }
      TrimSpaceFixed(c);
    }
  }

  lemma NameOfCluster(p: Project, environment: string)
    ensures IsClusterName(ClusterFor(p, environment))
  {
    MappedIsName(p, TrimSpace(environment));
    FirstMappedIsName(p, p.environments);
    FirstTargetIsName(p.allowedClusterTargets);
  }

  // ---------------------------------------------------------------- files

  /** What the store keeps of an application; the settings that only fill in manifests are not part of this model. */
  datatype Record = Record(
    id: string, project: string, name: string, image: string, canary: bool, meshEnabled: bool,
    defaultEnvironment: string, secretPath: string, registrySecretPath: string)

  /** The files of an application's base directory. */
  datatype BaseFile =
    | Kustomization | Deployment | Rollout | Service | ServiceMonitor | PrometheusRule
    | VirtualService | DestinationRule | CanaryService | ExternalSecret | RegistryExternalSecret

  datatype BaseContent = Resources(files: seq<BaseFile>) | Manifest(record: Record)

  datatype OverlayPath = OverlayPath(app: Key, environment: string)
  datatype ChildPath = ChildPath(cluster: string, file: string)

  /** .aods/metadata.yaml. */
  datatype Metadata = Metadata(record: Record, environments: set<string>, archived: bool)

  datatype DeploymentEntry = DeploymentEntry(applicationId: string, environment: string, image: string, imageTag: string, status: string)

  /** A Flux Kustomization: the application its annotation names ("" in a file the store does not manage) and the
      overlay it points at. */
  datatype Child = Child(applicationId: string, environment: string, overlay: OverlayPath)

  /** apps/<project>/<name>; an overlay is the environment it renders. */
  datatype AppDir = AppDir(
    base: map<BaseFile, BaseContent>, overlays: map<string, string>, metadata: Option<Metadata>,
    history: map<string, DeploymentEntry>)

  /** platform/flux/clusters/<id>: the applications directory, and the files the cluster's kustomization lists. */
  datatype ClusterDir = ClusterDir(children: map<string, Child>, root: Option<set<string>>)

  datatype Tree = Tree(apps: map<Key, AppDir>, clusters: map<string, ClusterDir>, bootstrap: set<string>)

  const EMPTY_APP := AppDir(map[], map[], None, map[])
  const EMPTY_CLUSTER := ClusterDir(map[], None)

  function KeyOf(r: Record): Key {
    Key(r.project, r.name)
  }

  function AppAt(t: Tree, k: Key): AppDir {
    if k in t.apps then t.apps[k] else EMPTY_APP
  }

  function ClusterAt(t: Tree, c: string): ClusterDir {
    if c in t.clusters then t.clusters[c] else EMPTY_CLUSTER
  }

  // ---------------------------------------------------------------- one application's files

  function WorkloadFile(r: Record): BaseFile {
    if r.canary then Rollout else Deployment
  }

  /** renderBaseKustomization. */
  function BaseResources(r: Record): seq<BaseFile> {
    [WorkloadFile(r), Service, ServiceMonitor, PrometheusRule]
    + (if r.meshEnabled then [VirtualService, DestinationRule] else [])
    + (if r.canary then [CanaryService] else [])
    + (if r.secretPath != "" then [ExternalSecret] else [])
    + (if r.registrySecretPath != "" then [RegistryExternalSecret] else [])
  }

  /** The base files that writeApplicationFiles writes. */
  function WrittenFiles(r: Record): set<BaseFile> {
    {Kustomization, WorkloadFile(r), Service, ServiceMonitor, PrometheusRule}
    + (if r.meshEnabled then {VirtualService, DestinationRule} else {})
    + (if r.canary then {CanaryService} else {})
    + (if r.secretPath != "" then {ExternalSecret} else {})
    + (if r.registrySecretPath != "" then {RegistryExternalSecret} else {})
  }

  /** The base files that it removes afterwards. */
  function RemovedFiles(r: Record): set<BaseFile> {
    (if r.canary then {Deployment} else {Rollout, CanaryService})
    + (if r.meshEnabled then {} else {VirtualService, DestinationRule})
    + (if r.secretPath != "" then {} else {ExternalSecret})
    + (if r.registrySecretPath != "" then {} else {RegistryExternalSecret})
  }

  function ContentOf(r: Record, file: BaseFile): BaseContent {
    if file == Kustomization then Resources(BaseResources(r)) else Manifest(r)
  }

  lemma FileIsPartitioned(r: Record, f: BaseFile)
    ensures f in WrittenFiles(r) <==> f !in RemovedFiles(r)
  {
  }

  lemma InConcat(a: seq<BaseFile>, b: seq<BaseFile>, f: BaseFile)
    ensures f in a + b <==> f in a || f in b
  {
  }

  lemma FileIsListed(r: Record, f: BaseFile)
    ensures f in BaseResources(r) <==> f in WrittenFiles(r) && f != Kustomization
  {
    var always := [WorkloadFile(r), Service, ServiceMonitor, PrometheusRule];
    var mesh := if r.meshEnabled then [VirtualService, DestinationRule] else [];
    var canary := if r.canary then [CanaryService] else [];
    var secret := if r.secretPath != "" then [ExternalSecret] else [];
    var registry := if r.registrySecretPath != "" then [RegistryExternalSecret] else [];
    assert BaseResources(r) == always + mesh + canary + secret + registry;
    hide BaseResources;
    InConcat(always, mesh, f);
    InConcat(always + mesh, canary, f);
    InConcat(always + mesh + canary, secret, f);
    InConcat(always + mesh + canary + secret, registry, f);
  }

  /** Every base file is either written or removed, and the kustomization lists the written ones, each once. */
  lemma BaseIsPartitioned(r: Record)
    ensures forall f :: f in WrittenFiles(r) <==> f !in RemovedFiles(r)
    ensures forall f :: f in BaseResources(r) <==> f in WrittenFiles(r) && f != Kustomization
    ensures forall i, j :: 0 <= i < j < |BaseResources(r)| ==> BaseResources(r)[i] != BaseResources(r)[j]
  {
    forall f ensures f in WrittenFiles(r) <==> f !in RemovedFiles(r) { FileIsPartitioned(r, f); }
    forall f ensures f in BaseResources(r) <==> f in WrittenFiles(r) && f != Kustomization { FileIsListed(r, f); }
  }

  /** normalizedEnvironments, as a set. */
  function NormalizedEnvironments(environments: set<string>, default: string): set<string> {
    (set e | e in environments && !IsBlank(e)) + {default}
  }

  /** recordEnvironments. */
  function RecordedEnvironments(t: Tree, r: Record): set<string> {
    var m := AppAt(t, KeyOf(r)).metadata;
    if m.None? || m.value.environments == {} then {r.defaultEnvironment}
    else NormalizedEnvironments(m.value.environments, r.defaultEnvironment)
  }

  /** An application's directory after writeApplicationFiles. */
  function WithFiles(d: AppDir, r: Record, environments: set<string>): AppDir {
    d.(base := d.base - RemovedFiles(r) + map f | f in WrittenFiles(r) :: ContentOf(r, f),
       overlays := d.overlays + map e | e in NormalizedEnvironments(environments, r.defaultEnvironment) :: e)
  }

  // ---------------------------------------------------------------- Flux wiring

  function ChildFile(r: Record): string {
    r.project + "-" + r.name + ".yaml"
  }

  /** The overlay name that fluxOverlayPath makes of a default environment. */
  function FluxEnvironment(environment: string): string {
    if TrimSpace(environment) == "" then "shared" else TrimSpace(environment)
  }

  /** fluxOverlayPath. */
  function FluxOverlay(r: Record): OverlayPath {
    OverlayPath(KeyOf(r), FluxEnvironment(r.defaultEnvironment))
  }

  function ChildFor(r: Record): Child {
    Child(r.id, r.defaultEnvironment, FluxOverlay(r))
  }

  predicate IsYaml(file: string) {
    |file| >= 5 && file[|file| - 5..] == ".yaml"
  }

  /** What a scan of the applications directory finds. */
  function YamlFiles(children: map<string, Child>): set<string> {
    set f | f in children && IsYaml(f)
  }

  /** The directory after RewriteClusterRoot. */
  function Rooted(d: ClusterDir): ClusterDir {
    d.(root := Some(YamlFiles(d.children)))
  }

  /** The clusters whose roots syncFluxWiring rewrites. */
  function WiredClusters(p: Project, r: Record, previousEnvironment: string): set<string> {
    ClusterIds(p) + {ClusterFor(p, r.defaultEnvironment), ClusterFor(p, previousEnvironment)}
  }

  /** A cluster after syncFluxWiring: the application's child sits in its default environment's cluster and not in the
      previous one's. */
  function WiredCluster(d: ClusterDir, c: string, r: Record, p: Project, previousEnvironment: string): ClusterDir {
    if c == ClusterFor(p, r.defaultEnvironment) then Rooted(d.(children := d.children[ChildFile(r) := ChildFor(r)]))
    else if c == ClusterFor(p, previousEnvironment) then Rooted(d.(children := d.children - {ChildFile(r)}))
    else if c in ClusterIds(p) then Rooted(d)
    else d
  }

  function Wired(t: Tree, r: Record, p: Project, previousEnvironment: string): Tree {
    t.(clusters := map c | c in t.clusters.Keys + WiredClusters(p, r, previousEnvironment) ::
                     WiredCluster(ClusterAt(t, c), c, r, p, previousEnvironment),
       bootstrap := t.bootstrap + ClusterIds(p))
  }

  /** A cluster after removeFluxChildren; the scan skips directory names the scaffold could not have made. */
  function UnwiredCluster(d: ClusterDir, c: string, r: Record): ClusterDir {
    if ChildFile(r) in d.children && NormalizeClusterId(c) == c then Rooted(d.(children := d.children - {ChildFile(r)})) else d
  }

  function Unwired(t: Tree, r: Record): Tree {
    t.(clusters := map c | c in t.clusters :: UnwiredCluster(t.clusters[c], c, r))
  }

  // ---------------------------------------------------------------- the store operations

  datatype CreateRequest = CreateRequest(
    name: string, environment: string, image: string, canary: bool, meshEnabled: bool, registrySecretPath: string)

  datatype UpdateRequest = UpdateRequest(
    image: Option<string>, canary: Option<bool>, meshEnabled: Option<bool>, environment: Option<string>)

  datatype Failure = InvalidId | NotFound | Archived | AlreadyArchived | Conflict
  datatype Result = Done(tree: Tree) | Error(failure: Failure)
  datatype LoadResult = Loaded(record: Record) | LoadError(failure: Failure)

  /** loadRecord, for applications that have metadata. */
  function LoadRecord(t: Tree, k: Key): LoadResult {
    match AppAt(t, k).metadata
    case None => LoadError(NotFound)
    case Some(m) =>
      if m.archived then LoadError(Archived)
      else Loaded(if m.record.defaultEnvironment == "" then m.record.(defaultEnvironment := "shared") else m.record)
  }

  function GetApplication(t: Tree, id: string): LoadResult {
    match SplitApplicationId(id)
    case None => LoadError(InvalidId)
    case Some(k) => LoadRecord(t, k)
  }

  /** The common end of create, patch, redeploy and secret-path: files, wiring, metadata. */
  function Saved(t: Tree, r: Record, environments: set<string>, p: Project, previousEnvironment: string): Tree {
    var k := KeyOf(r);
    var d := WithFiles(AppAt(t, k), r, environments).(metadata := Some(Metadata(r, environments, false)));
    Wired(t, r, p, previousEnvironment).(apps := t.apps[k := d])
  }

  function EntryFor(r: Record, status: string): DeploymentEntry {
    DeploymentEntry(r.id, r.defaultEnvironment, r.image, ExtractImageTag(r.image), status)
  }

  function WithEntry(t: Tree, k: Key, deploymentId: string, entry: DeploymentEntry): Tree {
    var d := AppAt(t, k);
    t.(apps := t.apps[k := d.(history := d.history[deploymentId := entry])])
  }

  function CreatedRecord(p: Project, input: CreateRequest, secretPath: string): Record {
    var requested := TrimSpace(input.environment);
    var environment := if requested != "" then requested else if p.environments != [] then p.environments[0] else "shared";
    Record(BuildApplicationId(Key(p.id, input.name)), p.id, input.name, input.image, input.canary, input.meshEnabled,
           environment, secretPath, input.registrySecretPath)
  }

  function ProjectEnvironments(p: Project): set<string> {
    set e | e in p.environments
  }

  function Created(t: Tree, p: Project, input: CreateRequest, secretPath: string, initialId: string): Result {
    var r := CreatedRecord(p, input, secretPath);
    if KeyOf(r) in t.apps then Error(Conflict)
    else
      var environments := NormalizedEnvironments(ProjectEnvironments(p), r.defaultEnvironment);
      Done(WithEntry(Saved(t, r, environments, p, ""), KeyOf(r), initialId, EntryFor(r, "Created")))
  }

  function ImageUpdated(t: Tree, p: Project, id: string, tag: string, deploymentId: string): Result {
    match GetApplication(t, id)
    case LoadError(f) => Error(f)
    case Loaded(record) =>
      var r := record.(image := ReplaceImageTag(record.image, tag));
      var saved := Saved(t, r, RecordedEnvironments(t, r), p, r.defaultEnvironment);
      Done(WithEntry(saved, KeyOf(r), deploymentId, EntryFor(r, "Syncing")))
  }

  function PatchedRecord(r: Record, input: UpdateRequest): Record {
    r.(image := if input.image.Some? then TrimSpace(input.image.value) else r.image,
       canary := if input.canary.Some? then input.canary.value else r.canary,
       meshEnabled := if input.meshEnabled.Some? then input.meshEnabled.value else r.meshEnabled,
       defaultEnvironment := if input.environment.Some? && TrimSpace(input.environment.value) != ""
                             then TrimSpace(input.environment.value) else r.defaultEnvironment)
  }

  function Patched(t: Tree, p: Project, id: string, input: UpdateRequest): Result {
    match GetApplication(t, id)
    case LoadError(f) => Error(f)
    case Loaded(record) =>
      var r := PatchedRecord(record, input);
      Done(Saved(t, r, RecordedEnvironments(t, r), p, record.defaultEnvironment))
  }

  function SecretPathSaved(t: Tree, p: Project, id: string, secretPath: string): Result {
    match GetApplication(t, id)
    case LoadError(f) => Error(f)
    case Loaded(record) =>
      var r := record.(secretPath := TrimSpace(secretPath));
      Done(Saved(t, r, RecordedEnvironments(t, r), p, record.defaultEnvironment))
  }

  /** stripApplicationDesiredState: everything but .aods goes. */
  function Stripped(d: AppDir): AppDir {
    d.(base := map[], overlays := map[])
  }

  /** loadLifecycleMetadata for an application that has metadata. */
  function LifecycleMetadata(m: Metadata): Metadata {
    if m.environments == {} then m.(environments := {m.record.defaultEnvironment}) else m
  }

  function ArchivedTree(t: Tree, id: string): Result {
    match SplitApplicationId(id)
    case None => Error(InvalidId)
    case Some(k) =>
      match AppAt(t, k).metadata
      case None => Error(NotFound)
      case Some(m) =>
        if m.archived then Error(AlreadyArchived)
        else
          var d := Stripped(AppAt(t, k)).(metadata := Some(LifecycleMetadata(m).(archived := true)));
          Done(Unwired(t, m.record).(apps := t.apps[k := d]))
  }

  function Deleted(t: Tree, id: string): Result {
    match SplitApplicationId(id)
    case None => Error(InvalidId)
    case Some(k) =>
      match AppAt(t, k).metadata
      case None => Error(NotFound)
      case Some(m) => Done(Unwired(t, m.record).(apps := t.apps - {k}))
  }

  /** UpdateDeployment: rewrites one history entry. */
  function DeploymentUpdated(t: Tree, id: string, deploymentId: string, entry: DeploymentEntry): Result {
    match SplitApplicationId(id)
    case None => Error(InvalidId)
    case Some(k) => Done(WithEntry(t, k, deploymentId, entry))
  }
}
