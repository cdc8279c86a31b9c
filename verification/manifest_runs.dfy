/** Reference integrity of the manifest tree over every run of store operations. */
module ManifestRuns {
  import opened Text
  import opened ManifestTree
  import ImageReference

  datatype Event =
    | Create(project: string, input: CreateRequest, secretPath: string, initialId: string)
    | UpdateImage(id: string, tag: string, deploymentId: string)
    | Patch(id: string, patch: UpdateRequest)
    | SaveSecretPath(id: string, path: string)
    | Archive(id: string)
    | Delete(id: string)
    | UpdateDeployment(id: string, deploymentId: string, entry: DeploymentEntry)

  /** What stays fixed in a run: the projects with their clusters, and the applications it may create. */
  datatype Setting = Setting(projects: map<string, Project>, apps: set<Key>)

  function ChildFileOf(k: Key): string {
    k.project + "-" + k.name + ".yaml"
  }

  /** An environment that is recorded, with the one its overlay path names. */
  predicate IsAnchored(environment: string, environments: set<string>) {
    !IsBlank(environment) && environment in environments && FluxEnvironment(environment) in environments
  }

  /** No two applications share a child file. */
  ghost predicate IsSetting(s: Setting) {
    && (forall i :: i in s.projects ==> s.projects[i].id == i)
    && (forall a, b :: a in s.apps && b in s.apps && ChildFileOf(a) == ChildFileOf(b) ==> a == b)
  }

  /** The environment to create an application in is requested, as the service always does unless the catalog marks a blank
      environment as default, or the project's first one is not blank and is listed trimmed, too. */
  predicate IsUsableRequest(p: Project, environment: string) {
    !IsBlank(environment) || p.environments == [] || (!IsBlank(p.environments[0]) && TrimSpace(p.environments[0]) in p.environments)
  }

  predicate IsEnabled(s: Setting, t: Tree, e: Event) {
    match e
    case Create(project, input, _, _) =>
      project in s.projects && Key(project, input.name) in s.apps && IsUsableRequest(s.projects[project], input.environment)
    // A history entry is rewritten only for an application that exists.
    case UpdateDeployment(id, _, _) => SplitApplicationId(id).Some? ==> SplitApplicationId(id).value in t.apps
    case _ => true
  }

  /** The project an application id names, as the service looks it up before it calls the store. */
  function ProjectOf(s: Setting, id: string): Option<Project> {
    match SplitApplicationId(id)
    case None => None
    case Some(k) => if k.project in s.projects then Some(s.projects[k.project]) else None
  }

  function OrUnchanged(t: Tree, result: Result): Tree {
    match result
    case Done(t') => t'
    case Error(_) => t
  }

  function Next(s: Setting, t: Tree, e: Event): Tree
    requires IsEnabled(s, t, e)
  {
    match e
    case Create(project, input, path, initial) => OrUnchanged(t, Created(t, s.projects[project], input, path, initial))
    case UpdateImage(id, tag, deployment) =>
      var p := ProjectOf(s, id);
      if p.None? then t else OrUnchanged(t, ImageUpdated(t, p.value, id, tag, deployment))
    case Patch(id, patch) =>
      var p := ProjectOf(s, id);
      if p.None? then t else OrUnchanged(t, Patched(t, p.value, id, patch))
    case SaveSecretPath(id, path) =>
      var p := ProjectOf(s, id);
      if p.None? then t else OrUnchanged(t, SecretPathSaved(t, p.value, id, path))
    case Archive(id) => OrUnchanged(t, ArchivedTree(t, id))
    case Delete(id) => OrUnchanged(t, Deleted(t, id))
    case UpdateDeployment(id, deployment, entry) => OrUnchanged(t, DeploymentUpdated(t, id, deployment, entry))
  }

  const EMPTY := Tree(map[], map[], {})

  predicate IsRun(s: Setting, t: Tree, es: seq<Event>)
    decreases |es|
  {
    |es| > 0 ==> IsEnabled(s, t, es[0]) && IsRun(s, Next(s, t, es[0]), es[1..])
  }

  function Final(s: Setting, t: Tree, es: seq<Event>): Tree
    requires IsRun(s, t, es)
    decreases |es|
  {
    if |es| == 0 then t else Final(s, Next(s, t, es[0]), es[1..])
  }

  // ---------------------------------------------------------------- the invariant

  predicate IsLive(t: Tree, k: Key) {
    k in t.apps && t.apps[k].metadata.Some? && !t.apps[k].metadata.value.archived
  }

  function MetadataAt(t: Tree, k: Key): Metadata
    requires k in t.apps && t.apps[k].metadata.Some?
  {
    t.apps[k].metadata.value
  }

  /** The cluster of an application's default environment. */
  function HomeOf(s: Setting, r: Record): string
    requires r.project in s.projects
  {
    ClusterFor(s.projects[r.project], r.defaultEnvironment)
  }

  ghost predicate MetadataOk(s: Setting, k: Key, m: Metadata) {
    && k in s.apps && k.project in s.projects
    && KeyOf(m.record) == k && m.record.id == BuildApplicationId(k)
    && IsAnchored(m.record.defaultEnvironment, m.environments)
    && forall e :: e in m.environments ==> !IsBlank(e)
  }

  /** An application's own files: a live one has exactly what its record and its environments call for, an archived one
      nothing. */
  ghost predicate FilesOk(d: AppDir, m: Metadata) {
    if m.archived then d.base == map[] && d.overlays == map[]
    else
      && d.base == (map f | f in WrittenFiles(m.record) :: ContentOf(m.record, f))
      && d.overlays == map e | e in m.environments :: e
  }

  ghost predicate AppOk(s: Setting, t: Tree, k: Key) {
    k in t.apps ==>
      && t.apps[k].metadata.Some?
      && MetadataOk(s, k, MetadataAt(t, k)) && FilesOk(t.apps[k], MetadataAt(t, k))
  }

  predicate HasChild(t: Tree, c: string, f: string) {
    c in t.clusters && f in t.clusters[c].children
  }

  /** A live application has its child in its home cluster. */
  ghost predicate HomeOk(s: Setting, t: Tree, k: Key) {
    IsLive(t, k) ==>
      var r := MetadataAt(t, k).record;
      && r.project in s.projects && HasChild(t, HomeOf(s, r), ChildFile(r))
      && t.clusters[HomeOf(s, r)].children[ChildFile(r)] == ChildFor(r)
  }

  /** Every child is some live application's child in its home cluster. */
  ghost predicate ChildOk(s: Setting, t: Tree, c: string, f: string) {
    HasChild(t, c, f) ==>
      var k := t.clusters[c].children[f].overlay.app;
      && IsLive(t, k)
      && var r := MetadataAt(t, k).record;
         r.project in s.projects && f == ChildFile(r) && c == HomeOf(s, r)
  }

  /** A cluster's kustomization lists exactly the files in its applications directory. */
  ghost predicate RootOk(t: Tree, c: string) {
    c in t.clusters ==> t.clusters[c].root == Some(t.clusters[c].children.Keys)
                        && (forall f :: f in t.clusters[c].children ==> IsYaml(f)) && NormalizeClusterId(c) == c
  }

  ghost predicate TreeOk(s: Setting, t: Tree) {
    && (forall k :: AppOk(s, t, k) && HomeOk(s, t, k))
    && (forall c, f :: ChildOk(s, t, c, f))
    && (forall c :: RootOk(t, c))
  }

  // ---------------------------------------------------------------- saving

  lemma ChildFileIsYaml(r: Record)
    ensures IsYaml(ChildFile(r))
  {
    var f := ChildFile(r);
    assert f[|f| - 5..] == ".yaml";
  }

  /** The save follows the rules: known project and application, a usable default among the environments, none of the
      recorded environments dropped, and the previous environment is the recorded default. */
  ghost predicate IsSave(s: Setting, t: Tree, r: Record, environments: set<string>, p: Project, previous: string) {
    var k := KeyOf(r);
    && MetadataOk(s, k, Metadata(r, environments, false)) && p == s.projects[k.project]
    && (k in t.apps ==> IsLive(t, k) && MetadataAt(t, k).environments <= environments
                        && previous == MetadataAt(t, k).record.defaultEnvironment)
  }

  lemma SavedApp(s: Setting, t: Tree, r: Record, environments: set<string>, p: Project, previous: string)
    requires IsSave(s, t, r, environments, p, previous) && AppOk(s, t, KeyOf(r))
    ensures AppOk(s, Saved(t, r, environments, p, previous), KeyOf(r))
  {
    hide Wired, ClusterFor, IsBlank, IsTrimmed;
    BaseIsPartitioned(r);
    hide WrittenFiles, RemovedFiles, ContentOf;
    var k := KeyOf(r);
    assert NormalizedEnvironments(environments, r.defaultEnvironment) == environments;
    var before, d := AppAt(t, k), AppAt(Saved(t, r, environments, p, previous), k);
    assert d.base == map f | f in WrittenFiles(r) :: ContentOf(r, f);
    assert d.overlays == map e | e in environments :: e;
  }

  /** No other application's child has this file name. */
  lemma ChildFileIsOwn(s: Setting, t: Tree, r: Record, c: string)
    requires IsSetting(s) && TreeOk(s, t) && KeyOf(r) in s.apps
    requires HasChild(t, c, ChildFile(r))
    ensures t.clusters[c].children[ChildFile(r)].overlay.app == KeyOf(r) && IsLive(t, KeyOf(r))
    ensures MetadataAt(t, KeyOf(r)).record.project in s.projects && c == HomeOf(s, MetadataAt(t, KeyOf(r)).record)
  {
    hide IsBlank, IsTrimmed, WrittenFiles, ContentOf, ClusterFor;
    assert ChildOk(s, t, c, ChildFile(r));
    var owner := t.clusters[c].children[ChildFile(r)].overlay.app;
    assert AppOk(s, t, owner);
    assert ChildFileOf(owner) == ChildFileOf(KeyOf(r));
  }

  /** Wiring moves one child file and no other. */
  lemma WiredChild(t: Tree, r: Record, p: Project, previous: string, c: string, f: string)
    ensures var t' := Wired(t, r, p, previous);
            var home := ClusterFor(p, r.defaultEnvironment);
            if f == ChildFile(r) && c == home then HasChild(t', c, f) && t'.clusters[c].children[f] == ChildFor(r)
            else if f == ChildFile(r) && c == ClusterFor(p, previous) then !HasChild(t', c, f)
            else HasChild(t', c, f) == HasChild(t, c, f) && (HasChild(t, c, f) ==> t'.clusters[c].children[f] == t.clusters[c].children[f])
  {
    hide ClusterFor, ClusterIds, ChildFile, ChildFor, YamlFiles;
    assert ClusterFor(p, r.defaultEnvironment) in WiredClusters(p, r, previous);
    assert ClusterFor(p, previous) in WiredClusters(p, r, previous);
    assert c in t.clusters ==> ClusterAt(t, c) == t.clusters[c];
  }

  /** The children after a save: the application's own child at its home, the others where they were. */
  lemma SavedChildren(s: Setting, t: Tree, r: Record, environments: set<string>, p: Project, previous: string, c: string, f: string)
    requires IsSetting(s) && TreeOk(s, t) && IsSave(s, t, r, environments, p, previous)
    ensures var t' := Saved(t, r, environments, p, previous);
            if f == ChildFile(r) && c == HomeOf(s, r) then HasChild(t', c, f) && t'.clusters[c].children[f] == ChildFor(r)
            else if f == ChildFile(r) then !HasChild(t', c, f)
            else HasChild(t', c, f) == HasChild(t, c, f) && (HasChild(t, c, f) ==> t'.clusters[c].children[f] == t.clusters[c].children[f])
  {
    WiredChild(t, r, p, previous, c, f);
    if HasChild(t, c, ChildFile(r)) {
      ChildFileIsOwn(s, t, r, c);
      assert AppOk(s, t, KeyOf(r));
      assert c == ClusterFor(p, previous);
    }
    hide TreeOk, IsSetting, ClusterFor, ClusterIds, ChildFile, ChildFor, YamlFiles, WithFiles, Wired;
  }

  lemma SavedRoot(s: Setting, t: Tree, r: Record, environments: set<string>, p: Project, previous: string, c: string)
    requires RootOk(t, c)
    ensures RootOk(Saved(t, r, environments, p, previous), c)
  {
    ChildFileIsYaml(r);
    ClusterNamesAreNormal(p, r.defaultEnvironment);
    ClusterNamesAreNormal(p, previous);
    hide ClusterFor, ClusterIds, ChildFile, ChildFor, WithFiles, NormalizeClusterId, IsYaml;
    var t' := Saved(t, r, environments, p, previous);
    if c in t'.clusters {
      var d, d' := ClusterAt(t, c), t'.clusters[c];
      assert d' == WiredCluster(d, c, r, p, previous);
      assert forall f :: f in d'.children ==> IsYaml(f);
      assert YamlFiles(d'.children) == d'.children.Keys;
    }
  }

  lemma SavedKeepsTree(s: Setting, t: Tree, r: Record, environments: set<string>, p: Project, previous: string)
    requires IsSetting(s) && TreeOk(s, t) && IsSave(s, t, r, environments, p, previous)
    ensures TreeOk(s, Saved(t, r, environments, p, previous))
  {
    var t' := Saved(t, r, environments, p, previous);
    forall k ensures AppOk(s, t', k) && HomeOk(s, t', k) {
      SavedKeepsApp(s, t, r, environments, p, previous, k);
    }
    forall c, f ensures ChildOk(s, t', c, f) {
      SavedKeepsChild(s, t, r, environments, p, previous, c, f);
    }
    forall c ensures RootOk(t', c) {
      assert RootOk(t, c);
      SavedRoot(s, t, r, environments, p, previous, c);
    }
  }

  lemma SavedKeepsApp(s: Setting, t: Tree, r: Record, environments: set<string>, p: Project, previous: string, k: Key)
    requires IsSetting(s) && TreeOk(s, t) && IsSave(s, t, r, environments, p, previous)
    ensures AppOk(s, Saved(t, r, environments, p, previous), k) && HomeOk(s, Saved(t, r, environments, p, previous), k)
  {
    hide ClusterFor, ClusterIds, ChildFile, WithFiles, WiredCluster, IsBlank, IsTrimmed, WrittenFiles, ContentOf;
    var t' := Saved(t, r, environments, p, previous);
    assert AppOk(s, t, k) && HomeOk(s, t, k);
    if k == KeyOf(r) {
      SavedApp(s, t, r, environments, p, previous);
      SavedChildren(s, t, r, environments, p, previous, HomeOf(s, r), ChildFile(r));
    } else {
      assert AppAt(t', k) == AppAt(t, k);
      if IsLive(t, k) {
        var other := MetadataAt(t, k).record;
        SavedChildren(s, t, r, environments, p, previous, HomeOf(s, other), ChildFile(other));
        DistinctChildFiles(s, other, r);
      }
    }
  }

  lemma DistinctChildFiles(s: Setting, a: Record, b: Record)
    requires IsSetting(s) && KeyOf(a) in s.apps && KeyOf(b) in s.apps && KeyOf(a) != KeyOf(b)
    ensures ChildFile(a) != ChildFile(b)
  {
    assert ChildFileOf(KeyOf(a)) == ChildFile(a) && ChildFileOf(KeyOf(b)) == ChildFile(b);
  }

  lemma SavedKeepsChild(s: Setting, t: Tree, r: Record, environments: set<string>, p: Project, previous: string, c: string, f: string)
    requires IsSetting(s) && TreeOk(s, t) && IsSave(s, t, r, environments, p, previous)
    ensures ChildOk(s, Saved(t, r, environments, p, previous), c, f)
  {
    hide IsSetting, ClusterFor, ClusterIds, ChildFile, WithFiles, WiredCluster, Wired, FilesOk, IsBlank, IsTrimmed;
    SavedChildren(s, t, r, environments, p, previous, c, f);
    var t' := Saved(t, r, environments, p, previous);
    if HasChild(t', c, f) {
      if f == ChildFile(r) {
        assert t'.clusters[c].children[f] == ChildFor(r);
      } else {
        assert ChildOk(s, t, c, f);
        var k := t.clusters[c].children[f].overlay.app;
        assert AppOk(s, t, k);
        if k == KeyOf(r) {
          SameFile(MetadataAt(t, k).record, r);
        } else {
          assert t'.apps[k] == t.apps[k];
        }
      }
    }
  }

  lemma SameFile(a: Record, b: Record)
    requires KeyOf(a) == KeyOf(b)
    ensures ChildFile(a) == ChildFile(b)
  {
  }

  // ---------------------------------------------------------------- removing

  /** An application's child leaves every cluster; the rest stays. */
  lemma UnwiredChild(t: Tree, r: Record, c: string, f: string)
    ensures var t' := Unwired(t, r);
            if f == ChildFile(r) && NormalizeClusterId(c) == c then !HasChild(t', c, f)
            else HasChild(t', c, f) == HasChild(t, c, f) && (HasChild(t, c, f) ==> t'.clusters[c].children[f] == t.clusters[c].children[f])
  {
    hide NormalizeClusterId, ChildFile, YamlFiles;
  }

  lemma UnwiredRoot(t: Tree, r: Record, c: string)
    requires RootOk(t, c)
    ensures RootOk(Unwired(t, r), c)
  {
    hide NormalizeClusterId, ChildFile, IsYaml;
    var t' := Unwired(t, r);
    if c in t'.clusters {
      var d' := t'.clusters[c];
      assert d' == UnwiredCluster(t.clusters[c], c, r);
      assert forall f :: f in d'.children ==> IsYaml(f);
      assert YamlFiles(d'.children) == d'.children.Keys;
    }
  }

  /** Taking an application out of service: its children go, and its directory goes or keeps only archived metadata. */
  lemma RemovedKeepsTree(s: Setting, t: Tree, k: Key, apps': map<Key, AppDir>)
    requires IsSetting(s) && TreeOk(s, t) && k in t.apps && t.apps[k].metadata.Some?
    requires forall other :: other != k ==> (other in apps' <==> other in t.apps) && (other in t.apps ==> apps'[other] == t.apps[other])
    requires AppOk(s, Unwired(t, MetadataAt(t, k).record).(apps := apps'), k)
    requires k in apps' ==> MetadataAt(Tree(apps', map[], {}), k).archived
    ensures TreeOk(s, Unwired(t, MetadataAt(t, k).record).(apps := apps'))
  {
    assert AppOk(s, t, k);
    var r := MetadataAt(t, k).record;
    hide ClusterFor, ChildFile, Unwired, FilesOk, IsBlank, IsTrimmed, NormalizeClusterId, IsYaml;
    var t' := Unwired(t, r).(apps := apps');
    forall other ensures AppOk(s, t', other) && HomeOk(s, t', other) {
      assert AppOk(s, t, other) && HomeOk(s, t, other);
      if other != k && IsLive(t, other) {
        var o := MetadataAt(t, other).record;
        DistinctChildFiles(s, o, r);
        UnwiredChild(t, r, HomeOf(s, o), ChildFile(o));
      }
    }
    forall c, f ensures ChildOk(s, t', c, f) {
      assert ChildOk(s, t, c, f) && RootOk(t, c);
      UnwiredChild(t, r, c, f);
      if HasChild(t', c, f) {
        var owner := t.clusters[c].children[f].overlay.app;
        assert AppOk(s, t, owner);
        if owner == k { SameFile(MetadataAt(t, owner).record, r); }
      }
    }
    forall c ensures RootOk(t', c) {
      assert RootOk(t, c);
      UnwiredRoot(t, r, c);
    }
  }

  // ---------------------------------------------------------------- every step keeps the invariant

  lemma LoadsMetadata(s: Setting, t: Tree, k: Key)
    requires AppOk(s, t, k)
    ensures LoadRecord(t, k).Loaded? <==> IsLive(t, k)
    ensures IsLive(t, k) ==> LoadRecord(t, k) == Loaded(MetadataAt(t, k).record)
  {
    hide FilesOk;
  }

  /** Saving a loaded record again, with another usable default or none: the environments only gain that default. */
  lemma ResaveIsSave(s: Setting, t: Tree, k: Key, r: Record, p: Project)
    requires AppOk(s, t, k) && IsLive(t, k) && p == s.projects[k.project]
    requires KeyOf(r) == k && r.id == MetadataAt(t, k).record.id
    requires IsAnchored(r.defaultEnvironment, MetadataAt(t, k).environments + {r.defaultEnvironment})
    ensures RecordedEnvironments(t, r) == MetadataAt(t, k).environments + {r.defaultEnvironment}
    ensures IsSave(s, t, r, RecordedEnvironments(t, r), p, MetadataAt(t, k).record.defaultEnvironment)
  {
    hide FilesOk, IsBlank, IsTrimmed;
    var m := MetadataAt(t, k);
    assert m.record.defaultEnvironment in m.environments;
    assert RecordedEnvironments(t, r) == NormalizedEnvironments(m.environments, r.defaultEnvironment);
  }

  lemma EntryKeepsTree(s: Setting, t: Tree, k: Key, deploymentId: string, entry: DeploymentEntry)
    requires TreeOk(s, t) && k in t.apps
    ensures TreeOk(s, WithEntry(t, k, deploymentId, entry))
  {
    hide ClusterFor, ChildFile, IsBlank, IsTrimmed, IsYaml, NormalizeClusterId;
    var t' := WithEntry(t, k, deploymentId, entry);
    forall other ensures AppOk(s, t', other) && HomeOk(s, t', other) { assert AppOk(s, t, other) && HomeOk(s, t, other); }
    forall c, f ensures ChildOk(s, t', c, f) { assert ChildOk(s, t, c, f); }
    forall c ensures RootOk(t', c) { assert RootOk(t, c); }
  }

  lemma TrimmedIsDefault(e: string)
    ensures !IsBlank(e) ==> !IsBlank(TrimSpace(e)) && FluxEnvironment(e) == FluxEnvironment(TrimSpace(e)) == TrimSpace(e)
    ensures !IsBlank("shared") && FluxEnvironment("shared") == "shared"
  {
    var _, _ := TrimSpaceCuts(e);
    TrimSpaceFixed(TrimSpace(e));
    TrimSpaceBlank(e);
    if TrimSpace(e) != "" { assert TrimSpace(e)[0] in TrimSpace(e); }
    var shared := "shared";
    TrimSpaceFixed(shared);
    assert shared[0] in shared;
  }

  lemma NewDefaultIsAnchored(p: Project, input: CreateRequest, secretPath: string)
    requires IsUsableRequest(p, input.environment)
    ensures var r := CreatedRecord(p, input, secretPath);
            IsAnchored(r.defaultEnvironment, NormalizedEnvironments(ProjectEnvironments(p), r.defaultEnvironment))
  {
    hide IsTrimmed, TrimSpace, IsBlank;
    TrimSpaceBlank(input.environment);
    TrimmedIsDefault(input.environment);
    var r := CreatedRecord(p, input, secretPath);
    if IsBlank(input.environment) && p.environments != [] {
      var e := p.environments[0];
      TrimmedIsDefault(e);
      assert FluxEnvironment(e) in ProjectEnvironments(p);
    }
    hide FluxEnvironment;
  }

  lemma CreateIsSave(s: Setting, t: Tree, project: string, input: CreateRequest, secretPath: string)
    requires IsSetting(s) && project in s.projects && Key(project, input.name) in s.apps && Key(project, input.name) !in t.apps
    requires IsUsableRequest(s.projects[project], input.environment)
    ensures var p := s.projects[project];
            var r := CreatedRecord(p, input, secretPath);
            IsSave(s, t, r, NormalizedEnvironments(ProjectEnvironments(p), r.defaultEnvironment), p, "")
  {
    hide IsBlank, TrimSpace, IsAnchored, IsUsableRequest, BuildApplicationId;
    NewDefaultIsAnchored(s.projects[project], input, secretPath);
    DefaultIsNotBlank(CreatedRecord(s.projects[project], input, secretPath).defaultEnvironment,
                      ProjectEnvironments(s.projects[project]));
  }

  lemma DefaultIsNotBlank(environment: string, environments: set<string>)
    requires IsAnchored(environment, NormalizedEnvironments(environments, environment))
    ensures forall e :: e in NormalizedEnvironments(environments, environment) ==> !IsBlank(e)
  {
    hide IsBlank;
  }

  /** What a step does to one application's metadata: environments stay, archived stays archived, and only a delete of
      the application takes it away. */
  ghost predicate MetadataStep(t: Tree, t': Tree, k: Key) {
    k in t.apps && t.apps[k].metadata.Some? ==>
      && k in t'.apps && t'.apps[k].metadata.Some?
      && MetadataAt(t, k).environments <= MetadataAt(t', k).environments
      && (MetadataAt(t, k).archived ==> MetadataAt(t', k).archived)
  }

  predicate Deletes(e: Event, k: Key) {
    e.Delete? && SplitApplicationId(e.id) == Some(k)
  }

  lemma CreateStep(s: Setting, t: Tree, e: Event)
    requires IsSetting(s) && TreeOk(s, t) && IsEnabled(s, t, e) && e.Create?
    ensures TreeOk(s, Next(s, t, e)) && forall k :: MetadataStep(t, Next(s, t, e), k)
  {
    hide IsSetting, TreeOk, Wired, WithFiles, NormalizedEnvironments, BuildApplicationId, TrimSpace, IsUsableRequest, IsSave;
    var p := s.projects[e.project];
    var r := CreatedRecord(p, e.input, e.secretPath);
    assert p.id == e.project by { ProjectHasId(s, e.project); }
    if KeyOf(r) !in t.apps {
      var environments := NormalizedEnvironments(ProjectEnvironments(p), r.defaultEnvironment);
      CreateIsSave(s, t, e.project, e.input, e.secretPath);
      SavedKeepsTree(s, t, r, environments, p, "");
      EntryKeepsTree(s, Saved(t, r, environments, p, ""), KeyOf(r), e.initialId, EntryFor(r, "Created"));
    }
  }

  lemma ProjectHasId(s: Setting, project: string)
    requires IsSetting(s) && project in s.projects
    ensures s.projects[project].id == project
  {
  }

  /** The steps that load a record, change it and save it again. */
  lemma ResaveStep(s: Setting, t: Tree, k: Key, r: Record, p: Project)
    requires IsSetting(s) && TreeOk(s, t) && IsLive(t, k) && k.project in s.projects && p == s.projects[k.project]
    requires KeyOf(r) == k && r.id == MetadataAt(t, k).record.id
    requires IsAnchored(r.defaultEnvironment, MetadataAt(t, k).environments + {r.defaultEnvironment})
    ensures var t' := Saved(t, r, RecordedEnvironments(t, r), p, MetadataAt(t, k).record.defaultEnvironment);
            TreeOk(s, t') && k in t'.apps && forall other :: MetadataStep(t, t', other)
  {
    assert AppOk(s, t, k);
    ResaveIsSave(s, t, k, r, p);
    SavedKeepsTree(s, t, r, RecordedEnvironments(t, r), p, MetadataAt(t, k).record.defaultEnvironment);
    hide TreeOk, Wired, WithFiles, RecordedEnvironments;
  }

  /** An application id that names a known project loads exactly its live application. */
  lemma IdLoads(s: Setting, t: Tree, id: string) returns (k: Key)
    requires TreeOk(s, t) && ProjectOf(s, id).Some?
    ensures k.project in s.projects && ProjectOf(s, id).value == s.projects[k.project]
    ensures GetApplication(t, id).Loaded? <==> IsLive(t, k)
    ensures IsLive(t, k) ==> GetApplication(t, id) == Loaded(MetadataAt(t, k).record)
    ensures IsLive(t, k) ==>
              var m := MetadataAt(t, k);
              KeyOf(m.record) == k && IsAnchored(m.record.defaultEnvironment, m.environments + {m.record.defaultEnvironment})
  {
    k := SplitApplicationId(id).value;
    assert AppOk(s, t, k);
    LoadsMetadata(s, t, k);
  }

  lemma ImageStep(s: Setting, t: Tree, e: Event)
    requires IsSetting(s) && TreeOk(s, t) && IsEnabled(s, t, e) && e.UpdateImage?
    ensures TreeOk(s, Next(s, t, e)) && forall k :: MetadataStep(t, Next(s, t, e), k)
  {
    hide TreeOk, Saved, RecordedEnvironments, IsAnchored, EntryFor, ImageReference.ReplaceImageTag;
    if ProjectOf(s, e.id).Some? {
      var k := IdLoads(s, t, e.id);
      if IsLive(t, k) {
        var record := MetadataAt(t, k).record;
        var r := record.(image := ImageReference.ReplaceImageTag(record.image, e.tag));
        ResaveStep(s, t, k, r, s.projects[k.project]);
        var t' := Saved(t, r, RecordedEnvironments(t, r), s.projects[k.project], r.defaultEnvironment);
        EntryKeepsTree(s, t', k, e.deploymentId, EntryFor(r, "Syncing"));
        assert Next(s, t, e) == WithEntry(t', k, e.deploymentId, EntryFor(r, "Syncing"));
        forall other ensures MetadataStep(t, Next(s, t, e), other) { assert MetadataStep(t, t', other); }
      }
    }
  }

  lemma PatchStep(s: Setting, t: Tree, e: Event)
    requires IsSetting(s) && TreeOk(s, t) && IsEnabled(s, t, e) && e.Patch?
    ensures TreeOk(s, Next(s, t, e)) && forall k :: MetadataStep(t, Next(s, t, e), k)
  {
    hide TreeOk, Saved, RecordedEnvironments, IsBlank, FluxEnvironment, TrimSpace;
    if ProjectOf(s, e.id).Some? {
      var k := IdLoads(s, t, e.id);
      if IsLive(t, k) {
        if e.patch.environment.Some? {
          TrimmedIsDefault(e.patch.environment.value);
          TrimSpaceBlank(e.patch.environment.value);
        }
        var record := MetadataAt(t, k).record;
        var r := PatchedRecord(record, e.patch);
        ResaveStep(s, t, k, r, s.projects[k.project]);
        assert Next(s, t, e) == Saved(t, r, RecordedEnvironments(t, r), s.projects[k.project], record.defaultEnvironment);
      }
    }
  }

  lemma SecretPathStep(s: Setting, t: Tree, e: Event)
    requires IsSetting(s) && TreeOk(s, t) && IsEnabled(s, t, e) && e.SaveSecretPath?
    ensures TreeOk(s, Next(s, t, e)) && forall k :: MetadataStep(t, Next(s, t, e), k)
  {
    hide TreeOk, Saved, RecordedEnvironments, IsAnchored, TrimSpace;
    if ProjectOf(s, e.id).Some? {
      var k := IdLoads(s, t, e.id);
      if IsLive(t, k) {
        var record := MetadataAt(t, k).record;
        var r := record.(secretPath := TrimSpace(e.path));
        ResaveStep(s, t, k, r, s.projects[k.project]);
        assert Next(s, t, e) == Saved(t, r, RecordedEnvironments(t, r), s.projects[k.project], record.defaultEnvironment);
      }
    }
  }

  lemma ArchiveStep(s: Setting, t: Tree, e: Event)
    requires IsSetting(s) && TreeOk(s, t) && IsEnabled(s, t, e) && e.Archive?
    ensures TreeOk(s, Next(s, t, e)) && forall k :: MetadataStep(t, Next(s, t, e), k)
  {
    var id := SplitApplicationId(e.id);
    if id.Some? && IsLive(t, id.value) {
      var k := id.value;
      assert AppOk(s, t, k);
      var m := MetadataAt(t, k);
      hide TreeOk, IsSetting, IsAnchored, IsBlank, SplitApplicationId, Unwired;
      assert LifecycleMetadata(m) == m;
      var d := Stripped(t.apps[k]).(metadata := Some(m.(archived := true)));
      RemovedKeepsTree(s, t, k, t.apps[k := d]);
      assert Next(s, t, e) == Unwired(t, m.record).(apps := t.apps[k := d]);
    }
  }

  lemma DeleteStep(s: Setting, t: Tree, e: Event)
    requires IsSetting(s) && TreeOk(s, t) && IsEnabled(s, t, e) && e.Delete?
    ensures TreeOk(s, Next(s, t, e)) && forall k :: !Deletes(e, k) ==> MetadataStep(t, Next(s, t, e), k)
  {
    var id := SplitApplicationId(e.id);
    if id.Some? && AppAt(t, id.value).metadata.Some? {
      var k := id.value;
      hide TreeOk, IsSetting, SplitApplicationId, Unwired;
      RemovedKeepsTree(s, t, k, t.apps - {k});
      assert Next(s, t, e) == Unwired(t, MetadataAt(t, k).record).(apps := t.apps - {k});
    }
  }

  lemma StepKeepsTree(s: Setting, t: Tree, e: Event)
    requires IsSetting(s) && TreeOk(s, t) && IsEnabled(s, t, e)
    ensures TreeOk(s, Next(s, t, e)) && forall k :: !Deletes(e, k) ==> MetadataStep(t, Next(s, t, e), k)
  {
    match e
    case Create(_, _, _, _) => CreateStep(s, t, e);
    case UpdateImage(_, _, _) => ImageStep(s, t, e);
    case Patch(_, _) => PatchStep(s, t, e);
    case SaveSecretPath(_, _) => SecretPathStep(s, t, e);
    case Archive(_) => ArchiveStep(s, t, e);
    case Delete(_) => DeleteStep(s, t, e);
    case UpdateDeployment(id, deployment, entry) =>
      if SplitApplicationId(id).Some? {
        hide TreeOk;
        EntryKeepsTree(s, t, SplitApplicationId(id).value, deployment, entry);
      }
  }

  // ---------------------------------------------------------------- over whole runs

  lemma {:induction false} RunKeepsTree(s: Setting, t: Tree, es: seq<Event>)
    requires IsSetting(s) && TreeOk(s, t) && IsRun(s, t, es)
    ensures TreeOk(s, Final(s, t, es))
    decreases |es|
  {
    if |es| > 0 {
      StepKeepsTree(s, t, es[0]);
      RunKeepsTree(s, Next(s, t, es[0]), es[1..]);
    }
  }

  lemma EmptyIsOk(s: Setting)
    ensures TreeOk(s, EMPTY)
  {
  }

  /** In every tree a run reaches, the base kustomization of a live application lists exactly the manifests present in
      its base directory, each once; its overlays are exactly its recorded environments, the default among them. */
  lemma LiveApplicationIsConsistent(s: Setting, es: seq<Event>, k: Key)
    requires IsSetting(s) && IsRun(s, EMPTY, es) && IsLive(Final(s, EMPTY, es), k)
    ensures var d := Final(s, EMPTY, es).apps[k];
            var m := d.metadata.value;
            && Kustomization in d.base && d.base[Kustomization].Resources?
            && var listed := d.base[Kustomization].files;
            && (forall f :: f in listed <==> f in d.base && f != Kustomization)
            && (forall i, j :: 0 <= i < j < |listed| ==> listed[i] != listed[j])
            && (forall f :: f in listed ==> d.base[f] == Manifest(m.record))
            && d.overlays.Keys == m.environments && m.record.defaultEnvironment in m.environments
            && m.record.id == BuildApplicationId(k)
  {
    hide IsSetting, IsRun, Final, RemovedFiles, BaseResources, BuildApplicationId, IsBlank, HomeOk, ChildOk, RootOk;
    EmptyIsOk(s);
    RunKeepsTree(s, EMPTY, es);
    var t := Final(s, EMPTY, es);
    assert AppOk(s, t, k);
    BaseIsPartitioned(MetadataAt(t, k).record);
  }

  /** A live application has exactly one Flux child in the whole tree: in its default environment's cluster, pointing at
      an overlay that exists. */
  lemma OneFluxChild(s: Setting, es: seq<Event>, k: Key)
    requires IsSetting(s) && IsRun(s, EMPTY, es) && IsLive(Final(s, EMPTY, es), k)
    ensures var t := Final(s, EMPTY, es);
            var r := MetadataAt(t, k).record;
            && r.project in s.projects
            && HasChild(t, HomeOf(s, r), ChildFile(r))
            && (forall c, f :: HasChild(t, c, f) && t.clusters[c].children[f].overlay.app == k
                               ==> c == HomeOf(s, r) && f == ChildFile(r))
            && var child := t.clusters[HomeOf(s, r)].children[ChildFile(r)];
            && child.applicationId == r.id && child.overlay.app == k
            && child.overlay.environment == FluxEnvironment(r.defaultEnvironment)
            && child.overlay.environment in t.apps[k].overlays
  {
    EmptyIsOk(s);
    RunKeepsTree(s, EMPTY, es);
    var t := Final(s, EMPTY, es);
    assert AppOk(s, t, k) && HomeOk(s, t, k);
    var r := MetadataAt(t, k).record;
    hide IsRun, Final, ClusterFor, ChildFile, WrittenFiles, ContentOf, IsBlank, IsTrimmed, TrimSpace, FluxEnvironment;
    forall c, f | HasChild(t, c, f) && t.clusters[c].children[f].overlay.app == k ensures c == HomeOf(s, r) && f == ChildFile(r) {
      assert ChildOk(s, t, c, f);
    }
  }

  /** No child belongs to an archived or deleted application. */
  lemma NoOtherChildren(s: Setting, es: seq<Event>, c: string, f: string)
    requires IsSetting(s) && IsRun(s, EMPTY, es) && HasChild(Final(s, EMPTY, es), c, f)
    ensures var t := Final(s, EMPTY, es);
            && IsLive(t, t.clusters[c].children[f].overlay.app)
            && t.clusters[c].root == Some(t.clusters[c].children.Keys)
  {
    EmptyIsOk(s);
    RunKeepsTree(s, EMPTY, es);
    var t := Final(s, EMPTY, es);
    assert ChildOk(s, t, c, f) && RootOk(t, c);
  }

  /** Every cluster's kustomization, also that of a cluster without any child, lists exactly the files in its applications
      directory. */
  lemma RootsListTheirChildren(s: Setting, es: seq<Event>)
    requires IsSetting(s) && IsRun(s, EMPTY, es)
    ensures var t := Final(s, EMPTY, es);
            forall c :: c in t.clusters ==> t.clusters[c].root == Some(t.clusters[c].children.Keys)
  {
    EmptyIsOk(s);
    RunKeepsTree(s, EMPTY, es);
    var t := Final(s, EMPTY, es);
    forall c | c in t.clusters ensures t.clusters[c].root == Some(t.clusters[c].children.Keys) {
      assert RootOk(t, c);
    }
  }

  /** Environments only grow and archived applications stay archived, for as long as the application is not deleted. */
  lemma {:induction false} EnvironmentsOnlyGrow(s: Setting, t: Tree, es: seq<Event>, k: Key)
    requires IsSetting(s) && TreeOk(s, t) && IsRun(s, t, es)
    requires k in t.apps && t.apps[k].metadata.Some? && forall i :: 0 <= i < |es| ==> !Deletes(es[i], k)
    ensures MetadataStep(t, Final(s, t, es), k)
    decreases |es|
  {
    if |es| > 0 {
      StepKeepsTree(s, t, es[0]);
      var t' := Next(s, t, es[0]);
      assert !Deletes(es[0], k) && MetadataStep(t, t', k);
      EnvironmentsOnlyGrow(s, t', es[1..], k);
    }
  }

  lemma LiveById(s: Setting, t: Tree, id: string) returns (k: Key)
    requires TreeOk(s, t) && GetApplication(t, id).Loaded?
    ensures SplitApplicationId(id) == Some(k) && IsLive(t, k)
    ensures GetApplication(t, id) == Loaded(MetadataAt(t, k).record) && KeyOf(MetadataAt(t, k).record) == k
  {
    k := SplitApplicationId(id).value;
    assert AppOk(s, t, k);
    LoadsMetadata(s, t, k);
  }

  lemma SavedRecord(t: Tree, r: Record, environments: set<string>, p: Project, previous: string)
    ensures var t' := Saved(t, r, environments, p, previous);
            && KeyOf(r) in t'.apps && t'.apps[KeyOf(r)].metadata == Some(Metadata(r, environments, false))
            && t'.apps[KeyOf(r)].history == AppAt(t, KeyOf(r)).history
  {
    hide Wired, WrittenFiles, RemovedFiles, ContentOf, NormalizedEnvironments;
  }

  // ---------------------------------------------------------------- where the preconditions are needed

  /** The child of a new application points at an overlay that exists exactly when an environment was requested, or the
      project has none, or the overlay name made of its first one is among its environments. */
  lemma NewChildHasOverlay(t: Tree, p: Project, input: CreateRequest, secretPath: string, initialId: string)
    requires Key(p.id, input.name) !in t.apps
    ensures var t' := Created(t, p, input, secretPath, initialId).tree;
            var r := CreatedRecord(p, input, secretPath);
            && KeyOf(r) in t'.apps
            && (FluxOverlay(r).environment in t'.apps[KeyOf(r)].overlays
                <==> !IsBlank(input.environment) || p.environments == [] || FluxEnvironment(p.environments[0]) in p.environments)
  {
    var r := CreatedRecord(p, input, secretPath);
    NewOverlays(t, p, input, secretPath, initialId);
    hide Created;
    TrimSpaceBlank(input.environment);
    TrimmedIsDefault(input.environment);
    if IsBlank(input.environment) && p.environments != [] {
      FirstEnvironment(p);
    }
  }

  lemma NewOverlays(t: Tree, p: Project, input: CreateRequest, secretPath: string, initialId: string)
    requires Key(p.id, input.name) !in t.apps
    ensures var t' := Created(t, p, input, secretPath, initialId).tree;
            var r := CreatedRecord(p, input, secretPath);
            && KeyOf(r) in t'.apps
            && t'.apps[KeyOf(r)].overlays.Keys == NormalizedEnvironments(ProjectEnvironments(p), r.defaultEnvironment)
  {
    hide WrittenFiles, RemovedFiles, ContentOf, Wired, IsBlank, TrimSpace;
  }

  lemma FirstEnvironment(p: Project)
    requires p.environments != []
    ensures var e := p.environments[0];
            FluxEnvironment(e) in NormalizedEnvironments(ProjectEnvironments(p), e) <==> FluxEnvironment(e) in p.environments
  {
    var e := p.environments[0];
    TrimSpaceBlank(e);
    TrimmedIsDefault(e);
  }

  /** A project whose only environment has a blank or padded name: the child of an application dangles if none was
      requested. The service requests none when the catalog marks a blank environment as default. */
  lemma OddEnvironmentDangles(t: Tree, p: Project, e: string, input: CreateRequest, secretPath: string, initialId: string)
    requires p.environments == [e] && (IsBlank(e) || !IsTrimmed(e)) && IsBlank(input.environment)
    requires Key(p.id, input.name) !in t.apps
    ensures var t' := Created(t, p, input, secretPath, initialId).tree;
            var r := CreatedRecord(p, input, secretPath);
            && KeyOf(r) in t'.apps && FluxOverlay(r).environment !in t'.apps[KeyOf(r)].overlays
  {
    hide Created;
    NewChildHasOverlay(t, p, input, secretPath, initialId);
    TrimSpaceFixed(e);
    TrimSpaceBlank(e);
    TrimmedIsDefault(e);
  }

  /** A blank first environment is the other family that the runs leave out: an application created in it loses that
      environment from its record, but not its overlay, with the first patch to another. */
  lemma BlankEnvironmentIsForgotten(t: Tree, p: Project, input: CreateRequest, secretPath: string, initialId: string,
                                    id: string, patch: UpdateRequest)
    requires Key(p.id, input.name) !in t.apps && p.environments != [] && IsBlank(p.environments[0]) && IsBlank(input.environment)
    requires SplitApplicationId(id) == Some(Key(p.id, input.name))
    requires patch.environment.Some? && !IsBlank(patch.environment.value)
    ensures var patched := Patched(Created(t, p, input, secretPath, initialId).tree, p, id, patch);
            patched.Done? && IsForgotten(patched.tree, Key(p.id, input.name), p.environments[0])
  {
    TrimSpaceBlank(input.environment);
    NewOverlays(t, p, input, secretPath, initialId);
    NewMetadata(t, p, input, secretPath, initialId);
    hide Created, IsBlank, TrimSpace, Patched, SplitApplicationId;
    PatchForgets(Created(t, p, input, secretPath, initialId).tree, p, Key(p.id, input.name), id, patch, p.environments[0]);
  }

  /** There is an overlay for the environment, which is not recorded. */
  predicate IsForgotten(t: Tree, k: Key, environment: string) {
    k in t.apps && environment in t.apps[k].overlays && t.apps[k].metadata.Some?
    && environment !in t.apps[k].metadata.value.environments
  }

  lemma NewMetadata(t: Tree, p: Project, input: CreateRequest, secretPath: string, initialId: string)
    requires Key(p.id, input.name) !in t.apps
    ensures var t' := Created(t, p, input, secretPath, initialId).tree;
            var k := Key(p.id, input.name);
            IsLive(t', k) && MetadataAt(t', k).record == CreatedRecord(p, input, secretPath)
  {
    hide WithFiles, Wired, IsBlank, TrimSpace, NormalizedEnvironments, EntryFor;
  }

  lemma PatchForgets(t: Tree, p: Project, k: Key, id: string, patch: UpdateRequest, environment: string)
    requires SplitApplicationId(id) == Some(k) && IsLive(t, k) && KeyOf(MetadataAt(t, k).record) == k
    requires environment in t.apps[k].overlays && IsBlank(environment)
    requires patch.environment.Some? && !IsBlank(patch.environment.value)
    ensures Patched(t, p, id, patch).Done? && IsForgotten(Patched(t, p, id, patch).tree, k, environment)
  {
    hide SplitApplicationId, TrimSpace, IsBlank;
    TrimSpaceBlank(patch.environment.value);
    TrimmedIsDefault(patch.environment.value);
    var r := PatchedRecord(LoadRecord(t, k).record, patch);
    var environments := RecordedEnvironments(t, r);
    assert environment !in environments;
    SavedOverlays(t, r, environments, p, LoadRecord(t, k).record.defaultEnvironment);
    hide Saved, RecordedEnvironments;
  }

  lemma SavedOverlays(t: Tree, r: Record, environments: set<string>, p: Project, previous: string)
    ensures var t' := Saved(t, r, environments, p, previous);
            && KeyOf(r) in t'.apps && t'.apps[KeyOf(r)].metadata == Some(Metadata(r, environments, false))
            && t'.apps[KeyOf(r)].overlays.Keys
               == AppAt(t, KeyOf(r)).overlays.Keys + NormalizedEnvironments(environments, r.defaultEnvironment)
  {
    hide Wired, WrittenFiles, RemovedFiles, ContentOf, NormalizedEnvironments;
  }

  /** b's project is a's with a dash and more, and a's name has that as well. */
  predicate ShiftsDash(a: Key, b: Key) {
    var n := |a.project|;
    && n < |b.project| && b.project[..n] == a.project && b.project[n] == '-'
    && a.name == b.project[n + 1..] + "-" + b.name
  }

  /** Two applications share a child file exactly when a dash moved between project and name tells them apart. */
  lemma ChildNamesCollide(a: Key, b: Key)
    requires a != b
    ensures ChildFileOf(a) == ChildFileOf(b) <==> ShiftsDash(a, b) || ShiftsDash(b, a)
  {
    if ShiftsDash(a, b) { ShiftedCollide(a, b); }
    if ShiftsDash(b, a) { ShiftedCollide(b, a); }
    if ChildFileOf(a) == ChildFileOf(b) {
      if |a.project| < |b.project| {
        CollidingShift(a, b);
      } else if |b.project| < |a.project| {
        CollidingShift(b, a);
      } else {
        SameProjectLength(a, b);
      }
    }
  }

  lemma ShiftedCollide(a: Key, b: Key)
    requires ShiftsDash(a, b)
    ensures ChildFileOf(a) == ChildFileOf(b)
  {
    var infix := b.project[|a.project| + 1..];
    assert b.project == a.project + "-" + infix;
  }

  lemma CollidingShift(a: Key, b: Key)
    requires |a.project| < |b.project| && ChildFileOf(a) == ChildFileOf(b)
    ensures ShiftsDash(a, b)
  {
    var file, n, m := ChildFileOf(a), |a.project|, |b.project|;
    assert a.project == file[..n] && b.project == file[..m];
    assert a.name == file[n + 1..|file| - 5] && b.name == file[m + 1..|file| - 5];
    assert file[n] == '-' && file[m] == '-';
    assert file[n + 1..|file| - 5] == file[n + 1..m] + [file[m]] + file[m + 1..|file| - 5];
  }

  lemma SameProjectLength(a: Key, b: Key)
    requires |a.project| == |b.project| && ChildFileOf(a) == ChildFileOf(b)
    ensures a == b
  {
    var file, n := ChildFileOf(a), |a.project|;
    assert a.project == file[..n] == b.project;
    assert a.name == file[n + 1..|file| - 5] == b.name;
  }

  /** The application saved last takes a shared child over. */
  lemma SavedLastOwnsChild(t: Tree, p: Project, previous: string, r: Record, other: Key)
    requires ShiftsDash(KeyOf(r), other) || ShiftsDash(other, KeyOf(r))
    ensures var home := ClusterFor(p, r.defaultEnvironment);
            var t' := Wired(t, r, p, previous);
            HasChild(t', home, ChildFileOf(other)) && t'.clusters[home].children[ChildFileOf(other)].overlay.app == KeyOf(r)
  {
    assert KeyOf(r) != other;
    ChildNamesCollide(KeyOf(r), other);
    assert ChildFileOf(KeyOf(r)) == ChildFile(r);
    WiredChild(t, r, p, previous, ClusterFor(p, r.defaultEnvironment), ChildFile(r));
    hide Wired, ClusterFor, ChildFile, ShiftsDash;
  }
}
