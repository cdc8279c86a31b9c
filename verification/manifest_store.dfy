/** LocalManifestStore as it works on the tree in place; every method ends in the tree its specification gives. */
module ManifestStore {
  import opened Text
  import opened ImageReference
  import opened ManifestTree

  /** What a method reports and leaves behind, against its specification. */
  predicate Meets(before: Tree, after: Tree, failure: Option<Failure>, result: Result) {
    match result
    case Done(t) => failure == None && after == t
    case Error(f) => failure == Some(f) && after == before
  }

  /** Cluster directories after the roots of some of them are rewritten. */
  function WithRoots(before: map<string, ClusterDir>, ids: set<string>): map<string, ClusterDir> {
    map c | c in before.Keys + ids ::
      if c !in ids then before[c] else if c in before then Rooted(before[c]) else Rooted(EMPTY_CLUSTER)
  }

  lemma NoRoots(before: map<string, ClusterDir>)
    ensures WithRoots(before, {}) == before
  {
  }

  lemma OneMoreRoot(before: map<string, ClusterDir>, ids: set<string>, c: string, t: Tree)
    requires t.clusters == WithRoots(before, ids)
    ensures t.clusters[c := Rooted(ClusterAt(t, c))] == WithRoots(before, ids + {c})
  {
    hide YamlFiles;
    var after, more := WithRoots(before, ids), WithRoots(before, ids + {c});
    assert more.Keys == after.Keys + {c};
  }

  lemma OneLessPending(pending: set<string>, done: set<string>, base: set<string>, c: string)
    requires c in pending
    ensures (pending - {c}) + (done + {c}) == pending + done
    ensures base + (done + {c}) == base + done + {c}
  {
  }

  function WithChildAt(before: map<string, ClusterDir>, c: string, file: string, child: Child): map<string, ClusterDir> {
    var d := if c in before then before[c] else EMPTY_CLUSTER;
    before[c := Rooted(d.(children := d.children[file := child]))]
  }

  function WithoutChildAt(before: map<string, ClusterDir>, c: string, file: string): map<string, ClusterDir> {
    var d := if c in before then before[c] else EMPTY_CLUSTER;
    before[c := Rooted(d.(children := d.children - {file}))]
  }

  /** A child written or removed, then the root rewritten. */
  lemma ThenRooted(t: Tree, c: string, file: string, child: Child)
    ensures var d := ClusterAt(t, c);
            var written := t.(clusters := t.clusters[c := d.(children := d.children[file := child])]);
            written.clusters[c := Rooted(ClusterAt(written, c))] == WithChildAt(t.clusters, c, file, child)
    ensures var d := ClusterAt(t, c);
            var removed := t.(clusters := if c in t.clusters then t.clusters[c := d.(children := d.children - {file})] else t.clusters);
            removed.clusters[c := Rooted(ClusterAt(removed, c))] == WithoutChildAt(t.clusters, c, file)
  {
    hide YamlFiles;
  }

  /** The clusters that the steps of syncFluxWiring lead to. */
  function WiredClustersInSteps(t: Tree, r: Record, p: Project, previousEnvironment: string): map<string, ClusterDir> {
    var current, previous := ClusterFor(p, r.defaultEnvironment), ClusterFor(p, previousEnvironment);
    var written := WithChildAt(WithRoots(t.clusters, ClusterIds(p)), current, ChildFile(r), ChildFor(r));
    if previous == current then written else WithoutChildAt(written, previous, ChildFile(r))
  }

  lemma WiredInStepsAt(t: Tree, r: Record, p: Project, previousEnvironment: string, c: string)
    ensures var steps := WiredClustersInSteps(t, r, p, previousEnvironment);
            && (c in steps <==> c in t.clusters.Keys + WiredClusters(p, r, previousEnvironment))
            && (c in steps ==> steps[c] == WiredCluster(ClusterAt(t, c), c, r, p, previousEnvironment))
  {
    hide ClusterFor, ClusterIds, ChildFile, ChildFor, YamlFiles;
  }

  /** The steps of syncFluxWiring add up to its specification. */
  lemma WiredInSteps(t: Tree, r: Record, p: Project, previousEnvironment: string)
    ensures Wired(t, r, p, previousEnvironment)
            == Tree(t.apps, WiredClustersInSteps(t, r, p, previousEnvironment), t.bootstrap + ClusterIds(p))
  {
    hide WiredClustersInSteps, WiredCluster, WiredClusters, ClusterAt, ClusterIds;
    var steps, wired := WiredClustersInSteps(t, r, p, previousEnvironment), Wired(t, r, p, previousEnvironment).clusters;
    forall c ensures c in steps <==> c in wired { WiredInStepsAt(t, r, p, previousEnvironment, c); }
    forall c | c in wired ensures steps[c] == wired[c] { WiredInStepsAt(t, r, p, previousEnvironment, c); }
    assert steps == wired;
  }

  /** Wiring looks at the clusters and leaves the applications alone. */
  lemma WiringIgnoresApps(t: Tree, t': Tree, r: Record, p: Project, previousEnvironment: string)
    requires t'.clusters == t.clusters && t'.bootstrap == t.bootstrap
    ensures Wired(t', r, p, previousEnvironment) == Wired(t, r, p, previousEnvironment).(apps := t'.apps)
  {
    hide WiredCluster, WiredClusters, ClusterIds;
    assert forall c :: ClusterAt(t', c) == ClusterAt(t, c);
  }

  lemma UnwiringIgnoresApps(t: Tree, r: Record)
    ensures Unwired(t, r).apps == t.apps && Unwired(t, r).bootstrap == t.bootstrap
  {
  }

  /** The recorded environments include the default one, so patching need not add it. */
  lemma RecordsDefault(t: Tree, r: Record)
    ensures r.defaultEnvironment in RecordedEnvironments(t, r)
  {
  }

  class LocalManifestStore {
    var apps: map<Key, AppDir>
    var clusters: map<string, ClusterDir>
    var bootstrap: set<string>

    ghost function View(): Tree
      reads this
    {
      Tree(apps, clusters, bootstrap)
    }

    constructor ()
      ensures View() == Tree(map[], map[], {})
    {
      apps, clusters, bootstrap := map[], map[], {};
    }

    method WriteApplicationFiles(r: Record, environments: set<string>)
      modifies this`apps
      ensures apps == old(apps)[KeyOf(r) := WithFiles(AppAt(old(View()), KeyOf(r)), r, environments)]
    {
      var dir := if KeyOf(r) in apps then apps[KeyOf(r)] else EMPTY_APP;
      var files := FilesToWrite(r);
      var written := WriteBase(dir.base, r, files);
      var overlays := WriteOverlays(dir.overlays, NormalizedEnvironments(environments, r.defaultEnvironment));
      var base := RemoveBase(written, r);
      hide WrittenFiles, RemovedFiles, ContentOf;
      WriteThenRemove(dir.base, r);
      apps := apps[KeyOf(r) := dir.(base := base, overlays := overlays)];
    }

    static method FilesToWrite(r: Record) returns (files: set<BaseFile>)
      ensures files == WrittenFiles(r)
    {
      files := {Kustomization, WorkloadFile(r), Service, ServiceMonitor, PrometheusRule};
      if r.meshEnabled {
        files := files + {VirtualService, DestinationRule};
      }
      if r.canary {
        files := files + {CanaryService};
      }
      if r.secretPath != "" {
        files := files + {ExternalSecret};
      }
      if r.registrySecretPath != "" {
        files := files + {RegistryExternalSecret};
      }
    }

    /** Files written and files removed do not overlap, so their order does not matter. */
    static lemma WriteThenRemove(before: map<BaseFile, BaseContent>, r: Record)
      ensures before + (map f | f in WrittenFiles(r) :: ContentOf(r, f)) - RemovedFiles(r)
              == before - RemovedFiles(r) + map f | f in WrittenFiles(r) :: ContentOf(r, f)
    {
      BaseIsPartitioned(r);
      hide WrittenFiles, RemovedFiles, ContentOf;
    }

    static method WriteBase(before: map<BaseFile, BaseContent>, r: Record, files: set<BaseFile>)
        returns (base: map<BaseFile, BaseContent>)
      ensures base == before + map f | f in files :: ContentOf(r, f)
    {
      base := before;
      var pending := files;
      while pending != {}
        invariant pending <= files
        invariant base == before + map f | f in files - pending :: ContentOf(r, f)
        decreases |pending|
      {
        var f :| f in pending;
        base := base[f := ContentOf(r, f)];
        pending := pending - {f};
      }
    }

    static method WriteOverlays(before: map<string, string>, environments: set<string>) returns (overlays: map<string, string>)
      ensures overlays == before + map e | e in environments :: e
    {
      overlays := before;
      var pending := environments;
      while pending != {}
        invariant pending <= environments
        invariant overlays == before + map e | e in environments - pending :: e
        decreases |pending|
      {
        var e :| e in pending;
        overlays := overlays[e := e];
        pending := pending - {e};
      }
    }

    /** Removes the alternate workload and whatever the record has switched off. */
    static method RemoveBase(before: map<BaseFile, BaseContent>, r: Record) returns (base: map<BaseFile, BaseContent>)
      ensures base == before - RemovedFiles(r)
    {
      base := before - {if r.canary then Deployment else Rollout};
      if !r.canary {
        base := base - {CanaryService};
      }
      if !r.meshEnabled {
        base := base - {VirtualService, DestinationRule};
      }
      if r.secretPath == "" {
        base := base - {ExternalSecret};
      }
      if r.registrySecretPath == "" {
        base := base - {RegistryExternalSecret};
      }
    }

    /** Scans the applications directory and writes the cluster's kustomization. */
    method RewriteClusterRoot(cluster: string)
      modifies this`clusters
      ensures var c := NormalizeClusterId(cluster); clusters == old(clusters)[c := Rooted(ClusterAt(old(View()), c))]
    {
      var name := NormalizeClusterId(cluster);
      var dir := if name in clusters then clusters[name] else EMPTY_CLUSTER;
      var entries, resources := dir.children.Keys, {};
      while entries != {}
        invariant entries <= dir.children.Keys
        invariant resources == set f | f in dir.children.Keys - entries && IsYaml(f)
        decreases |entries|
      {
        var entry :| entry in entries;
        if IsYaml(entry) {
          resources := resources + {entry};
        }
        entries := entries - {entry};
      }
      assert resources == YamlFiles(dir.children);
      clusters := clusters[name := dir.(root := Some(resources))];
    }

    method EnsureCluster(cluster: string)
      modifies this`clusters, this`bootstrap
      ensures var c := NormalizeClusterId(cluster);
              clusters == old(clusters)[c := Rooted(ClusterAt(old(View()), c))] && bootstrap == old(bootstrap) + {c}
    {
      bootstrap := bootstrap + {NormalizeClusterId(cluster)};
      RewriteClusterRoot(cluster);
    }

    method EnsureClusters(p: Project)
      modifies this`clusters, this`bootstrap
      ensures clusters == WithRoots(old(clusters), ClusterIds(p)) && bootstrap == old(bootstrap) + ClusterIds(p)
    {
      hide ClusterIds, ClusterFor, ClusterAt, NormalizeClusterId, Rooted, WithRoots;
      ClusterNamesAreNormal(p, "");
      var pending := ClusterIds(p);
      ghost var done: set<string> := {};
      NoRoots(clusters);
      while pending != {}
        invariant pending + done == ClusterIds(p) && bootstrap == old(bootstrap) + done
        invariant clusters == WithRoots(old(clusters), done)
        decreases |pending|
      {
        var cluster :| cluster in pending;
        OneLessPending(pending, done, old(bootstrap), cluster);
        OneMoreRoot(old(clusters), done, cluster, View());
        EnsureCluster(cluster);
        pending := pending - {cluster};
        done := done + {cluster};
      }
      assert done == ClusterIds(p);
    }

    method SyncFluxWiring(r: Record, p: Project, previousEnvironment: string)
      modifies this`clusters, this`bootstrap
      ensures View() == Wired(old(View()), r, p, previousEnvironment)
    {
      hide ClusterFor, ClusterIds, ClusterAt, NormalizeClusterId, ChildFile, ChildFor, WithRoots, WithChildAt, WithoutChildAt,
           Rooted, Wired;
      EnsureClusters(p);
      ClusterNamesAreNormal(p, r.defaultEnvironment);
      ClusterNamesAreNormal(p, previousEnvironment);
      var current := ClusterFor(p, r.defaultEnvironment);
      ThenRooted(View(), current, ChildFile(r), ChildFor(r));
      WriteChild(current, ChildFile(r), ChildFor(r));
      RewriteClusterRoot(current);
      var previous := ClusterFor(p, previousEnvironment);
      if previous != current {
        ThenRooted(View(), previous, ChildFile(r), ChildFor(r));
        RemoveChild(previous, ChildFile(r));
        RewriteClusterRoot(previous);
      }
      WiredInSteps(old(View()), r, p, previousEnvironment);
    }

    method WriteChild(cluster: string, file: string, child: Child)
      modifies this`clusters
      ensures var c := NormalizeClusterId(cluster);
              var d := ClusterAt(old(View()), c);
              clusters == old(clusters)[c := d.(children := d.children[file := child])]
    {
      var name := NormalizeClusterId(cluster);
      var dir := if name in clusters then clusters[name] else EMPTY_CLUSTER;
      clusters := clusters[name := dir.(children := dir.children[file := child])];
    }

    method RemoveChild(cluster: string, file: string)
      modifies this`clusters
      ensures var c := NormalizeClusterId(cluster);
              var d := ClusterAt(old(View()), c);
              clusters == if c in old(clusters) then old(clusters)[c := d.(children := d.children - {file})] else old(clusters)
    {
      var name := NormalizeClusterId(cluster);
      if name in clusters {
        clusters := clusters[name := clusters[name].(children := clusters[name].children - {file})];
      }
    }

    /** removeFluxChildren: looks into every cluster directory. */
    method RemoveFluxChildren(r: Record)
      modifies this`clusters
      ensures View() == Unwired(old(View()), r)
    {
      var entries := clusters.Keys;
      while entries != {}
        invariant entries <= old(clusters).Keys == clusters.Keys
        invariant forall c :: c in clusters ==>
                    clusters[c] == if c in entries then old(clusters)[c] else UnwiredCluster(old(clusters)[c], c, r)
        decreases |entries|
      {
        var cluster :| cluster in entries;
        // The path is built from the normalized id, so only a directory under that very name is looked into.
        if NormalizeClusterId(cluster) == cluster && ChildFile(r) in clusters[cluster].children {
          RemoveChild(cluster, ChildFile(r));
          RewriteClusterRoot(cluster);
        }
        entries := entries - {cluster};
      }
    }

    method WriteMetadata(k: Key, m: Metadata)
      modifies this`apps
      ensures apps == old(apps)[k := AppAt(old(View()), k).(metadata := Some(m))]
    {
      var dir := if k in apps then apps[k] else EMPTY_APP;
      apps := apps[k := dir.(metadata := Some(m))];
    }

    method WriteDeploymentRecord(k: Key, deploymentId: string, entry: DeploymentEntry)
      modifies this`apps
      ensures View() == WithEntry(old(View()), k, deploymentId, entry)
    {
      var dir := if k in apps then apps[k] else EMPTY_APP;
      apps := apps[k := dir.(history := dir.history[deploymentId := entry])];
    }

    method Load(k: Key) returns (r: LoadResult)
      ensures r == LoadRecord(View(), k)
    {
      if k !in apps || apps[k].metadata.None? {
        return LoadError(NotFound);
      }
      var m := apps[k].metadata.value;
      if m.archived {
        return LoadError(Archived);
      }
      var record := m.record;
      if record.defaultEnvironment == "" {
        record := record.(defaultEnvironment := "shared");
      }
      r := Loaded(record);
    }

    method Get(id: string) returns (r: LoadResult)
      ensures r == GetApplication(View(), id)
    {
      var k := SplitApplicationId(id);
      if k.None? {
        return LoadError(InvalidId);
      }
      r := Load(k.value);
    }

    method RecordEnvironments(r: Record) returns (environments: set<string>)
      ensures environments == RecordedEnvironments(View(), r)
    {
      var k := KeyOf(r);
      if k !in apps || apps[k].metadata.None? || apps[k].metadata.value.environments == {} {
        return {r.defaultEnvironment};
      }
      environments := NormalizedEnvironments(apps[k].metadata.value.environments, r.defaultEnvironment);
    }

    /** The three writes that create, patch, redeploy and secret-path end with. */
    method Save(r: Record, environments: set<string>, p: Project, previousEnvironment: string)
      modifies this
      ensures View() == Saved(old(View()), r, environments, p, previousEnvironment)
    {
      hide WithFiles, Wired;
      WriteApplicationFiles(r, environments);
      assert Wired(View(), r, p, previousEnvironment).clusters == Wired(old(View()), r, p, previousEnvironment).clusters
             && Wired(View(), r, p, previousEnvironment).bootstrap == Wired(old(View()), r, p, previousEnvironment).bootstrap
             && Wired(View(), r, p, previousEnvironment).apps == apps by {
        WiringIgnoresApps(old(View()), View(), r, p, previousEnvironment);
      }
      SyncFluxWiring(r, p, previousEnvironment);
      WriteMetadata(KeyOf(r), Metadata(r, environments, false));
    }

    method CreateApplication(p: Project, input: CreateRequest, secretPath: string, initialId: string)
        returns (failure: Option<Failure>)
      modifies this
      ensures Meets(old(View()), View(), failure, Created(old(View()), p, input, secretPath, initialId))
    {
      hide Saved, TrimSpace, ExtractImageTag;
      if Key(p.id, input.name) in apps {
        return Some(Conflict);
      }
      var environment := TrimSpace(input.environment);
      if environment == "" {
        environment := if |p.environments| > 0 then p.environments[0] else "shared";
      }
      var record := Record(BuildApplicationId(Key(p.id, input.name)), p.id, input.name, input.image, input.canary,
                           input.meshEnabled, environment, secretPath, input.registrySecretPath);
      var environments := NormalizedEnvironments(ProjectEnvironments(p), environment);
      Save(record, environments, p, "");
      WriteDeploymentRecord(KeyOf(record), initialId, EntryFor(record, "Created"));
      failure := None;
    }

    method UpdateApplicationImage(p: Project, id: string, tag: string, deploymentId: string) returns (failure: Option<Failure>)
      modifies this
      ensures Meets(old(View()), View(), failure, ImageUpdated(old(View()), p, id, tag, deploymentId))
    {
      hide Saved, GetApplication, ReplaceImageTag, ExtractImageTag, RecordedEnvironments;
      var loaded := Get(id);
      if loaded.LoadError? {
        return Some(loaded.failure);
      }
      var record := loaded.record.(image := ReplaceImageTag(loaded.record.image, tag));
      var environments := RecordEnvironments(record);
      Save(record, environments, p, record.defaultEnvironment);
      WriteDeploymentRecord(KeyOf(record), deploymentId, EntryFor(record, "Syncing"));
      failure := None;
    }

    method PatchApplication(p: Project, id: string, input: UpdateRequest) returns (failure: Option<Failure>)
      modifies this
      ensures Meets(old(View()), View(), failure, Patched(old(View()), p, id, input))
    {
      hide Saved, GetApplication, TrimSpace, RecordedEnvironments;
      var loaded := Get(id);
      if loaded.LoadError? {
        return Some(loaded.failure);
      }
      var record := loaded.record;
      var previousEnvironment := record.defaultEnvironment;
      if input.image.Some? {
        record := record.(image := TrimSpace(input.image.value));
      }
      if input.canary.Some? {
        record := record.(canary := input.canary.value);
      }
      if input.environment.Some? && TrimSpace(input.environment.value) != "" {
        record := record.(defaultEnvironment := TrimSpace(input.environment.value));
      }
      if input.meshEnabled.Some? {
        record := record.(meshEnabled := input.meshEnabled.value);
      }
      var environments := RecordEnvironments(record);
      if record.defaultEnvironment !in environments {
        environments := environments + {record.defaultEnvironment};
      }
      RecordsDefault(View(), record);
      Save(record, environments, p, previousEnvironment);
      failure := None;
    }

    method SaveApplicationSecretPath(p: Project, id: string, secretPath: string) returns (failure: Option<Failure>)
      modifies this
      ensures Meets(old(View()), View(), failure, SecretPathSaved(old(View()), p, id, secretPath))
    {
      hide Saved, GetApplication, TrimSpace, RecordedEnvironments;
      var loaded := Get(id);
      if loaded.LoadError? {
        return Some(loaded.failure);
      }
      var record := loaded.record.(secretPath := TrimSpace(secretPath));
      var environments := RecordEnvironments(record);
      Save(record, environments, p, loaded.record.defaultEnvironment);
      failure := None;
    }

    method ArchiveApplication(id: string) returns (failure: Option<Failure>)
      modifies this
      ensures Meets(old(View()), View(), failure, ArchivedTree(old(View()), id))
    {
      hide SplitApplicationId, Unwired;
      var k := SplitApplicationId(id);
      if k.None? {
        return Some(InvalidId);
      }
      if k.value !in apps || apps[k.value].metadata.None? {
        return Some(NotFound);
      }
      var metadata := apps[k.value].metadata.value;
      if metadata.archived {
        return Some(AlreadyArchived);
      }
      UnwiringIgnoresApps(View(), metadata.record);
      RemoveFluxChildren(metadata.record);
      apps := apps[k.value := Stripped(apps[k.value])];
      if metadata.environments == {} {
        metadata := metadata.(environments := {metadata.record.defaultEnvironment});
      }
      WriteMetadata(k.value, metadata.(archived := true));
      failure := None;
    }

    method DeleteApplication(id: string) returns (failure: Option<Failure>)
      modifies this
      ensures Meets(old(View()), View(), failure, Deleted(old(View()), id))
    {
      hide SplitApplicationId, Unwired;
      var k := SplitApplicationId(id);
      if k.None? {
        return Some(InvalidId);
      }
      if k.value !in apps || apps[k.value].metadata.None? {
        return Some(NotFound);
      }
      UnwiringIgnoresApps(View(), apps[k.value].metadata.value.record);
      RemoveFluxChildren(apps[k.value].metadata.value.record);
      apps := apps - {k.value};
      failure := None;
    }

    method UpdateDeployment(id: string, deploymentId: string, entry: DeploymentEntry) returns (failure: Option<Failure>)
      modifies this
      ensures Meets(old(View()), View(), failure, DeploymentUpdated(old(View()), id, deploymentId, entry))
    {
      var k := SplitApplicationId(id);
      if k.None? {
        return Some(InvalidId);
      }
      WriteDeploymentRecord(k.value, deploymentId, entry);
      failure := None;
    }
  }
}
