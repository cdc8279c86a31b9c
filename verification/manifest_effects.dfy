/** What each store operation leaves behind, setting by setting and file by file: the results of ManifestTree's operations
    without the functions that compute them. */
module ManifestEffects {
  import opened Text
  import opened ManifestTree
  import opened ManifestRuns
  import ImageReference

  // ---------------------------------------------------------------- manifests

  /** The manifests that settings call for. */
  predicate CallsFor(r: Record, f: BaseFile) {
    match f
    case Kustomization => true
    case Service => true
    case ServiceMonitor => true
    case PrometheusRule => true
    case Deployment => !r.canary
    case Rollout => r.canary
    case CanaryService => r.canary
    case VirtualService => r.meshEnabled
    case DestinationRule => r.meshEnabled
    case ExternalSecret => r.secretPath != ""
    case RegistryExternalSecret => r.registrySecretPath != ""
  }

  /** The base directory holds the manifests that the settings call for and no other, each rendered from the record, and
      its kustomization lists all of them. */
  ghost predicate HasManifestsOf(base: map<BaseFile, BaseContent>, r: Record) {
    && (forall f :: f in base <==> CallsFor(r, f))
    && (forall f :: f in base && f != Kustomization ==> base[f] == Manifest(r))
    && base[Kustomization].Resources?
    && (forall f :: f in base[Kustomization].files <==> CallsFor(r, f) && f != Kustomization)
  }

  lemma WritesWhatIsCalledFor(r: Record, f: BaseFile)
    ensures f in WrittenFiles(r) <==> CallsFor(r, f)
  {
  }

  lemma WrittenManifests(r: Record, base: map<BaseFile, BaseContent>)
    requires forall f :: f in base <==> f in WrittenFiles(r)
    requires forall f :: f in base ==> base[f] == ContentOf(r, f)
    ensures HasManifestsOf(base, r)
  {
    hide WrittenFiles, RemovedFiles, BaseResources, CallsFor;
    BaseIsPartitioned(r);
    forall f ensures f in WrittenFiles(r) <==> CallsFor(r, f) { WritesWhatIsCalledFor(r, f); }
    assert CallsFor(r, Kustomization) by { KustomizationIsCalledFor(r); }
  }

  lemma KustomizationIsCalledFor(r: Record)
    ensures CallsFor(r, Kustomization)
  {
  }

  /** Whatever was in the directory, saving leaves the manifests of the saved record. */
  lemma SavedManifests(t: Tree, r: Record, environments: set<string>, p: Project, previous: string)
    ensures var t' := Saved(t, r, environments, p, previous);
            KeyOf(r) in t'.apps && HasManifestsOf(t'.apps[KeyOf(r)].base, r)
  {
    hide Wired, HasManifestsOf, NormalizedEnvironments;
    BaseIsPartitioned(r);
    hide WrittenFiles, RemovedFiles, ContentOf;
    WrittenManifests(r, Saved(t, r, environments, p, previous).apps[KeyOf(r)].base);
  }

  lemma SavedOverlayKeys(t: Tree, r: Record, environments: set<string>, p: Project, previous: string)
    ensures var t' := Saved(t, r, environments, p, previous);
            && KeyOf(r) in t'.apps
            && t'.apps[KeyOf(r)].overlays.Keys == AppAt(t, KeyOf(r)).overlays.Keys + NormalizedEnvironments(environments, r.defaultEnvironment)
            && t'.apps == t.apps[KeyOf(r) := t'.apps[KeyOf(r)]]
  {
    hide Wired, WrittenFiles, RemovedFiles, ContentOf, NormalizedEnvironments;
  }

  /** In every tree a run reaches. */
  lemma LiveManifests(s: Setting, es: seq<Event>, k: Key)
    requires IsSetting(s) && IsRun(s, EMPTY, es) && IsLive(Final(s, EMPTY, es), k)
    ensures HasManifestsOf(Final(s, EMPTY, es).apps[k].base, MetadataAt(Final(s, EMPTY, es), k).record)
  {
    hide IsSetting, IsRun, Final, HasManifestsOf, WrittenFiles, ContentOf, HomeOk, ChildOk, RootOk;
    EmptyIsOk(s);
    RunKeepsTree(s, EMPTY, es);
    var t := Final(s, EMPTY, es);
    assert AppOk(s, t, k);
    WrittenManifests(MetadataAt(t, k).record, t.apps[k].base);
  }

  // ---------------------------------------------------------------- the operations

  /** Only the application itself is touched, and its history as given. */
  ghost predicate OnlyTouches(t: Tree, t': Tree, k: Key, history: map<string, DeploymentEntry>) {
    && k in t'.apps && t'.apps == t.apps[k := t'.apps[k]] && t'.apps[k].history == history
    && t'.apps[k].metadata.Some? && !t'.apps[k].metadata.value.archived
    && HasManifestsOf(t'.apps[k].base, t'.apps[k].metadata.value.record)
  }

  lemma EntryTouches(t: Tree, t': Tree, k: Key, history: map<string, DeploymentEntry>, deploymentId: string, entry: DeploymentEntry)
    requires OnlyTouches(t, t', k, history)
    ensures OnlyTouches(t, WithEntry(t', k, deploymentId, entry), k, history[deploymentId := entry])
    ensures WithEntry(t', k, deploymentId, entry).apps[k].metadata == t'.apps[k].metadata
    ensures WithEntry(t', k, deploymentId, entry).apps[k].overlays == t'.apps[k].overlays
  {
    hide HasManifestsOf;
  }

  lemma SaveTouches(t: Tree, r: Record, environments: set<string>, p: Project, previous: string)
    ensures var t' := Saved(t, r, environments, p, previous);
            && OnlyTouches(t, t', KeyOf(r), AppAt(t, KeyOf(r)).history)
            && t'.apps[KeyOf(r)].metadata == Some(Metadata(r, environments, false))
  {
    hide Saved, HasManifestsOf;
    SavedRecord(t, r, environments, p, previous);
    SavedOverlayKeys(t, r, environments, p, previous);
    SavedManifests(t, r, environments, p, previous);
  }

  /** Each setting a patch names is stored, trimmed where it is text, and every other is kept; a blank environment counts
      as none. */
  predicate IsPatched(r: Record, r': Record, patch: UpdateRequest) {
    && r'.id == r.id && r'.project == r.project && r'.name == r.name
    && r'.secretPath == r.secretPath && r'.registrySecretPath == r.registrySecretPath
    && (patch.image.Some? ==> r'.image == TrimSpace(patch.image.value)) && (patch.image.None? ==> r'.image == r.image)
    && (patch.canary.Some? ==> r'.canary == patch.canary.value) && (patch.canary.None? ==> r'.canary == r.canary)
    && (patch.meshEnabled.Some? ==> r'.meshEnabled == patch.meshEnabled.value)
    && (patch.meshEnabled.None? ==> r'.meshEnabled == r.meshEnabled)
    && (patch.environment.Some? && !IsBlank(patch.environment.value) ==>
          r'.defaultEnvironment == TrimSpace(patch.environment.value))
    && (patch.environment.None? || IsBlank(patch.environment.value) ==> r'.defaultEnvironment == r.defaultEnvironment)
  }

  lemma PatchSets(r: Record, patch: UpdateRequest)
    ensures IsPatched(r, PatchedRecord(r, patch), patch)
  {
    if patch.environment.Some? { TrimSpaceBlank(patch.environment.value); }
    hide TrimSpace, IsBlank;
  }

  lemma EnvironmentsWith(s: Setting, t: Tree, k: Key, r: Record)
    requires AppOk(s, t, k) && IsLive(t, k) && KeyOf(r) == k
    ensures RecordedEnvironments(t, r) == MetadataAt(t, k).environments + {r.defaultEnvironment}
  {
    hide FilesOk, IsBlank, FluxEnvironment;
    assert MetadataAt(t, k).record.defaultEnvironment in MetadataAt(t, k).environments;
  }

  /** The stored settings after a patch; the new default environment joins the recorded ones. */
  lemma PatchIsRecorded(s: Setting, t: Tree, p: Project, id: string, patch: UpdateRequest) returns (k: Key)
    requires TreeOk(s, t) && GetApplication(t, id).Loaded?
    ensures IsLive(t, k) && SplitApplicationId(id) == Some(k) && Patched(t, p, id, patch).Done?
    ensures var t' := Patched(t, p, id, patch).tree;
            && OnlyTouches(t, t', k, t.apps[k].history)
            && var before, after := MetadataAt(t, k), MetadataAt(t', k);
               && IsPatched(before.record, after.record, patch)
               && after.environments == before.environments + {after.record.defaultEnvironment}
  {
    hide AppOk, SplitApplicationId, GetApplication, Saved, PatchedRecord, RecordedEnvironments, IsPatched, OnlyTouches;
    k := LiveById(s, t, id);
    var record := MetadataAt(t, k).record;
    var r := PatchedRecord(record, patch);
    PatchSets(record, patch);
    assert KeyOf(r) == k by { PatchKeepsKey(record, patch); }
    assert AppOk(s, t, k);
    EnvironmentsWith(s, t, k, r);
    SaveTouches(t, r, RecordedEnvironments(t, r), p, record.defaultEnvironment);
    hide TreeOk;
  }

  lemma PatchKeepsKey(r: Record, patch: UpdateRequest)
    ensures KeyOf(PatchedRecord(r, patch)) == KeyOf(r)
  {
  }

  /** The stored secret path after a change of it. */
  lemma SecretPathIsRecorded(s: Setting, t: Tree, p: Project, id: string, path: string) returns (k: Key)
    requires TreeOk(s, t) && GetApplication(t, id).Loaded?
    ensures IsLive(t, k) && SplitApplicationId(id) == Some(k) && SecretPathSaved(t, p, id, path).Done?
    ensures var t' := SecretPathSaved(t, p, id, path).tree;
            && OnlyTouches(t, t', k, t.apps[k].history)
            && MetadataAt(t', k).record == MetadataAt(t, k).record.(secretPath := TrimSpace(path))
            && MetadataAt(t', k).environments == MetadataAt(t, k).environments
  {
    hide AppOk, SplitApplicationId, GetApplication, Saved, RecordedEnvironments, OnlyTouches, TrimSpace;
    k := LiveById(s, t, id);
    var record := MetadataAt(t, k).record;
    var r := record.(secretPath := TrimSpace(path));
    assert AppOk(s, t, k);
    EnvironmentsWith(s, t, k, r);
    DefaultIsRecorded(s, t, k);
    SaveTouches(t, r, RecordedEnvironments(t, r), p, record.defaultEnvironment);
    hide TreeOk;
  }

  lemma DefaultIsRecorded(s: Setting, t: Tree, k: Key)
    requires AppOk(s, t, k) && IsLive(t, k)
    ensures MetadataAt(t, k).environments + {MetadataAt(t, k).record.defaultEnvironment} == MetadataAt(t, k).environments
  {
    hide FilesOk, IsBlank, FluxEnvironment;
  }

  /** A redeploy that succeeds has recorded itself: the image with its tag replaced, and under the deployment id an entry of
      that image and tag; every other entry stays. */
  lemma RedeployIsRecorded(s: Setting, t: Tree, p: Project, id: string, tag: string, deploymentId: string) returns (k: Key)
    requires TreeOk(s, t) && GetApplication(t, id).Loaded?
    ensures IsLive(t, k) && SplitApplicationId(id) == Some(k) && ImageUpdated(t, p, id, tag, deploymentId).Done?
    ensures var t' := ImageUpdated(t, p, id, tag, deploymentId).tree;
            var r := MetadataAt(t, k).record;
            var image := ImageReference.ReplaceImageTag(r.image, tag);
            var entry := DeploymentEntry(r.id, r.defaultEnvironment, image, ImageReference.ExtractImageTag(image), "Syncing");
            && OnlyTouches(t, t', k, t.apps[k].history[deploymentId := entry])
            && (ImageReference.IsPlainTag(tag) ==> entry.imageTag == tag)
            && MetadataAt(t', k).record == r.(image := image) && MetadataAt(t', k).environments == MetadataAt(t, k).environments
  {
    hide AppOk, SplitApplicationId, GetApplication, Saved, RecordedEnvironments, OnlyTouches, WithEntry;
    hide ImageReference.ReplaceImageTag, ImageReference.ExtractImageTag;
    k := LiveById(s, t, id);
    var record := MetadataAt(t, k).record;
    var r := record.(image := ImageReference.ReplaceImageTag(record.image, tag));
    if ImageReference.IsPlainTag(tag) { ImageReference.ReplaceTagAlgebra(record.image, tag, tag); }
    assert AppOk(s, t, k);
    EnvironmentsWith(s, t, k, r);
    DefaultIsRecorded(s, t, k);
    SaveTouches(t, r, RecordedEnvironments(t, r), p, r.defaultEnvironment);
    EntryTouches(t, Saved(t, r, RecordedEnvironments(t, r), p, r.defaultEnvironment), k, t.apps[k].history, deploymentId,
                 EntryFor(r, "Syncing"));
    hide TreeOk;
  }

  /** What a create stores, where no directory is in its way; anything in the directory is a conflict. */
  lemma CreateIsRecorded(t: Tree, p: Project, input: CreateRequest, secretPath: string, initialId: string)
    ensures var k := Key(p.id, input.name);
            if k in t.apps then Created(t, p, input, secretPath, initialId) == Error(Conflict)
            else
              && Created(t, p, input, secretPath, initialId).Done?
              && var t' := Created(t, p, input, secretPath, initialId).tree;
                 && k in t'.apps && t'.apps[k].metadata.Some?
                 && var m := t'.apps[k].metadata.value;
                    var r := m.record;
                    && OnlyTouches(t, t', k, map[initialId :=
                         DeploymentEntry(r.id, r.defaultEnvironment, r.image, ImageReference.ExtractImageTag(r.image), "Created")])
                    && IsRequested(r, p, input, secretPath)
                    && (forall e :: e in m.environments <==> (e in p.environments && !IsBlank(e)) || e == r.defaultEnvironment)
                    && t'.apps[k].overlays.Keys == m.environments
  {
    hide Saved, HasManifestsOf, WithEntry, TrimSpace, IsBlank, ImageReference.ExtractImageTag;
    var r, k := CreatedRecord(p, input, secretPath), Key(p.id, input.name);
    if k !in t.apps {
      var environments := NormalizedEnvironments(ProjectEnvironments(p), r.defaultEnvironment);
      SaveTouches(t, r, environments, p, "");
      SavedOverlayKeys(t, r, environments, p, "");
      var saved := Saved(t, r, environments, p, "");
      EntryTouches(t, saved, k, map[], initialId, EntryFor(r, "Created"));
      CreateSets(p, input, secretPath);
      assert NormalizedEnvironments(environments, r.defaultEnvironment) == environments;
    }
  }

  /** The record of a new application: the settings as requested, in the environment requested or else the project's first. */
  predicate IsRequested(r: Record, p: Project, input: CreateRequest, secretPath: string) {
    && r.id == p.id + "__" + input.name && r.project == p.id && r.name == input.name && r.image == input.image
    && r.canary == input.canary && r.meshEnabled == input.meshEnabled
    && r.secretPath == secretPath && r.registrySecretPath == input.registrySecretPath
    && (!IsBlank(input.environment) ==> r.defaultEnvironment == TrimSpace(input.environment))
    && (IsBlank(input.environment) && p.environments != [] ==> r.defaultEnvironment == p.environments[0])
    && (IsBlank(input.environment) && p.environments == [] ==> r.defaultEnvironment == "shared")
  }

  lemma CreateSets(p: Project, input: CreateRequest, secretPath: string)
    ensures IsRequested(CreatedRecord(p, input, secretPath), p, input, secretPath)
  {
    TrimSpaceBlank(input.environment);
    hide TrimSpace, IsBlank;
  }

  /** Every save scaffolds the clusters of its project and leaves each of them with a root that lists its manifests. */
  lemma SaveScaffolds(t: Tree, r: Record, environments: set<string>, p: Project, previous: string, c: string)
    requires c in ClusterIds(p) || c == ClusterFor(p, r.defaultEnvironment)
    ensures var t' := Saved(t, r, environments, p, previous);
            && (c in ClusterIds(p) ==> c in t'.bootstrap) && t.bootstrap <= t'.bootstrap
            && c in t'.clusters && t'.clusters[c].root == Some(set f | f in t'.clusters[c].children && IsYaml(f))
  {
    hide ClusterFor, ClusterIds, ChildFile, ChildFor, WithFiles, IsYaml;
  }

  /** A rewritten history entry is the one given, and the only thing that changes. */
  lemma UpdatedDeploymentIsRecorded(t: Tree, id: string, k: Key, deploymentId: string, entry: DeploymentEntry)
    requires SplitApplicationId(id) == Some(k) && k in t.apps
    ensures DeploymentUpdated(t, id, deploymentId, entry) ==
            Done(t.(apps := t.apps[k := t.apps[k].(history := t.apps[k].history[deploymentId := entry])]))
  {
    hide SplitApplicationId;
  }

  // ---------------------------------------------------------------- taking out of service

  /** No cluster has a child of the application. */
  ghost predicate HasNoChild(t: Tree, k: Key) {
    forall c, f :: HasChild(t, c, f) ==> t.clusters[c].children[f].overlay.app != k && f != k.project + "-" + k.name + ".yaml"
  }

  lemma UnwiredHasNoChild(s: Setting, t: Tree, k: Key, c: string, f: string)
    requires TreeOk(s, t) && k in t.apps && t.apps[k].metadata.Some? && HasChild(Unwired(t, MetadataAt(t, k).record), c, f)
    ensures Unwired(t, MetadataAt(t, k).record).clusters[c].children[f].overlay.app != k
    ensures f != k.project + "-" + k.name + ".yaml"
  {
    var r := MetadataAt(t, k).record;
    hide ClusterFor, IsBlank, FluxEnvironment, FilesOk, HomeOk, Unwired;
    assert AppOk(s, t, k) && RootOk(t, c);
    UnwiredChild(t, r, c, f);
    assert ChildOk(s, t, c, f);
    var owner := t.clusters[c].children[f].overlay.app;
    assert AppOk(s, t, owner);
    if owner == k { SameFile(MetadataAt(t, owner).record, r); }
  }

  lemma UnwiredLeavesNone(s: Setting, t: Tree, k: Key)
    requires TreeOk(s, t) && k in t.apps && t.apps[k].metadata.Some?
    ensures HasNoChild(Unwired(t, MetadataAt(t, k).record), k)
  {
    hide TreeOk, Unwired;
    var t' := Unwired(t, MetadataAt(t, k).record);
    forall c, f | HasChild(t', c, f)
      ensures t'.clusters[c].children[f].overlay.app != k && f != k.project + "-" + k.name + ".yaml"
    {
      UnwiredHasNoChild(s, t, k, c, f);
    }
  }

  /** An archived application keeps its record, environments and history; its manifests and its children are gone. */
  lemma ArchiveIsRecorded(s: Setting, t: Tree, id: string, k: Key)
    requires TreeOk(s, t) && SplitApplicationId(id) == Some(k) && IsLive(t, k)
    ensures ArchivedTree(t, id).Done?
    ensures var t' := ArchivedTree(t, id).tree;
            && t'.apps == t.apps[k := AppDir(map[], map[], Some(MetadataAt(t, k).(archived := true)), t.apps[k].history)]
            && HasNoChild(t', k)
  {
    assert AppOk(s, t, k);
    var m := MetadataAt(t, k);
    assert m.environments != {};
    UnwiredLeavesNone(s, t, k);
    hide TreeOk, AppOk, SplitApplicationId, Unwired;
    var t' := ArchivedTree(t, id).tree;
    assert t'.clusters == Unwired(t, m.record).clusters;
    assert HasNoChild(t', k);
  }

  /** A deleted application is gone, live or archived before, with its children. */
  lemma DeleteIsRecorded(s: Setting, t: Tree, id: string, k: Key)
    requires TreeOk(s, t) && SplitApplicationId(id) == Some(k) && k in t.apps
    ensures Deleted(t, id).Done?
    ensures Deleted(t, id).tree.apps == t.apps - {k} && HasNoChild(Deleted(t, id).tree, k)
  {
    assert AppOk(s, t, k);
    UnwiredLeavesNone(s, t, k);
    hide TreeOk, AppOk, SplitApplicationId, Unwired;
    var t' := Deleted(t, id).tree;
    assert t'.clusters == Unwired(t, MetadataAt(t, k).record).clusters;
    assert HasNoChild(t', k);
  }

  predicate KeepsChild(t: Tree, t': Tree, c: string, f: string)
    requires HasChild(t, c, f)
  {
    HasChild(t', c, f) && t'.clusters[c].children[f] == t.clusters[c].children[f]
  }

  /** Taking an application out of service touches no child of another. */
  lemma OthersKeepTheirChildren(s: Setting, t: Tree, id: string, k: Key, c: string, f: string)
    requires IsSetting(s) && TreeOk(s, t) && SplitApplicationId(id) == Some(k) && k in t.apps
    requires HasChild(t, c, f) && t.clusters[c].children[f].overlay.app != k
    ensures Deleted(t, id).Done? && (IsLive(t, k) ==> ArchivedTree(t, id).Done?)
    ensures KeepsChild(t, Deleted(t, id).tree, c, f) && (IsLive(t, k) ==> KeepsChild(t, ArchivedTree(t, id).tree, c, f))
  {
    assert AppOk(s, t, k) && ChildOk(s, t, c, f);
    var r, owner := MetadataAt(t, k).record, t.clusters[c].children[f].overlay.app;
    assert AppOk(s, t, owner);
    hide TreeOk, ClusterFor, IsBlank, FluxEnvironment, FilesOk, HomeOk, Unwired, ChildFile;
    DistinctChildFiles(s, MetadataAt(t, owner).record, r);
    UnwiredChild(t, r, c, f);
    assert Deleted(t, id).tree.clusters == Unwired(t, r).clusters;
    if IsLive(t, k) { assert ArchivedTree(t, id).tree.clusters == Unwired(t, r).clusters; }
  }

  // ---------------------------------------------------------------- refusals

  /** Why the store cannot find a live application of an id; None if it can. */
  function NotLive(t: Tree, id: string): Option<Failure> {
    var key := SplitApplicationId(id);
    if key.None? then Some(InvalidId)
    else if key.value !in t.apps || t.apps[key.value].metadata.None? then Some(NotFound)
    else if t.apps[key.value].metadata.value.archived then Some(Archived)
    else None
  }

  /** Each operation on an application is refused for exactly these reasons, each with its own error. */
  lemma RefusalsAreExact(t: Tree, p: Project, id: string, tag: string, deploymentId: string, patch: UpdateRequest, path: string,
                         entry: DeploymentEntry)
    ensures var failure := NotLive(t, id);
            && (failure == None ==> ImageUpdated(t, p, id, tag, deploymentId).Done? && Patched(t, p, id, patch).Done?
                                    && SecretPathSaved(t, p, id, path).Done? && ArchivedTree(t, id).Done? && Deleted(t, id).Done?)
            && (failure.Some? ==>
                  && ImageUpdated(t, p, id, tag, deploymentId) == Patched(t, p, id, patch) == SecretPathSaved(t, p, id, path)
                     == Error(failure.value)
                  && ArchivedTree(t, id) == Error(if failure.value == Archived then AlreadyArchived else failure.value)
                  && if failure.value == Archived then Deleted(t, id).Done? else Deleted(t, id) == Error(failure.value))
            && DeploymentUpdated(t, id, deploymentId, entry).Error? == (failure == Some(InvalidId))
  {
    hide SplitApplicationId, Saved, Unwired, PatchedRecord, RecordedEnvironments, WithEntry, EntryFor, ImageReference.ReplaceImageTag;
  }

  // ---------------------------------------------------------------- clusters

  /** The directory of a cluster: its trimmed id, or "default". */
  lemma DirectoryOf(c: string)
    ensures NormalizeClusterId(c) == if IsBlank(c) then "default" else TrimSpace(c)
  {
    TrimSpaceBlank(c);
    hide TrimSpace, IsBlank;
  }

  predicate IsUnmapped(p: Project, environment: string) {
    environment !in p.clusters || IsBlank(p.clusters[environment])
  }

  lemma MappedIs(p: Project, environment: string)
    ensures IsUnmapped(p, environment) ==> MappedCluster(p, environment) == ""
    ensures !IsUnmapped(p, environment) ==>
              MappedCluster(p, environment) == TrimSpace(p.clusters[environment]) && MappedCluster(p, environment) != ""
  {
    if environment in p.clusters { TrimSpaceBlank(p.clusters[environment]); }
    hide TrimSpace, IsBlank;
  }

  lemma {:induction false} FirstMappedIs(p: Project, environments: seq<string>, k: nat)
    requires k <= |environments| && (forall j :: 0 <= j < k ==> IsUnmapped(p, environments[j]))
    ensures k < |environments| && !IsUnmapped(p, environments[k]) ==>
              FirstMappedCluster(p, environments) == TrimSpace(p.clusters[environments[k]]) && FirstMappedCluster(p, environments) != ""
    ensures k == |environments| ==> FirstMappedCluster(p, environments) == ""
  {
    hide MappedCluster, TrimSpace, IsUnmapped;
    if environments != [] {
      MappedIs(p, environments[0]);
      if k > 0 { FirstMappedIs(p, environments[1..], k - 1); }
    }
  }

  lemma {:induction false} FirstTargetIs(targets: seq<string>, k: nat)
    requires k <= |targets| && (forall j :: 0 <= j < k ==> IsBlank(targets[j]))
    ensures k < |targets| && !IsBlank(targets[k]) ==> FirstTarget(targets) == TrimSpace(targets[k]) && FirstTarget(targets) != ""
    ensures k == |targets| ==> FirstTarget(targets) == ""
  {
    hide TrimSpace, IsBlank;
    if targets != [] {
      TrimSpaceBlank(targets[0]);
      if k > 0 { FirstTargetIs(targets[1..], k - 1); }
    }
  }

  /** Where an environment goes: to the cluster it is mapped to; if it is mapped to none, to that of the project's first
      mapped environment; else to the first target the project allows; else to "default". */
  lemma EnvironmentGoesTo(p: Project, environment: string, mapped: nat, target: nat)
    requires mapped <= |p.environments| && (forall j :: 0 <= j < mapped ==> IsUnmapped(p, p.environments[j]))
    requires mapped < |p.environments| ==> !IsUnmapped(p, p.environments[mapped])
    requires target <= |p.allowedClusterTargets| && (forall j :: 0 <= j < target ==> IsBlank(p.allowedClusterTargets[j]))
    requires target < |p.allowedClusterTargets| ==> !IsBlank(p.allowedClusterTargets[target])
    ensures ClusterFor(p, environment) ==
            if !IsUnmapped(p, TrimSpace(environment)) then TrimSpace(p.clusters[TrimSpace(environment)])
            else if mapped < |p.environments| then TrimSpace(p.clusters[p.environments[mapped]])
            else if target < |p.allowedClusterTargets| then TrimSpace(p.allowedClusterTargets[target])
            else "default"
  {
    hide MappedCluster, FirstMappedCluster, FirstTarget, IsUnmapped, IsBlank, TrimSpace;
    MappedIs(p, TrimSpace(environment));
    FirstMappedIs(p, p.environments, mapped);
    FirstTargetIs(p.allowedClusterTargets, target);
  }

  /** The clusters a project scaffolds are those its environments are mapped to; without any, the one everything goes to. */
  lemma ProjectScaffolds(p: Project, c: string)
    ensures (exists e :: e in p.environments && !IsUnmapped(p, e)) ==>
              (c in ClusterIds(p) <==> exists e :: e in p.environments && !IsUnmapped(p, e) && c == TrimSpace(p.clusters[e]))
    ensures (forall e :: e in p.environments ==> IsUnmapped(p, e)) ==> ClusterIds(p) == {ClusterFor(p, "")}
  {
    hide MappedCluster, ClusterFor, IsBlank, TrimSpace;
    forall e ensures IsUnmapped(p, e) ==> MappedCluster(p, e) == ""
             ensures !IsUnmapped(p, e) ==> MappedCluster(p, e) == TrimSpace(p.clusters[e]) && MappedCluster(p, e) != ""
    {
      MappedIs(p, e);
    }
    if e :| e in p.environments && !IsUnmapped(p, e) {
      assert MappedCluster(p, e) in ClusterIds(p);
    }
  }

  /** So the child of a live application whose environment is mapped lies in that very cluster's directory, under the
      project's and its own name, with the application's id and overlay. */
  lemma ChildGoesToItsCluster(s: Setting, es: seq<Event>, k: Key)
    requires IsSetting(s) && IsRun(s, EMPTY, es) && IsLive(Final(s, EMPTY, es), k)
    ensures k.project in s.projects
    ensures var t, p := Final(s, EMPTY, es), s.projects[k.project];
            var environment := TrimSpace(MetadataAt(t, k).record.defaultEnvironment);
            !IsUnmapped(p, environment) ==>
              && HasChild(t, TrimSpace(p.clusters[environment]), k.project + "-" + k.name + ".yaml")
              && t.clusters[TrimSpace(p.clusters[environment])].children[k.project + "-" + k.name + ".yaml"]
                 == Child(k.project + "__" + k.name, MetadataAt(t, k).record.defaultEnvironment, OverlayPath(k, environment))
  {
    hide IsSetting, IsRun, Final, IsUnmapped, FilesOk, ChildOk, RootOk, TrimSpace, IsBlank, MappedCluster, FirstMappedCluster;
    EmptyIsOk(s);
    RunKeepsTree(s, EMPTY, es);
    var t := Final(s, EMPTY, es);
    assert AppOk(s, t, k) && HomeOk(s, t, k);
    var r := MetadataAt(t, k).record;
    MappedIs(s.projects[k.project], TrimSpace(r.defaultEnvironment));
    TrimmedIsDefault(r.defaultEnvironment);
  }
}
