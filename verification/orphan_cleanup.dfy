/** Removal of Flux children that no application needs any more (orphan_cleanup.go), on any tree, however it was edited. */
module OrphanCleanup {
  import opened Text
  import opened ManifestTree
  import opened ManifestStore
  import opened ManifestRuns
  import RepositorySync

  // ---------------------------------------------------------------- the specification

  predicate HasArchived(t: Tree) {
    exists k <- t.apps.Keys :: LoadRecord(t, k) == LoadError(Archived)
  }

  /** records is a result of loadKnownApplicationRecords: every record that loads, by its id. Of two records with one id
      either may stay. */
  ghost predicate IsIndex(t: Tree, records: map<string, Record>) {
    && (forall k :: LoadRecord(t, k).Loaded? ==> LoadRecord(t, k).record.id in records)
    && (forall id :: id in records ==> records[id].id == id && exists k :: k in t.apps && LoadRecord(t, k) == Loaded(records[id]))
  }

  /** expectedFluxChildPaths for one record; the last catalog entry with the project's id decides. */
  function ExpectedPath(catalog: seq<Project>, r: Record): Option<ChildPath> {
    if catalog == [] then None
    else
      var last := catalog[|catalog| - 1];
      if last.id == r.project then Some(ChildPath(ClusterFor(last, r.defaultEnvironment), ChildFile(r)))
      else ExpectedPath(catalog[..|catalog| - 1], r)
  }

  /** The application a child is managed for; "" if the file is not the store's. */
  function ManagedId(child: Child): string {
    TrimSpace(child.applicationId)
  }

  /** The cleanup removes the child at this path. */
  predicate IsStaleChild(path: ChildPath, child: Child, catalog: seq<Project>, records: map<string, Record>) {
    var id := ManagedId(child);
    && IsYaml(path.file) && id != ""
    && if id !in records then true
       else ExpectedPath(catalog, records[id]).Some? && ExpectedPath(catalog, records[id]).value != path
  }

  predicate IsStale(t: Tree, path: ChildPath, catalog: seq<Project>, records: map<string, Record>) {
    && HasChild(t, path.cluster, path.file)
    && IsStaleChild(path, t.clusters[path.cluster].children[path.file], catalog, records)
  }

  function ChildPaths(t: Tree): set<ChildPath> {
    set c, f | c in t.clusters && f in t.clusters[c].children :: ChildPath(c, f)
  }

  function StalePaths(t: Tree, catalog: seq<Project>, records: map<string, Record>): set<ChildPath> {
    set path | path in ChildPaths(t) && IsStale(t, path, catalog, records)
  }

  function ClustersOf(paths: set<ChildPath>): set<string> {
    set path | path in paths :: path.cluster
  }

  function Normalized(clusters: set<string>): set<string> {
    set c | c in clusters :: NormalizeClusterId(c)
  }

  /** Cluster directories without some of their children. */
  function WithoutChildren(clusters: map<string, ClusterDir>, paths: set<ChildPath>): map<string, ClusterDir> {
    map c | c in clusters ::
      clusters[c].(children := map f | f in clusters[c].children && ChildPath(c, f) !in paths :: clusters[c].children[f])
  }

  function Cleaned(t: Tree, catalog: seq<Project>, records: map<string, Record>): Tree {
    var stale := StalePaths(t, catalog, records);
    t.(clusters := WithRoots(WithoutChildren(t.clusters, stale), Normalized(ClustersOf(stale))))
  }

  // ---------------------------------------------------------------- the cleanup

  /** Reads every application directory; archived applications make it fail, others without metadata are skipped. */
  method LoadKnownApplicationRecords(store: LocalManifestStore) returns (failed: bool, records: map<string, Record>)
    ensures failed <==> HasArchived(store.View())
    ensures !failed ==> IsIndex(store.View(), records)
  {
    records := map[];
    failed := false;
    var entries := store.apps.Keys;
    ghost var t := store.View();
    while entries != {}
      invariant entries <= store.apps.Keys && !failed
      invariant forall k :: k in store.apps.Keys - entries ==> LoadRecord(t, k) != LoadError(Archived)
      invariant forall k :: k in store.apps.Keys - entries && LoadRecord(t, k).Loaded? ==> LoadRecord(t, k).record.id in records
      invariant forall id :: id in records ==>
                  records[id].id == id && exists k :: k in t.apps && LoadRecord(t, k) == Loaded(records[id])
      decreases |entries|
    {
      var k :| k in entries;
      var loaded := store.Load(k);
      if loaded == LoadError(Archived) {
        failed := true;
        return;
      }
      if loaded.Loaded? {
        records := records[loaded.record.id := loaded.record];
      }
      entries := entries - {k};
    }
  }

  method CleanupOrphanFluxManifests(store: LocalManifestStore, catalog: Option<seq<Project>>)
      returns (removedCount: nat, failed: bool, ghost index: map<string, Record>)
    modifies store`clusters
    ensures failed <==> HasArchived(old(store.View())) || catalog.None?
    ensures failed ==> store.View() == old(store.View()) && removedCount == 0
    ensures !failed ==> IsIndex(old(store.View()), index)
                        && store.View() == Cleaned(old(store.View()), catalog.value, index)
                        && removedCount == |StalePaths(old(store.View()), catalog.value, index)|
  {
    ghost var t := store.View();
    removedCount, index := 0, map[];
    var records;
    failed, records := LoadKnownApplicationRecords(store);
    index := records;
    if failed || catalog.None? {
      failed := true;
      return;
    }
    var touched;
    removedCount, touched := RemoveStaleChildren(store, catalog.value, records);
    RewriteRoots(store, touched);
  }

  method RemoveStaleChildren(store: LocalManifestStore, catalog: seq<Project>, records: map<string, Record>)
      returns (removedCount: nat, touched: set<string>)
    modifies store`clusters
    ensures var stale := StalePaths(old(store.View()), catalog, records);
            && store.clusters == WithoutChildren(old(store.clusters), stale)
            && removedCount == |stale| && touched == ClustersOf(stale)
  {
    hide IsStaleChild, WithoutChildren, StalePaths, ChildPaths, ClustersOf;
    ghost var t := store.View();
    ghost var stale := StalePaths(t, catalog, records);
    var paths := ChildPathsOf(store);
    ghost var removed: set<ChildPath> := {};
    removedCount, touched := 0, {};
    NothingRemoved(store.clusters);
    StaleAreChildren(t, catalog, records);
    while paths != {}
      invariant paths <= ChildPaths(t) && removed == stale - paths
      invariant removedCount == |removed| && touched == ClustersOf(removed)
      invariant store.clusters == WithoutChildren(t.clusters, removed)
      decreases |paths|
    {
      var path :| path in paths;
      StaleByChild(t, path, catalog, records);
      StillThere(t.clusters, removed, path);
      var child := store.clusters[path.cluster].children[path.file];
      if IsStaleChild(path, child, catalog, records) {
        var dir := store.clusters[path.cluster];
        store.clusters := store.clusters[path.cluster := dir.(children := dir.children - {path.file})];
        OneMoreRemoved(t.clusters, removed, path);
        ClusterOfOneMore(removed, path);
        touched := touched + {path.cluster};
        removedCount := removedCount + 1;
        removed := removed + {path};
      }
      paths := paths - {path};
    }
    assert removed == stale;
  }

  lemma StaleAreChildren(t: Tree, catalog: seq<Project>, records: map<string, Record>)
    ensures StalePaths(t, catalog, records) - ChildPaths(t) == {} && ClustersOf({}) == {}
  {
  }

  lemma StaleByChild(t: Tree, path: ChildPath, catalog: seq<Project>, records: map<string, Record>)
    requires path in ChildPaths(t)
    ensures path.cluster in t.clusters && path.file in t.clusters[path.cluster].children
    ensures path in StalePaths(t, catalog, records)
            <==> IsStaleChild(path, t.clusters[path.cluster].children[path.file], catalog, records)
  {
    hide IsStaleChild;
  }

  lemma ClusterOfOneMore(paths: set<ChildPath>, path: ChildPath)
    ensures ClustersOf(paths + {path}) == ClustersOf(paths) + {path.cluster}
  {
  }

  lemma StillThere(clusters: map<string, ClusterDir>, removed: set<ChildPath>, path: ChildPath)
    requires path.cluster in clusters && path.file in clusters[path.cluster].children && path !in removed
    ensures var now := WithoutChildren(clusters, removed);
            && path.cluster in now && path.file in now[path.cluster].children
            && now[path.cluster].children[path.file] == clusters[path.cluster].children[path.file]
  {
    assert ChildPath(path.cluster, path.file) == path;
  }

  method ChildPathsOf(store: LocalManifestStore) returns (paths: set<ChildPath>)
    ensures paths == ChildPaths(store.View())
  {
    paths := {};
    var names := store.clusters.Keys;
    while names != {}
      invariant names <= store.clusters.Keys
      invariant paths == set path | path in ChildPaths(store.View()) && path.cluster !in names
      decreases |names|
    {
      var c :| c in names;
      paths := paths + set f | f in store.clusters[c].children :: ChildPath(c, f);
      names := names - {c};
    }
  }

  method RewriteRoots(store: LocalManifestStore, touched: set<string>)
    modifies store`clusters
    ensures store.clusters == WithRoots(old(store.clusters), Normalized(touched))
  {
    hide NormalizeClusterId, ClusterAt, Rooted, WithRoots;
    var pending := touched;
    ghost var done: set<string> := {};
    NoRoots(store.clusters);
    while pending != {}
      invariant pending <= touched && done == Normalized(touched - pending)
      invariant store.clusters == WithRoots(old(store.clusters), done)
      decreases |pending|
    {
      var c :| c in pending;
      OneMoreRoot(old(store.clusters), done, NormalizeClusterId(c), store.View());
      store.RewriteClusterRoot(c);
      pending := pending - {c};
      done := done + {NormalizeClusterId(c)};
    }
    assert touched - pending == touched;
  }

  lemma NothingRemoved(clusters: map<string, ClusterDir>)
    ensures WithoutChildren(clusters, {}) == clusters
  {
    forall c | c in clusters ensures WithoutChildren(clusters, {})[c] == clusters[c] {
      assert (map f | f in clusters[c].children && ChildPath(c, f) !in {} :: clusters[c].children[f]) == clusters[c].children;
    }
  }

  lemma OneMoreRemoved(clusters: map<string, ClusterDir>, paths: set<ChildPath>, path: ChildPath)
    requires path.cluster in clusters
    ensures var before := WithoutChildren(clusters, paths);
            var dir := before[path.cluster];
            before[path.cluster := dir.(children := dir.children - {path.file})] == WithoutChildren(clusters, paths + {path})
  {
    var before := WithoutChildren(clusters, paths);
    var dir := before[path.cluster];
    var after := WithoutChildren(clusters, paths + {path});
    assert dir.children - {path.file} == after[path.cluster].children;
    forall c | c in clusters && c != path.cluster ensures before[c] == after[c] {
      assert before[c].children == after[c].children;
    }
  }

  // ---------------------------------------------------------------- what a cleanup leaves behind

  /** The cleanup removes exactly the stale children: unmanaged files, expected children and children of applications
      whose project the catalog lost stay as they are, and nothing but the touched roots is written. */
  lemma CleanupRemovesOnlyStale(t: Tree, catalog: seq<Project>, records: map<string, Record>, c: string, f: string)
    ensures var t' := Cleaned(t, catalog, records);
            && (HasChild(t', c, f) <==> HasChild(t, c, f) && !IsStale(t, ChildPath(c, f), catalog, records))
            && (HasChild(t', c, f) ==> t'.clusters[c].children[f] == t.clusters[c].children[f])
            && t'.apps == t.apps && t'.bootstrap == t.bootstrap
  {
    hide IsStaleChild, NormalizeClusterId, YamlFiles;
    var stale := StalePaths(t, catalog, records);
    assert HasChild(t, c, f) ==> ChildPath(c, f) in ChildPaths(t);
  }

  /** Afterwards every managed child is where it is expected, or belongs to an application that exists but has no
      project in the catalog. */
  lemma NoStaleChildIsLeft(t: Tree, catalog: seq<Project>, records: map<string, Record>, c: string, f: string)
    requires var t' := Cleaned(t, catalog, records);
             HasChild(t', c, f) && IsYaml(f) && ManagedId(t'.clusters[c].children[f]) != ""
    ensures var id := ManagedId(Cleaned(t, catalog, records).clusters[c].children[f]);
            id in records && ExpectedPath(catalog, records[id]) in {None, Some(ChildPath(c, f))}
  {
    CleanupRemovesOnlyStale(t, catalog, records, c, f);
  }

  /** The last catalog entry of a project. */
  predicate IsLastEntry(catalog: seq<Project>, project: string, k: nat) {
    k < |catalog| && catalog[k].id == project && forall j :: k < j < |catalog| ==> catalog[j].id != project
  }

  lemma {:induction false} ExpectedByLastEntry(catalog: seq<Project>, r: Record, k: nat)
    ensures IsLastEntry(catalog, r.project, k) ==>
              ExpectedPath(catalog, r) == Some(ChildPath(ClusterFor(catalog[k], r.defaultEnvironment), r.project + "-" + r.name + ".yaml"))
    ensures (forall j :: 0 <= j < |catalog| ==> catalog[j].id != r.project) ==> ExpectedPath(catalog, r) == None
  {
    hide ClusterFor;
    if catalog != [] { ExpectedByLastEntry(catalog[..|catalog| - 1], r, k); }
  }

  /** A child survives the cleanup exactly if it is no manifest, names no application, or names one on record that either
      has no project in the catalog or has its child right here. */
  lemma CleanupKeeps(t: Tree, catalog: seq<Project>, records: map<string, Record>, c: string, f: string, k: nat)
    requires HasChild(t, c, f)
    requires var id := TrimSpace(t.clusters[c].children[f].applicationId);
             id in records && (exists j :: 0 <= j < |catalog| && catalog[j].id == records[id].project) ==>
               IsLastEntry(catalog, records[id].project, k)
    ensures var annotation := t.clusters[c].children[f].applicationId;
            var id := TrimSpace(annotation);
            HasChild(Cleaned(t, catalog, records), c, f) <==>
              || |f| < 5 || f[|f| - 5..] != ".yaml" || IsBlank(annotation)
              || (id in records
                  && var r := records[id];
                     (forall j :: 0 <= j < |catalog| ==> catalog[j].id != r.project)
                     || (c == ClusterFor(catalog[k], r.defaultEnvironment) && f == r.project + "-" + r.name + ".yaml"))
  {
    var annotation := t.clusters[c].children[f].applicationId;
    TrimSpaceBlank(annotation);
    hide TrimSpace, IsBlank, ClusterFor, Cleaned;
    CleanupRemovesOnlyStale(t, catalog, records, c, f);
    var id := TrimSpace(annotation);
    if id in records { ExpectedByLastEntry(catalog, records[id], k); }
  }

  lemma NormalizedOnce(c: string)
    ensures NormalizeClusterId(NormalizeClusterId(c)) == NormalizeClusterId(c)
  {
    var _, _ := TrimSpaceCuts(c);
    TrimSpaceFixed(TrimSpace(c));
    TrimSpaceFixed("default");
    hide TrimSpace;
  }

  /** A cluster directory whose root was right and that loses a child has a right root afterwards exactly if its name is one
      the scaffold keeps; otherwise the root of another directory is rewritten in its place. */
  lemma RootAfterLoss(t: Tree, catalog: seq<Project>, records: map<string, Record>, path: ChildPath)
    requires path in StalePaths(t, catalog, records) && path.cluster in t.clusters
    requires t.clusters[path.cluster].root == Some(YamlFiles(t.clusters[path.cluster].children))
    ensures var t', c := Cleaned(t, catalog, records), path.cluster;
            && c in t'.clusters
            && (t'.clusters[c].root == Some(YamlFiles(t'.clusters[c].children)) <==> NormalizeClusterId(c) == c)
  {
    hide NormalizeClusterId, IsStaleChild;
    var c, t' := path.cluster, Cleaned(t, catalog, records);
    var stale := StalePaths(t, catalog, records);
    if NormalizeClusterId(c) == c {
      TouchedRootsMatch(t, catalog, records, path);
    } else {
      forall other | other in ClustersOf(stale) ensures NormalizeClusterId(other) != c { NormalizedOnce(other); }
      assert c !in Normalized(ClustersOf(stale));
      CleanupRemovesOnlyStale(t, catalog, records, c, path.file);
      StaleIsYaml(t, catalog, records, path);
      assert path.file in YamlFiles(t.clusters[c].children);
      assert path.file !in YamlFiles(t'.clusters[c].children);
    }
  }

  lemma StaleIsYaml(t: Tree, catalog: seq<Project>, records: map<string, Record>, path: ChildPath)
    requires path in StalePaths(t, catalog, records)
    ensures HasChild(t, path.cluster, path.file) && IsYaml(path.file) && IsStale(t, path, catalog, records)
  {
  }

  /** The root of the directory that a cluster which lost a child normalizes to lists exactly the files in it. */
  lemma TouchedRootsMatch(t: Tree, catalog: seq<Project>, records: map<string, Record>, path: ChildPath)
    requires path in StalePaths(t, catalog, records)
    ensures var t' := Cleaned(t, catalog, records);
            var c := NormalizeClusterId(path.cluster);
            c in t'.clusters && t'.clusters[c].root == Some(YamlFiles(t'.clusters[c].children))
  {
    hide IsStaleChild, NormalizeClusterId, YamlFiles, IsStale;
    var stale := StalePaths(t, catalog, records);
    assert path.cluster in ClustersOf(stale);
    assert NormalizeClusterId(path.cluster) in Normalized(ClustersOf(stale));
  }

  /** A tree without stale children is left as it is. */
  lemma NothingStale(t: Tree, catalog: seq<Project>, records: map<string, Record>)
    requires StalePaths(t, catalog, records) == {}
    ensures Cleaned(t, catalog, records) == t
  {
    hide StalePaths, WithoutChildren, WithRoots;
    NothingRemoved(t.clusters);
    NoRoots(t.clusters);
    assert Normalized(ClustersOf({})) == {};
  }

  ghost predicate HasDistinctIds(t: Tree) {
    forall a, b :: LoadRecord(t, a).Loaded? && LoadRecord(t, b).Loaded? && LoadRecord(t, a).record.id == LoadRecord(t, b).record.id
                   ==> LoadRecord(t, a) == LoadRecord(t, b)
  }

  lemma IndexIsUnique(t: Tree, a: map<string, Record>, b: map<string, Record>)
    requires HasDistinctIds(t) && IsIndex(t, a) && IsIndex(t, b)
    ensures a == b
  {
    hide LoadRecord;
    forall id | id in a ensures id in b && a[id] == b[id] {
      var k :| k in t.apps && LoadRecord(t, k) == Loaded(a[id]);
      var j :| j in t.apps && LoadRecord(t, j) == Loaded(b[id]);
    }
    forall id | id in b ensures id in a {
      var k :| k in t.apps && LoadRecord(t, k) == Loaded(b[id]);
    }
    assert a.Keys == b.Keys;
  }

  /** A second cleanup with the same catalog removes nothing. */
  lemma SecondCleanupIsIdle(t: Tree, catalog: seq<Project>, records: map<string, Record>, again: map<string, Record>)
    requires HasDistinctIds(t) && IsIndex(t, records) && IsIndex(Cleaned(t, catalog, records), again)
    ensures StalePaths(Cleaned(t, catalog, records), catalog, again) == {}
    ensures Cleaned(Cleaned(t, catalog, records), catalog, again) == Cleaned(t, catalog, records)
  {
    var t' := Cleaned(t, catalog, records);
    SameApps(t, t', again);
    IndexIsUnique(t, records, again);
    forall path | path in ChildPaths(t') ensures !IsStale(t', path, catalog, records) {
      CleanupRemovesOnlyStale(t, catalog, records, path.cluster, path.file);
    }
    assert StalePaths(t', catalog, again) == {};
    NothingStale(t', catalog, again);
  }

  lemma SameApps(t: Tree, t': Tree, records: map<string, Record>)
    requires t.apps == t'.apps && IsIndex(t', records)
    ensures IsIndex(t, records)
  {
    assert forall k :: LoadRecord(t, k) == LoadRecord(t', k);
  }

  // ---------------------------------------------------------------- after a run of store operations

  ghost predicate AgreesWith(catalog: seq<Project>, s: Setting) {
    forall i :: 0 <= i < |catalog| && catalog[i].id in s.projects ==> catalog[i] == s.projects[catalog[i].id]
  }

  lemma {:induction false} ExpectedIsHome(s: Setting, catalog: seq<Project>, r: Record)
    requires AgreesWith(catalog, s) && r.project in s.projects
    ensures ExpectedPath(catalog, r) in {None, Some(ChildPath(HomeOf(s, r), ChildFile(r)))}
  {
    if catalog != [] {
      ExpectedIsHome(s, catalog[..|catalog| - 1], r);
    }
  }

  ghost predicate HasDistinctBuiltIds(s: Setting) {
    forall a, b :: a in s.apps && b in s.apps && BuildApplicationId(a) == BuildApplicationId(b) ==> a == b
  }

  /** When the cleanup takes a live application's child although it sits where the application wants it: blanks around the
      id, and the trimmed id either unknown or that of an application whose project the catalog has. */
  predicate IsMistaken(id: string, catalog: seq<Project>, records: map<string, Record>) {
    !IsTrimmed(id) && (TrimSpace(id) in records ==> ExpectedPath(catalog, records[TrimSpace(id)]).Some?)
  }

  /** After any run of store operations the cleanup finds nothing to do, except for exactly the children it mistakes. Each
      of these is the child of a live application in its home cluster. */
  lemma StaleAfterRun(s: Setting, es: seq<Event>, catalog: seq<Project>, records: map<string, Record>, c: string, f: string)
    requires IsSetting(s) && IsRun(s, EMPTY, es) && AgreesWith(catalog, s) && HasDistinctBuiltIds(s)
    requires IsIndex(Final(s, EMPTY, es), records) && HasChild(Final(s, EMPTY, es), c, f)
    ensures var t := Final(s, EMPTY, es);
            var child := t.clusters[c].children[f];
            && IsLive(t, child.overlay.app)
            && (IsStale(t, ChildPath(c, f), catalog, records) <==> IsMistaken(child.applicationId, catalog, records))
  {
    EmptyIsOk(s);
    RunKeepsTree(s, EMPTY, es);
    StaleInTree(s, Final(s, EMPTY, es), catalog, records, c, f);
  }

  lemma StaleInTree(s: Setting, t: Tree, catalog: seq<Project>, records: map<string, Record>, c: string, f: string)
    requires IsSetting(s) && TreeOk(s, t) && AgreesWith(catalog, s) && HasDistinctBuiltIds(s)
    requires IsIndex(t, records) && HasChild(t, c, f)
    ensures var child := t.clusters[c].children[f];
            && IsLive(t, child.overlay.app)
            && (IsStale(t, ChildPath(c, f), catalog, records) <==> IsMistaken(child.applicationId, catalog, records))
  {
    var k := t.clusters[c].children[f].overlay.app;
    ChildBelongs(s, t, c, f, k, records);
    var r := MetadataAt(t, k).record;
    var id := TrimSpace(r.id);
    TrimSpaceFixed(r.id);
    IdIsNotBlank(s, t, k);
    assert RootOk(t, c) && AppOk(s, t, k);
    ExpectedIsHome(s, catalog, r);
    if id in records && id != r.id {
      IndexedElsewhere(s, t, records, id, r);
      ExpectedIsHome(s, catalog, records[id]);
      DistinctChildFiles(s, records[id], r);
    }
    hide TreeOk, IsIndex, TrimSpace, IsTrimmed, ExpectedPath, ClusterFor, ChildFile, IsYaml, AgreesWith;
  }

  lemma IdIsNotBlank(s: Setting, t: Tree, k: Key)
    requires AppOk(s, t, k) && IsLive(t, k)
    ensures TrimSpace(MetadataAt(t, k).record.id) != ""
  {
    var id := BuildApplicationId(k);
    TrimSpaceBlank(id);
    assert id[|k.project|] == '_' && id[|k.project|] in id;
    hide TrimSpace, FilesOk;
  }

  /** A record found under another id belongs to another application. */
  lemma IndexedElsewhere(s: Setting, t: Tree, records: map<string, Record>, id: string, r: Record)
    requires TreeOk(s, t) && IsIndex(t, records) && id in records && id != r.id
    requires r.id == BuildApplicationId(KeyOf(r))
    ensures KeyOf(records[id]) in s.apps && records[id].project in s.projects && KeyOf(records[id]) != KeyOf(r)
  {
    hide FilesOk, BuildApplicationId;
    var j :| j in t.apps && LoadRecord(t, j) == Loaded(records[id]);
    assert AppOk(s, t, j);
    LoadsMetadata(s, t, j);
  }

  /** In particular, nothing is stale where ids have no blanks around them. */
  lemma RunsLeaveNothingStale(s: Setting, es: seq<Event>, catalog: seq<Project>, records: map<string, Record>, c: string, f: string)
    requires IsSetting(s) && IsRun(s, EMPTY, es) && AgreesWith(catalog, s) && HasDistinctBuiltIds(s)
    requires var t := Final(s, EMPTY, es);
             && IsIndex(t, records) && HasChild(t, c, f)
             && IsTrimmed(t.clusters[c].children[f].applicationId)
    ensures !IsStale(Final(s, EMPTY, es), ChildPath(c, f), catalog, records)
  {
    hide Final, IsRun, IsStale, IsIndex, IsSetting, IsTrimmed, IsMistaken, AgreesWith, HasDistinctBuiltIds;
    StaleAfterRun(s, es, catalog, records, c, f);
    NotMistaken(Final(s, EMPTY, es).clusters[c].children[f].applicationId, catalog, records);
  }

  lemma NotMistaken(id: string, catalog: seq<Project>, records: map<string, Record>)
    requires IsTrimmed(id)
    ensures !IsMistaken(id, catalog, records)
  {
  }

  lemma ChildBelongs(s: Setting, t: Tree, c: string, f: string, k: Key, records: map<string, Record>)
    requires TreeOk(s, t) && HasChild(t, c, f) && k == t.clusters[c].children[f].overlay.app && IsIndex(t, records)
    requires HasDistinctBuiltIds(s)
    ensures IsLive(t, k)
    ensures var r := MetadataAt(t, k).record;
            && r.project in s.projects && f == ChildFile(r) && c == HomeOf(s, r) && KeyOf(r) in s.apps
            && t.clusters[c].children[f].applicationId == r.id == BuildApplicationId(KeyOf(r))
            && r.id in records && records[r.id] == r
  {
    hide ClusterFor, ChildFile, FilesOk, IsAnchored, IsTrimmed, BuildApplicationId;
    assert ChildOk(s, t, c, f) && AppOk(s, t, k) && HomeOk(s, t, k);
    var r := MetadataAt(t, k).record;
    LoadsMetadata(s, t, k);
    assert LoadRecord(t, k) == Loaded(r);
    var j :| j in t.apps && LoadRecord(t, j) == Loaded(records[r.id]);
    assert AppOk(s, t, j);
    LoadsMetadata(s, t, j);
  }

  /** One create is enough: the child of a new application whose id has blanks around it is taken by the next cleanup,
      although the application is live. */
  lemma PaddedIdLosesChild(s: Setting, e: Event, catalog: seq<Project>, records: map<string, Record>)
    requires IsSetting(s) && IsEnabled(s, EMPTY, e) && e.Create? && !IsTrimmed(BuildApplicationId(Key(e.project, e.input.name)))
    requires AgreesWith(catalog, s) && HasDistinctBuiltIds(s) && IsIndex(Next(s, EMPTY, e), records)
    ensures var k, t := Key(e.project, e.input.name), Next(s, EMPTY, e);
            && IsRun(s, EMPTY, [e]) && Final(s, EMPTY, [e]) == t
            && IsLive(t, k)
            && var r := MetadataAt(t, k).record;
            && r.project in s.projects && HasChild(t, HomeOf(s, r), ChildFile(r))
            && IsStale(t, ChildPath(HomeOf(s, r), ChildFile(r)), catalog, records)
            && !HasChild(Cleaned(t, catalog, records), HomeOf(s, r), ChildFile(r))
  {
    var k, t := Key(e.project, e.input.name), Next(s, EMPTY, e);
    OneStepRun(s, e);
    EmptyIsOk(s);
    StepKeepsTree(s, EMPTY, e);
    OnlyApplication(s, e);
    assert AppOk(s, t, k) && HomeOk(s, t, k);
    var r := MetadataAt(t, k).record;
    TrimSpaceFixed(r.id);
    UnknownId(t, k, records, TrimSpace(r.id));
    StaleInTree(s, t, catalog, records, HomeOf(s, r), ChildFile(r));
    CleanupRemovesOnlyStale(t, catalog, records, HomeOf(s, r), ChildFile(r));
    hide TreeOk, IsIndex, TrimSpace, IsTrimmed, ExpectedPath, ClusterFor, ChildFile, Cleaned, IsStale, IsRun, Final, Next;
  }

  lemma OneStepRun(s: Setting, e: Event)
    requires IsEnabled(s, EMPTY, e)
    ensures IsRun(s, EMPTY, [e]) && Final(s, EMPTY, [e]) == Next(s, EMPTY, e)
  {
    hide Next, IsEnabled;
    assert [e][1..] == [];
  }

  lemma OnlyApplication(s: Setting, e: Event)
    requires IsSetting(s) && IsEnabled(s, EMPTY, e) && e.Create?
    ensures var k := Key(e.project, e.input.name);
            IsLive(Next(s, EMPTY, e), k) && Next(s, EMPTY, e).apps.Keys == {k}
  {
    hide Wired, WithFiles, IsBlank, TrimSpace, NormalizedEnvironments, EntryFor, IsUsableRequest, BuildApplicationId;
  }

  lemma UnknownId(t: Tree, k: Key, records: map<string, Record>, id: string)
    requires t.apps.Keys == {k} && IsIndex(t, records) && IsLive(t, k) && id != MetadataAt(t, k).record.id
    ensures id !in records
  {
    assert forall j :: j in t.apps ==> j == k;
  }

  /** And the service lets such an application through: it checks the name trimmed and keeps it as it is. */
  lemma PaddedNameIsAccepted(p: Project, input: CreateRequest, secretPath: string, initialId: string)
    requires p.id == "p" && input.name == "foo " && !IsBlank(input.environment)
    ensures RepositorySync.IsSlug(TrimSpace(input.name))
    ensures var s := Setting(map["p" := p], {Key("p", "foo ")});
            && IsSetting(s) && IsEnabled(s, EMPTY, Create("p", input, secretPath, initialId))
            && HasDistinctBuiltIds(s) && AgreesWith([p], s)
            && !IsTrimmed(BuildApplicationId(Key("p", "foo ")))
  {
    var id := BuildApplicationId(Key("p", "foo "));
    assert id[|id| - 1] == ' ';
    assert TrimSpace("foo ") == "foo" by {
      var name := "foo ";
      assert TrimLeft(name) == name && name[..3] == "foo" && TrimRight(name[..3]) == name[..3];
    }
    hide IsBlank;
  }
}
