/** The application catalog cache (catalog_cache.go, catalog_cache_mariadb.go, catalog_cache_postgres.go): the two
    tables and the statements over them, and runs in which refreshers race with two-query readers. */
module CatalogCache {
  import opened Text

  /** Whole microseconds. */
  type Time = nat

  /** A catalog record: its name and id order the rows; body stands for the encoded rest. */
  datatype Record = Record(id: string, name: string, body: string)

  datatype Snapshot = Snapshot(recordCount: nat, updatedAt: Time)

  /** Both tables, by project; records are kept in the order the SELECT returns them. */
  datatype Tables = Tables(snapshots: map<string, Snapshot>, records: map<string, seq<Record>>)

  // ---------------------------------------------------------------- order of the rows

  /** Bytewise order of names. */
  predicate TextLess(a: string, b: string) {
    if b == "" then false else if a == "" then true
    else a[0] < b[0] || (a[0] == b[0] && TextLess(a[1..], b[1..]))
  }

  predicate RecordLess(a: Record, b: Record) {
    if a.name == b.name then TextLess(a.id, b.id) else TextLess(a.name, b.name)
  }

  function Insert(r: Record, rs: seq<Record>): (s: seq<Record>)
    ensures multiset(s) == multiset(rs) + multiset{r} && |s| == |rs| + 1
  {
    if rs == [] then [r]
    else if RecordLess(r, rs[0]) then [r] + rs
    else
      assert rs == [rs[0]] + rs[1..];
      [rs[0]] + Insert(r, rs[1..])
  }

  /** The records ordered by name, then id. */
  function Sorted(rs: seq<Record>): (s: seq<Record>)
    ensures multiset(s) == multiset(rs) && |s| == |rs|
  {
    if rs == [] then []
    else
      assert rs == rs[..|rs| - 1] + [rs[|rs| - 1]];
      Insert(rs[|rs| - 1], Sorted(rs[..|rs| - 1]))
  }

  lemma {:induction false} TextLessTotal(a: string, b: string)
    ensures a == b || TextLess(a, b) || TextLess(b, a)
    ensures !(TextLess(a, b) && TextLess(b, a)) && !TextLess(a, a)
  {
    if a != "" && b != "" {
      TextLessTotal(a[1..], b[1..]);
      if a[0] == b[0] && a[1..] == b[1..] { assert a == [a[0]] + a[1..] && b == [b[0]] + b[1..]; }
    }
    if a != "" { TextLessTotal(a[1..], a[1..]); }
  }

  lemma {:induction false} TextLessTransitive(a: string, b: string, c: string)
    requires TextLess(a, b) && TextLess(b, c)
    ensures TextLess(a, c)
  {
    if a != "" && a[0] == b[0] && b[0] == c[0] { TextLessTransitive(a[1..], b[1..], c[1..]); }
  }

  ghost predicate IsOrdered(rs: seq<Record>) {
    forall i, j :: 0 <= i < j < |rs| ==> !RecordLess(rs[j], rs[i])
  }

  lemma NotLessTransitive(a: Record, b: Record, c: Record)
    requires !RecordLess(b, a) && !RecordLess(c, b)
    ensures !RecordLess(c, a)
  {
    TextLessTotal(a.name, b.name); TextLessTotal(b.name, c.name); TextLessTotal(a.name, c.name);
    TextLessTotal(a.id, b.id); TextLessTotal(b.id, c.id); TextLessTotal(a.id, c.id);
    if RecordLess(c, a) {
      if c.name != a.name {
        if a.name != b.name { TextLessTransitive(c.name, a.name, b.name); }
      } else if a.id != b.id && a.name == b.name {
        TextLessTransitive(c.id, a.id, b.id);
      }
    }
  }

  lemma {:induction false} InsertMembers(r: Record, rs: seq<Record>)
    ensures forall x :: x in Insert(r, rs) ==> x == r || x in rs
  {
    if rs != [] { InsertMembers(r, rs[1..]); }
  }

  lemma {:induction false} InsertKeepsOrder(r: Record, rs: seq<Record>)
    requires IsOrdered(rs)
    ensures IsOrdered(Insert(r, rs))
  {
    if rs != [] {
      TextLessTotal(r.name, rs[0].name);
      TextLessTotal(r.id, rs[0].id);
      if RecordLess(r, rs[0]) {
        forall j | 0 < j < |rs| ensures !RecordLess(rs[j], r) { NotLessTransitive(r, rs[0], rs[j]); }
      } else {
        InsertKeepsOrder(r, rs[1..]);
        InsertMembers(r, rs[1..]);
        hide RecordLess;
        var tail := Insert(r, rs[1..]);
        assert Insert(r, rs) == [rs[0]] + tail;
        forall j | 0 <= j < |tail| ensures !RecordLess(tail[j], rs[0]) {
          assert tail[j] in tail;
        }
      }
    }
  }

  lemma {:induction false} SortedIsOrdered(rs: seq<Record>)
    ensures IsOrdered(Sorted(rs))
  {
    if rs != [] {
      SortedIsOrdered(rs[..|rs| - 1]);
      InsertKeepsOrder(rs[|rs| - 1], Sorted(rs[..|rs| - 1]));
    }
  }

  /** a comes before b: they agree up to position k, where a ends or has the smaller character. */
  predicate IsBefore(a: string, b: string, k: nat) {
    k <= |a| && k < |b| && a[..k] == b[..k] && (k == |a| || a[k] < b[k])
  }

  lemma BeforeAgrees(a: string, b: string, k: nat)
    requires IsBefore(a, b, k)
    ensures k > 0 ==> a != "" && b != "" && a[0] == b[0]
  {
    if k > 0 { assert a[..k][0] == b[..k][0]; }
  }

  lemma {:induction false} TextLessIsBefore(a: string, b: string)
    ensures TextLess(a, b) <==> exists k: nat :: IsBefore(a, b, k)
  {
    if a == "" || b == "" || a[0] != b[0] {
      if TextLess(a, b) { assert IsBefore(a, b, 0); }
      if k: nat :| IsBefore(a, b, k) { BeforeAgrees(a, b, k); }
    } else {
      var a', b' := a[1..], b[1..];
      TextLessIsBefore(a', b');
      if k: nat :| IsBefore(a', b', k) {
        assert a[..k + 1] == [a[0]] + a'[..k] && b[..k + 1] == [b[0]] + b'[..k];
        assert IsBefore(a, b, k + 1);
      }
      if k: nat :| IsBefore(a, b, k) {
        assert k > 0;
        assert a'[..k - 1] == a[..k][1..] && b'[..k - 1] == b[..k][1..];
        assert IsBefore(a', b', k - 1);
      }
    }
  }

  /** Each record's name comes before the later ones'; among equal names the ids do. */
  ghost predicate IsAscending(rs: seq<Record>) {
    forall i, j :: 0 <= i < j < |rs| ==>
      if rs[i].name == rs[j].name then rs[i].id == rs[j].id || exists k: nat :: IsBefore(rs[i].id, rs[j].id, k)
      else exists k: nat :: IsBefore(rs[i].name, rs[j].name, k)
  }

  /** The records are sorted by name, then by id. */
  lemma SortedIsAscending(rs: seq<Record>)
    ensures IsAscending(Sorted(rs)) && multiset(Sorted(rs)) == multiset(rs)
  {
    SortedIsOrdered(rs);
    hide Sorted, TextLess, IsBefore;
    var s := Sorted(rs);
    forall i, j | 0 <= i < j < |s|
      ensures if s[i].name == s[j].name then s[i].id == s[j].id || exists k: nat :: IsBefore(s[i].id, s[j].id, k)
              else exists k: nat :: IsBefore(s[i].name, s[j].name, k)
    {
      assert !RecordLess(s[j], s[i]);
      TextLessTotal(s[i].name, s[j].name);
      TextLessTotal(s[i].id, s[j].id);
      TextLessIsBefore(s[i].name, s[j].name);
      TextLessIsBefore(s[i].id, s[j].id);
    }
  }

  // ---------------------------------------------------------------- the statements

  /** The primary key (project_id, application_id) admits the list. */
  predicate HasDistinctIds(rs: seq<Record>) {
    forall i, j :: 0 <= i < j < |rs| ==> rs[i].id != rs[j].id
  }

  /** A committed ReplaceProjectApplications. */
  function Replaced(t: Tables, project: string, rs: seq<Record>, now: Time): Tables {
    Tables(t.snapshots[project := Snapshot(|rs|, now)], t.records[project := Sorted(rs)])
  }

  /** InvalidateProject leaves the rows behind. */
  function Invalidated(t: Tables, project: string): Tables {
    t.(snapshots := t.snapshots - {project})
  }

  function RowsOf(t: Tables, project: string): seq<Record> {
    if project in t.records then t.records[project] else []
  }

  /** The first query of ListApplications: the count promised by a snapshot that is fresh at now. */
  function FreshCount(t: Tables, project: string, maxAge: int, now: Time): Option<nat> {
    if maxAge <= 0 || project !in t.snapshots || now - t.snapshots[project].updatedAt > maxAge then None
    else Some(t.snapshots[project].recordCount)
  }

  /** The second query, which a count of zero saves: the rows, unless their number is not the promised one. */
  function ServedRows(t: Tables, project: string, count: nat): Option<seq<Record>> {
    if count == 0 then Some([])
    else if |RowsOf(t, project)| != count then None
    else Some(RowsOf(t, project))
  }

  class MariaDBApplicationCatalogCache {
    var snapshots: map<string, Snapshot>
    var records: map<string, seq<Record>>

    ghost function View(): Tables
      reads this
    {
      Tables(snapshots, records)
    }

    constructor ()
      ensures View() == Tables(map[], map[])
    {
      snapshots, records := map[], map[];
    }

    /** Both queries with no write in between. */
    method ListApplications(project: string, maxAge: int, now: Time) returns (r: Option<seq<Record>>)
      ensures r == match FreshCount(View(), project, maxAge, now)
                   case None => None
                   case Some(count) => ServedRows(View(), project, count)
      // A hit takes a snapshot no older than maxAge and as many rows as it promises.
      ensures var rows := if project in records then records[project] else [];
              && (r.Some? <==>
                    && maxAge > 0 && project in snapshots && now - snapshots[project].updatedAt <= maxAge
                    && (snapshots[project].recordCount == 0 || snapshots[project].recordCount == |rows|))
              && (r.Some? ==> r.value == if snapshots[project].recordCount == 0 then [] else rows)
    {
      if maxAge <= 0 || project !in snapshots { return None; }
      var snapshot := snapshots[project];
      if now - snapshot.updatedAt > maxAge { return None; }
      if snapshot.recordCount == 0 { return Some([]); }
      var rows := if project in records then records[project] else [];
      var served: seq<Record> := [];
      var i := 0;
      while i < |rows|
        invariant i <= |rows| && served == rows[..i]
      {
        served := served + [rows[i]];
        i := i + 1;
      }
      assert served == rows;
      if |served| != snapshot.recordCount { return None; }
      return Some(served);
    }

    /** One INSERT per row; false at the first duplicate key. */
    static method InsertRows(rows: seq<Record>) returns (ok: bool)
      ensures ok <==> HasDistinctIds(rows)
    {
      var i := 0;
      while i < |rows|
        invariant i <= |rows| && HasDistinctIds(rows[..i])
      {
        DistinctSnoc(rows[..i], rows[i]);
        assert rows[..i + 1] == rows[..i] + [rows[i]];
        if exists k | 0 <= k < i :: rows[k].id == rows[i].id {
          return false;
        }
        assert !HasId(rows[..i], rows[i].id);
        i := i + 1;
      }
      assert rows[..i] == rows;
      return true;
    }

    /** Replaces the project's rows by the sorted list and upserts the snapshot, in one transaction; false after a duplicate
        key, which rolls everything back. */
    method ReplaceProjectApplications(project: string, rs: seq<Record>, now: Time) returns (ok: bool)
      modifies this
      ensures ok <==> HasDistinctIds(rs)
      ensures View() == if ok then Replaced(old(View()), project, rs, now) else old(View())
      ensures ok ==> snapshots == old(snapshots)[project := Snapshot(|rs|, now)]
      ensures ok ==> project in records && multiset(records[project]) == multiset(rs) && IsAscending(records[project])
      ensures ok ==> records == old(records)[project := records[project]]
    {
      var sorted := Sorted(rs);
      SortedDistinct(rs);
      SortedIsAscending(rs);
      hide IsAscending, Sorted, HasDistinctIds;
      ok := InsertRows(sorted);
      if ok {
        records := records[project := sorted];
        snapshots := snapshots[project := Snapshot(|sorted|, now)];
      }
    }

    method InvalidateProject(project: string)
      modifies this
      ensures View() == Invalidated(old(View()), project)
      ensures snapshots == old(snapshots) - {project} && records == old(records)
    {
      snapshots := snapshots - {project};
    }
  }

  ghost predicate HasId(rs: seq<Record>, id: string) {
    exists r :: r in rs && r.id == id
  }

  lemma HasIdCons(r: Record, rs: seq<Record>, id: string)
    ensures HasId([r] + rs, id) <==> HasId(rs, id) || id == r.id
  {
    assert r in [r] + rs;
    assert forall x :: x in [r] + rs <==> x == r || x in rs;
  }

  lemma DistinctCons(r: Record, rs: seq<Record>)
    ensures HasDistinctIds([r] + rs) <==> HasDistinctIds(rs) && !HasId(rs, r.id)
    ensures forall id :: HasId([r] + rs, id) <==> HasId(rs, id) || id == r.id
  {
    var all := [r] + rs;
    assert forall i :: 0 <= i < |rs| ==> all[i + 1] == rs[i];
    if HasDistinctIds(all) {
      forall i, j | 0 <= i < j < |rs| ensures rs[i].id != rs[j].id { assert all[i + 1].id != all[j + 1].id; }
      forall x | x in rs ensures x.id != r.id {
        var k :| 0 <= k < |rs| && rs[k] == x;
        assert all[0].id != all[k + 1].id;
      }
    }
    forall id ensures HasId(all, id) <==> HasId(rs, id) || id == r.id { HasIdCons(r, rs, id); }
  }

  lemma {:induction false} InsertDistinct(r: Record, rs: seq<Record>)
    ensures HasDistinctIds(Insert(r, rs)) <==> HasDistinctIds(rs) && !HasId(rs, r.id)
    ensures forall id :: HasId(Insert(r, rs), id) <==> HasId(rs, id) || id == r.id
  {
    hide HasDistinctIds, HasId, RecordLess;
    DistinctCons(r, rs);
    if rs == [] {
      assert [r] + rs == [r];
    } else if !RecordLess(r, rs[0]) {
      var tail := Insert(r, rs[1..]);
      InsertDistinct(r, rs[1..]);
      DistinctCons(rs[0], tail);
      DistinctCons(rs[0], rs[1..]);
      assert rs == [rs[0]] + rs[1..];
      assert Insert(r, rs) == [rs[0]] + tail;
    }
  }

  lemma DistinctSnoc(rs: seq<Record>, r: Record)
    ensures HasDistinctIds(rs + [r]) <==> HasDistinctIds(rs) && !HasId(rs, r.id)
    ensures forall id :: HasId(rs + [r], id) <==> HasId(rs, id) || id == r.id
  {
    var all := rs + [r];
    assert forall x :: x in all <==> x == r || x in rs;
    if HasDistinctIds(all) {
      forall x | x in rs ensures x.id != r.id {
        var k :| 0 <= k < |rs| && rs[k] == x;
        assert all[k].id != all[|rs|].id;
      }
      assert forall i :: 0 <= i < |rs| ==> all[i] == rs[i];
    }
  }

  /** Sorting neither adds nor removes duplicate ids. */
  lemma {:induction false} SortedDistinct(rs: seq<Record>)
    ensures HasDistinctIds(Sorted(rs)) <==> HasDistinctIds(rs)
    ensures forall id :: HasId(Sorted(rs), id) <==> HasId(rs, id)
  {
    hide HasDistinctIds, HasId, Insert;
    if rs != [] {
      var front, last := rs[..|rs| - 1], rs[|rs| - 1];
      SortedDistinct(front);
      InsertDistinct(last, Sorted(front));
      DistinctSnoc(front, last);
      assert rs == front + [last];
    }
  }

  /** With nobody else at work, a list read back within its freshness is the list that was written, in row order. */
  lemma ReplaceThenList(t: Tables, project: string, rs: seq<Record>, at: Time, maxAge: int, now: Time)
    requires at <= now
    ensures var t' := Replaced(t, project, rs, at);
            var r := match FreshCount(t', project, maxAge, now) case None => None case Some(n) => ServedRows(t', project, n);
            r == if maxAge > 0 && now - at <= maxAge then Some(Sorted(rs)) else None
  {
  }

  // ---------------------------------------------------------------- the cached store

  /** How the calls below a write-through end: the source's list, the cache write, the invalidation. */
  datatype Faults = Faults(listOk: bool, replaceOk: bool, invalidateOk: bool)

  /** The cache after refreshProjectAfterWrite. A failed cache write is only logged; a failed list invalidates. */
  function AfterWrite(t: Tables, project: string, rs: seq<Record>, now: Time, f: Faults): Tables {
    if f.listOk then (if f.replaceOk && HasDistinctIds(rs) then Replaced(t, project, rs, now) else t)
    else if f.invalidateOk then Invalidated(t, project)
    else t
  }

  /** The cached list, if it may be served. */
  function Usable(t: Tables, project: string, maxAge: int, now: Time): seq<Record> {
    match FreshCount(t, project, maxAge, now)
    case None => []
    case Some(count) => OrEmpty(ServedRows(t, project, count))
  }

  function OrEmpty(rows: Option<seq<Record>>): seq<Record> {
    if rows.Some? then rows.value else []
  }

  class CachedManifestStore {
    var source: map<string, seq<Record>>
    const cache: MariaDBApplicationCatalogCache
    const freshness: int

    constructor (cache: MariaDBApplicationCatalogCache, freshness: int)
      ensures this.cache == cache && this.freshness == freshness && source == map[]
    {
      this.cache, this.freshness, source := cache, freshness, map[];
    }

    /** RefreshProject: lists the source and writes the list to the cache; the caller gets the list either way. */
    method RefreshProject(project: string, now: Time, f: Faults) returns (r: Option<seq<Record>>)
      modifies cache
      ensures r == if f.listOk then Some(if project in source then source[project] else []) else None
      ensures cache.View() == if r.Some? then AfterWrite(old(cache.View()), project, r.value, now, f) else old(cache.View())
    {
      if !f.listOk { return None; }
      var records := if project in source then source[project] else [];
      if f.replaceOk {
        var _ := cache.ReplaceProjectApplications(project, records, now);
      }
      return Some(records);
    }

    /** A fresh cached list is served as it is; anything else reads the source. */
    method ListApplications(project: string, now: Time, cacheOk: bool, f: Faults) returns (r: Option<seq<Record>>)
      modifies cache
      ensures var hit := match FreshCount(old(cache.View()), project, freshness, now)
                         case None => None
                         case Some(count) => ServedRows(old(cache.View()), project, count);
              if freshness > 0 && cacheOk && hit.Some? then r == hit && cache.View() == old(cache.View())
              else
                && r == (if f.listOk then Some(if project in source then source[project] else []) else None)
                && cache.View() == if r.Some? then AfterWrite(old(cache.View()), project, r.value, now, f) else old(cache.View())
    {
      if freshness > 0 && cacheOk {
        var cached := cache.ListApplications(project, freshness, now);
        if cached.Some? { return cached; }
      }
      r := RefreshProject(project, now, f);
    }

    /** The record of a usable cached list that has the id; without one, what the source answers. project is None for
        an id that does not split. */
    method GetApplication(project: Option<string>, id: string, now: Time, cacheOk: bool, answer: Option<Record>)
        returns (r: Option<Record>)
      ensures var listed := if project.None? || freshness <= 0 || !cacheOk then []
                            else Usable(cache.View(), project.value, freshness, now);
              if exists k :: 0 <= k < |listed| && listed[k].id == id
              then r.Some? && r.value in listed && r.value.id == id
              else r == answer
    {
      if freshness > 0 && project.Some? && cacheOk {
        var cached := cache.ListApplications(project.value, freshness, now);
        if cached.Some? {
          var i := 0;
          while i < |cached.value|
            invariant i <= |cached.value| && forall k :: 0 <= k < i ==> cached.value[k].id != id
          {
            if cached.value[i].id == id {
              return Some(cached.value[i]);
            }
            i := i + 1;
          }
        }
      }
      return answer;
    }

    /** Any successful write of a project's applications, followed by the refresh. */
    method Write(project: string, records: seq<Record>, now: Time, f: Faults)
      modifies this, cache
      ensures source == old(source)[project := records]
      ensures cache.View() == AfterWrite(old(cache.View()), project, records, now, f)
    {
      source := source[project := records];
      var refreshed := RefreshProject(project, now, f);
      if refreshed.None? && f.invalidateOk {
        cache.InvalidateProject(project);
      }
    }
  }

  /** The cached read right after a write: it agrees with the source, or misses, exactly when the refresh reached the
      cache, or the list failed and the snapshot could be dropped, or the old cached list was not served anyway or happens
      to be the same list. */
  lemma ReadYourWrite(t: Tables, project: string, rs: seq<Record>, now: Time, f: Faults, maxAge: nat)
    requires maxAge > 0
    ensures var read := (tables: Tables) =>
                match FreshCount(tables, project, maxAge, now)
                case None => None
                case Some(count) => ServedRows(tables, project, count);
            (read(AfterWrite(t, project, rs, now, f)) in {None, Some(Sorted(rs))})
            <==> (f.listOk && f.replaceOk && HasDistinctIds(rs)) || (!f.listOk && f.invalidateOk)
                 || read(t) in {None, Some(Sorted(rs))}
  {
  }
}
