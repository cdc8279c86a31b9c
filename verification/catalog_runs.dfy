/** Runs of the catalog cache: the source changes, refreshers list it and write the list back some time later, writes
    fail, snapshots are invalidated, and readers run their two queries in between. */
module CatalogRuns {
  import opened Text
  import opened CatalogCache

  /** The source as it was at one moment. */
  datatype Moment = Moment(clock: Time, source: map<string, seq<Record>>)

  /** RefreshProject between its list and its write. */
  datatype Refresh = Refresh(project: string, listedAt: Time, records: seq<Record>)

  /** The last list committed for a project. */
  datatype Commit = Commit(listedAt: Time, committedAt: Time, records: seq<Record>)

  datatype Reader =
    | Began(project: string, began: Time)
    | Queried(project: string, began: Time, snapshot: Snapshot)                 // after the first query
    | Counted(project: string, began: Time, count: nat, updatedAt: Time)        // found fresh
    | Served(project: string, began: Time, records: seq<Record>)                // a hit
    | Missed(project: string, began: Time)

  datatype World = World(
    tables: Tables, source: map<string, seq<Record>>, clock: Time, past: seq<Moment>,
    refreshes: map<nat, Refresh>, commits: map<string, Commit>, readers: map<nat, Reader>)

  /** The freshness the store is configured with, and the longest a refresher takes from its list to its commit. */
  datatype Bounds = Bounds(freshness: nat, gap: nat)

  datatype Event =
    | Tick(d: nat)
    | SourceChange(project: string, records: seq<Record>)
    | List(t: nat, project: string)
    | WriteBack(t: nat, now: Time, ok: bool)        // ok is false when the write fails for a reason of its own
    | Invalidate(project: string)
    | BeginRead(t: nat, project: string)
    | QuerySnapshot(t: nat)
    | CheckFreshness(t: nat)
    | QueryRows(t: nat)

  function SourceOf(source: map<string, seq<Record>>, project: string): seq<Record> {
    if project in source then source[project] else []
  }

  predicate IsReader(w: World, t: nat, r: Reader) {
    t in w.readers && w.readers[t] == r
  }

  predicate IsEnabled(b: Bounds, w: World, e: Event) {
    match e
    case WriteBack(t, now, _) =>
      t in w.refreshes && w.refreshes[t].listedAt <= now <= w.clock && w.clock - w.refreshes[t].listedAt <= b.gap
    case QuerySnapshot(t) => t in w.readers && w.readers[t].Began?
    case CheckFreshness(t) => t in w.readers && w.readers[t].Queried?
    case QueryRows(t) => t in w.readers && w.readers[t].Counted?
    case _ => true
  }

  /** The state after e, without the record of the past. */
  function Stepped(b: Bounds, w: World, e: Event): World
    requires IsEnabled(b, w, e)
  {
    match e
    case Tick(d) => w.(clock := w.clock + d)
    case SourceChange(p, rs) => w.(source := w.source[p := rs])
    case List(t, p) => w.(refreshes := w.refreshes[t := Refresh(p, w.clock, SourceOf(w.source, p))])
    case WriteBack(t, now, ok) =>
      var Refresh(p, listedAt, rs) := w.refreshes[t];
      var done := ok && HasDistinctIds(rs);
      w.(refreshes := w.refreshes - {t},
         tables := if done then Replaced(w.tables, p, rs, now) else w.tables,
         commits := if done then w.commits[p := Commit(listedAt, w.clock, rs)] else w.commits)
    case Invalidate(p) => w.(tables := Invalidated(w.tables, p))
    case BeginRead(t, p) => w.(readers := w.readers[t := Began(p, w.clock)])
    case QuerySnapshot(t) =>
      var Began(p, began) := w.readers[t];
      w.(readers := w.readers[t := if p in w.tables.snapshots then Queried(p, began, w.tables.snapshots[p]) else Missed(p, began)])
    case CheckFreshness(t) =>
      var Queried(p, began, snapshot) := w.readers[t];
      w.(readers := w.readers[t :=
        if w.clock - snapshot.updatedAt > b.freshness || b.freshness == 0 then Missed(p, began)
        else if snapshot.recordCount == 0 then Served(p, began, [])
        else Counted(p, began, snapshot.recordCount, snapshot.updatedAt)])
    case QueryRows(t) =>
      var Counted(p, began, count, _) := w.readers[t];
      w.(readers := w.readers[t := match ServedRows(w.tables, p, count)
                                   case None => Missed(p, began)
                                   case Some(rs) => Served(p, began, rs)])
  }

  function Next(b: Bounds, w: World, e: Event): World
    requires IsEnabled(b, w, e)
  {
    var w' := Stepped(b, w, e);
    w'.(past := w.past + [Moment(w'.clock, w'.source)])
  }

  predicate IsInitial(w: World) {
    && w.tables == Tables(map[], map[]) && w.refreshes == map[] && w.commits == map[] && w.readers == map[]
    && w.past == [Moment(w.clock, w.source)]
  }

  predicate IsRun(b: Bounds, w: World, es: seq<Event>)
    decreases |es|
  {
    es != [] ==> IsEnabled(b, w, es[0]) && IsRun(b, Next(b, w, es[0]), es[1..])
  }

  function Final(b: Bounds, w: World, es: seq<Event>): World
    requires IsRun(b, w, es)
    decreases |es|
  {
    if es == [] then w else Final(b, Next(b, w, es[0]), es[1..])
  }

  // ---------------------------------------------------------------- invariant

  /** rs was the source's list of the project at some moment not before since. */
  ghost predicate WasListed(past: seq<Moment>, project: string, rs: seq<Record>, since: int) {
    exists i :: 0 <= i < |past| && past[i].clock >= since && SourceOf(past[i].source, project) == rs
  }

  lemma WasListedStays(past: seq<Moment>, m: Moment, project: string, rs: seq<Record>, since: int)
    requires WasListed(past, project, rs, since)
    ensures WasListed(past + [m], project, rs, since)
  {
    var i :| 0 <= i < |past| && past[i].clock >= since && SourceOf(past[i].source, project) == rs;
    assert (past + [m])[i] == past[i];
  }

  /** rs is, in row order, the source's whole list at some moment not before since. */
  ghost predicate WasServed(past: seq<Moment>, project: string, rs: seq<Record>, since: int) {
    exists i :: 0 <= i < |past| && past[i].clock >= since && Sorted(SourceOf(past[i].source, project)) == rs
  }

  lemma WasServedStays(past: seq<Moment>, m: Moment, project: string, rs: seq<Record>, since: int)
    requires WasServed(past, project, rs, since)
    ensures WasServed(past + [m], project, rs, since)
  {
    var i :| 0 <= i < |past| && past[i].clock >= since && Sorted(SourceOf(past[i].source, project)) == rs;
    assert (past + [m])[i] == past[i];
  }

  lemma ListedIsServed(past: seq<Moment>, project: string, rs: seq<Record>, since: int, since': int)
    requires WasListed(past, project, rs, since) && since' <= since
    ensures WasServed(past, project, Sorted(rs), since')
  {
  }

  ghost predicate RefreshOk(w: World, t: nat) {
    t in w.refreshes ==>
      w.refreshes[t].listedAt <= w.clock && WasListed(w.past, w.refreshes[t].project, w.refreshes[t].records, w.refreshes[t].listedAt)
  }

  /** The tables hold the last committed list whole; a snapshot, if there is one, belongs to it. */
  ghost predicate ProjectOk(b: Bounds, w: World, p: string) {
    if p in w.commits then
      var c := w.commits[p];
      && c.committedAt <= w.clock && WasListed(w.past, p, c.records, c.committedAt - b.gap)
      && RowsOf(w.tables, p) == Sorted(c.records)
      && (p in w.tables.snapshots ==>
            w.tables.snapshots[p].recordCount == |c.records| && w.tables.snapshots[p].updatedAt <= c.committedAt)
    else p !in w.tables.snapshots
  }

  ghost predicate CommittedSince(w: World, p: string, since: int) {
    p in w.commits && w.commits[p].committedAt >= since
  }

  ghost predicate ReaderOk(b: Bounds, w: World, t: nat) {
    t in w.readers ==>
      var r := w.readers[t];
      && r.began <= w.clock
      && match r
         case Began(_, _) => true
         case Queried(p, _, s) =>
           CommittedSince(w, p, s.updatedAt) && (s.recordCount == 0 ==> WasListed(w.past, p, [], s.updatedAt - b.gap))
         case Counted(p, began, count, updatedAt) => CommittedSince(w, p, updatedAt) && count > 0 && began <= updatedAt + b.freshness
         case Served(p, began, rs) => WasServed(w.past, p, rs, began - b.freshness - b.gap)
         case Missed(_, _) => true
  }

  ghost predicate Inv(b: Bounds, w: World) {
    && w.past != [] && w.past[|w.past| - 1] == Moment(w.clock, w.source)
    && (forall t :: RefreshOk(w, t)) && (forall p :: ProjectOk(b, w, p)) && (forall t :: ReaderOk(b, w, t))
  }

  lemma WasListedSooner(past: seq<Moment>, project: string, rs: seq<Record>, since: int, since': int)
    requires WasListed(past, project, rs, since) && since' <= since
    ensures WasListed(past, project, rs, since')
  {
  }

  lemma KeepsRefresh(b: Bounds, w: World, e: Event, t: nat)
    requires Inv(b, w) && IsEnabled(b, w, e)
    ensures RefreshOk(Next(b, w, e), t)
  {
    var w' := Next(b, w, e);
    assert RefreshOk(w, t);
    if t in w'.refreshes {
      var r := w'.refreshes[t];
      assert WasListed(w.past, r.project, r.records, r.listedAt) by {
        if e.List? && e.t == t { assert w.past[|w.past| - 1].clock >= w.clock; }
      }
      WasListedStays(w.past, Moment(w'.clock, w'.source), r.project, r.records, r.listedAt);
    }
  }

  lemma WriteBackKeepsProject(b: Bounds, w: World, e: Event, p: string)
    requires ProjectOk(b, w, p) && IsEnabled(b, w, e) && e.WriteBack? && RefreshOk(w, e.t)
    ensures ProjectOk(b, Next(b, w, e), p)
  {
    hide WasListed, ServedRows, Sorted, HasDistinctIds;
    var w', refresh := Next(b, w, e), w.refreshes[e.t];
    var m := Moment(w'.clock, w'.source);
    if e.ok && HasDistinctIds(refresh.records) && p == refresh.project {
      WasListedSooner(w.past, p, refresh.records, refresh.listedAt, w.clock - b.gap);
      WasListedStays(w.past, m, p, refresh.records, w.clock - b.gap);
    } else if p in w.commits {
      WasListedStays(w.past, m, p, w.commits[p].records, w.commits[p].committedAt - b.gap);
    }
  }

  lemma KeepsProject(b: Bounds, w: World, e: Event, p: string)
    requires ProjectOk(b, w, p) && IsEnabled(b, w, e) && (e.WriteBack? ==> RefreshOk(w, e.t))
    ensures ProjectOk(b, Next(b, w, e), p)
  {
    hide WasListed, ServedRows, Sorted, HasDistinctIds;
    if e.WriteBack? {
      WriteBackKeepsProject(b, w, e, p);
    } else if p in w.commits {
      var w', c := Next(b, w, e), w.commits[p];
      WasListedStays(w.past, Moment(w'.clock, w'.source), p, c.records, c.committedAt - b.gap);
    }
  }

  /** Commits of a project only get later. */
  lemma CommitsGrow(b: Bounds, w: World, e: Event, p: string, since: int)
    requires ProjectOk(b, w, p) && IsEnabled(b, w, e) && CommittedSince(w, p, since)
    ensures CommittedSince(Next(b, w, e), p, since)
  {
  }

  /** What a reader that does not move has seen stays true. */
  lemma StillReaderOk(b: Bounds, w: World, w': World, t: nat)
    requires ReaderOk(b, w, t) && t in w.readers && t in w'.readers && w'.readers[t] == w.readers[t]
    requires w.clock <= w'.clock && w'.past != [] && w'.past[..|w'.past| - 1] == w.past
    requires forall since :: CommittedSince(w, w.readers[t].project, since) ==> CommittedSince(w', w.readers[t].project, since)
    ensures ReaderOk(b, w', t)
  {
    var m := w'.past[|w'.past| - 1];
    assert w'.past == w.past + [m];
    match w.readers[t]
    case Queried(p, _, s) => if s.recordCount == 0 { WasListedStays(w.past, m, p, [], s.updatedAt - b.gap); }
    case Served(p, began, rs) => WasServedStays(w.past, m, p, rs, began - b.freshness - b.gap);
    case _ =>
  }

  lemma KeepsReader(b: Bounds, w: World, e: Event, t: nat)
    requires Inv(b, w) && IsEnabled(b, w, e)
    ensures ReaderOk(b, Next(b, w, e), t)
  {
    var moves := e.BeginRead? || e.QuerySnapshot? || e.CheckFreshness? || e.QueryRows?;
    if moves && e.t == t {
      ReaderMoves(b, w, e);
    } else if t in w.readers {
      assert ReaderOk(b, w, t) && ProjectOk(b, w, w.readers[t].project);
      forall since | CommittedSince(w, w.readers[t].project, since)
        ensures CommittedSince(Next(b, w, e), w.readers[t].project, since)
      {
        CommitsGrow(b, w, e, w.readers[t].project, since);
      }
      StillReaderOk(b, w, Next(b, w, e), t);
    }
  }

  lemma ReaderLooks(b: Bounds, w: World, e: Event)
    requires IsEnabled(b, w, e) && (e.BeginRead? || e.QuerySnapshot?) && ReaderOk(b, w, e.t)
    requires e.QuerySnapshot? ==> ProjectOk(b, w, w.readers[e.t].project)
    ensures ReaderOk(b, Next(b, w, e), e.t)
  {
    var w' := Next(b, w, e);
    if w'.readers[e.t].Queried? {
      var Queried(p, _, s) := w'.readers[e.t];
      if s.recordCount == 0 {
        WasListedSooner(w.past, p, [], w.commits[p].committedAt - b.gap, s.updatedAt - b.gap);
        WasListedStays(w.past, Moment(w'.clock, w'.source), p, [], s.updatedAt - b.gap);
      }
    }
  }

  lemma ReaderChecks(b: Bounds, w: World, e: Event)
    requires IsEnabled(b, w, e) && e.CheckFreshness? && ReaderOk(b, w, e.t)
    ensures ReaderOk(b, Next(b, w, e), e.t)
  {
    var w' := Next(b, w, e);
    if w'.readers[e.t].Served? {
      var Served(p, began, rs) := w'.readers[e.t];
      ListedIsServed(w.past, p, [], w.readers[e.t].snapshot.updatedAt - b.gap, began - b.freshness - b.gap);
      WasServedStays(w.past, Moment(w'.clock, w'.source), p, rs, began - b.freshness - b.gap);
    }
  }

  lemma ReaderReads(b: Bounds, w: World, e: Event)
    requires IsEnabled(b, w, e) && e.QueryRows? && ReaderOk(b, w, e.t) && ProjectOk(b, w, w.readers[e.t].project)
    ensures ReaderOk(b, Next(b, w, e), e.t)
  {
    var w' := Next(b, w, e);
    if w'.readers[e.t].Served? {
      var Served(p, began, rs) := w'.readers[e.t];
      ListedIsServed(w.past, p, w.commits[p].records, w.commits[p].committedAt - b.gap, began - b.freshness - b.gap);
      WasServedStays(w.past, Moment(w'.clock, w'.source), p, rs, began - b.freshness - b.gap);
    }
  }

  /** The reader's own steps. */
  lemma ReaderMoves(b: Bounds, w: World, e: Event)
    requires Inv(b, w) && IsEnabled(b, w, e) && (e.BeginRead? || e.QuerySnapshot? || e.CheckFreshness? || e.QueryRows?)
    ensures ReaderOk(b, Next(b, w, e), e.t)
  {
    hide Next, ReaderOk, ProjectOk, RefreshOk;
    assert ReaderOk(b, w, e.t);
    if e.CheckFreshness? {
      ReaderChecks(b, w, e);
    } else if e.QueryRows? {
      assert ProjectOk(b, w, w.readers[e.t].project);
      ReaderReads(b, w, e);
    } else {
      assert e.QuerySnapshot? ==> ProjectOk(b, w, w.readers[e.t].project);
      ReaderLooks(b, w, e);
    }
  }

  lemma {:induction false} RunKeepsInv(b: Bounds, w: World, es: seq<Event>)
    requires Inv(b, w) && IsRun(b, w, es)
    ensures Inv(b, Final(b, w, es))
    decreases |es|
  {
    if es != [] {
      var w' := Next(b, w, es[0]);
      forall t ensures RefreshOk(w', t) { KeepsRefresh(b, w, es[0], t); }
      forall p ensures ProjectOk(b, w', p) {
        assert ProjectOk(b, w, p) && (es[0].WriteBack? ==> RefreshOk(w, es[0].t));
        KeepsProject(b, w, es[0], p);
      }
      forall t ensures ReaderOk(b, w', t) { KeepsReader(b, w, es[0], t); }
      RunKeepsInv(b, w', es[1..]);
    }
  }

  /** Bounded staleness: a list served from the cache is never a mix of two writes. It is the source's whole list at one
      moment of the run, and that moment lies at most the freshness plus the refresh gap before the read began. */
  lemma BoundedStaleness(b: Bounds, w: World, es: seq<Event>, t: nat) returns (i: nat)
    requires IsInitial(w) && IsRun(b, w, es)
    requires t in Final(b, w, es).readers && Final(b, w, es).readers[t].Served?
    ensures var w' := Final(b, w, es);
            var Served(project, began, records) := w'.readers[t];
            && i < |w'.past|
            && records == Sorted(SourceOf(w'.past[i].source, project))
            && w'.past[i].clock + b.freshness + b.gap >= began
  {
    RunKeepsInv(b, w, es);
    var w' := Final(b, w, es);
    assert ReaderOk(b, w', t);
    var Served(p, began, rs) := w'.readers[t];
    i :| 0 <= i < |w'.past| && w'.past[i].clock >= began - b.freshness - b.gap && Sorted(SourceOf(w'.past[i].source, p)) == rs;
  }

  // ---------------------------------------------------------------- the bound is attained

  lemma {:induction false} RunAppend(b: Bounds, w: World, es: seq<Event>, e: Event)
    requires IsRun(b, w, es) && IsEnabled(b, Final(b, w, es), e)
    ensures IsRun(b, w, es + [e]) && Final(b, w, es + [e]) == Next(b, Final(b, w, es), e)
    decreases |es|
  {
    hide IsEnabled, Next;
    if es == [] {
      assert es + [e] == [e] && [e][1..] == [];
    } else {
      RunAppend(b, Next(b, w, es[0]), es[1..], e);
      assert (es + [e])[1..] == es[1..] + [e];
    }
  }

  /** The list is read, the source changes, and the list is written back as late as the gap allows. */
  lemma LateRefresh(b: Bounds, w: World, p: string, rs: seq<Record>, rs': seq<Record>) returns (es: seq<Event>)
    requires HasDistinctIds(rs) && SourceOf(w.source, p) == rs
    ensures IsRun(b, w, es)
    ensures var w' := Final(b, w, es);
            && w'.clock == w.clock + b.gap && SourceOf(w'.source, p) == rs'
            && p in w'.tables.snapshots && w'.tables.snapshots[p] == Snapshot(|rs|, w'.clock) && RowsOf(w'.tables, p) == Sorted(rs)
  {
    hide HasDistinctIds, Sorted;
    var list, change, wait, write := List(0, p), SourceChange(p, rs'), Tick(b.gap), WriteBack(0, w.clock + b.gap, true);
    assert IsRun(b, w, []) && Final(b, w, []) == w;
    RunAppend(b, w, [], list);
    RunAppend(b, w, [] + [list], change);
    RunAppend(b, w, [] + [list] + [change], wait);
    RunAppend(b, w, [] + [list] + [change] + [wait], write);
    es := [] + [list] + [change] + [wait] + [write];
  }

  lemma {:induction false} RunConcat(b: Bounds, w: World, es: seq<Event>, more: seq<Event>)
    requires IsRun(b, w, es) && IsRun(b, Final(b, w, es), more)
    ensures IsRun(b, w, es + more) && Final(b, w, es + more) == Final(b, Final(b, w, es), more)
    decreases |es|
  {
    hide IsEnabled, Next;
    if es == [] {
      assert es + more == more;
    } else {
      RunConcat(b, Next(b, w, es[0]), es[1..], more);
      assert (es + more)[1..] == es[1..] + more;
    }
  }

  lemma LateLook(b: Bounds, w: World, p: string) returns (es: seq<Event>)
    requires p in w.tables.snapshots
    ensures IsRun(b, w, es)
    ensures var w' := Final(b, w, es);
            && w'.source == w.source && w'.tables == w.tables && w'.clock == w.clock + b.freshness
            && 0 in w'.readers && w'.readers[0] == Queried(p, w'.clock, w.tables.snapshots[p])
  {
    var wait, begin, look := Tick(b.freshness), BeginRead(0, p), QuerySnapshot(0);
    assert IsRun(b, w, []) && Final(b, w, []) == w;
    RunAppend(b, w, [], wait);
    RunAppend(b, w, [] + [wait], begin);
    RunAppend(b, w, [] + [wait] + [begin], look);
    es := [] + [wait] + [begin] + [look];
  }

  lemma LateHit(b: Bounds, w: World, p: string, began: Time, snapshot: Snapshot) returns (es: seq<Event>)
    requires 0 in w.readers && w.readers[0] == Queried(p, began, snapshot)
    requires b.freshness > 0 && w.clock <= snapshot.updatedAt + b.freshness && snapshot.recordCount == |RowsOf(w.tables, p)| > 0
    ensures IsRun(b, w, es)
    ensures var w' := Final(b, w, es);
            w'.source == w.source && 0 in w'.readers && w'.readers[0] == Served(p, began, RowsOf(w.tables, p))
  {
    var check, read := CheckFreshness(0), QueryRows(0);
    assert IsRun(b, w, []) && Final(b, w, []) == w;
    RunAppend(b, w, [], check);
    RunAppend(b, w, [] + [check], read);
    es := [] + [check] + [read];
  }

  /** A read at the very end of the freshness is still a hit. */
  lemma LateRead(b: Bounds, w: World, p: string) returns (es: seq<Event>)
    requires p in w.tables.snapshots && w.tables.snapshots[p].updatedAt == w.clock && b.freshness > 0
    requires w.tables.snapshots[p].recordCount == |RowsOf(w.tables, p)| > 0
    ensures IsRun(b, w, es)
    ensures var w' := Final(b, w, es);
            && w'.source == w.source
            && 0 in w'.readers && w'.readers[0] == Served(p, w.clock + b.freshness, RowsOf(w.tables, p))
  {
    hide Next, IsEnabled, IsRun, Final;
    var look := LateLook(b, w, p);
    var hit := LateHit(b, Final(b, w, look), p, w.clock + b.freshness, w.tables.snapshots[p]);
    RunConcat(b, w, look, hit);
    es := look + hit;
  }

  /** The staleness bound is exact: whatever the source lists and whatever it changes to, some run serves the old list to a
      read that begins the whole freshness and gap after it was read, the source having changed meanwhile. */
  lemma StalenessIsAttained(b: Bounds, w: World, p: string, rs: seq<Record>, rs': seq<Record>) returns (es: seq<Event>)
    requires b.freshness > 0 && rs != [] && HasDistinctIds(rs) && SourceOf(w.source, p) == rs
    ensures IsRun(b, w, es)
    ensures var w' := Final(b, w, es);
            && SourceOf(w'.source, p) == rs'
            && 0 in w'.readers && w'.readers[0] == Served(p, w.clock + b.freshness + b.gap, Sorted(rs))
  {
    hide HasDistinctIds, Sorted, Next, IsEnabled, IsRun, Final;
    var refresh := LateRefresh(b, w, p, rs, rs');
    var read := LateRead(b, Final(b, w, refresh), p);
    RunConcat(b, w, refresh, read);
    es := refresh + read;
  }
}
