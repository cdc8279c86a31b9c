/** The merged deployment history: records stored with the application, completed with the operations still in the
    queue (service.go ListDeployments, deployment_operations.go mergeDeploymentRecords). */
module DeploymentHistory {
  import opened Text
  import opened OperationStore
  import opened OperationRuns

  function StatusName(status: Status): string {
    match status
    case Queued => "Queued"
    case Running => "Running"
    case Retrying => "Retrying"
    case Completed => "Completed"
    case Failed => "Failed"
  }

  /** DeploymentOperation.deploymentRecord. */
  function RecordOf(op: Operation): DeploymentRecord {
    DeploymentRecord(op.id, op.applicationId, op.environment, op.imageTag, StatusName(op.status), op.createdAt)
  }

  ghost predicate IsNewestFirst(items: seq<DeploymentRecord>) {
    forall i, j :: 0 <= i < j < |items| ==> items[i].createdAt >= items[j].createdAt
  }

  ghost predicate HasDistinctIds(items: seq<DeploymentRecord>) {
    forall i, j :: 0 <= i < j < |items| ==> items[i].deploymentId != items[j].deploymentId
  }

  /** Go's sort.Slice by creation time, descending; records of equal time may come in any order. */
  function Insert(r: DeploymentRecord, items: seq<DeploymentRecord>): (s: seq<DeploymentRecord>)
    ensures multiset(s) == multiset(items) + multiset{r}
  {
    if items == [] then [r]
    else if r.createdAt >= items[0].createdAt then [r] + items
    else
      assert items == [items[0]] + items[1..];
      [items[0]] + Insert(r, items[1..])
  }

  function SortNewestFirst(items: seq<DeploymentRecord>): (s: seq<DeploymentRecord>)
    ensures multiset(s) == multiset(items)
  {
    if items == [] then []
    else
      assert items == [items[0]] + items[1..];
      Insert(items[0], SortNewestFirst(items[1..]))
  }

  lemma {:induction false} InsertMembers(r: DeploymentRecord, items: seq<DeploymentRecord>)
    ensures forall x :: x in Insert(r, items) ==> x == r || x in items
  {
    if items != [] { InsertMembers(r, items[1..]); }
  }

  lemma {:induction false} InsertKeepsOrder(r: DeploymentRecord, items: seq<DeploymentRecord>)
    requires IsNewestFirst(items)
    ensures IsNewestFirst(Insert(r, items))
  {
    if items != [] && r.createdAt < items[0].createdAt {
      InsertKeepsOrder(r, items[1..]);
      InsertMembers(r, items[1..]);
      var tail := Insert(r, items[1..]);
      assert Insert(r, items) == [items[0]] + tail;
      forall j | 0 <= j < |tail| ensures items[0].createdAt >= tail[j].createdAt {
        assert tail[j] in tail;
      }
    }
  }

  lemma {:induction false} SortIsNewestFirst(items: seq<DeploymentRecord>)
    ensures IsNewestFirst(SortNewestFirst(items))
  {
    if items != [] {
      SortIsNewestFirst(items[1..]);
      InsertKeepsOrder(items[0], SortNewestFirst(items[1..]));
    }
  }

  /** items lists every record of the map once. */
  ghost predicate Lists(items: seq<DeploymentRecord>, records: map<string, DeploymentRecord>) {
    && (forall r :: r in items ==> r.deploymentId in records && records[r.deploymentId] == r)
    && (forall id :: id in records ==> records[id] in items)
    && HasDistinctIds(items)
  }

  /** The records of one application's operations that have not completed. */
  ghost function PendingRecords(db: Db, applicationId: string): map<string, DeploymentRecord> {
    map id | id in db.rows && db.rows[id].applicationId == applicationId && db.rows[id].status != Completed :: RecordOf(db.rows[id])
  }

  /** Store records first, then the queue records with an id not seen yet. */
  function Unseen(seen: set<string>, records: seq<DeploymentRecord>): seq<DeploymentRecord>
    decreases |records|
  {
    if records == [] then []
    else if records[0].deploymentId in seen then Unseen(seen, records[1..])
    else [records[0]] + Unseen(seen + {records[0].deploymentId}, records[1..])
  }

  lemma UnseenStep(items: seq<DeploymentRecord>, seen: set<string>, records: seq<DeploymentRecord>)
    requires records != []
    ensures items + Unseen(seen, records) ==
            if records[0].deploymentId in seen then items + Unseen(seen, records[1..])
            else (items + [records[0]]) + Unseen(seen + {records[0].deploymentId}, records[1..])
  {
    if records[0].deploymentId !in seen {
      var rest := Unseen(seen + {records[0].deploymentId}, records[1..]);
      assert items + ([records[0]] + rest) == (items + [records[0]]) + rest;
    }
  }

  function Ids(items: seq<DeploymentRecord>): set<string> {
    set r | r in items :: r.deploymentId
  }

  method MergeDeploymentRecords(primary: seq<DeploymentRecord>, operationRecords: seq<DeploymentRecord>)
      returns (items: seq<DeploymentRecord>)
    ensures operationRecords == [] ==> items == primary
    ensures multiset(items) == multiset(primary + Unseen(Ids(primary), operationRecords))
    ensures operationRecords != [] ==> IsNewestFirst(items)
  {
    if operationRecords == [] {
      assert primary + Unseen(Ids(primary), operationRecords) == primary;
      return primary;
    }
    var seen: set<string> := {};
    items := [];
    var i := 0;
    while i < |primary|
      invariant i <= |primary| && items == primary[..i] && seen == Ids(primary[..i])
    {
      assert primary[..i + 1] == primary[..i] + [primary[i]];
      seen := seen + {primary[i].deploymentId};
      items := items + [primary[i]];
      i := i + 1;
    }
    assert primary[..i] == primary;
    i := 0;
    while i < |operationRecords|
      invariant i <= |operationRecords|
      invariant items + Unseen(seen, operationRecords[i..]) == primary + Unseen(Ids(primary), operationRecords)
    {
      var item := operationRecords[i];
      assert operationRecords[i..][1..] == operationRecords[i + 1..];
      UnseenStep(items, seen, operationRecords[i..]);
      if item.deploymentId !in seen {
        seen := seen + {item.deploymentId};
        items := items + [item];
      }
      i := i + 1;
    }
    SortIsNewestFirst(items);
    assert items + Unseen(seen, []) == items;
    items := SortNewestFirst(items);
  }

  // ---------------------------------------------------------------- each deployment appears exactly once

  lemma {:induction false} DistinctMeansOnce(items: seq<DeploymentRecord>, r: DeploymentRecord)
    requires HasDistinctIds(items) && r in items
    ensures multiset(items)[r] == 1
  {
    assert items == [items[0]] + items[1..];
    if r in items[1..] {
      DistinctMeansOnce(items[1..], r);
      var k :| 0 <= k < |items[1..]| && items[1..][k] == r;
      assert items[k + 1] == r;
    } else {
      assert multiset(items[1..])[r] == 0;
    }
  }

  lemma {:induction false} UnseenKeeps(seen: set<string>, records: seq<DeploymentRecord>)
    requires HasDistinctIds(records)
    ensures forall r :: r in Unseen(seen, records) <==> r in records && r.deploymentId !in seen
    ensures HasDistinctIds(Unseen(seen, records))
    decreases |records|
  {
    if records != [] {
      var seen' := if records[0].deploymentId in seen then seen else seen + {records[0].deploymentId};
      UnseenKeeps(seen', records[1..]);
      assert forall r :: r in records <==> r == records[0] || r in records[1..];
      assert forall r :: r in records[1..] ==> r.deploymentId != records[0].deploymentId;
      var tail := Unseen(seen', records[1..]);
      if records[0].deploymentId !in seen {
        assert forall i :: 0 <= i < |tail| ==> tail[i] in tail;
      }
    }
  }

  /** What the merge shows for one id: the store's record if it has one, else the queue's, once and nothing else. */
  ghost predicate ShowsOnce(items: seq<DeploymentRecord>, r: DeploymentRecord) {
    multiset(items)[r] == 1 && forall other :: other in items && other.deploymentId == r.deploymentId ==> other == r
  }

  lemma MergedIdsAreDistinct(primary: seq<DeploymentRecord>, queued: seq<DeploymentRecord>)
    requires HasDistinctIds(primary) && HasDistinctIds(queued)
    ensures HasDistinctIds(primary + Unseen(Ids(primary), queued))
  {
    UnseenKeeps(Ids(primary), queued);
    var tail := Unseen(Ids(primary), queued);
    assert forall i :: 0 <= i < |primary| ==> primary[i] in primary && primary[i].deploymentId in Ids(primary);
    assert forall i :: 0 <= i < |tail| ==> tail[i] in tail;
  }

  lemma MergeShowsEachOnce(stored: map<string, DeploymentRecord>, pending: map<string, DeploymentRecord>,
                           primary: seq<DeploymentRecord>, queued: seq<DeploymentRecord>, items: seq<DeploymentRecord>,
                           id: string)
    requires Lists(primary, stored) && Lists(queued, pending)
    requires multiset(items) == multiset(primary + Unseen(Ids(primary), queued))
    requires forall k :: k in stored ==> stored[k].deploymentId == k
    requires forall k :: k in pending ==> pending[k].deploymentId == k
    ensures id in stored ==> ShowsOnce(items, stored[id])
    ensures id !in stored && id in pending ==> ShowsOnce(items, pending[id])
    ensures id !in stored && id !in pending ==> forall r :: r in items ==> r.deploymentId != id
  {
    UnseenKeeps(Ids(primary), queued);
    var all := primary + Unseen(Ids(primary), queued);
    assert Ids(primary) == stored.Keys;
    MergedIdsAreDistinct(primary, queued);
    assert forall r :: r in all <==> r in multiset(all);
    assert forall r :: r in items <==> r in multiset(items);
    assert forall r :: r in all <==> r in primary || r in Unseen(Ids(primary), queued);
    if id in stored {
      DistinctMeansOnce(all, stored[id]);
    } else if id in pending {
      DistinctMeansOnce(all, pending[id]);
    }
  }

  // ---------------------------------------------------------------- over whole runs

  ghost predicate KeyedById(w: World) {
    forall a, id :: a in w.history && id in w.history[a] ==> w.history[a][id].deploymentId == id
  }

  /** Completion comes after the record was written under the operation's id. */
  ghost predicate RowRecorded(w: World, id: string) {
    id in w.db.rows && w.db.rows[id].status.Completed? && w.db.rows[id].applicationId !in w.deleted ==>
      id in RecordsOf(w, w.db.rows[id].applicationId)
  }

  ghost predicate WorkerRecorded(w: World, worker: string) {
    var p := PhaseOf(w, worker);
    p.Executed? && p.outcome.Succeeded? && p.operation.applicationId !in w.deleted ==>
      p.operation.id in RecordsOf(w, p.operation.applicationId)
  }

  ghost predicate HistoryOk(w: World) {
    KeyedById(w) && (forall id :: RowRecorded(w, id)) && (forall worker :: WorkerRecorded(w, worker))
  }

  /** Records disappear only with their application. */
  lemma RecordsStay(w: World, e: Event, a: string, id: string)
    requires IsEnabled(w, e) && id in RecordsOf(w, a)
    ensures id in RecordsOf(Next(w, e), a) || a in Next(w, e).deleted
    ensures w.deleted <= Next(w, e).deleted
  {
  }

  lemma MarkKeepsRowRecorded(w: World, e: Event, id: string)
    requires IsEnabled(w, e) && e.Mark? && SnapshotOk(w, e.worker) && RowRecorded(w, id) && WorkerRecorded(w, e.worker)
    ensures RowRecorded(Next(w, e), id)
  {
    hide TrimSpace, IsBlank, BackoffAfter, Released, ClaimFrom, IsCandidateList, Enqueued;
  }

  lemma ClaimKeepsRowRecorded(w: World, e: Event, id: string)
    requires RowsOk(w.db) && IsEnabled(w, e) && e.Claim? && RowRecorded(w, id)
    ensures RowRecorded(Next(w, e), id)
  {
    hide IsEnabled, Next, CanClaim, RowsOk, Locked;
    var _, _ := ClaimStep(w, e);
  }

  lemma OtherStepKeepsRowRecorded(w: World, e: Event, id: string)
    requires IsEnabled(w, e) && !e.Mark? && !e.Claim? && RowRecorded(w, id)
    requires id in w.db.rows && id in RecordsOf(w, w.db.rows[id].applicationId) ==>
               id in RecordsOf(Next(w, e), w.db.rows[id].applicationId) || w.db.rows[id].applicationId in Next(w, e).deleted
    ensures RowRecorded(Next(w, e), id)
  {
    hide IsBlank, ClaimFrom, IsCandidateList, MarkedBy, RecordsOf;
  }

  lemma StepKeepsRowRecorded(w: World, e: Event, id: string)
    requires LeasesOk(w) && HistoryOk(w) && IsEnabled(w, e)
    ensures RowRecorded(Next(w, e), id)
  {
    hide IsEnabled, Next, RowsOk, SnapshotOk, LeaseOk, RowRecorded, WorkerRecorded, KeyedById, RecordsOf;
    assert RowRecorded(w, id);
    if e.Claim? {
      ClaimKeepsRowRecorded(w, e, id);
    } else if e.Mark? {
      assert SnapshotOk(w, e.worker) && WorkerRecorded(w, e.worker);
      MarkKeepsRowRecorded(w, e, id);
    } else {
      if id in w.db.rows && id in RecordsOf(w, w.db.rows[id].applicationId) {
        RecordsStay(w, e, w.db.rows[id].applicationId, id);
      }
      OtherStepKeepsRowRecorded(w, e, id);
    }
  }

  lemma StepKeepsWorkerRecorded(w: World, e: Event, worker: string)
    requires HistoryOk(w) && IsEnabled(w, e)
    ensures WorkerRecorded(Next(w, e), worker)
  {
    hide ClaimFrom, IsCandidateList, IsBlank, MarkedBy, Enqueued, KeyedById, RowRecorded;
    assert WorkerRecorded(w, worker);
    var p := PhaseOf(w, worker);
    if !p.Idle? && p.operation.id in RecordsOf(w, p.operation.applicationId) {
      RecordsStay(w, e, p.operation.applicationId, p.operation.id);
    }
  }

  lemma StepKeepsKeys(w: World, e: Event)
    requires IsEnabled(w, e) && KeyedById(w)
    ensures KeyedById(Next(w, e))
  {
    hide ClaimFrom, IsCandidateList, IsBlank, MarkedBy, Enqueued;
  }

  lemma {:induction false} StepKeepsHistory(w: World, e: Event)
    requires LeasesOk(w) && HistoryOk(w) && IsEnabled(w, e)
    ensures HistoryOk(Next(w, e))
  {
    hide IsEnabled, Next, LeasesOk, KeyedById, RowRecorded, WorkerRecorded;
    StepKeepsKeys(w, e);
    forall id ensures RowRecorded(Next(w, e), id) { StepKeepsRowRecorded(w, e, id); }
    forall worker ensures WorkerRecorded(Next(w, e), worker) { StepKeepsWorkerRecorded(w, e, worker); }
  }

  lemma {:induction false} RunKeepsHistory(w: World, es: seq<Event>)
    requires LeasesOk(w) && HistoryOk(w) && IsRun(w, es)
    ensures HistoryOk(Final(w, es))
    decreases |es|
  {
    if es != [] {
      StepKeepsLeases(w, es[0]);
      StepKeepsHistory(w, es[0]);
      RunKeepsHistory(Next(w, es[0]), es[1..]);
    }
  }

  lemma InitialIsOk()
    ensures LeasesOk(INIT) && HistoryOk(INIT)
  {
  }

  /** In every state a run reaches, each enqueued deployment of an application that was not deleted appears exactly once
      in the merged history, read in that state: as the stored record once there is one, as the queue's until then. */
  lemma EveryDeploymentIsListedOnce(es: seq<Event>, id: string, primary: seq<DeploymentRecord>,
                                    queued: seq<DeploymentRecord>, items: seq<DeploymentRecord>)
    requires IsRun(INIT, es) && id in Final(INIT, es).db.rows
    requires Final(INIT, es).db.rows[id].applicationId !in Final(INIT, es).deleted
    requires var w := Final(INIT, es);
             var a := w.db.rows[id].applicationId;
             Lists(primary, RecordsOf(w, a)) && Lists(queued, PendingRecords(w.db, a))
    requires multiset(items) == multiset(primary + Unseen(Ids(primary), queued))
    ensures var w := Final(INIT, es);
            var op := w.db.rows[id];
            var stored := RecordsOf(w, op.applicationId);
            && (op.status.Completed? ==> id in stored)
            && ShowsOnce(items, if id in stored then stored[id]
                                else DeploymentRecord(id, op.applicationId, op.environment, op.imageTag, StatusName(op.status), op.createdAt))
  {
    hide IsRun, Final, Unseen, Ids, SnapshotOk, LeaseOk, WorkerRecorded, ShowsOnce;
    InitialIsOk();
    RunKeepsLeases(INIT, es);
    RunKeepsHistory(INIT, es);
    var w := Final(INIT, es);
    var a := w.db.rows[id].applicationId;
    assert RowOk(id, w.db.rows[id]) && RowRecorded(w, id);
    forall k | k in PendingRecords(w.db, a) ensures PendingRecords(w.db, a)[k].deploymentId == k {
      assert RowOk(k, w.db.rows[k]);
    }
    MergeShowsEachOnce(RecordsOf(w, a), PendingRecords(w.db, a), primary, queued, items, id);
  }
}
