/** Runs of the deployment queue: any number of sequential workers with distinct ids interleave claims, executions,
    marks, failed marks and crashes, while requests are enqueued, application stores change and time passes. */
module OperationRuns {
  import opened Text
  import opened OperationStore

  datatype DeploymentRecord = DeploymentRecord(
    deploymentId: string, applicationId: string, environment: string, imageTag: string, status: string, createdAt: Time)

  datatype Outcome = Succeeded | RetryableError(message: string) | PermanentError(message: string)

  /** Where a worker stands in processOnce: it holds the operation its claim returned until it has marked it. */
  datatype Phase =
    | Idle
    | Executing(operation: Operation, claimedAt: Time)
    | Executed(operation: Operation, claimedAt: Time, outcome: Outcome)

  datatype World = World(
    db: Db,
    workers: map<string, Phase>,
    clock: Time,
    history: map<string, map<string, DeploymentRecord>>,  // per application, the stored deployment records by id
    deleted: set<string>,                                 // applications deleted so far
    claims: map<string, seq<Time>>,                       // per operation, when it was claimed
    steps: nat)                                           // successful claims and marks so far

  /** A worker samples the clock before it opens a transaction, so every `now` may lie behind the clock. */
  datatype Event =
    | Tick(d: nat)
    | Enqueue(submission: Submission, now: Time)
    | Claim(worker: string, now: Time, leaseDuration: int, skipped: set<string>, cs: seq<string>)
    | Execute(worker: string, outcome: Outcome, written: Option<DeploymentRecord>)
    | Mark(worker: string, now: Time)
    | Abandon(worker: string)                             // a failed mark, a claim whose reply was lost, or a crash
    | StoreWrite(applicationId: string, record: DeploymentRecord)
    | DeleteApplication(applicationId: string)

  function PhaseOf(w: World, worker: string): Phase {
    if worker in w.workers then w.workers[worker] else Idle
  }

  predicate IsBusy(w: World, worker: string) {
    !PhaseOf(w, worker).Idle?
  }

  function RecordsOf(w: World, applicationId: string): map<string, DeploymentRecord> {
    if applicationId in w.history then w.history[applicationId] else map[]
  }

  function Recorded(w: World, applicationId: string, record: DeploymentRecord): World {
    w.(history := w.history[applicationId := RecordsOf(w, applicationId)[record.deploymentId := record]])
  }

  function ClaimsOf(w: World, id: string): seq<Time> {
    if id in w.claims then w.claims[id] else []
  }

  /** What prepareDeploymentOperation hands to the queue: a fresh queued operation with a usable lock key. */
  predicate IsPrepared(s: Submission) {
    s.status == Some(Queued) && !IsBlank(s.lockKey)
  }

  /** The marking that processOnce chooses for an outcome. */
  function MarkedBy(db: Db, op: Operation, outcome: Outcome, now: Time): Db {
    match outcome
    case Succeeded => MarkedTerminal(db, op, Completed, "", now)
    case PermanentError(message) => MarkedTerminal(db, op, Failed, TrimSpace(message), now)
    case RetryableError(message) =>
      if op.attemptCount >= EffectiveMaxAttempts(op) then MarkedTerminal(db, op, Failed, TrimSpace(message), now)
      else MarkedRetry(db, op, message, now + BackoffAfter(op.attemptCount), now)
  }

  lemma RowsHaveTheirIds(db: Db)
    requires RowsOk(db)
    ensures forall id :: id in db.rows ==> db.rows[id].id == id
  {
  }

  /** How one attempt leaves a row: completed after a success, failed for good, or waiting for its backoff as long as it has
      attempts left. */
  predicate EndsAs(before: Operation, after: Operation, attempts: nat, outcome: Outcome, markedAt: Time) {
    var allowed := if before.maxAttempts > 0 then before.maxAttempts else 5;
    && IsSameRequest(before, after) && after.attemptCount == attempts && after.leaseOwner == None && after.leaseUntil == None
    && match outcome
       case Succeeded => after.status == Completed && after.lastError == "" && after.completedAt == Some(markedAt)
       case PermanentError(message) =>
         after.status == Failed && after.lastError == TrimSpace(message) && after.completedAt == Some(markedAt)
       case RetryableError(message) =>
         && after.lastError == TrimSpace(message)
         && if attempts < allowed then after.status == Retrying && after.nextAttemptAt == markedAt + BackoffAfter(attempts)
            else after.status == Failed && after.completedAt == Some(markedAt)
  }

  /** The mark that ends a pass; false reports a lost lease. */
  method MarkOutcome(store: MariaDBStore, operation: Operation, outcome: Outcome, markedAt: Time) returns (ok: bool)
    modifies store
    ensures ok <==> LeaseHeld(old(store.View()), operation)
    ensures store.View() == MarkedBy(old(store.View()), operation, outcome, markedAt)
    ensures ok && old(store.rows)[operation.id] == operation ==>
              && operation.id in store.rows && store.rows == old(store.rows)[operation.id := store.rows[operation.id]]
              && EndsAs(operation, store.rows[operation.id], operation.attemptCount, outcome, markedAt)
  {
    hide TrimSpace, MarkedTerminal, MarkedRetry, BackoffAfter, IsFreed;
    match outcome {
      case Succeeded =>
        ok := store.MarkOperationTerminal(operation, Completed, "", markedAt);
      case PermanentError(message) =>
        ok := store.MarkOperationTerminal(operation, Failed, TrimSpace(message), markedAt);
      case RetryableError(message) =>
        if operation.attemptCount >= EffectiveMaxAttempts(operation) {
          ok := store.MarkOperationTerminal(operation, Failed, TrimSpace(message), markedAt);
        } else {
          var delay := DeploymentOperationBackoff(operation.attemptCount);
          ok := store.MarkDeploymentOperationRetry(operation, message, markedAt + delay, markedAt);
        }
    }
  }

  /** One pass of the worker loop with no other transaction in between: claim, run, mark. The execution itself is
      the outcome it ends with; the clock readings are those of the claim and of the mark. */
  method ProcessOnce(store: MariaDBStore, worker: string, claimedAt: Time, leaseDuration: int, skipped: set<string>,
                     outcome: Outcome, markedAt: Time)
      returns (processed: bool, failed: bool, ghost cs: seq<string>, ghost claimed: Option<string>)
    requires RowsOk(store.View())
    modifies store
    ensures IsCandidateList(old(store.View()), claimedAt, skipped, cs)
    ensures var (db, r) := ClaimFrom(old(store.View()), cs, worker, claimedAt, claimedAt + EffectiveLease(leaseDuration));
            && processed == r.Claimed? && failed == r.ClaimFailed?
            && store.View() == if r.Claimed? then MarkedBy(db, r.operation, outcome, markedAt) else db
    // Nothing came between claim and mark, so the mark took effect: the row is no longer running.
    ensures var (db, r) := ClaimFrom(old(store.View()), cs, worker, claimedAt, claimedAt + EffectiveLease(leaseDuration));
            r.Claimed? ==> LeaseHeld(db, r.operation)
    // The claimed row ends as the outcome says, the others are left alone.
    ensures !processed ==> store.View() == old(store.View())
    ensures processed == claimed.Some?
    ensures processed ==>
              var id, rows, rows' := claimed.value, old(store.rows), store.rows;
              && id in cs && id in rows && id in rows' && rows' == rows[id := rows'[id]]
              && EndsAs(rows[id], rows'[id], rows[id].attemptCount + 1, outcome, markedAt)
  {
    hide IsCandidateList, IsDue, IsBlank, TrimSpace, HeldByOther, ClaimFrom, ClaimedRow, Locked, MarkedBy, BackoffAfter, RowsOk;
    ghost var db := store.View();
    assert forall id :: id in store.rows ==> store.rows[id].id == id by { RowsHaveTheirIds(db); }
    var r;
    r, cs := store.ClaimNextDeploymentOperation(worker, claimedAt, leaseDuration, skipped);
    processed, failed := r.Claimed?, r.ClaimFailed?;
    claimed := if r.Claimed? then Some(r.operation.id) else None;
    if !processed { return; }
    var operation := r.operation;
    CandidatesAreDue(db, claimedAt, skipped, cs);
    ClaimEffect(db, cs, worker, claimedAt, claimedAt + EffectiveLease(leaseDuration));
    var ok := MarkOutcome(store, operation, outcome, markedAt);
    // The row still carries the claim, so the mark took effect.
    assert ok;
  }

  ghost predicate IsEnabled(w: World, e: Event) {
    match e
    case Tick(_) => true
    case Enqueue(s, now) => IsPrepared(s) && now <= w.clock
    case Claim(worker, now, _, skipped, cs) =>
      !IsBlank(worker) && !IsBusy(w, worker) && now <= w.clock && IsCandidateList(w.db, now, skipped, cs)
    case Execute(worker, outcome, written) =>
      var p := PhaseOf(w, worker);
      && p.Executing?
      // The record is written under the operation's id, and a success always wrote it.
      && (written.Some? ==> written.value.deploymentId == p.operation.id)
      && (outcome.Succeeded? ==> written.Some?)
    case Mark(worker, now) =>
      PhaseOf(w, worker).Executed? && PhaseOf(w, worker).claimedAt <= now <= w.clock
    case Abandon(worker) => IsBusy(w, worker)
    case StoreWrite(_, _) => true
    case DeleteApplication(_) => true
  }

  ghost function Next(w: World, e: Event): World
    requires IsEnabled(w, e)
  {
    match e
    case Tick(d) => w.(clock := w.clock + d)
    case Enqueue(s, now) => w.(db := Enqueued(w.db, s, now))
    case Claim(worker, now, leaseDuration, skipped, cs) =>
      var (db, r) := ClaimFrom(w.db, cs, worker, now, now + EffectiveLease(leaseDuration));
      if !r.Claimed? then w.(db := db)
      else w.(db := db, workers := w.workers[worker := Executing(r.operation, now)],
              claims := w.claims[r.operation.id := ClaimsOf(w, r.operation.id) + [now]], steps := w.steps + 1)
    case Execute(worker, outcome, written) =>
      var Executing(op, at) := w.workers[worker];
      var w1 := w.(workers := w.workers[worker := Executed(op, at, outcome)]);
      if written.Some? then Recorded(w1, op.applicationId, written.value) else w1
    case Mark(worker, now) =>
      var Executed(op, _, outcome) := w.workers[worker];
      w.(db := MarkedBy(w.db, op, outcome, now), workers := w.workers[worker := Idle],
         steps := if LeaseHeld(w.db, op) then w.steps + 1 else w.steps)
    case Abandon(worker) => w.(workers := w.workers[worker := Idle])
    case StoreWrite(a, record) => Recorded(w, a, record)
    case DeleteApplication(a) => w.(history := w.history - {a}, deleted := w.deleted + {a})
  }

  const INIT := World(Db(map[], map[]), map[], 0, map[], {}, map[], 0)

  ghost predicate IsRun(w: World, es: seq<Event>)
    decreases |es|
  {
    es != [] ==> IsEnabled(w, es[0]) && IsRun(Next(w, es[0]), es[1..])
  }

  /** The state a run reaches. Every prefix of a run is a run, so a claim about Final is one about every state. */
  ghost function Final(w: World, es: seq<Event>): World
    requires IsRun(w, es)
    decreases |es|
  {
    if es == [] then w else Final(Next(w, es[0]), es[1..])
  }

  // ---------------------------------------------------------------- invariants

  /** A row has a lease owner exactly when it is running; attempts stay within the limit. */
  ghost predicate RowOk(id: string, op: Operation) {
    && op.id == id && op.maxAttempts >= 1 && !IsBlank(op.lockKey)
    && op.attemptCount <= op.maxAttempts
    && (op.status.Running? <==> op.leaseOwner.Some?)
    && (op.status.Queued? || op.status.Retrying? ==> op.attemptCount < op.maxAttempts)
  }

  ghost predicate RowsOk(db: Db) {
    && (forall id :: id in db.rows ==> RowOk(id, db.rows[id]))
    && (forall i, j :: i in db.rows && j in db.rows && i != j ==> db.rows[i].requestId != db.rows[j].requestId)
  }

  /** A busy worker's snapshot is exactly its row, and that row names the worker. */
  ghost predicate SnapshotOk(w: World, worker: string) {
    IsBusy(w, worker) ==>
      var op := PhaseOf(w, worker).operation;
      && op.id in w.db.rows && w.db.rows[op.id] == op
      && op.status.Running? && op.leaseOwner == Some(worker) && op.leaseUntil.Some? && !IsBlank(worker)
  }

  /** While a busy worker's lease runs, the lock row names the worker with at least that expiry. */
  ghost predicate LeaseOk(w: World, worker: string) {
    IsBusy(w, worker) ==>
      var op := PhaseOf(w, worker).operation;
      op.leaseUntil.Some? && op.leaseUntil.value > w.clock ==>
        op.lockKey in w.db.locks && w.db.locks[op.lockKey].owner == worker
        && w.db.locks[op.lockKey].until >= op.leaseUntil.value
  }

  ghost predicate LeasesOk(w: World) {
    RowsOk(w.db) && forall worker :: SnapshotOk(w, worker) && LeaseOk(w, worker)
  }

  lemma InitialLeasesOk()
    ensures LeasesOk(INIT)
  {
  }

  /** A claim, described on the rows it changes. */
  lemma {:induction false} ClaimEffect(db: Db, cs: seq<string>, worker: string, now: Time, until: Time)
    requires RowsOk(db) && forall id :: id in cs ==> id in db.rows && IsDue(db.rows[id], now)
    ensures var (db', r) := ClaimFrom(db, cs, worker, now, until);
            if !r.Claimed? then db' == db
            else var id := r.operation.id;
              && id in cs && IsDue(db.rows[id], now) && r.operation == ClaimedRow(db.rows[id], worker, now, until)
              && !HeldByOther(db, r.operation.lockKey, worker, now)
              && db' == Locked(db, r.operation.lockKey, worker, until).(rows := db.rows[id := r.operation])
  {
    if cs != [] { ClaimEffect(db, cs[1..], worker, now, until); }
  }

  ghost predicate CanClaim(w: World, worker: string, now: Time, id: string) {
    && id in w.db.rows && IsDue(w.db.rows[id], now) && !HeldByOther(w.db, w.db.rows[id].lockKey, worker, now)
    && !IsBusy(w, worker) && !IsBlank(worker) && now <= w.clock
  }

  /** The world after a worker has claimed a row. */
  ghost function AfterClaim(w: World, worker: string, now: Time, until: Time, id: string): World
    requires id in w.db.rows
  {
    var op := ClaimedRow(w.db.rows[id], worker, now, until);
    w.(db := Locked(w.db, op.lockKey, worker, until).(rows := w.db.rows[id := op]),
       workers := w.workers[worker := Executing(op, now)],
       claims := w.claims[id := ClaimsOf(w, id) + [now]], steps := w.steps + 1)
  }

  /** A claim step changes nothing or claims one row. */
  lemma ClaimStep(w: World, e: Event) returns (claimed: bool, id: string)
    requires RowsOk(w.db) && IsEnabled(w, e) && e.Claim?
    ensures claimed ==> CanClaim(w, e.worker, e.now, id)
                        && Next(w, e) == AfterClaim(w, e.worker, e.now, e.now + EffectiveLease(e.leaseDuration), id)
    ensures !claimed ==> Next(w, e) == w
  {
    hide IsBlank, IsDue, HeldByOther, ClaimFrom, IsCandidateList, Enqueued, MarkedBy, Recorded, Locked, ClaimsOf;
    var until := e.now + EffectiveLease(e.leaseDuration);
    CandidatesAreDue(w.db, e.now, e.skipped, e.cs);
    ClaimEffect(w.db, e.cs, e.worker, e.now, until);
    var r := ClaimFrom(w.db, e.cs, e.worker, e.now, until).1;
    claimed, id := r.Claimed?, if r.Claimed? then r.operation.id else "";
    if claimed {
      assert RowOk(id, w.db.rows[id]);
    }
  }

  lemma RowIsOk(db: Db, id: string)
    requires RowsOk(db) && id in db.rows
    ensures RowOk(id, db.rows[id])
  {
  }

  lemma ClaimKeepsRows(w: World, worker: string, now: Time, until: Time, id: string)
    requires RowsOk(w.db) && CanClaim(w, worker, now, id)
    ensures RowsOk(AfterClaim(w, worker, now, until, id).db)
  {
    hide IsBlank, HeldByOther;
    assert RowOk(id, w.db.rows[id]);
  }

  lemma ClaimKeepsLease(w: World, worker: string, now: Time, until: Time, id: string, other: string)
    requires CanClaim(w, worker, now, id) && RowOk(id, w.db.rows[id]) && SnapshotOk(w, other) && LeaseOk(w, other)
    ensures SnapshotOk(AfterClaim(w, worker, now, until, id), other) && LeaseOk(AfterClaim(w, worker, now, until, id), other)
  {
    hide IsBlank;
    var w' := AfterClaim(w, worker, now, until, id);
    assert other != worker ==> PhaseOf(w', other) == PhaseOf(w, other);
  }

  lemma {:induction false} ClaimKeepsLeases(w: World, worker: string, now: Time, until: Time, id: string)
    requires LeasesOk(w) && CanClaim(w, worker, now, id)
    ensures LeasesOk(AfterClaim(w, worker, now, until, id))
  {
    hide RowsOk, RowOk, SnapshotOk, LeaseOk, AfterClaim, IsBlank, HeldByOther;
    RowIsOk(w.db, id);
    ClaimKeepsRows(w, worker, now, until, id);
    forall other ensures SnapshotOk(AfterClaim(w, worker, now, until, id), other)
                         && LeaseOk(AfterClaim(w, worker, now, until, id), other)
    {
      ClaimKeepsLease(w, worker, now, until, id, other);
    }
  }

  /** What a mark writes over the row it ends: the request and the attempts stay, the lease goes, and a row that may be
      tried again waits for its backoff. */
  ghost predicate IsMarked(op: Operation, row: Operation, now: Time) {
    && row == op.(status := row.status, lastError := row.lastError, nextAttemptAt := row.nextAttemptAt, leaseOwner := None,
                  leaseUntil := None, version := row.version, updatedAt := row.updatedAt, completedAt := row.completedAt)
    && (row.status.Completed? || row.status.Failed? || row.status.Retrying?)
    && (row.status.Retrying? ==>
          op.attemptCount < EffectiveMaxAttempts(op) && row.nextAttemptAt == now + BackoffAfter(op.attemptCount))
  }

  /** The world after a worker has marked its row. */
  ghost function AfterMark(w: World, worker: string, row: Operation): World
    requires IsBusy(w, worker)
  {
    var op := PhaseOf(w, worker).operation;
    w.(db := Released(w.db, op.lockKey, worker).(rows := w.db.rows[op.id := row]), workers := w.workers[worker := Idle],
       steps := w.steps + 1)
  }

  /** A mark step ends the worker's own row. */
  lemma MarkStep(w: World, e: Event) returns (row: Operation)
    requires IsEnabled(w, e) && e.Mark? && SnapshotOk(w, e.worker)
    ensures IsBusy(w, e.worker) && IsMarked(PhaseOf(w, e.worker).operation, row, e.now)
    ensures Next(w, e) == AfterMark(w, e.worker, row)
  {
    hide TrimSpace, BackoffAfter, IsBlank, IsCandidateList, ClaimFrom, Recorded, Enqueued, Released;
    row := Next(w, e).db.rows[PhaseOf(w, e.worker).operation.id];
  }

  lemma MarkKeepsRows(db: Db, op: Operation, row: Operation, now: Time)
    requires RowsOk(db) && op.id in db.rows && db.rows[op.id] == op && IsMarked(op, row, now)
    ensures RowsOk(db.(rows := db.rows[op.id := row]))
  {
    hide BackoffAfter, IsBlank;
    assert RowOk(op.id, op);
  }

  lemma MarkKeepsLease(w: World, marking: string, row: Operation, now: Time, worker: string)
    requires IsBusy(w, marking) && SnapshotOk(w, marking) && IsMarked(PhaseOf(w, marking).operation, row, now)
    requires SnapshotOk(w, worker) && LeaseOk(w, worker)
    ensures SnapshotOk(AfterMark(w, marking, row), worker) && LeaseOk(AfterMark(w, marking, row), worker)
  {
    hide BackoffAfter, IsBlank;
    if worker != marking {
      assert PhaseOf(AfterMark(w, marking, row), worker) == PhaseOf(w, worker);
    }
  }

  lemma {:induction false} MarkKeepsLeases(w: World, e: Event)
    requires LeasesOk(w) && IsEnabled(w, e) && e.Mark?
    ensures LeasesOk(Next(w, e))
  {
    hide IsEnabled, Next, RowsOk, SnapshotOk, LeaseOk, IsMarked, Released;
    assert SnapshotOk(w, e.worker);
    var row := MarkStep(w, e);
    var w', op := Next(w, e), PhaseOf(w, e.worker).operation;
    assert op.id in w.db.rows && w.db.rows[op.id] == op by { SnapshotIsRow(w, e.worker); }
    MarkKeepsRows(w.db, op, row, e.now);
    assert RowsOk(w'.db) by { RowsOnly(w'.db, w.db.(rows := w.db.rows[op.id := row])); }
    forall worker ensures SnapshotOk(w', worker) && LeaseOk(w', worker) {
      MarkKeepsLease(w, e.worker, row, e.now, worker);
    }
  }

  lemma SnapshotIsRow(w: World, worker: string)
    requires IsBusy(w, worker) && SnapshotOk(w, worker)
    ensures var op := PhaseOf(w, worker).operation; op.id in w.db.rows && w.db.rows[op.id] == op
  {
  }

  lemma RowsOnly(db: Db, db': Db)
    requires RowsOk(db') && db.rows == db'.rows
    ensures RowsOk(db)
  {
  }

  lemma {:induction false} EnqueueKeepsLeases(w: World, e: Event)
    requires LeasesOk(w) && IsEnabled(w, e) && e.Enqueue?
    ensures LeasesOk(Next(w, e))
  {
    var w' := Next(w, e);
    forall worker ensures SnapshotOk(w', worker) && LeaseOk(w', worker) {
      assert SnapshotOk(w, worker) && LeaseOk(w, worker);
    }
  }

  lemma {:induction false} ExecuteKeepsLeases(w: World, e: Event)
    requires LeasesOk(w) && IsEnabled(w, e) && e.Execute?
    ensures LeasesOk(Next(w, e))
  {
    var w' := Next(w, e);
    forall worker ensures SnapshotOk(w', worker) && LeaseOk(w', worker) {
      assert SnapshotOk(w, worker) && LeaseOk(w, worker);
      assert PhaseOf(w', worker) == if worker == e.worker then w'.workers[e.worker] else PhaseOf(w, worker);
    }
  }

  /** Time, crashes and the application stores do not touch the queue. */
  lemma {:induction false} OtherStepKeepsLeases(w: World, e: Event)
    requires LeasesOk(w) && IsEnabled(w, e) && (e.Tick? || e.Abandon? || e.StoreWrite? || e.DeleteApplication?)
    ensures LeasesOk(Next(w, e))
  {
    var w' := Next(w, e);
    forall worker ensures SnapshotOk(w', worker) && LeaseOk(w', worker) {
      assert SnapshotOk(w, worker) && LeaseOk(w, worker);
      assert PhaseOf(w', worker) == PhaseOf(w, worker) || PhaseOf(w', worker).Idle?;
    }
  }

  lemma ClaimStepKeepsLeases(w: World, e: Event)
    requires LeasesOk(w) && IsEnabled(w, e) && e.Claim?
    ensures LeasesOk(Next(w, e))
  {
    hide IsEnabled, Next, CanClaim, AfterClaim, RowsOk, SnapshotOk, LeaseOk;
    var claimed, id := ClaimStep(w, e);
    if claimed { ClaimKeepsLeases(w, e.worker, e.now, e.now + EffectiveLease(e.leaseDuration), id); }
  }

  lemma {:induction false} StepKeepsLeases(w: World, e: Event)
    requires LeasesOk(w) && IsEnabled(w, e)
    ensures LeasesOk(Next(w, e))
  {
    hide *;
    match e
    case Enqueue(_, _) => EnqueueKeepsLeases(w, e);
    case Claim(_, _, _, _, _) => ClaimStepKeepsLeases(w, e);
    case Execute(_, _, _) => ExecuteKeepsLeases(w, e);
    case Mark(_, _) => MarkKeepsLeases(w, e);
    case _ => OtherStepKeepsLeases(w, e);
  }

  lemma {:induction false} RunKeepsLeases(w: World, es: seq<Event>)
    requires LeasesOk(w) && IsRun(w, es)
    ensures LeasesOk(Final(w, es))
    decreases |es|
  {
    if es != [] {
      StepKeepsLeases(w, es[0]);
      RunKeepsLeases(Next(w, es[0]), es[1..]);
    }
  }

  ghost predicate HoldsLease(w: World, worker: string, key: string) {
    IsBusy(w, worker) &&
      var op := PhaseOf(w, worker).operation;
      op.lockKey == key && op.leaseUntil.Some? && op.leaseUntil.value > w.clock
  }

  /** Lease mutual exclusion: two workers never process operations with the same lock key while both leases run. */
  lemma MutualExclusion(es: seq<Event>, a: string, b: string, key: string)
    requires IsRun(INIT, es)
    requires HoldsLease(Final(INIT, es), a, key) && HoldsLease(Final(INIT, es), b, key)
    ensures a == b
  {
    RunKeepsLeases(INIT, es);
    var w := Final(INIT, es);
    assert LeaseOk(w, a) && LeaseOk(w, b);
  }

  /** A mark frees no lock but the marking worker's own, however late it comes. */
  lemma LateReleaseIsHarmless(w: World, e: Event, key: string)
    requires IsEnabled(w, e) && e.Mark?
    requires key in w.db.locks && w.db.locks[key].owner != e.worker
    requires LeasesOk(w)
    ensures key in Next(w, e).db.locks && Next(w, e).db.locks[key] == w.db.locks[key]
  {
    assert SnapshotOk(w, e.worker);
  }

  /** Until a worker marks its operation the snapshot agrees with the row, so the guarded update always finds it and the
      lost-lease errors cannot occur. */
  lemma LeaseIsNeverLost(es: seq<Event>, worker: string)
    requires IsRun(INIT, es) && IsBusy(Final(INIT, es), worker)
    ensures var w := Final(INIT, es);
            var op := PhaseOf(w, worker).operation;
            op.id in w.db.rows && w.db.rows[op.id] == op && op.status == Running && LeaseHeld(w.db, op)
  {
    RunKeepsLeases(INIT, es);
    assert SnapshotOk(Final(INIT, es), worker);
  }

  // ---------------------------------------------------------------- what one operation goes through

  /** The worker does not go idle before the end of the run, so it is busy with one operation all along. */
  ghost predicate StaysBusy(w: World, es: seq<Event>, worker: string)
    requires IsRun(w, es)
    decreases |es|
  {
    IsBusy(w, worker) && (es != [] ==> StaysBusy(Next(w, es[0]), es[1..], worker))
  }

  lemma BusyStep(w: World, e: Event, worker: string)
    requires RowsOk(w.db) && IsEnabled(w, e) && IsBusy(w, worker) && IsBusy(Next(w, e), worker)
    requires e.Mark? ==> SnapshotOk(w, e.worker)
    ensures PhaseOf(Next(w, e), worker).operation == PhaseOf(w, worker).operation
  {
    if e.Claim? {
      hide IsBlank, IsDue, HeldByOther, IsCandidateList, Locked, ClaimedRow, MarkedBy;
      var _, _ := ClaimStep(w, e);
    } else {
      hide IsBlank, ClaimFrom, IsCandidateList, MarkedBy, Enqueued;
    }
  }

  lemma {:induction false} BusyWithOne(w: World, es: seq<Event>, worker: string)
    requires LeasesOk(w) && IsRun(w, es) && StaysBusy(w, es, worker)
    ensures IsBusy(Final(w, es), worker) && PhaseOf(Final(w, es), worker).operation == PhaseOf(w, worker).operation
    decreases |es|
  {
    hide IsEnabled, Next, RowsOk, SnapshotOk, LeaseOk;
    if es != [] {
      assert es[0].Mark? ==> SnapshotOk(w, es[0].worker);
      BusyStep(w, es[0], worker);
      StepKeepsLeases(w, es[0]);
      BusyWithOne(Next(w, es[0]), es[1..], worker);
    }
  }

  /** A worker that a claim has made busy holds the row it claimed, leased for as long as it asked for. */
  lemma ClaimLeases(w: World, e: Event)
    requires RowsOk(w.db) && IsEnabled(w, e) && e.Claim? && IsBusy(Next(w, e), e.worker)
    ensures var op := PhaseOf(Next(w, e), e.worker).operation;
            && op.id in w.db.rows && op.lockKey == w.db.rows[op.id].lockKey
            && op.leaseUntil == Some(e.now + if e.leaseDuration > 0 then e.leaseDuration else 300_000_000)
            && !HeldByOther(w.db, op.lockKey, e.worker, e.now)
  {
    hide IsBlank, IsDue, HeldByOther, IsCandidateList, Locked, MarkedBy, ClaimFrom;
    assert !IsBusy(w, e.worker);
    var claimed, id := ClaimStep(w, e);
  }

  /** The lease does what it is for: from a claim until the duration it asked for has passed, no other worker claims an
      operation with that lock key, provided the worker is still at work. */
  lemma LeaseExcludesOthers(before: seq<Event>, claim: Event, between: seq<Event>, other: Event)
    requires IsRun(INIT, before) && IsEnabled(Final(INIT, before), claim) && claim.Claim?
    requires var w := Next(Final(INIT, before), claim);
             && IsRun(w, between) && StaysBusy(w, between, claim.worker)
             && var w' := Final(w, between);
                && w'.clock < claim.now + (if claim.leaseDuration > 0 then claim.leaseDuration else 300_000_000)
                && IsEnabled(w', other) && other.Claim? && other.worker != claim.worker && IsBusy(Next(w', other), other.worker)
    ensures var w := Next(Final(INIT, before), claim);
            var w' := Next(Final(w, between), other);
            PhaseOf(w', other.worker).operation.lockKey != PhaseOf(w, claim.worker).operation.lockKey
  {
    hide Next, RowsOk, SnapshotOk, ClaimFrom, IsCandidateList, IsBlank;
    var start := Final(INIT, before);
    InitialLeasesOk();
    RunKeepsLeases(INIT, before);
    ClaimLeases(start, claim);
    StepKeepsLeases(start, claim);
    var w := Next(start, claim);
    BusyWithOne(w, between, claim.worker);
    RunKeepsLeases(w, between);
    var w' := Final(w, between);
    assert LeaseOk(w', claim.worker);
    ClaimLeases(w', other);
  }

  /** A mark ends the worker's row as its execution ended, keeps every other row, and frees the lock for everybody. */
  lemma MarkFollowsOutcome(es: seq<Event>, e: Event)
    requires IsRun(INIT, es) && IsEnabled(Final(INIT, es), e) && e.Mark?
    ensures var w := Final(INIT, es);
            var Executed(op, _, outcome) := PhaseOf(w, e.worker);
            var rows' := Next(w, e).db.rows;
            && op.id in w.db.rows && op.id in rows' && rows' == w.db.rows[op.id := rows'[op.id]]
            && EndsAs(w.db.rows[op.id], rows'[op.id], op.attemptCount, outcome, e.now)
            && IsFreed(w.db.locks, Next(w, e).db.locks, op.lockKey, e.worker)
  {
    RunKeepsLeases(INIT, es);
    var w := Final(INIT, es);
    assert SnapshotOk(w, e.worker);
    MarkEnds(w, e);
  }

  lemma MarkEnds(w: World, e: Event)
    requires IsEnabled(w, e) && e.Mark? && SnapshotOk(w, e.worker)
    ensures var Executed(op, _, outcome) := PhaseOf(w, e.worker);
            var rows' := Next(w, e).db.rows;
            && op.id in w.db.rows && op.id in rows' && rows' == w.db.rows[op.id := rows'[op.id]]
            && EndsAs(w.db.rows[op.id], rows'[op.id], op.attemptCount, outcome, e.now)
            && IsFreed(w.db.locks, Next(w, e).db.locks, op.lockKey, e.worker)
  {
    hide TrimSpace, BackoffAfter, IsBlank, IsCandidateList, ClaimFrom, Recorded, Enqueued;
  }

  /** What was submitted is what the queue carries: in every state after an accepted enqueue the row asks for the same
      deployment. */
  lemma SubmissionIsKept(before: seq<Event>, s: Submission, now: Time, after: seq<Event>)
    requires IsRun(INIT, before) && IsEnabled(Final(INIT, before), Enqueue(s, now))
    requires var w := Final(INIT, before);
             s.id !in w.db.rows && forall id :: id in w.db.rows ==> w.db.rows[id].requestId != s.requestId
    requires IsRun(Next(Final(INIT, before), Enqueue(s, now)), after)
    ensures var w := Final(Next(Final(INIT, before), Enqueue(s, now)), after);
            && s.id in w.db.rows
            && var row := w.db.rows[s.id];
            && row.id == s.id && row.applicationId == s.applicationId && row.environment == s.environment
            && row.imageTag == s.imageTag && row.requestId == s.requestId && row.lockKey == s.lockKey
            && row.maxAttempts == (if s.maxAttempts > 0 then s.maxAttempts else 5)
            && row.createdAt == (if s.createdAt.Some? then s.createdAt.value else now)
  {
    hide SnapshotOk, LeaseOk, RowsOk, MarkedBy, ClaimFrom, IsCandidateList, IsBlank;
    var w := Final(INIT, before);
    InitialLeasesOk();
    RunKeepsLeases(INIT, before);
    StepKeepsLeases(w, Enqueue(s, now));
    TerminalIsAbsorbing(Next(w, Enqueue(s, now)), after, s.id);
  }

  // ---------------------------------------------------------------- termination

  predicate IsTerminal(op: Operation) {
    op.status.Completed? || op.status.Failed?
  }

  /** The claims and marks an operation can still take part in. */
  function Potential(op: Operation): nat {
    if IsTerminal(op) || op.attemptCount > EffectiveMaxAttempts(op) then 0
    else 2 * (EffectiveMaxAttempts(op) - op.attemptCount) + if op.status.Running? then 1 else 0
  }

  ghost function Sum(rows: map<string, Operation>, f: Operation -> nat): nat
    decreases |rows|
  {
    if rows == map[] then 0
    else
      var id :| id in rows;
      f(rows[id]) + Sum(rows - {id}, f)
  }

  lemma {:induction false} SumSplit(rows: map<string, Operation>, f: Operation -> nat, id: string)
    requires id in rows
    ensures Sum(rows, f) == f(rows[id]) + Sum(rows - {id}, f)
    decreases |rows|
  {
    var k :| k in rows && Sum(rows, f) == f(rows[k]) + Sum(rows - {k}, f);
    if k != id {
      SumSplit(rows - {k}, f, id);
      SumSplit(rows - {id}, f, k);
      assert rows - {k} - {id} == rows - {id} - {k};
    }
  }

  lemma SumUpdate(rows: map<string, Operation>, f: Operation -> nat, id: string, op: Operation)
    ensures Sum(rows[id := op], f) == f(op) + Sum(rows - {id}, f)
    ensures id in rows ==> Sum(rows, f) == f(rows[id]) + Sum(rows - {id}, f)
    ensures id !in rows ==> Sum(rows, f) == Sum(rows - {id}, f)
  {
    SumSplit(rows[id := op], f, id);
    assert rows[id := op] - {id} == rows - {id};
    if id in rows {
      SumSplit(rows, f, id);
    } else {
      assert rows - {id} == rows;
    }
  }

  /** An effective claim or mark of a row: the request stays, the potential falls. */
  ghost predicate RowStep(op: Operation, op': Operation) {
    && !IsTerminal(op) && Potential(op') < Potential(op)
    && op' == op.(status := op'.status, attemptCount := op'.attemptCount, lastError := op'.lastError,
                  nextAttemptAt := op'.nextAttemptAt, leaseOwner := op'.leaseOwner, leaseUntil := op'.leaseUntil,
                  version := op'.version, updatedAt := op'.updatedAt, completedAt := op'.completedAt)
  }

  /** What one step does to the rows: at most one row changes or is new. */
  ghost predicate RowsStep(w: World, w': World, id: string) {
    var rows, rows' := w.db.rows, w'.db.rows;
    if rows' == rows then w'.steps == w.steps
    else
      && id in rows' && rows' == rows[id := rows'[id]]
      && if id in rows then RowStep(rows[id], rows'[id]) && w'.steps == w.steps + 1
         else Potential(rows'[id]) == 2 * EffectiveMaxAttempts(rows'[id]) && w'.steps == w.steps
  }

  lemma ClaimOnRows(w: World, worker: string, now: Time, until: Time, id: string)
    requires RowsOk(w.db) && CanClaim(w, worker, now, id)
    ensures RowsStep(w, AfterClaim(w, worker, now, until, id), id)
  {
    assert RowOk(id, w.db.rows[id]);
  }

  lemma MarkOnRows(w: World, e: Event) returns (id: string)
    requires RowsOk(w.db) && IsEnabled(w, e) && e.Mark? && SnapshotOk(w, e.worker)
    ensures RowsStep(w, Next(w, e), id)
  {
    hide IsEnabled, Next, BackoffAfter, IsBlank;
    var row := MarkStep(w, e);
    id := PhaseOf(w, e.worker).operation.id;
    assert RowOk(id, w.db.rows[id]);
  }

  lemma ClaimStepOnRows(w: World, e: Event) returns (id: string)
    requires RowsOk(w.db) && IsEnabled(w, e) && e.Claim?
    ensures RowsStep(w, Next(w, e), id)
  {
    hide IsEnabled, Next, RowsOk, CanClaim, AfterClaim, RowStep, Potential;
    var claimed;
    claimed, id := ClaimStep(w, e);
    if claimed { ClaimOnRows(w, e.worker, e.now, e.now + EffectiveLease(e.leaseDuration), id); }
  }

  lemma OtherStepOnRows(w: World, e: Event)
    requires IsEnabled(w, e) && !e.Claim? && !e.Mark?
    ensures RowsStep(w, Next(w, e), if e.Enqueue? then e.submission.id else "")
  {
    hide IsCandidateList, ClaimFrom, MarkedBy, IsBlank;
  }

  lemma StepOnRows(w: World, e: Event) returns (id: string)
    requires LeasesOk(w) && IsEnabled(w, e)
    ensures RowsStep(w, Next(w, e), id)
  {
    hide IsEnabled, Next, RowsOk, SnapshotOk, LeaseOk, RowsStep;
    if e.Claim? {
      id := ClaimStepOnRows(w, e);
    } else if e.Mark? {
      assert SnapshotOk(w, e.worker);
      id := MarkOnRows(w, e);
    } else {
      id := if e.Enqueue? then e.submission.id else "";
      OtherStepOnRows(w, e);
    }
  }

  ghost predicate BudgetOk(w: World) {
    w.steps + Sum(w.db.rows, Potential) <= 2 * Sum(w.db.rows, EffectiveMaxAttempts)
  }

  lemma RowsStepKeepsBudget(w: World, w': World, id: string)
    requires BudgetOk(w) && RowsStep(w, w', id)
    ensures BudgetOk(w')
  {
    if w'.db.rows != w.db.rows {
      SumUpdate(w.db.rows, Potential, id, w'.db.rows[id]);
      SumUpdate(w.db.rows, EffectiveMaxAttempts, id, w'.db.rows[id]);
    }
  }

  lemma {:induction false} RunKeepsBudget(w: World, es: seq<Event>)
    requires LeasesOk(w) && BudgetOk(w) && IsRun(w, es)
    ensures BudgetOk(Final(w, es))
    decreases |es|
  {
    if es != [] {
      StepKeepsLeases(w, es[0]);
      var id := StepOnRows(w, es[0]);
      RowsStepKeepsBudget(w, Next(w, es[0]), id);
      RunKeepsBudget(Next(w, es[0]), es[1..]);
    }
  }

  /** A run takes at most two steps per allowed attempt: one claim and one mark. */
  lemma StepsAreBounded(es: seq<Event>)
    requires IsRun(INIT, es)
    ensures Final(INIT, es).steps <= 2 * Sum(Final(INIT, es).db.rows, EffectiveMaxAttempts)
  {
    RunKeepsBudget(INIT, es);
  }

  /** A row after some steps: bounded attempts, the same request, and unchanged if it had ended. */
  ghost predicate RowContinues(op: Operation, op': Operation) {
    && op'.attemptCount <= op'.maxAttempts
    && (IsTerminal(op) ==> op' == op)
    && IsSameRequest(op, op')
  }

  lemma RowStepContinues(w: World, e: Event, id: string)
    requires LeasesOk(w) && IsEnabled(w, e) && id in w.db.rows && LeasesOk(Next(w, e))
    ensures id in Next(w, e).db.rows && RowContinues(w.db.rows[id], Next(w, e).db.rows[id])
  {
    hide IsEnabled, Next, IsBlank, SnapshotOk, LeaseOk, Potential;
    var k := StepOnRows(w, e);
    assert id in Next(w, e).db.rows;
    assert RowOk(id, Next(w, e).db.rows[id]);
  }

  /** Completed and failed rows never change again; no row disappears, none exceeds its attempts, and each keeps the
      request it was enqueued with. */
  lemma {:induction false} TerminalIsAbsorbing(w: World, es: seq<Event>, id: string)
    requires LeasesOk(w) && IsRun(w, es) && id in w.db.rows
    ensures id in Final(w, es).db.rows && RowContinues(w.db.rows[id], Final(w, es).db.rows[id])
    decreases |es|
  {
    hide IsEnabled, Next, SnapshotOk, LeaseOk;
    if es != [] {
      StepKeepsLeases(w, es[0]);
      RowStepContinues(w, es[0], id);
      TerminalIsAbsorbing(Next(w, es[0]), es[1..], id);
    } else {
      assert RowOk(id, w.db.rows[id]);
    }
  }

  ghost predicate IsOrphaned(w: World, id: string) {
    id in w.db.rows && w.db.rows[id].status.Running? && forall worker :: IsBusy(w, worker) ==> PhaseOf(w, worker).operation.id != id
  }

  lemma ClaimLeavesRunningRow(w: World, e: Event, id: string, worker: string)
    requires RowsOk(w.db) && IsEnabled(w, e) && e.Claim? && id in w.db.rows && w.db.rows[id].status.Running?
    ensures id in Next(w, e).db.rows && Next(w, e).db.rows[id] == w.db.rows[id]
    ensures IsBusy(Next(w, e), worker) && PhaseOf(Next(w, e), worker).operation.id == id ==>
              IsBusy(w, worker) && PhaseOf(w, worker).operation.id == id
  {
    hide IsEnabled, Next, IsBlank, Locked, HeldByOther;
    var claimed, k := ClaimStep(w, e);
    if claimed { assert RowOk(k, w.db.rows[k]); }
  }

  lemma MarkEndsRunningRow(w: World, e: Event, id: string, worker: string)
    requires IsEnabled(w, e) && e.Mark? && SnapshotOk(w, e.worker) && id in w.db.rows
    ensures id in Next(w, e).db.rows
    ensures Next(w, e).db.rows[id] == w.db.rows[id] || PhaseOf(w, e.worker).operation.id == id
    ensures IsBusy(Next(w, e), worker) ==> PhaseOf(Next(w, e), worker) == PhaseOf(w, worker)
  {
    hide Next, IsBlank, IsMarked, Released, IsCandidateList;
    var row := MarkStep(w, e);
  }

  lemma OtherStepLeavesRow(w: World, e: Event, id: string, worker: string)
    requires IsEnabled(w, e) && !e.Claim? && !e.Mark? && id in w.db.rows
    ensures id in Next(w, e).db.rows && Next(w, e).db.rows[id] == w.db.rows[id]
    ensures IsBusy(Next(w, e), worker) ==> IsBusy(w, worker) && PhaseOf(w, worker).operation == PhaseOf(Next(w, e), worker).operation
  {
    hide ClaimFrom, IsCandidateList, MarkedBy, IsBlank, NewRow;
  }

  /** A running row changes only by the mark of a worker that holds it, and no other worker can come to hold it. */
  lemma RunningRowStep(w: World, e: Event, id: string, worker: string)
    requires RowsOk(w.db) && IsEnabled(w, e) && id in w.db.rows && w.db.rows[id].status.Running?
    requires e.Mark? ==> SnapshotOk(w, e.worker)
    ensures id in Next(w, e).db.rows
    ensures Next(w, e).db.rows[id] == w.db.rows[id] || (e.Mark? && PhaseOf(w, e.worker).operation.id == id)
    ensures IsBusy(Next(w, e), worker) && PhaseOf(Next(w, e), worker).operation.id == id ==>
              IsBusy(w, worker) && PhaseOf(w, worker).operation.id == id
  {
    hide IsEnabled, Next, RowsOk, SnapshotOk;
    if e.Claim? {
      ClaimLeavesRunningRow(w, e, id, worker);
    } else if e.Mark? {
      MarkEndsRunningRow(w, e, id, worker);
    } else {
      OtherStepLeavesRow(w, e, id, worker);
    }
  }

  lemma StepKeepsOrphan(w: World, e: Event, id: string)
    requires LeasesOk(w) && IsEnabled(w, e) && IsOrphaned(w, id)
    ensures IsOrphaned(Next(w, e), id) && Next(w, e).db.rows[id] == w.db.rows[id]
  {
    assert e.Mark? ==> SnapshotOk(w, e.worker) && IsBusy(w, e.worker);
    forall worker | IsBusy(Next(w, e), worker) ensures PhaseOf(Next(w, e), worker).operation.id != id {
      RunningRowStep(w, e, id, worker);
    }
    RunningRowStep(w, e, id, "");
  }

  /** There is no recovery: a running row that no worker holds any more, after a crash or a failed mark, stays as it is
      in every continuation, although its lock can be taken again. */
  lemma {:induction false} OrphanIsNeverReclaimed(w: World, es: seq<Event>, id: string)
    requires LeasesOk(w) && IsRun(w, es) && IsOrphaned(w, id)
    ensures id in Final(w, es).db.rows && Final(w, es).db.rows[id] == w.db.rows[id]
    decreases |es|
  {
    if es != [] {
      StepKeepsLeases(w, es[0]);
      StepKeepsOrphan(w, es[0], id);
      OrphanIsNeverReclaimed(Next(w, es[0]), es[1..], id);
    }
  }

  // ---------------------------------------------------------------- retry spacing

  /** Consecutive claims lie at least the backoff of the earlier attempt apart. */
  ghost predicate IsSpaced(ts: seq<Time>) {
    forall i {:trigger ts[i]} :: 0 < i < |ts| ==> ts[i] >= ts[i - 1] + BackoffAfter(i)
  }

  ghost predicate RowSpaced(w: World, id: string) {
    if id !in w.db.rows then ClaimsOf(w, id) == []
    else
      var op, ts := w.db.rows[id], ClaimsOf(w, id);
      && |ts| == op.attemptCount && IsSpaced(ts)
      && (op.status.Queued? ==> ts == [])
      && (op.status.Retrying? ==> ts != [] && op.nextAttemptAt >= ts[|ts| - 1] + BackoffAfter(|ts|))
  }

  ghost predicate WorkerSpaced(w: World, worker: string) {
    IsBusy(w, worker) ==>
      var ts := ClaimsOf(w, PhaseOf(w, worker).operation.id);
      ts != [] && ts[|ts| - 1] == PhaseOf(w, worker).claimedAt
  }

  ghost predicate SpacingOk(w: World) {
    (forall id :: RowSpaced(w, id)) && (forall worker :: WorkerSpaced(w, worker))
  }

  lemma ClaimKeepsRowSpacing(w: World, worker: string, now: Time, until: Time, id: string, k: string)
    requires RowsOk(w.db) && CanClaim(w, worker, now, id) && RowSpaced(w, k)
    ensures RowSpaced(AfterClaim(w, worker, now, until, id), k)
  {
    hide BackoffAfter, IsBlank, Locked, HeldByOther;
    var w' := AfterClaim(w, worker, now, until, id);
    if k == id {
      assert RowOk(id, w.db.rows[id]);
      assert ClaimsOf(w', id) == ClaimsOf(w, id) + [now];
    } else {
      assert ClaimsOf(w', k) == ClaimsOf(w, k);
    }
  }

  lemma ClaimKeepsWorkerSpacing(w: World, worker: string, now: Time, until: Time, id: string, other: string)
    requires CanClaim(w, worker, now, id) && RowOk(id, w.db.rows[id]) && WorkerSpaced(w, other) && SnapshotOk(w, other)
    ensures WorkerSpaced(AfterClaim(w, worker, now, until, id), other)
  {
    hide BackoffAfter, IsBlank, Locked, HeldByOther;
    var w' := AfterClaim(w, worker, now, until, id);
    if other != worker {
      assert PhaseOf(w', other) == PhaseOf(w, other);
    }
  }

  lemma {:induction false} ClaimKeepsSpacing(w: World, worker: string, now: Time, until: Time, id: string)
    requires LeasesOk(w) && SpacingOk(w) && CanClaim(w, worker, now, id)
    ensures SpacingOk(AfterClaim(w, worker, now, until, id))
  {
    hide RowSpaced, WorkerSpaced, AfterClaim, RowsOk, SnapshotOk, LeaseOk, IsBlank, HeldByOther;
    forall k ensures RowSpaced(AfterClaim(w, worker, now, until, id), k) {
      ClaimKeepsRowSpacing(w, worker, now, until, id, k);
    }
    assert RowOk(id, w.db.rows[id]) by { RowIsOk(w.db, id); }
    forall other ensures WorkerSpaced(AfterClaim(w, worker, now, until, id), other) {
      assert SnapshotOk(w, other);
      ClaimKeepsWorkerSpacing(w, worker, now, until, id, other);
    }
  }

  lemma MarkKeepsRowSpacing(w: World, e: Event, row: Operation, id: string)
    requires e.Mark? && IsBusy(w, e.worker) && SnapshotOk(w, e.worker) && WorkerSpaced(w, e.worker) && RowSpaced(w, id)
    requires PhaseOf(w, e.worker).claimedAt <= e.now && IsMarked(PhaseOf(w, e.worker).operation, row, e.now)
    ensures RowSpaced(AfterMark(w, e.worker, row), id)
  {
    hide BackoffAfter, IsBlank, Released;
    assert ClaimsOf(AfterMark(w, e.worker, row), id) == ClaimsOf(w, id);
  }

  lemma {:induction false} MarkKeepsSpacing(w: World, e: Event)
    requires LeasesOk(w) && SpacingOk(w) && IsEnabled(w, e) && e.Mark?
    ensures SpacingOk(Next(w, e))
  {
    hide Next, RowSpaced, RowsOk, SnapshotOk, LeaseOk, IsMarked, IsBlank, Released;
    assert SnapshotOk(w, e.worker) && WorkerSpaced(w, e.worker);
    var row := MarkStep(w, e);
    var w' := Next(w, e);
    forall id ensures RowSpaced(w', id) { MarkKeepsRowSpacing(w, e, row, id); }
    forall worker ensures WorkerSpaced(w', worker) {
      assert WorkerSpaced(w, worker);
      assert worker != e.worker ==> PhaseOf(w', worker) == PhaseOf(w, worker);
    }
  }

  lemma {:induction false} OtherStepKeepsSpacing(w: World, e: Event)
    requires SpacingOk(w) && IsEnabled(w, e) && !e.Claim? && !e.Mark?
    ensures SpacingOk(Next(w, e))
  {
    hide BackoffAfter, IsBlank, MarkedBy, ClaimFrom, IsCandidateList;
    var w' := Next(w, e);
    forall id ensures RowSpaced(w', id) {
      assert RowSpaced(w, id) && ClaimsOf(w', id) == ClaimsOf(w, id);
    }
    forall worker ensures WorkerSpaced(w', worker) { assert WorkerSpaced(w, worker); }
  }

  lemma ClaimStepKeepsSpacing(w: World, e: Event)
    requires LeasesOk(w) && SpacingOk(w) && IsEnabled(w, e) && e.Claim?
    ensures SpacingOk(Next(w, e))
  {
    hide IsEnabled, Next, CanClaim, AfterClaim, RowsOk, SnapshotOk, LeaseOk, SpacingOk;
    var claimed, id := ClaimStep(w, e);
    if claimed { ClaimKeepsSpacing(w, e.worker, e.now, e.now + EffectiveLease(e.leaseDuration), id); }
  }

  lemma {:induction false} StepKeepsSpacing(w: World, e: Event)
    requires LeasesOk(w) && SpacingOk(w) && IsEnabled(w, e)
    ensures SpacingOk(Next(w, e))
  {
    hide *;
    match e
    case Claim(_, _, _, _, _) => ClaimStepKeepsSpacing(w, e);
    case Mark(_, _) => MarkKeepsSpacing(w, e);
    case _ => OtherStepKeepsSpacing(w, e);
  }

  lemma {:induction false} RunKeepsSpacing(w: World, es: seq<Event>)
    requires LeasesOk(w) && SpacingOk(w) && IsRun(w, es)
    ensures SpacingOk(Final(w, es))
    decreases |es|
  {
    if es != [] {
      StepKeepsLeases(w, es[0]);
      StepKeepsSpacing(w, es[0]);
      RunKeepsSpacing(Next(w, es[0]), es[1..]);
    }
  }

  function TotalBackoff(attempts: nat): nat {
    if attempts == 0 then 0 else TotalBackoff(attempts - 1) + BackoffAfter(attempts)
  }

  /** The waiting adds up to 1, 3, 7, 15 minutes, and a quarter of an hour for each further attempt. */
  lemma {:induction false} TotalBackoffIs(attempts: nat)
    ensures TotalBackoff(attempts) == (if attempts <= 4 then Pow2(attempts) - 1 else 15 * (attempts - 3)) * MINUTE
  {
    if attempts > 0 {
      TotalBackoffIs(attempts - 1);
      assert Pow2(1) == 2 && Pow2(2) == 4 && Pow2(3) == 8 && Pow2(4) == 16;
      if attempts > 4 { Pow2Monotone(4, attempts - 1); }
    }
  }

  lemma {:induction false} SpacedTotal(ts: seq<Time>, n: nat)
    requires IsSpaced(ts) && n < |ts|
    ensures ts[n] >= ts[0] + TotalBackoff(n)
  {
    if n > 0 { SpacedTotal(ts, n - 1); }
  }

  /** Claim n + 1 of an operation comes at least the backoff after claim n, so the n-th claim comes no earlier than all
      the backoffs before it add up to. */
  lemma RetriesAreSpaced(es: seq<Event>, id: string, n: nat)
    requires IsRun(INIT, es) && n < |ClaimsOf(Final(INIT, es), id)|
    ensures var ts := ClaimsOf(Final(INIT, es), id);
            && (n > 0 ==> ts[n] >= ts[n - 1] + BackoffAfter(n))
            && ts[n] >= ts[0] + TotalBackoff(n)
            && id in Final(INIT, es).db.rows && Final(INIT, es).db.rows[id].attemptCount == |ts|
  {
    RunKeepsSpacing(INIT, es);
    assert RowSpaced(Final(INIT, es), id);
    SpacedTotal(ClaimsOf(Final(INIT, es), id), n);
  }

  // ---------------------------------------------------------------- the bound is attained

  lemma {:induction false} RunAppend(w: World, es: seq<Event>, e: Event)
    requires IsRun(w, es) && IsEnabled(Final(w, es), e)
    ensures IsRun(w, es + [e]) && Final(w, es + [e]) == Next(Final(w, es), e)
    decreases |es|
  {
    hide IsEnabled, Next;
    if es == [] {
      assert es + [e] == [e] && [e][1..] == [];
    } else {
      RunAppend(Next(w, es[0]), es[1..], e);
      assert (es + [e])[1..] == es[1..] + [e];
    }
  }

  /** The only row waits for its next attempt, which is due now; its claims so far came as early as the backoffs allow. */
  ghost predicate IsWaiting(w: World, id: string, worker: string, max: int, attempts: nat) {
    var ts := ClaimsOf(w, id);
    && w.db.rows.Keys == {id}
    && var row := w.db.rows[id];
    && RowOk(id, row) && IsDue(row, w.clock) && row.maxAttempts == max && row.attemptCount == attempts == |ts|
    && !HeldByOther(w.db, row.lockKey, worker, w.clock) && !IsBusy(w, worker) && !IsBlank(worker)
    && (ts != [] ==> w.clock == ts[0] + TotalBackoff(attempts))
  }

  /** The worker has claimed the row just now. */
  ghost predicate IsClaimedNow(w: World, id: string, worker: string, max: int, attempts: nat) {
    var ts, phase := ClaimsOf(w, id), PhaseOf(w, worker);
    && w.db.rows.Keys == {id} && RowOk(id, w.db.rows[id]) && !IsBlank(worker)
    && phase == Executing(w.db.rows[id], w.clock) && phase.operation.leaseOwner == Some(worker) && phase.operation.status.Running?
    && phase.operation.maxAttempts == max && phase.operation.attemptCount == attempts == |ts|
    && ts != [] && ts[attempts - 1] == w.clock == ts[0] + TotalBackoff(attempts - 1)
    && !HeldByOther(w.db, phase.operation.lockKey, worker, w.clock)
  }

  lemma ClaimIsEnabled(w: World, id: string, worker: string, max: int, attempts: nat)
    requires IsWaiting(w, id, worker, max, attempts)
    ensures IsEnabled(w, Claim(worker, w.clock, 0, {}, [id]))
  {
    hide BackoffAfter, IsBlank, IsDue, HeldByOther, TotalBackoff, MarkedBy;
  }

  lemma ClaimNow(w: World, id: string, worker: string, max: int, attempts: nat)
    requires IsWaiting(w, id, worker, max, attempts)
    ensures var e := Claim(worker, w.clock, 0, {}, [id]);
            IsEnabled(w, e) && IsClaimedNow(Next(w, e), id, worker, max, attempts + 1)
  {
    hide IsEnabled, BackoffAfter, IsBlank, MarkedBy, Enqueued, Recorded;
    var e := Claim(worker, w.clock, 0, {}, [id]);
    ClaimIsEnabled(w, id, worker, max, attempts);
    var w' := Next(w, e);
    var until := w.clock + EffectiveLease(0);
    assert ClaimFrom(w.db, [id], worker, w.clock, until).1 == Claimed(ClaimedRow(w.db.rows[id], worker, w.clock, until));
    assert ClaimsOf(w', id) == ClaimsOf(w, id) + [w.clock];
  }

  lemma FailureIsEnabled(w: World, id: string, worker: string, max: int, attempts: nat)
    requires IsClaimedNow(w, id, worker, max, attempts)
    ensures IsEnabled(w, Execute(worker, RetryableError(""), None))
    ensures IsEnabled(Next(w, Execute(worker, RetryableError(""), None)), Mark(worker, w.clock))
  {
  }

  ghost function AfterFailure(w: World, worker: string, attempts: nat): World
    requires IsEnabled(w, Execute(worker, RetryableError(""), None))
    requires IsEnabled(Next(w, Execute(worker, RetryableError(""), None)), Mark(worker, w.clock))
  {
    Next(Next(Next(w, Execute(worker, RetryableError(""), None)), Mark(worker, w.clock)), Tick(BackoffAfter(attempts)))
  }

  lemma FailAndWait(w: World, id: string, worker: string, max: int, attempts: nat)
    requires IsClaimedNow(w, id, worker, max, attempts) && attempts < max
    ensures IsEnabled(w, Execute(worker, RetryableError(""), None))
    ensures IsEnabled(Next(w, Execute(worker, RetryableError(""), None)), Mark(worker, w.clock))
    ensures IsWaiting(AfterFailure(w, worker, attempts), id, worker, max, attempts)
  {
    FailureIsEnabled(w, id, worker, max, attempts);
    hide BackoffAfter, IsBlank, TrimSpace;
    var w1 := Next(w, Execute(worker, RetryableError(""), None));
    assert PhaseOf(w1, worker) == Executed(w.db.rows[id], w.clock, RetryableError(""));
    var w2 := Next(w1, Mark(worker, w.clock));
    assert w2.db == MarkedRetry(w.db, w.db.rows[id], "", w.clock + BackoffAfter(attempts), w.clock);
    assert TotalBackoff(attempts) == TotalBackoff(attempts - 1) + BackoffAfter(attempts);
  }

  lemma {:induction false} FastestRun(s: Submission, worker: string, n: nat) returns (es: seq<Event>)
    requires IsPrepared(s) && !IsBlank(worker) && n < NewRow(s, 0).maxAttempts
    ensures IsRun(INIT, es) && IsClaimedNow(Final(INIT, es), s.id, worker, NewRow(s, 0).maxAttempts, n + 1)
  {
    var max := NewRow(s, 0).maxAttempts;
    if n == 0 {
      es := EnqueuedRun(s, worker);
    } else {
      es := FastestRun(s, worker, n - 1);
      hide BackoffAfter, IsBlank, IsWaiting, IsClaimedNow, NewRow;
      var w := Final(INIT, es);
      FailAndWait(w, s.id, worker, max, n);
      var events := [Execute(worker, RetryableError(""), None), Mark(worker, w.clock), Tick(BackoffAfter(n))];
      RunAppend(INIT, es, events[0]);
      RunAppend(INIT, es + [events[0]], events[1]);
      RunAppend(INIT, es + [events[0]] + [events[1]], events[2]);
      es := es + [events[0]] + [events[1]] + [events[2]];
    }
    var w := Final(INIT, es);
    ClaimNow(w, s.id, worker, max, n);
    RunAppend(INIT, es, Claim(worker, w.clock, 0, {}, [s.id]));
    es := es + [Claim(worker, w.clock, 0, {}, [s.id])];
  }

  lemma EnqueuedWaits(s: Submission, worker: string)
    requires IsPrepared(s) && !IsBlank(worker)
    ensures IsEnabled(INIT, Enqueue(s, 0))
    ensures IsWaiting(Next(Next(INIT, Enqueue(s, 0)), Tick(OrElse(s.nextAttemptAt, 0))), s.id, worker, NewRow(s, 0).maxAttempts, 0)
  {
    hide IsBlank, BackoffAfter;
    var w := Next(INIT, Enqueue(s, 0));
    assert w.db.rows == map[s.id := NewRow(s, 0)];
    assert ClaimsOf(w, s.id) == [];
  }

  lemma EnqueuedRun(s: Submission, worker: string) returns (es: seq<Event>)
    requires IsPrepared(s) && !IsBlank(worker)
    ensures IsRun(INIT, es) && IsWaiting(Final(INIT, es), s.id, worker, NewRow(s, 0).maxAttempts, 0)
  {
    EnqueuedWaits(s, worker);
    var enqueue, wait := Enqueue(s, 0), Tick(OrElse(s.nextAttemptAt, 0));
    EmptyRun();
    hide IsBlank, IsWaiting, NewRow, Next, IsPrepared;
    RunAppend(INIT, [], enqueue);
    assert IsEnabled(Next(INIT, enqueue), wait);
    RunAppend(INIT, [] + [enqueue], wait);
    es := [] + [enqueue] + [wait];
  }

  lemma EmptyRun()
    ensures IsRun(INIT, []) && Final(INIT, []) == INIT
  {
  }

  /** The bound on the n-th claim is exact: for every submission and every number of retries that its attempts allow, some
      run claims it at the very moment that the backoffs add up to. */
  lemma SpacingIsAttained(s: Submission, worker: string, n: nat) returns (es: seq<Event>)
    requires IsPrepared(s) && !IsBlank(worker) && n < NewRow(s, 0).maxAttempts
    ensures IsRun(INIT, es) && |ClaimsOf(Final(INIT, es), s.id)| == n + 1
    ensures ClaimsOf(Final(INIT, es), s.id)[n] == ClaimsOf(Final(INIT, es), s.id)[0] + TotalBackoff(n)
  {
    es := FastestRun(s, worker, n);
  }
}
