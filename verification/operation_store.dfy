/** The durable deployment-operation queue: rows, lease locks, and the transactions over them
    (deployment_operations_mariadb.go, deployment_operations.go). */
module OperationStore {
  import opened Text

  /** Whole microseconds since the epoch, the precision of the DATETIME(6) columns. */
  type Time = nat

  const MINUTE: nat := 60_000_000
  const DEFAULT_LEASE: nat := 5 * MINUTE
  const DEFAULT_MAX_ATTEMPTS: nat := 5
  const CLAIM_LIMIT: nat := 10

  datatype Status = Queued | Running | Retrying | Completed | Failed

  /** A row of aods_deployment_operations; None stands for NULL. */
  datatype Operation = Operation(
    id: string, applicationId: string, environment: string, imageTag: string, requestId: string, lockKey: string,
    status: Status, attemptCount: nat, maxAttempts: int, lastError: string, nextAttemptAt: Time,
    leaseOwner: Option<string>, leaseUntil: Option<Time>, version: nat,
    createdAt: Time, updatedAt: Time, completedAt: Option<Time>)

  /** A row of aods_operation_locks. */
  datatype OperationLock = OperationLock(owner: string, until: Time, version: nat)

  datatype Db = Db(rows: map<string, Operation>, locks: map<string, OperationLock>)

  /** What a caller hands to EnqueueDeploymentOperation; None stands for Go's zero value. */
  datatype Submission = Submission(
    id: string, applicationId: string, environment: string, imageTag: string, requestId: string, lockKey: string,
    status: Option<Status>, maxAttempts: int, nextAttemptAt: Option<Time>, createdAt: Option<Time>)

  datatype ClaimResult = Claimed(operation: Operation) | NothingClaimable | ClaimFailed

  // ---------------------------------------------------------------- specification of the transactions

  function EffectiveMaxAttempts(op: Operation): nat {
    if op.maxAttempts <= 0 then DEFAULT_MAX_ATTEMPTS else op.maxAttempts
  }

  function EffectiveLease(leaseDuration: int): nat {
    if leaseDuration <= 0 then DEFAULT_LEASE else leaseDuration
  }

  function OrElse<T>(value: Option<T>, default: T): T {
    match value case Some(v) => v case None => default
  }

  function NewRow(s: Submission, now: Time): Operation {
    Operation(s.id, s.applicationId, s.environment, s.imageTag, s.requestId, s.lockKey,
              OrElse(s.status, Queued), 0, if s.maxAttempts <= 0 then DEFAULT_MAX_ATTEMPTS else s.maxAttempts, "",
              OrElse(s.nextAttemptAt, now), None, None, 1, OrElse(s.createdAt, now), now, None)
  }

  /** The insert hits the primary key or the unique request id. */
  predicate IsDuplicate(db: Db, s: Submission) {
    s.id in db.rows || exists id <- db.rows.Keys :: db.rows[id].requestId == s.requestId
  }

  function Enqueued(db: Db, s: Submission, now: Time): Db {
    if IsDuplicate(db, s) then db else db.(rows := db.rows[s.id := NewRow(s, now)])
  }

  predicate IsDue(op: Operation, now: Time) {
    (op.status.Queued? || op.status.Retrying?) && op.nextAttemptAt <= now
  }

  /** cs is a result of the claim's SELECT: the oldest ten due rows, oldest first, leaving out the rows that
      other transactions hold locked. Rows created at the same moment may come in any order. */
  ghost predicate IsCandidateList(db: Db, now: Time, skipped: set<string>, cs: seq<string>) {
    && |cs| <= CLAIM_LIMIT
    && (forall i :: 0 <= i < |cs| ==> cs[i] in db.rows && cs[i] !in skipped && IsDue(db.rows[cs[i]], now))
    && (forall i, j :: 0 <= i < j < |cs| ==> cs[i] != cs[j] && db.rows[cs[i]].createdAt <= db.rows[cs[j]].createdAt)
    && (forall id :: id in db.rows && id !in skipped && id !in cs && IsDue(db.rows[id], now) ==>
          |cs| == CLAIM_LIMIT && forall c :: c in cs ==> db.rows[c].createdAt <= db.rows[id].createdAt)
  }

  lemma CandidatesAreDue(db: Db, now: Time, skipped: set<string>, cs: seq<string>)
    requires IsCandidateList(db, now, skipped, cs)
    ensures forall id :: id in cs ==> id in db.rows && IsDue(db.rows[id], now)
  {
  }

  /** cs lists the oldest of the selectable rows so far, rest holds the others. */
  ghost predicate IsSelected(db: Db, now: Time, skipped: set<string>, cs: seq<string>, rest: set<string>) {
    && (forall i :: 0 <= i < |cs| ==> cs[i] in db.rows && cs[i] !in skipped && IsDue(db.rows[cs[i]], now))
    && (forall id :: id in rest ==> id in db.rows && id !in skipped && IsDue(db.rows[id], now))
    && (forall id :: id in db.rows && id !in skipped && IsDue(db.rows[id], now) ==> id in rest || id in cs)
    && (forall i, id :: 0 <= i < |cs| && id in rest ==> cs[i] != id && db.rows[cs[i]].createdAt <= db.rows[id].createdAt)
    && (forall i, j :: 0 <= i < j < |cs| ==> cs[i] != cs[j] && db.rows[cs[i]].createdAt <= db.rows[cs[j]].createdAt)
  }

  lemma SelectOne(db: Db, now: Time, skipped: set<string>, cs: seq<string>, rest: set<string>, id: string)
    requires IsSelected(db, now, skipped, cs, rest) && id in rest
    requires forall other :: other in rest ==> db.rows[id].createdAt <= db.rows[other].createdAt
    ensures IsSelected(db, now, skipped, cs + [id], rest - {id})
  {
    hide IsDue;
  }

  lemma SelectedAreCandidates(db: Db, now: Time, skipped: set<string>, cs: seq<string>, rest: set<string>)
    requires IsSelected(db, now, skipped, cs, rest) && |cs| <= CLAIM_LIMIT && (rest == {} || |cs| == CLAIM_LIMIT)
    ensures IsCandidateList(db, now, skipped, cs)
  {
    hide IsDue;
  }

  /** The lock row as acquireOperationLock sees it, after its INSERT IGNORE. */
  function LockRow(db: Db, key: string): OperationLock {
    if key in db.locks then db.locks[key] else OperationLock("", 0, 1)
  }

  predicate HeldByOther(db: Db, key: string, worker: string, now: Time) {
    LockRow(db, key).until > now && LockRow(db, key).owner != worker
  }

  function ClaimedRow(op: Operation, worker: string, now: Time, until: Time): Operation {
    op.(status := Running, attemptCount := op.attemptCount + 1, leaseOwner := Some(worker), leaseUntil := Some(until),
        updatedAt := now, version := op.version + 1)
  }

  function Locked(db: Db, key: string, worker: string, until: Time): Db {
    db.(locks := db.locks[key := OperationLock(worker, until, LockRow(db, key).version + 1)])
  }

  /** The claim loop over the selected rows: the first whose lock can be had is claimed; a blank lock key rolls the
      whole transaction back. */
  function ClaimFrom(db: Db, cs: seq<string>, worker: string, now: Time, until: Time): (Db, ClaimResult)
    requires forall id :: id in cs ==> id in db.rows
  {
    if cs == [] then (db, NothingClaimable)
    else
      var op := db.rows[cs[0]];
      if IsBlank(op.lockKey) then (db, ClaimFailed)
      else if HeldByOther(db, op.lockKey, worker, now) then ClaimFrom(db, cs[1..], worker, now, until)
      else
        var claimed := ClaimedRow(op, worker, now, until);
        (Locked(db, op.lockKey, worker, until).(rows := db.rows[op.id := claimed]), Claimed(claimed))
  }

  /** releaseOperationLock: only a lock that still names the worker is freed. */
  function Released(db: Db, key: string, worker: string): Db {
    if IsBlank(key) || IsBlank(worker) || key !in db.locks || db.locks[key].owner != worker then db
    else db.(locks := db.locks[key := OperationLock("", 0, db.locks[key].version + 1)])
  }

  /** The guard of the marking UPDATE. */
  predicate LeaseHeld(db: Db, op: Operation) {
    op.id in db.rows && op.leaseOwner.Some? && db.rows[op.id].leaseOwner == op.leaseOwner
  }

  function TerminalRow(row: Operation, status: Status, lastError: string, now: Time): Operation {
    row.(status := status, lastError := lastError, leaseOwner := None, leaseUntil := None, updatedAt := now,
         completedAt := Some(now), version := row.version + 1)
  }

  function RetryRow(row: Operation, message: string, nextAttemptAt: Time, now: Time): Operation {
    row.(status := Retrying, lastError := TrimSpace(message), nextAttemptAt := nextAttemptAt, leaseOwner := None,
         leaseUntil := None, updatedAt := now, version := row.version + 1)
  }

  function OwnerOf(op: Operation): string {
    OrElse(op.leaseOwner, "")
  }

  function MarkedTerminal(db: Db, op: Operation, status: Status, lastError: string, now: Time): Db {
    if !LeaseHeld(db, op) then db
    else Released(db, op.lockKey, OwnerOf(op)).(
         rows := db.rows[op.id := TerminalRow(db.rows[op.id], status, lastError, now)])
  }

  function MarkedRetry(db: Db, op: Operation, message: string, nextAttemptAt: Time, now: Time): Db {
    if op.attemptCount >= EffectiveMaxAttempts(op) then MarkedTerminal(db, op, Failed, TrimSpace(message), now)
    else if !LeaseHeld(db, op) then db
    else Released(db, op.lockKey, OwnerOf(op)).(
         rows := db.rows[op.id := RetryRow(db.rows[op.id], message, nextAttemptAt, now)])
  }

  // ---------------------------------------------------------------- what a claim may return

  /** The candidate's lock is validly named and held by another live owner, so the claim passes over it. */
  predicate IsPassedOver(db: Db, id: string, worker: string, now: Time)
    requires id in db.rows
  {
    !IsBlank(db.rows[id].lockKey) && HeldByOther(db, db.rows[id].lockKey, worker, now)
  }

  /** The claim stops at the first candidate it need not pass over. */
  lemma {:induction false} ClaimFromScans(db: Db, cs: seq<string>, worker: string, now: Time, until: Time) returns (k: nat)
    requires forall id :: id in cs ==> id in db.rows
    ensures k <= |cs| && forall i :: 0 <= i < k ==> IsPassedOver(db, cs[i], worker, now)
    ensures k < |cs| ==> !IsPassedOver(db, cs[k], worker, now)
    ensures ClaimFrom(db, cs, worker, now, until).1 ==
            if k == |cs| then NothingClaimable
            else if IsBlank(db.rows[cs[k]].lockKey) then ClaimFailed
            else Claimed(ClaimedRow(db.rows[cs[k]], worker, now, until))
  {
    if cs == [] || !IsPassedOver(db, cs[0], worker, now) {
      k := 0;
    } else {
      var j := ClaimFromScans(db, cs[1..], worker, now, until);
      k := j + 1;
      assert forall i :: 1 <= i < |cs| ==> cs[i] == cs[1..][i - 1];
    }
  }

  /** Completeness of the claim, stated on the rows: it takes the oldest row it may take among the oldest ten due rows,
      and returns nothing only when each of them waits for another live owner. */
  lemma ClaimIsComplete(db: Db, now: Time, skipped: set<string>, cs: seq<string>, worker: string, until: Time)
    requires IsCandidateList(db, now, skipped, cs)
    ensures var r := ClaimFrom(db, cs, worker, now, until).1;
            forall id :: id in db.rows && id !in skipped && IsDue(db.rows[id], now) && !IsPassedOver(db, id, worker, now) ==>
              match r
              case NothingClaimable => id !in cs && |cs| == 10
              case ClaimFailed =>
                id !in cs || exists c :: c in cs && IsBlank(db.rows[c].lockKey) && db.rows[c].createdAt <= db.rows[id].createdAt
              case Claimed(op) => op.createdAt <= db.rows[id].createdAt
    ensures var r := ClaimFrom(db, cs, worker, now, until).1;
            r.Claimed? ==> exists id :: id in cs && !IsPassedOver(db, id, worker, now)
                                     && r.operation == ClaimedRow(db.rows[id], worker, now, until)
  {
    var k := ClaimFromScans(db, cs, worker, now, until);
    if k < |cs| { assert cs[k] in cs; }
    forall id | id in cs && !IsPassedOver(db, id, worker, now)
      ensures k < |cs| && db.rows[cs[k]].createdAt <= db.rows[id].createdAt
    {
      var i :| 0 <= i < |cs| && cs[i] == id;
    }
  }

  /** An untried row for what was submitted. */
  predicate IsSubmitted(s: Submission, row: Operation) {
    && row.id == s.id && row.applicationId == s.applicationId && row.environment == s.environment
    && row.imageTag == s.imageTag && row.requestId == s.requestId && row.lockKey == s.lockKey
    && row.attemptCount == 0 && row.lastError == "" && row.leaseOwner == None && row.leaseUntil == None
    && row.completedAt == None
  }

  /** The worker's own lock becomes free for everybody; no other lock changes. */
  predicate IsFreed(before: map<string, OperationLock>, after: map<string, OperationLock>, key: string, worker: string) {
    && after.Keys == before.Keys
    && (forall k :: k in before && k != key ==> after[k] == before[k])
    && (key in before ==>
          if before[key].owner == worker && !IsBlank(key) && !IsBlank(worker) then after[key].owner == "" && after[key].until == 0
          else after[key] == before[key])
  }

  /** What no transaction after the insert touches. */
  predicate IsSameRequest(before: Operation, after: Operation) {
    && after.id == before.id && after.applicationId == before.applicationId && after.environment == before.environment
    && after.imageTag == before.imageTag && after.requestId == before.requestId && after.lockKey == before.lockKey
    && after.maxAttempts == before.maxAttempts && after.createdAt == before.createdAt
  }

  // ---------------------------------------------------------------- the store

  class MariaDBStore {
    var rows: map<string, Operation>
    var locks: map<string, OperationLock>

    ghost function View(): Db
      reads this
    {
      Db(rows, locks)
    }

    constructor ()
      ensures View() == Db(map[], map[])
    {
      rows, locks := map[], map[];
    }

    /** INSERT ... ON DUPLICATE KEY UPDATE id = id, followed by the read-back by id. */
    method EnqueueDeploymentOperation(s: Submission, now: Time) returns (r: Option<Operation>)
      modifies this
      ensures View() == Enqueued(old(View()), s, now)
      ensures r == if s.id in View().rows then Some(View().rows[s.id]) else None
      // The id and the request id are both unique.
      ensures s.id in old(rows) || (exists id <- old(rows).Keys :: old(rows)[id].requestId == s.requestId) ==> View() == old(View())
      ensures s.id !in old(rows) && (forall id <- old(rows).Keys :: old(rows)[id].requestId != s.requestId) ==>
                && r.Some? && rows == old(rows)[s.id := r.value] && locks == old(locks)
                && IsSubmitted(s, r.value) && r.value.updatedAt == now
                && r.value.maxAttempts == (if s.maxAttempts > 0 then s.maxAttempts else 5)
                && r.value.status == (if s.status.Some? then s.status.value else Queued)
                && r.value.nextAttemptAt == (if s.nextAttemptAt.Some? then s.nextAttemptAt.value else now)
                && r.value.createdAt == (if s.createdAt.Some? then s.createdAt.value else now)
    {
      var row := NewRow(s, now);
      var duplicate := s.id in rows || exists id <- rows.Keys :: rows[id].requestId == s.requestId;
      if !duplicate {
        rows := rows[s.id := row];
      }
      r := if s.id in rows then Some(rows[s.id]) else None;
    }

    /** The oldest row among ids. */
    method Oldest(ids: set<string>) returns (id: string)
      requires ids != {} && ids <= rows.Keys
      ensures id in ids && forall other :: other in ids ==> rows[id].createdAt <= rows[other].createdAt
    {
      id :| id in ids;
      var rest := ids - {id};
      while rest != {}
        invariant rest <= ids && id in ids - rest
        invariant forall other :: other in ids - rest ==> rows[id].createdAt <= rows[other].createdAt
        decreases |rest|
      {
        var other :| other in rest;
        if rows[other].createdAt < rows[id].createdAt {
          id := other;
        }
        rest := rest - {other};
      }
    }

    /** SELECT ... ORDER BY created_at LIMIT 10 FOR UPDATE SKIP LOCKED. */
    method SelectDue(now: Time, skipped: set<string>) returns (cs: seq<string>)
      ensures IsCandidateList(View(), now, skipped, cs)
    {
      hide IsDue;
      var rest := set id | id in rows && id !in skipped && IsDue(rows[id], now);
      cs := [];
      while rest != {} && |cs| < CLAIM_LIMIT
        invariant |cs| <= CLAIM_LIMIT && IsSelected(View(), now, skipped, cs, rest)
        decreases |rest|
      {
        var id := Oldest(rest);
        SelectOne(View(), now, skipped, cs, rest, id);
        rest := rest - {id};
        cs := cs + [id];
      }
      SelectedAreCandidates(View(), now, skipped, cs, rest);
    }

    /** INSERT IGNORE, SELECT ... FOR UPDATE, then the update guarded by the version just read; None is the error for a
        blank key. */
    method AcquireOperationLock(key: string, worker: string, now: Time, until: Time) returns (acquired: Option<bool>)
      modifies this`locks
      ensures IsBlank(key) ==> acquired == None && View() == old(View())
      ensures !IsBlank(key) ==> acquired == Some(!HeldByOther(old(View()), key, worker, now))
      ensures acquired == Some(true) ==> View() == Locked(old(View()), key, worker, until)
      ensures acquired == Some(false) ==> View() == old(View())
      // The lock is had unless somebody else holds it and the lease runs beyond now.
      ensures acquired == Some(false) <==>
                !IsBlank(key) && key in old(locks) && old(locks)[key].owner != worker && now < old(locks)[key].until
      ensures acquired == Some(true) ==>
                key in locks && locks[key].owner == worker && locks[key].until == until && locks - {key} == old(locks) - {key}
    {
      if TrimSpace(key) == "" {
        TrimSpaceBlank(key);
        return None;
      }
      TrimSpaceBlank(key);
      if key !in locks {
        locks := locks[key := OperationLock("", 0, 1)];
      }
      var current := locks[key];
      if current.until > now && current.owner != worker {
        return Some(false);
      }
      locks := locks[key := OperationLock(worker, until, current.version + 1)];
      return Some(true);
    }

    method ReleaseOperationLock(key: string, worker: string)
      modifies this`locks
      ensures View() == Released(old(View()), key, worker)
      ensures IsFreed(old(locks), locks, key, worker)
    {
      TrimSpaceBlank(key);
      TrimSpaceBlank(worker);
      if TrimSpace(key) == "" || TrimSpace(worker) == "" {
        return;
      }
      if key in locks && locks[key].owner == worker {
        locks := locks[key := OperationLock("", 0, locks[key].version + 1)];
      }
    }

    /** One claim transaction. cs is the list its SELECT returned. */
    method ClaimNextDeploymentOperation(worker: string, now: Time, leaseDuration: int, skipped: set<string>)
        returns (r: ClaimResult, ghost cs: seq<string>)
      requires forall id :: id in rows ==> rows[id].id == id
      modifies this
      ensures IsCandidateList(old(View()), now, skipped, cs)
      ensures (View(), r) == ClaimFrom(old(View()), cs, worker, now, now + EffectiveLease(leaseDuration))
      ensures !r.Claimed? ==> View() == old(View())
      // One more attempt of the same request, leased to the worker, row and lock, for as long as it asked for.
      ensures r.Claimed? ==>
                var op, until := r.operation, now + if leaseDuration > 0 then leaseDuration else 300_000_000;
                && op.id in old(rows) && rows == old(rows)[op.id := op] && IsSameRequest(old(rows)[op.id], op)
                && (old(rows)[op.id].status == Queued || old(rows)[op.id].status == Retrying) && old(rows)[op.id].nextAttemptAt <= now
                && op.status == Running && op.attemptCount == old(rows)[op.id].attemptCount + 1
                && op.leaseOwner == Some(worker) && op.leaseUntil == Some(until)
                && op.lockKey in locks && locks[op.lockKey].owner == worker && locks[op.lockKey].until == until
                && locks - {op.lockKey} == old(locks) - {op.lockKey}
    {
      hide IsBlank, HeldByOther, IsCandidateList;
      var until := now + EffectiveLease(leaseDuration);
      var candidates := SelectDue(now, skipped);
      CandidatesAreDue(View(), now, skipped, candidates);
      cs := candidates;
      var i := 0;
      while i < |candidates|
        invariant i <= |candidates| && View() == old(View())
        invariant ClaimFrom(View(), candidates[i..], worker, now, until) == ClaimFrom(View(), candidates, worker, now, until)
      {
        var operation := rows[candidates[i]];
        var acquired := AcquireOperationLock(operation.lockKey, worker, now, until);
        if acquired == None {
          return ClaimFailed, candidates;
        }
        if acquired.value {
          operation := operation.(status := Running, attemptCount := operation.attemptCount + 1,
                                  leaseOwner := Some(worker), leaseUntil := Some(until), updatedAt := now);
          rows := rows[operation.id := operation.(version := rows[operation.id].version + 1)];
          operation := operation.(version := operation.version + 1);
          return Claimed(operation), candidates;
        }
        assert candidates[i..][1..] == candidates[i + 1..];
        i := i + 1;
      }
      r := NothingClaimable;
    }

    /** Releases the lock and ends the operation; false reports a lost lease, after which the transaction is rolled back. */
    method MarkOperationTerminal(operation: Operation, status: Status, lastError: string, now: Time) returns (ok: bool)
      modifies this
      ensures ok <==> LeaseHeld(old(View()), operation)
      ensures View() == MarkedTerminal(old(View()), operation, status, lastError, now)
      ensures !ok ==> View() == old(View())
      ensures ok ==>
                && operation.leaseOwner.Some? && operation.id in old(rows) && operation.id in rows
                && rows == old(rows)[operation.id := rows[operation.id]]
                && IsFreed(old(locks), locks, operation.lockKey, operation.leaseOwner.value)
                && var row := rows[operation.id];
                   IsSameRequest(old(rows)[operation.id], row) && row.attemptCount == old(rows)[operation.id].attemptCount
                   && row.status == status && row.lastError == lastError && row.completedAt == Some(now)
                   && row.leaseOwner == None && row.leaseUntil == None
    {
      var saved := locks;
      ReleaseOperationLock(operation.lockKey, OwnerOf(operation));
      if operation.id in rows && operation.leaseOwner.Some? && rows[operation.id].leaseOwner == operation.leaseOwner {
        rows := rows[operation.id := TerminalRow(rows[operation.id], status, lastError, now)];
        ok := true;
      } else {
        locks := saved;
        ok := false;
      }
    }

    method MarkDeploymentOperationRetry(operation: Operation, message: string, nextAttemptAt: Time, now: Time) returns (ok: bool)
      modifies this
      ensures ok <==> LeaseHeld(old(View()), operation)
      ensures View() == MarkedRetry(old(View()), operation, message, nextAttemptAt, now)
      ensures !ok ==> View() == old(View())
      ensures ok ==>
                && operation.leaseOwner.Some? && operation.id in old(rows) && operation.id in rows
                && rows == old(rows)[operation.id := rows[operation.id]]
                && IsFreed(old(locks), locks, operation.lockKey, operation.leaseOwner.value)
                && var row := rows[operation.id];
                   IsSameRequest(old(rows)[operation.id], row) && row.attemptCount == old(rows)[operation.id].attemptCount
                   && row.lastError == TrimSpace(message) && row.leaseOwner == None && row.leaseUntil == None
                   && if operation.attemptCount < (if operation.maxAttempts > 0 then operation.maxAttempts else 5)
                      then row.status == Retrying && row.nextAttemptAt == nextAttemptAt
                      else row.status == Failed && row.completedAt == Some(now)
    {
      if operation.attemptCount >= EffectiveMaxAttempts(operation) {
        ok := MarkOperationTerminal(operation, Failed, TrimSpace(message), now);
        return;
      }
      var saved := locks;
      ReleaseOperationLock(operation.lockKey, OwnerOf(operation));
      if operation.id in rows && operation.leaseOwner.Some? && rows[operation.id].leaseOwner == operation.leaseOwner {
        rows := rows[operation.id := RetryRow(rows[operation.id], message, nextAttemptAt, now)];
        ok := true;
      } else {
        locks := saved;
        ok := false;
      }
    }
  }

  // ---------------------------------------------------------------- backoff

  function Pow2(n: nat): (r: nat)
    ensures r >= 1
  {
    if n == 0 then 1 else 2 * Pow2(n - 1)
  }

  function Min(a: nat, b: nat): nat {
    if a < b then a else b
  }

  /** The delay after attempt n: doubling from one minute, capped at a quarter of an hour. */
  function BackoffAfter(attempt: int): nat {
    if attempt <= 0 then MINUTE else Min(Pow2(attempt - 1), 15) * MINUTE
  }

  lemma {:induction false} Pow2Monotone(m: nat, n: nat)
    requires m <= n
    ensures Pow2(m) <= Pow2(n)
    decreases n
  {
    if m < n { Pow2Monotone(m, n - 1); }
  }

  lemma BackoffMonotone(m: int, n: int)
    requires m <= n
    ensures MINUTE <= BackoffAfter(m) <= BackoffAfter(n) <= 15 * MINUTE
  {
    if 0 < m { Pow2Monotone(m - 1, n - 1); }
  }

  lemma BackoffValues(attempt: int)
    ensures BackoffAfter(1) == 60_000_000 && BackoffAfter(2) == 120_000_000
    ensures attempt >= 5 ==> BackoffAfter(attempt) == 900_000_000
  {
    assert Pow2(0) == 1 && Pow2(1) == 2 && Pow2(2) == 4 && Pow2(3) == 8 && Pow2(4) == 16;
    if attempt >= 5 { Pow2Monotone(4, attempt - 1); }
  }

  method DeploymentOperationBackoff(attempt: int) returns (delay: nat)
    ensures delay == BackoffAfter(attempt)
    ensures attempt <= 1 ==> delay == 60_000_000
    ensures attempt == 2 ==> delay == 120_000_000
    ensures attempt >= 5 ==> delay == 900_000_000
  {
    if attempt <= 0 { return MINUTE; }
    BackoffValues(attempt);
    delay := MINUTE;
    var i := 1;
    while i < attempt
      invariant 1 <= i <= attempt && delay == Pow2(i - 1) * MINUTE && Pow2(i - 1) < 15
    {
      delay := delay * 2;
      if delay >= 15 * MINUTE {
        Pow2Monotone(i, attempt - 1);
        return 15 * MINUTE;
      }
      i := i + 1;
    }
  }
}
