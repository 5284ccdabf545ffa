/**
 * The shared task table of the durable queue (src/queue/sqlite-backend.js) as
 * a finite map, and its transactions. Every statement any instance commits is
 * one transaction, so a log of transactions is an interleaving of any number
 * of instances, and a crash, which touches only volatile state, leaves the
 * table and its log as they are.
 */
module LeaseTable {
  import opened Prelude

  type Id = nat
  type Key = nat

  datatype Status = Pending | Processing | Failed

  /** `readable` tells whether the stored envelope can be deserialized. */
  datatype Row = Row(
    status: Status,
    priority: int,
    affinity: Option<Key>,
    attempt: int,
    maxRetries: int,
    enqueuedAt: int,
    updatedAt: int,
    claimedBy: Option<nat>,
    lease: Option<int>,
    readable: bool)

  type Rows = map<Id, Row>

  /** The part of a task that the table stores in columns of its own. */
  datatype Envelope = Envelope(id: Id, priority: int, affinity: Option<Key>, attempts: int, retries: int)

  datatype Txn =
    | Upsert(env: Envelope, now: int)
    | Claim(id: Id, owner: nat, now: int, expires: int)
    | Reclaim(now: int)
    | Delete(id: Id)
    | MarkFailed(id: Id, now: int)
    | Quarantine(id: Id, now: int)
    | Vacuum(cutoff: int)
    | Purge(now: int)

  predicate Is(rows: Rows, id: Id, status: Status) { id in rows && rows[id].status == status }

  // ---- The statements ----

  /** A new row, or the old one made pending again; a conflict keeps the enqueue time and the old claim columns. */
  function UpsertRow(rows: Rows, e: Envelope, now: int): Row {
    if e.id in rows then
      rows[e.id].(status := Pending, priority := e.priority, affinity := e.affinity, attempt := e.attempts,
                  maxRetries := e.retries, updatedAt := now, readable := true)
    else Row(Pending, e.priority, e.affinity, e.attempts, e.retries, now, now, None, None, true)
  }

  predicate Expired(r: Row, now: int) { r.status == Processing && r.lease.Some? && r.lease.value < now }

  function ReclaimRow(r: Row, now: int): Row {
    if !Expired(r, now) then r
    else if r.attempt + 1 > r.maxRetries then
      r.(attempt := r.attempt + 1, status := Failed, lease := None, updatedAt := now)
    else
      r.(attempt := r.attempt + 1, status := Pending, claimedBy := None, lease := None, updatedAt := now)
  }

  predicate Vacuumed(r: Row, cutoff: int) { r.status == Failed && r.updatedAt < cutoff }

  function Apply(rows: Rows, t: Txn): Rows {
    match t
    case Upsert(e, now) => rows[e.id := UpsertRow(rows, e, now)]
    case Claim(id, owner, now, expires) =>
      if id in rows
      then rows[id := rows[id].(status := Processing, updatedAt := now,
                                claimedBy := Some(owner), lease := Some(expires))]
      else rows
    case Reclaim(now) => map id | id in rows :: ReclaimRow(rows[id], now)
    case Delete(id) => rows - {id}
    case MarkFailed(id, now) =>
      if id in rows && rows[id].status != Failed
      then rows[id := rows[id].(status := Failed, updatedAt := now)]
      else rows
    case Quarantine(id, now) =>
      if id in rows then rows[id := rows[id].(status := Failed, updatedAt := now)] else rows
    case Vacuum(cutoff) => map id | id in rows && !Vacuumed(rows[id], cutoff) :: rows[id]
    case Purge(now) =>
      map id | id in rows ::
        if rows[id].status == Pending then rows[id].(status := Failed, updatedAt := now) else rows[id]
  }

  /** A claim is made of a row selected as pending under the same write lock. */
  predicate Legal(rows: Rows, t: Txn) {
    t.Claim? ==> Is(rows, t.id, Pending)
  }

  function Replay(rows: Rows, log: seq<Txn>): Rows {
    if log == [] then rows else Apply(Replay(rows, log[..|log| - 1]), log[|log| - 1])
  }

  ghost predicate LegalLog(rows: Rows, log: seq<Txn>) {
    forall k :: 0 <= k < |log| ==> Legal(At(rows, log, k), log[k])
  }

  /** The table before the `k`-th transaction of the log. */
  function At(rows: Rows, log: seq<Txn>, k: nat): Rows
    requires k <= |log|
  {
    Replay(rows, log[..k])
  }

  lemma AtNext(rows: Rows, log: seq<Txn>, k: nat)
    requires k < |log|
    ensures At(rows, log, k + 1) == Apply(At(rows, log, k), log[k])
  {
    assert log[..k + 1][..k] == log[..k];
  }

  // ---- How a row becomes pending, and how it leaves ----

  /** The transaction makes `id` available for a claim. */
  predicate Releases(rows: Rows, t: Txn, id: Id) {
    || (t.Upsert? && t.env.id == id)
    || (t.Reclaim? && id in rows && Expired(rows[id], t.now) && rows[id].attempt + 1 <= rows[id].maxRetries)
  }

  lemma BecomesPendingIff(rows: Rows, t: Txn, id: Id)
    requires !Is(rows, id, Pending)
    ensures Is(Apply(rows, t), id, Pending) <==> Releases(rows, t, id)
  {
  }

  /** A failed row is never pending again unless its id is enqueued again. */
  lemma FailedStays(rows: Rows, t: Txn, id: Id)
    requires Is(rows, id, Failed) && !(t.Upsert? && t.env.id == id) && Legal(rows, t)
    ensures id in Apply(rows, t) ==> Is(Apply(rows, t), id, Failed)
  {
  }

  predicate Removes(rows: Rows, t: Txn, id: Id) {
    id in rows && (t == Delete(id) || (t.Vacuum? && Vacuumed(rows[id], t.cutoff)))
  }

  /** A committed id leaves the table only through `markDone` or the vacuum of an old failed row. */
  lemma LeavesIff(rows: Rows, t: Txn, id: Id)
    requires id in rows
    ensures id !in Apply(rows, t) <==> Removes(rows, t, id)
  {
  }

  /** Over a whole log an id present at `i` and gone at `j` was removed by such a transaction in between. */
  lemma {:induction false} NothingLost(rows: Rows, log: seq<Txn>, id: Id, i: nat, j: nat)
    requires i <= j <= |log| && id in At(rows, log, i) && id !in At(rows, log, j)
    ensures exists k :: i <= k < j && Removes(At(rows, log, k), log[k], id)
    decreases j - i
  {
    AtNext(rows, log, i);
    LeavesIff(At(rows, log, i), log[i], id);
    if id in At(rows, log, i + 1) {
      NothingLost(rows, log, id, i + 1, j);
    }
  }

  // ---- Claims are exclusive ----

  lemma {:induction false} FirstRelease(rows: Rows, log: seq<Txn>, id: Id, i: nat, j: nat) returns (k: nat)
    requires i <= j <= |log| && !Is(At(rows, log, i), id, Pending) && Is(At(rows, log, j), id, Pending)
    ensures i <= k < j && Releases(At(rows, log, k), log[k], id)
    ensures forall m :: i <= m <= k ==> !Is(At(rows, log, m), id, Pending)
    decreases j - i
  {
    AtNext(rows, log, i);
    if Is(At(rows, log, i + 1), id, Pending) {
      BecomesPendingIff(At(rows, log, i), log[i], id);
      k := i;
    } else {
      k := FirstRelease(rows, log, id, i + 1, j);
    }
  }

  /** Only a claim makes a row processing; nothing else touches a row that stays so. */
  lemma StaysProcessing(rows: Rows, t: Txn, id: Id)
    requires Legal(rows, t) && !Is(rows, id, Pending) && Is(Apply(rows, t), id, Processing)
    ensures Is(rows, id, Processing) && Apply(rows, t)[id] == rows[id]
  {
  }

  /** After a claim, until the first release, the row is gone, failed, or still claimed under the same lease. */
  lemma {:induction false} LeaseKept(rows: Rows, log: seq<Txn>, i: nat, k: nat)
    requires LegalLog(rows, log) && i < k <= |log| && log[i].Claim?
    requires forall m :: i < m <= k ==> !Is(At(rows, log, m), log[i].id, Pending)
    ensures var id := log[i].id; var now := At(rows, log, k);
      Is(now, id, Processing) ==> now[id].lease == Some(log[i].expires) && now[id].claimedBy == Some(log[i].owner)
    decreases k
  {
    AtNext(rows, log, k - 1);
    assert Legal(At(rows, log, k - 1), log[k - 1]);
    if k > i + 1 && Is(At(rows, log, k), log[i].id, Processing) {
      StaysProcessing(At(rows, log, k - 1), log[k - 1], log[i].id);
      LeaseKept(rows, log, i, k - 1);
    }
  }

  /** A reclaim comes after the lease of the claim ran out. */
  predicate ReleasedLate(claim: Txn, release: Txn)
    requires claim.Claim?
  {
    release.Reclaim? ==> claim.expires < release.now
  }

  /**
   * Claims are exclusive, across instances and crashes: between two claims of
   * one id its row was released, by a new enqueue of that id or by a reclaim.
   * And a reclaim comes no earlier than the lease of the first claim ran out.
   */
  lemma ClaimsExclusive(rows: Rows, log: seq<Txn>, i: nat, j: nat)
    requires LegalLog(rows, log) && i < j < |log|
    requires log[i].Claim? && log[j].Claim? && log[i].id == log[j].id
    ensures exists k :: i < k < j && Releases(At(rows, log, k), log[k], log[i].id) && ReleasedLate(log[i], log[k])
  {
    var id := log[i].id;
    AtNext(rows, log, i);
    assert Legal(At(rows, log, i), log[i]) && Legal(At(rows, log, j), log[j]);
    var k := FirstRelease(rows, log, id, i + 1, j);
    LeaseKept(rows, log, i, k);
  }

  // ---- Leases ----

  /** Every claimed row carries a lease expiry, so every orphaned claim can expire. */
  ghost predicate Leased(rows: Rows) {
    forall id :: Is(rows, id, Processing) ==> rows[id].lease.Some?
  }

  lemma {:induction false} AlwaysLeased(rows: Rows, log: seq<Txn>)
    requires Leased(rows)
    ensures Leased(Replay(rows, log))
    decreases |log|
  {
    if log != [] {
      AlwaysLeased(rows, log[..|log| - 1]);
    }
  }

  // ---- The retry budget ----

  function Max(a: int, b: int): int { if a < b then b else a }

  /** The claims of `id` among the transactions from `i` up to `j`. */
  function Claims(log: seq<Txn>, id: Id, i: nat, j: nat): nat
    requires i <= j <= |log|
  {
    if i == j then 0
    else Claims(log, id, i, j - 1) + (if log[j - 1].Claim? && log[j - 1].id == id then 1 else 0)
  }

  predicate Enqueues(t: Txn, id: Id) { t.Upsert? && t.env.id == id }

  /** What `n` claims so far say about the row, when it started with `a` attempts out of `m`. */
  predicate WithinBudget(rows: Rows, id: Id, n: nat, a: int, m: int) {
    if id in rows && rows[id].status != Failed then
      var r := rows[id];
      r.maxRetries == m && a <= r.attempt <= Max(a, m)
      && n <= r.attempt - a + (if r.status == Processing then 1 else 0)
    else n <= Max(0, m - a) + 1
  }

  lemma BudgetNext(rows: Rows, log: seq<Txn>, id: Id, k: nat, n: nat, a: int, m: int)
    requires k < |log| && Legal(At(rows, log, k), log[k]) && !Enqueues(log[k], id)
    requires WithinBudget(At(rows, log, k), id, n, a, m)
    ensures WithinBudget(At(rows, log, k + 1), id, n + (if log[k].Claim? && log[k].id == id then 1 else 0), a, m)
  {
    AtNext(rows, log, k);
  }

  lemma {:induction false} BudgetRun(rows: Rows, log: seq<Txn>, id: Id, i: nat, j: nat, a: int, m: int)
    requires LegalLog(rows, log) && i <= j <= |log| && WithinBudget(At(rows, log, i), id, 0, a, m)
    requires forall k :: i <= k < j ==> !Enqueues(log[k], id)
    ensures WithinBudget(At(rows, log, j), id, Claims(log, id, i, j), a, m)
    decreases j
  {
    if i < j {
      BudgetRun(rows, log, id, i, j - 1, a, m);
      BudgetNext(rows, log, id, j - 1, Claims(log, id, i, j - 1), a, m);
    }
  }

  /**
   * The budget bounds every run: a task pending with `a` attempts and `m`
   * retries is claimed at most max(0, m - a) + 1 times until it is enqueued
   * again, and while it is pending its attempt count is at most max(a, m).
   */
  lemma RetryBudget(rows: Rows, log: seq<Txn>, id: Id, i: nat, j: nat)
    requires LegalLog(rows, log) && i <= j <= |log| && Is(At(rows, log, i), id, Pending)
    requires forall k :: i <= k < j ==> !Enqueues(log[k], id)
    ensures var a, m := At(rows, log, i)[id].attempt, At(rows, log, i)[id].maxRetries;
      && Claims(log, id, i, j) <= Max(0, m - a) + 1
      && (Is(At(rows, log, j), id, Pending) ==> At(rows, log, j)[id].attempt <= Max(a, m))
  {
    BudgetRun(rows, log, id, i, j, At(rows, log, i)[id].attempt, At(rows, log, i)[id].maxRetries);
  }

  lemma Prepend(rows: Rows, t: Txn, rest: seq<Txn>, k: nat)
    requires k <= |rest|
    ensures At(rows, [t] + rest, k + 1) == At(Apply(rows, t), rest, k)
  {
    var log := [t] + rest;
    if k == 0 {
      assert log[..1] == [t];
      assert Replay(rows, [t]) == Apply(Replay(rows, [t][..0]), t);
    } else {
      Prepend(rows, t, rest, k - 1);
      AtNext(rows, log, k);
      AtNext(Apply(rows, t), rest, k - 1);
    }
  }

  lemma PrependLegal(rows: Rows, t: Txn, rest: seq<Txn>)
    requires Legal(rows, t) && LegalLog(Apply(rows, t), rest)
    ensures LegalLog(rows, [t] + rest)
  {
    var log := [t] + rest;
    forall k | 0 <= k < |log| ensures Legal(At(rows, log, k), log[k]) {
      if k == 0 {
        assert log[..0] == [];
      } else {
        Prepend(rows, t, rest, k - 1);
        assert Legal(At(Apply(rows, t), rest, k - 1), rest[k - 1]);
      }
    }
  }

  lemma PrependClaims(t: Txn, rest: seq<Txn>, id: Id, j: nat)
    requires j <= |rest|
    ensures Claims([t] + rest, id, 0, j + 1) == Claims(rest, id, 0, j) + (if t.Claim? && t.id == id then 1 else 0)
  {
    if j > 0 {
      PrependClaims(t, rest, id, j - 1);
      assert ([t] + rest)[j] == rest[j - 1];
    }
  }

  /** The bound is reached: a worker that always crashes uses up the whole budget. */
  lemma {:induction false} BudgetReached(rows: Rows, id: Id) returns (log: seq<Txn>)
    requires Is(rows, id, Pending)
    ensures LegalLog(rows, log) && (forall t :: t in log ==> !Enqueues(t, id))
    ensures Claims(log, id, 0, |log|) == Max(0, rows[id].maxRetries - rows[id].attempt) + 1
    decreases Max(0, rows[id].maxRetries - rows[id].attempt)
  {
    var claim, reclaim := Claim(id, 0, 0, 0), Reclaim(1);
    var claimed := Apply(rows, claim);
    var rest: seq<Txn> := [];
    if rows[id].attempt < rows[id].maxRetries {
      var released := Apply(claimed, reclaim);
      assert released[id] == ReclaimRow(claimed[id], 1);
      var tail := BudgetReached(released, id);
      PrependLegal(claimed, reclaim, tail);
      PrependClaims(reclaim, tail, id, |tail|);
      rest := [reclaim] + tail;
    }
    PrependLegal(rows, claim, rest);
    PrependClaims(claim, rest, id, |rest|);
    log := [claim] + rest;
  }
}
