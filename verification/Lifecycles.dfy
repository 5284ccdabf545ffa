/**
 * The life of a row of the durable queue (src/queue/sqlite-backend.js): which
 * transaction moves it to which status, what its columns say about the log,
 * and that a task marked failed stays failed.
 */
module Lifecycles {
  import opened Prelude
  import opened LeaseTable

  /** The claim of this row ran out before `now`. */
  predicate Lapsed(r: Row, now: int) {
    r.status == Processing && r.lease.Some? && r.lease.value < now
  }

  /** The transaction moves the row to this status. */
  predicate Moves(r: Row, t: Txn, id: Id, to: Status) {
    match to
    case Pending => (t.Upsert? && t.env.id == id) || (t.Reclaim? && Lapsed(r, t.now) && r.attempt + 1 <= r.maxRetries)
    case Processing => t.Claim? && t.id == id
    case Failed =>
      || ((t.MarkFailed? || t.Quarantine?) && t.id == id)
      || (t.Purge? && r.status == Pending)
      || (t.Reclaim? && Lapsed(r, t.now) && r.attempt + 1 > r.maxRetries)
  }

  /**
   * The life cycle: a row comes to be pending by an enqueue or a reclaim within
   * its budget, processing by a claim, and failed by `markFailed` whatever it
   * was, by quarantine, by a purge while pending, or by a reclaim beyond its
   * budget; in no other way.
   */
  lemma LifecycleIff(rows: Rows, t: Txn, id: Id, to: Status)
    requires id in rows && rows[id].status != to
    ensures Is(Apply(rows, t), id, to) <==> Moves(rows[id], t, id, to)
  {
  }

  /** The transactions that touch a row without moving it. */
  predicate Rewrites(t: Txn, id: Id) {
    (t.Upsert? && t.env.id == id) || (t.Quarantine? && t.id == id)
  }

  /** A row that neither moves nor is rewritten is the same row. */
  lemma OthersKept(rows: Rows, t: Txn, id: Id)
    requires id in rows && id in Apply(rows, t) && Legal(rows, t) && !Rewrites(t, id)
    requires Apply(rows, t)[id].status == rows[id].status
    ensures Apply(rows, t)[id] == rows[id]
  {
  }

  /** An id enters the table by an enqueue, and leaves by `markDone` or as a failed row older than the cutoff. */
  lemma PresenceIff(rows: Rows, t: Txn, id: Id)
    ensures id in Apply(rows, t) <==>
      if id in rows then t != Delete(id) && !(t.Vacuum? && rows[id].status == Failed && rows[id].updatedAt < t.cutoff)
      else t.Upsert? && t.env.id == id
  {
  }

  /** The clock reading of a transaction that changes a row. */
  function TimeOf(t: Txn): int {
    match t
    case Upsert(_, now) => now
    case Claim(_, _, now, _) => now
    case Reclaim(now) => now
    case MarkFailed(_, now) => now
    case Quarantine(_, now) => now
    case Purge(now) => now
    case _ => 0
  }

  /** What one transaction may do to the columns of a row that stays. */
  ghost predicate Columns(r: Row, t: Txn, id: Id, u: Row) {
    && u.enqueuedAt == r.enqueuedAt
    && (if t.Upsert? && t.env.id == id
        then u.priority == t.env.priority && u.affinity == t.env.affinity && u.maxRetries == t.env.retries
             && u.attempt == t.env.attempts && u.readable
        else u.priority == r.priority && u.affinity == r.affinity && u.maxRetries == r.maxRetries
             && u.attempt == r.attempt + (if t.Reclaim? && Lapsed(r, t.now) then 1 else 0) && u.readable == r.readable)
    && (u.status == Processing && r.status != Processing ==>
          t.Claim? && u.claimedBy == Some(t.owner) && u.lease == Some(t.expires))
    && (t.Reclaim? && u != r ==> u.lease.None? && u.claimedBy == (if u.status == Pending then None else r.claimedBy))
    && (u != r ==> u.updatedAt == TimeOf(t))
  }

  lemma ColumnsStep(rows: Rows, t: Txn, id: Id)
    requires id in rows && id in Apply(rows, t)
    ensures Columns(rows[id], t, id, Apply(rows, t)[id])
  {
  }

  /** The transaction is an enqueue of this id. */
  ghost predicate Enqueued(log: seq<Txn>, id: Id, from: nat, to: nat)
    requires to <= |log|
  {
    exists k :: from <= k < to && Enqueues(log[k], id)
  }

  /** While the id stays in the table. */
  ghost predicate Stays(rows: Rows, log: seq<Txn>, id: Id, from: nat, to: nat)
    requires to <= |log|
  {
    forall k :: from <= k <= to ==> id in At(rows, log, k)
  }

  /** The reclaims of the id among these transactions: each counts as an attempt. */
  function Lapses(rows: Rows, log: seq<Txn>, id: Id, from: nat, to: nat): nat
    requires from <= to <= |log|
  {
    if from == to then 0
    else
      var before, t := At(rows, log, to - 1), log[to - 1];
      Lapses(rows, log, id, from, to - 1)
      + (if id in before && t.Reclaim? && Lapsed(before[id], t.now) then 1 else 0)
  }

  lemma FirstColumns(rows: Rows, log: seq<Txn>, i: nat)
    requires i < |log| && log[i].Upsert?
    ensures var e := log[i].env; var r := Apply(At(rows, log, i), log[i])[e.id];
      && r.status == Pending && r.priority == e.priority && r.affinity == e.affinity && r.maxRetries == e.retries
      && r.attempt == e.attempts && r.readable
      && (e.id !in At(rows, log, i) ==> r.enqueuedAt == log[i].now && r.updatedAt == log[i].now)
  {
  }

  /**
   * What an enqueue writes stands until the next one: over any log the row has
   * the priority, the affinity and the budget of the last enqueue of its id,
   * whatever it was before, and its attempts plus one for each lapsed claim since.
   */
  lemma {:induction false} EnvelopeStands(rows: Rows, log: seq<Txn>, i: nat, j: nat)
    requires i < j <= |log| && log[i].Upsert?
    requires Stays(rows, log, log[i].env.id, i + 1, j) && !Enqueued(log, log[i].env.id, i + 1, j)
    ensures var e := log[i].env; var r := At(rows, log, j)[e.id];
      && r.priority == e.priority && r.affinity == e.affinity && r.maxRetries == e.retries && r.readable
      && r.attempt == e.attempts + Lapses(rows, log, e.id, i + 1, j)
    decreases j
  {
    var id := log[i].env.id;
    AtNext(rows, log, j - 1);
    if j == i + 1 {
      FirstColumns(rows, log, i);
    } else {
      EnvelopeStands(rows, log, i, j - 1);
      ColumnsStep(At(rows, log, j - 1), log[j - 1], id);
      assert !Enqueues(log[j - 1], id);
    }
  }

  /** And the place in the queue is that of the enqueue that brought the id in. */
  lemma {:induction false} PlaceStands(rows: Rows, log: seq<Txn>, id: Id, i: nat, j: nat)
    requires i <= j <= |log| && Stays(rows, log, id, i, j)
    ensures At(rows, log, j)[id].enqueuedAt == At(rows, log, i)[id].enqueuedAt
    decreases j
  {
    if i < j {
      AtNext(rows, log, j - 1);
      PlaceStands(rows, log, id, i, j - 1);
      ColumnsStep(At(rows, log, j - 1), log[j - 1], id);
    }
  }

  /** The stamp of a row is the time of its last change, so a vacuum spares what changed since the cutoff. */
  lemma {:induction false} StampTells(rows: Rows, log: seq<Txn>, id: Id, i: nat, j: nat) returns (k: nat)
    requires i < j <= |log| && Stays(rows, log, id, i, j) && At(rows, log, j)[id] != At(rows, log, i)[id]
    ensures i <= k < j && At(rows, log, k + 1)[id] == At(rows, log, j)[id] != At(rows, log, k)[id]
    ensures At(rows, log, j)[id].updatedAt == TimeOf(log[k])
    decreases j
  {
    AtNext(rows, log, j - 1);
    ColumnsStep(At(rows, log, j - 1), log[j - 1], id);
    if At(rows, log, j)[id] != At(rows, log, j - 1)[id] {
      k := j - 1;
    } else {
      k := StampTells(rows, log, id, i, j - 1);
    }
  }

  predicate FailedOrGone(rows: Rows, id: Id) { id in rows ==> rows[id].status == Failed }

  lemma FailedStep(rows: Rows, t: Txn, id: Id)
    requires FailedOrGone(rows, id) && Legal(rows, t) && !Enqueues(t, id)
    ensures FailedOrGone(Apply(rows, t), id) && !(t.Claim? && t.id == id)
  {
    PresenceIff(rows, t, id);
    if id in rows && id in Apply(rows, t) {
      FailedStays(rows, t, id);
    }
  }

  lemma {:induction false} StillFailed(rows: Rows, log: seq<Txn>, id: Id, i: nat, j: nat)
    requires LegalLog(rows, log) && i <= j <= |log| && FailedOrGone(At(rows, log, i), id)
    requires forall k :: i <= k < j ==> !Enqueues(log[k], id)
    ensures FailedOrGone(At(rows, log, j), id) && Claims(log, id, i, j) == 0
    decreases j
  {
    if i < j {
      StillFailed(rows, log, id, i, j - 1);
      assert Legal(At(rows, log, j - 1), log[j - 1]);
      AtNext(rows, log, j - 1);
      FailedStep(At(rows, log, j - 1), log[j - 1], id);
    }
  }

  /**
   * Failed for good: over any legal log, from a `markFailed` of an id until its
   * next enqueue its row is failed or gone, whatever it was before: no instance
   * claims it and no reclaim brings it back.
   */
  lemma FailedForGood(rows: Rows, log: seq<Txn>, i: nat, j: nat)
    requires LegalLog(rows, log) && i < j <= |log| && log[i].MarkFailed? && !Enqueued(log, log[i].id, i + 1, j)
    ensures FailedOrGone(At(rows, log, j), log[i].id) && Claims(log, log[i].id, i + 1, j) == 0
  {
    AtNext(rows, log, i);
    MarkFailedTells(At(rows, log, i), log[i].id, log[i].now);
    StillFailed(rows, log, log[i].id, i + 1, j);
  }

  /** A claimed task that is marked failed is failed then and there, and nothing else changes. */
  lemma MarkFailedTells(rows: Rows, id: Id, now: int)
    ensures var t := Apply(rows, MarkFailed(id, now));
      && t.Keys == rows.Keys && (id in rows ==> Is(t, id, Failed))
      && (forall o :: o in rows && o != id ==> t[o] == rows[o])
  {
  }
}
