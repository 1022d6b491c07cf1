/**
 * The outbox table and the single reads and writes made on it
 * (backend/src/modules/outbox/outbox.service.ts, outbox-worker.service.ts).
 *
 * Ids are time-ordered and drawn fresh. A batch limit picks the lowest ids of the rows that
 * no other transaction has locked.
 */
module Outbox {

  datatype Option<T> = None | Some(value: T)

  type Id = nat

  datatype Status = Queued | Dispatching | Dispatched | Failed

  datatype Key = Supplied(text: string) | OwnId(id: Id)

  datatype Row = Row(eventType: string, tenantId: Option<string>, key: Key, status: Status, attempts: nat,
                     claimedAt: Option<int>, nextAttemptAt: Option<int>, dispatchedAt: Option<int>,
                     lastError: Option<string>)

  type Rows = map<Id, Row>

  const BATCH: nat := 50
  const PRUNE_BATCH: nat := 5_000
  const MAX_ATTEMPTS: nat := 8
  const DAY_MS: int := 24 * 60 * 60_000

  datatype Settings = Settings(retentionDays: int, reclaimAfterMs: int)

  // ------------------------------------------------------------ selections

  predicate Due(row: Row, now: int) {
    row.status == Queued && (row.nextAttemptAt.None? || row.nextAttemptAt.value <= now)
  }

  predicate Stale(row: Row, cfg: Settings, now: int) {
    row.status == Dispatching && row.claimedAt.Some? && row.claimedAt.value < now - cfg.reclaimAfterMs
  }

  predicate Prunable(row: Row, cfg: Settings, now: int) {
    row.status == Dispatched && row.dispatchedAt.Some? && row.dispatchedAt.value < now - cfg.retentionDays * DAY_MS
  }

  // ---------------------------------------------------------------- writes

  function ClaimRow(row: Row, now: int): Row {
    row.(status := Dispatching, attempts := row.attempts + 1, claimedAt := Some(now))
  }

  function ClaimRows(rows: Rows, batch: set<Id>, now: int): Rows {
    map id | id in rows :: if id in batch then ClaimRow(rows[id], now) else rows[id]
  }

  function ReclaimRows(rows: Rows, batch: set<Id>, now: int): Rows {
    map id | id in rows ::
      if id in batch then rows[id].(status := Queued, nextAttemptAt := Some(now)) else rows[id]
  }

  /** The success write, guarded on the row still being claimed, by whomever. */
  function WriteDispatched(rows: Rows, id: Id, at: int): Rows {
    if id in rows && rows[id].status == Dispatching then
      rows[id := rows[id].(status := Dispatched, dispatchedAt := Some(at), lastError := None)]
    else rows
  }

  function Pow2(n: nat): nat { if n == 0 then 1 else 2 * Pow2(n - 1) }

  function Min(a: int, b: int): int { if a < b then a else b }

  function BackoffMs(attempts: nat): int { Min(500 * Pow2(attempts), 5 * 60_000) }

  /** The failure write; `attempts` is what the claim returned. */
  function WriteFailure(rows: Rows, id: Id, attempts: nat, error: string, at: int): Rows {
    if id in rows && rows[id].status == Dispatching then
      var final := attempts >= MAX_ATTEMPTS;
      rows[id := rows[id].(status := if final then Failed else Queued, lastError := Some(error),
                           nextAttemptAt := if final then None else Some(at + BackoffMs(attempts)))]
    else rows
  }

  lemma {:induction false} Pow2Monotone(m: nat, n: nat)
    requires m <= n
    ensures Pow2(m) <= Pow2(n)
  {
    if m < n { Pow2Monotone(m, n - 1); }
  }

  /** Every retry waits between one and 64 seconds, so the five-minute cap never binds. */
  lemma RetryDelays(attempts: nat)
    requires 1 <= attempts < 8
    ensures 1000 <= BackoffMs(attempts) <= 64_000
    ensures BackoffMs(1) == 1000 && (attempts < 7 ==> BackoffMs(attempts + 1) == 2 * BackoffMs(attempts))
  {
    Pow2Monotone(1, attempts);
    Pow2Monotone(attempts, 7);
    assert Pow2(1) == 2;
    assert Pow2(7) == 2 * Pow2(6) == 4 * Pow2(5) == 8 * Pow2(4);
    assert Pow2(4) == 16;
  }

  // --------------------------------------------------------- the write side

  datatype AppendOptions = AppendOptions(eventType: string, tenantId: Option<string>, idempotencyKey: Option<string>)

  predicate HasKey(o: AppendOptions) { o.idempotencyKey.Some? && o.idempotencyKey.value != "" }

  predicate SameEvent(row: Row, o: AppendOptions) {
    HasKey(o) && row.key == Supplied(o.idempotencyKey.value) && row.tenantId == o.tenantId
  }

  function NewRow(o: AppendOptions, id: Id, now: int): Row {
    Row(o.eventType, o.tenantId, if o.idempotencyKey.Some? then Supplied(o.idempotencyKey.value) else OwnId(id),
        Queued, 0, None, Some(now), None, None)
  }

  /** A new row is due at once, unclaimed, under the caller's type, tenant and key or its own id. */
  ghost predicate IsNew(row: Row, o: AppendOptions, id: Id, now: int) {
    && row.eventType == o.eventType && row.tenantId == o.tenantId && row.status == Queued && row.attempts == 0
    && row.key == (match o.idempotencyKey case Some(text) => Supplied(text) case None => OwnId(id))
    && row.nextAttemptAt == Some(now) && row.claimedAt.None? && row.dispatchedAt.None? && row.lastError.None?
  }

  /** The one row of this tenant with the supplied key, or a new row. */
  ghost predicate Appends(rows: Rows, rows': Rows, o: AppendOptions, newId: Id, now: int, id: Id) {
    && id in rows' && (HasKey(o) ==> SameEvent(rows'[id], o))
    && if exists k :: k in rows && SameEvent(rows[k], o)
       then rows' == rows && id in rows
       else id == newId && rows' == rows[newId := NewRow(o, newId, now)]
  }

  class OutboxService {
    var rows: Rows

    constructor (rows: Rows)
      ensures this.rows == rows
    {
      this.rows := rows;
    }

    method Append(o: AppendOptions, newId: Id, now: int) returns (id: Id)
      requires newId !in rows
      modifies this
      ensures Appends(old(rows), rows, o, newId, now, id)
      ensures id == newId <==> o.idempotencyKey.None? || o.idempotencyKey == Some("")
                               || forall k | k in old(rows) ::
                                    old(rows)[k].key != Supplied(o.idempotencyKey.value) || old(rows)[k].tenantId != o.tenantId
      ensures id == newId ==> newId in rows && IsNew(rows[newId], o, newId, now)
    {
      if HasKey(o) {
        if k :| k in rows && SameEvent(rows[k], o) {
          return k;
        }
      }
      rows := rows[newId := NewRow(o, newId, now)];
      id := newId;
    }
  }

  /** No two rows of a tenant share a supplied key. */
  ghost predicate Deduplicated(rows: Rows) {
    forall a, b | a in rows && b in rows && rows[a].key.Supplied? && rows[a].key.text != ""
                  && rows[a].key == rows[b].key && rows[a].tenantId == rows[b].tenantId :: a == b
  }

  /** Appends one after the other: a retry changes nothing and gets the first id back. */
  lemma RetryIsTheSameEvent(rows: Rows, rows1: Rows, rows2: Rows, o: AppendOptions, id1: Id, id2: Id, now: int,
                            later: int, a: Id, b: Id)
    requires HasKey(o) && id1 !in rows && Deduplicated(rows)
    requires Appends(rows, rows1, o, id1, now, a) && Appends(rows1, rows2, o, id2, later, b)
    ensures a == b && rows2 == rows1 && Deduplicated(rows2)
    ensures forall k | k in rows :: k in rows2 && rows2[k] == rows[k]
  {
    assert a in rows1 && SameEvent(rows1[a], o);
  }

  /** The same key from another tenant is another event with a row of its own. */
  lemma TenantsDoNotShareKeys(rows: Rows, rows': Rows, o: AppendOptions, other: Option<string>, newId: Id, now: int,
                              id: Id)
    requires HasKey(o) && newId !in rows && other != o.tenantId
    requires forall k | k in rows && rows[k].key == Supplied(o.idempotencyKey.value) :: rows[k].tenantId == other
    requires Appends(rows, rows', o, newId, now, id)
    ensures id == newId && rows'[id].tenantId == o.tenantId
  {
  }
}
