/**
 * One outbox worker without crashes (backend/src/modules/outbox/outbox-worker.service.ts and
 * domain-event-bus.service.ts): what a drain does to the table, why it is a run of the
 * interleaved machine, and why the queue empties.
 */
module OutboxWorker {
  import opened Outbox
  import opened R = OutboxRuns

  /** What happens to one claimed row: the dispatch, the two writes, and when. */
  datatype Outcome = Outcome(dispatched: bool, written: bool, caught: bool, at: int, error: string)

  type Outcomes = Id -> Outcome

  // --------------------------------------------------------------- the batch

  lemma MinimumExists(ids: set<Id>)
    requires ids != {}
    ensures exists m :: m in ids && forall x | x in ids :: m <= x
  {
    var a :| a in ids;
    var rest := ids - {a};
    if rest == {} {
      assert ids == {a};
    } else {
      MinimumExists(rest);
      var m :| m in rest && forall x | x in rest :: m <= x;
      assert forall x | x in ids :: x == a || x in rest;
      if a <= m {
        assert forall x | x in ids :: a <= x;
      } else {
        assert m in ids && forall x | x in ids :: m <= x;
      }
    }
  }

  function Lowest(ids: set<Id>): (m: Id)
    requires ids != {}
    ensures m in ids && forall x | x in ids :: m <= x
  {
    MinimumExists(ids);
    var m :| m in ids && forall x | x in ids :: m <= x;
    m
  }

  /** `ORDER BY "id" LIMIT n` */
  function LowestOf(ids: set<Id>, n: nat): (batch: seq<Id>)
    ensures |batch| <= n && NoDuplicates(batch)
    ensures forall id | id in batch :: id in ids
    ensures ids != {} && n > 0 ==> batch != []
    ensures forall x, y | x in batch && y in ids && y !in batch :: x < y
    ensures |batch| < n ==> SetOf(batch) == ids
  {
    if n == 0 || ids == {} then []
    else
      var m := Lowest(ids);
      var rest := LowestOf(ids - {m}, n - 1);
      assert forall i | 0 <= i < |rest| :: rest[i] in rest;
      assert SetOf([m] + rest) == {m} + SetOf(rest);
      [m] + rest
  }

  function DueIds(rows: Rows, now: int): set<Id> { set id | id in rows && Due(rows[id], now) }

  function StaleIds(rows: Rows, cfg: Settings, now: int): set<Id> { set id | id in rows && Stale(rows[id], cfg, now) }

  /** The table after the sweep that opens a drain. */
  function Swept(rows: Rows, cfg: Settings, now: int): Rows {
    ReclaimRows(rows, SetOf(LowestOf(StaleIds(rows, cfg, now), BATCH)), now)
  }

  /** The sweep takes the oldest stale claims, a batch of them or all, and nothing else. */
  lemma SweptIsExact(rows: Rows, cfg: Settings, now: int)
    ensures var batch := LowestOf(StaleIds(rows, cfg, now), BATCH);
            var after := Swept(rows, cfg, now);
            && SetOf(batch) == StaleIds(rows, cfg, now) - StaleIds(after, cfg, now)
            && |SetOf(batch)| == |batch|
            && StaleIds(after, cfg, now) == StaleIds(rows, cfg, now) - SetOf(batch)
  {
    var batch := LowestOf(StaleIds(rows, cfg, now), BATCH);
    Cardinality(batch);
    var after := Swept(rows, cfg, now);
    forall id | id in rows ensures id in StaleIds(after, cfg, now) <==> id in StaleIds(rows, cfg, now) && id !in SetOf(batch) {
    }
  }

  lemma SweptByRow(rows: Rows, cfg: Settings, now: int)
    ensures var batch := LowestOf(StaleIds(rows, cfg, now), BATCH);
            var after := Swept(rows, cfg, now);
            && after.Keys == rows.Keys
            && forall id | id in rows ::
                 if id in SetOf(batch)
                 then after[id].status == Queued && Due(after[id], now) && after[id].attempts == rows[id].attempts
                 else after[id] == rows[id]
  {
  }

  function BatchOf(rows: Rows, now: int): (batch: seq<Id>)
    ensures NoDuplicates(batch) && |batch| <= BATCH
    ensures forall id | id in batch :: id in rows && Due(rows[id], now)
  {
    LowestOf(DueIds(rows, now), BATCH)
  }

  function ItemsOf(rows: Rows, now: int): seq<Item> { Claimed(rows, BatchOf(rows, now)) }

  // ---------------------------------------------------------------- a drain

  /** The catch block's own write failed: the drain is abandoned. */
  predicate Aborts(o: Outcome) { !(o.dispatched && o.written) && !o.caught }

  function SettleOne(rows: Rows, it: Item, o: Outcome): Rows {
    if o.dispatched && o.written then WriteDispatched(rows, it.id, o.at)
    else WriteFailure(rows, it.id, it.attempts, o.error, o.at)
  }

  function SettleAll(rows: Rows, items: seq<Item>, outcome: Outcomes): Rows
    decreases |items|
  {
    if items == [] || Aborts(outcome(items[0].id)) then rows
    else SettleAll(SettleOne(rows, items[0], outcome(items[0].id)), items[1..], outcome)
  }

  predicate AnyAborts(items: seq<Item>, outcome: Outcomes)
    decreases |items|
  {
    items != [] && (Aborts(outcome(items[0].id)) || AnyAborts(items[1..], outcome))
  }

  /** The ids whose dispatch completes during the drain. */
  function DispatchedOf(items: seq<Item>, outcome: Outcomes): seq<Id>
    decreases |items|
  {
    if items == [] then []
    else
      var o := outcome(items[0].id);
      (if o.dispatched then [items[0].id] else [])
      + (if Aborts(o) then [] else DispatchedOf(items[1..], outcome))
  }

  lemma DispatchedStep(before: seq<Id>, items: seq<Item>, outcome: Outcomes)
    requires items != []
    ensures var o := outcome(items[0].id);
            var sofar := if o.dispatched then before + [items[0].id] else before;
            before + DispatchedOf(items, outcome)
            == if Aborts(o) then sofar else sofar + DispatchedOf(items[1..], outcome)
  {
    var o := outcome(items[0].id);
    var later := if Aborts(o) then [] else DispatchedOf(items[1..], outcome);
    var first := if o.dispatched then [items[0].id] else [];
    Associates(before, first, later);
    assert before + [] == before;
    assert DispatchedOf(items, outcome) == first + later;
  }

  lemma Associates(a: seq<Id>, b: seq<Id>, c: seq<Id>)
    ensures a + (b + c) == (a + b) + c && a + [] == a
  {
  }

  /**
   * A drain on the columns: a row is claimed only if it is queued with its backoff over, or was
   * orphaned and swept; a row that waits is left as it is; and a row that may be claimed is,
   * unless 50 rows were and all of them are older.
   */
  ghost predicate Drains(rows: Rows, rows': Rows, cfg: Settings, now: int, drained: nat) {
    rows'.Keys == rows.Keys && drained <= 50 && forall id | id in rows :: DrainsRow(rows, rows', cfg, now, drained, id)
  }

  ghost predicate DrainsRow(rows: Rows, rows': Rows, cfg: Settings, now: int, drained: nat, id: Id)
    requires id in rows && rows'.Keys == rows.Keys
  {
    var row, row' := rows[id], rows'[id];
    && (row' != row ==> WaitIsOver(row, cfg, now))
    && row'.attempts in {row.attempts, row.attempts + 1}
    && (row.status == Queued && row.nextAttemptAt.Some? && now < row.nextAttemptAt.value ==> row' == row)
    && (row.status == Queued && (row.nextAttemptAt.Some? ==> row.nextAttemptAt.value <= now) ==>
          || row'.attempts == row.attempts + 1
          || (drained == 50 && row' == row && forall o | o in rows && rows'[o].attempts == rows[o].attempts + 1 :: o < id))
  }

  /** Queued with its backoff over, or claimed longer ago than the configured age. */
  predicate WaitIsOver(row: Row, cfg: Settings, now: int) {
    || (row.status == Queued && (row.nextAttemptAt.Some? ==> row.nextAttemptAt.value <= now))
    || (row.status == Dispatching && row.claimedAt.Some? && row.claimedAt.value + cfg.reclaimAfterMs < now)
  }

  lemma {:induction false} SettlingKeeps(rows: Rows, items: seq<Item>, outcome: Outcomes)
    ensures var after := SettleAll(rows, items, outcome);
            && after.Keys == rows.Keys && (forall id | id in rows :: after[id].attempts == rows[id].attempts)
            && (forall id | id in rows && (forall it | it in items :: it.id != id) :: after[id] == rows[id])
    ensures forall id | id in DispatchedOf(items, outcome) :: exists it :: it in items && it.id == id
    decreases |items|
  {
    if items != [] {
      var o := outcome(items[0].id);
      assert items[0] in items && forall it | it in items[1..] :: it in items;
      if !Aborts(o) { SettlingKeeps(SettleOne(rows, items[0], o), items[1..], outcome); }
      forall id | id in DispatchedOf(items, outcome) ensures exists it :: it in items && it.id == id {
        if id != items[0].id {
          assert !Aborts(o) && id in DispatchedOf(items[1..], outcome);
          var it :| it in items[1..] && it.id == id;
          assert it in items;
        }
      }
    }
  }

  lemma ItemsAreTheBatch(rows: Rows, now: int)
    ensures forall it | it in ItemsOf(rows, now) :: it.id in BatchOf(rows, now)
    ensures forall id | id in BatchOf(rows, now) :: exists it :: it in ItemsOf(rows, now) && it.id == id
  {
    var batch, items := BatchOf(rows, now), ItemsOf(rows, now);
    forall id | id in batch ensures exists it :: it in items && it.id == id {
      var i :| 0 <= i < |batch| && batch[i] == id;
      assert items[i] in items && items[i].id == id;
    }
  }

  /** A drain of the queue after its sweep, row by row. */
  lemma ClaimedByRow(queue: Rows, now: int, outcome: Outcomes)
    ensures var after := SettleAll(ClaimRows(queue, SetOf(BatchOf(queue, now)), now), ItemsOf(queue, now), outcome);
            && after.Keys == queue.Keys
            && (forall id | id in queue && id !in BatchOf(queue, now) :: after[id] == queue[id])
            && (forall id | id in BatchOf(queue, now) :: after[id].attempts == queue[id].attempts + 1)
    ensures forall id | id in DispatchedOf(ItemsOf(queue, now), outcome) :: id in BatchOf(queue, now)
  {
    SettlingKeeps(ClaimRows(queue, SetOf(BatchOf(queue, now)), now), ItemsOf(queue, now), outcome);
    ItemsAreTheBatch(queue, now);
  }

  /** What the sweep puts into the queue was orphaned; everything else that may be claimed was queued. */
  lemma DueAfterSweep(rows: Rows, cfg: Settings, now: int)
    ensures var queue := Swept(rows, cfg, now);
            && queue.Keys == rows.Keys
            && (forall id | id in rows :: queue[id].attempts == rows[id].attempts)
            && (forall id | id in rows && queue[id] != rows[id] ::
                  rows[id].status == Dispatching && rows[id].claimedAt.Some?
                  && rows[id].claimedAt.value + cfg.reclaimAfterMs < now)
            && (forall id | id in rows && Due(queue[id], now) :: WaitIsOver(rows[id], cfg, now))
            && (forall id | id in rows && rows[id].status == Queued :: queue[id] == rows[id])
  {
  }

  lemma DrainEffect(rows: Rows, cfg: Settings, now: int, outcome: Outcomes)
    ensures var queue := Swept(rows, cfg, now);
            var items := ItemsOf(queue, now);
            && Drains(rows, SettleAll(ClaimRows(queue, SetOf(BatchOf(queue, now)), now), items, outcome), cfg, now,
                      |BatchOf(queue, now)|)
            && forall id | id in DispatchedOf(items, outcome) ::
                 id in rows && WaitIsOver(rows[id], cfg, now)
  {
    var queue := Swept(rows, cfg, now);
    DueAfterSweep(rows, cfg, now);
    ClaimedByRow(queue, now, outcome);
    BatchIsLowest(queue, now);
    var after := SettleAll(ClaimRows(queue, SetOf(BatchOf(queue, now)), now), ItemsOf(queue, now), outcome);
    forall id | id in rows ensures DrainsRow(rows, after, cfg, now, |BatchOf(queue, now)|, id) {
      RowIsDrained(rows, queue, after, cfg, now, id);
    }
  }

  ghost predicate Drained(queue: Rows, after: Rows, now: int) {
    && after.Keys == queue.Keys
    && (forall id | id in queue && id !in BatchOf(queue, now) :: after[id] == queue[id])
    && (forall id | id in BatchOf(queue, now) :: after[id].attempts == queue[id].attempts + 1)
  }

  lemma RowIsDrained(rows: Rows, queue: Rows, after: Rows, cfg: Settings, now: int, id: Id)
    requires id in rows && queue == Swept(rows, cfg, now) && Drained(queue, after, now)
    ensures after.Keys == rows.Keys && DrainsRow(rows, after, cfg, now, |BatchOf(queue, now)|, id)
  {
    DueAfterSweep(rows, cfg, now);
    BatchIsLowest(queue, now);
  }

  lemma BatchIsLowest(queue: Rows, now: int)
    ensures forall id | id in queue && Due(queue[id], now) && id !in BatchOf(queue, now) ::
              |BatchOf(queue, now)| == 50 && forall o | o in BatchOf(queue, now) :: o < id
  {
    var batch := LowestOf(DueIds(queue, now), 50);
    assert batch == BatchOf(queue, now);
    forall id | id in queue && Due(queue[id], now) && id !in batch ensures |batch| == 50 && forall o | o in batch :: o < id {
      assert id in DueIds(queue, now) && id !in SetOf(batch);
    }
  }

  class OutboxWorkerService {
    const cfg: Settings
    var rows: Rows
    var delivered: seq<Id>
    var running: bool
    var pruning: bool
    var stopping: bool

    constructor (cfg: Settings, rows: Rows)
      ensures this.cfg == cfg && this.rows == rows && delivered == [] && !running && !pruning && !stopping
    {
      this.cfg, this.rows, delivered := cfg, rows, [];
      running, pruning, stopping := false, false, false;
    }

    method ReclaimStale(now: int) returns (n: nat)
      modifies this`rows
      ensures rows == Swept(old(rows), cfg, now)
      ensures n == |StaleIds(old(rows), cfg, now) - StaleIds(rows, cfg, now)|
      ensures rows.Keys == old(rows.Keys) && forall id | id in rows ::
                if id in StaleIds(old(rows), cfg, now) && id !in StaleIds(rows, cfg, now)
                then rows[id].status == Queued && Due(rows[id], now) && rows[id].attempts == old(rows)[id].attempts
                else rows[id] == old(rows)[id]
      ensures forall id | id in rows && rows[id] != old(rows)[id] ::
                && old(rows)[id].status == Dispatching && old(rows)[id].claimedAt.Some?
                && old(rows)[id].claimedAt.value + cfg.reclaimAfterMs < now
                && rows[id] == old(rows)[id].(status := Queued, nextAttemptAt := Some(now))
      ensures n < 50 ==> forall id | id in rows && rows[id].status == Dispatching && rows[id].claimedAt.Some? ::
                           now <= rows[id].claimedAt.value + cfg.reclaimAfterMs
      ensures n < BATCH ==> StaleIds(rows, cfg, now) == {}
      ensures forall a, b | a in StaleIds(rows, cfg, now) && b in StaleIds(old(rows), cfg, now) - StaleIds(rows, cfg, now) ::
                b < a
    {
      SweptIsExact(rows, cfg, now);
      SweptByRow(rows, cfg, now);
      var batch := LowestOf(StaleIds(rows, cfg, now), BATCH);
      rows := ReclaimRows(rows, SetOf(batch), now);
      n := |batch|;
      assert n < 50 ==> forall id | id in rows :: id !in StaleIds(rows, cfg, now);
    }

    method DrainOnce(now: int, outcome: Outcomes) returns (drained: nat, aborted: bool)
      modifies this`rows, this`delivered
      ensures var queue := Swept(old(rows), cfg, now);
              && drained == |BatchOf(queue, now)|
              && rows == SettleAll(ClaimRows(queue, SetOf(BatchOf(queue, now)), now), ItemsOf(queue, now), outcome)
              && delivered == old(delivered) + DispatchedOf(ItemsOf(queue, now), outcome)
              && aborted == AnyAborts(ItemsOf(queue, now), outcome)
      ensures Drains(old(rows), rows, cfg, now, drained) && old(delivered) <= delivered
      ensures forall id | id in delivered[|old(delivered)|..] ::
                id in old(rows) && WaitIsOver(old(rows)[id], cfg, now)
    {
      DrainEffect(rows, cfg, now, outcome);
      var _ := ReclaimStale(now);
      var batch := BatchOf(rows, now);
      var items := Claimed(rows, batch);
      rows := ClaimRows(rows, SetOf(batch), now);
      drained := |items|;
      aborted := SettleBatch(items, outcome);
    }

    /** The loop over the claimed rows. */
    method SettleBatch(items: seq<Item>, outcome: Outcomes) returns (aborted: bool)
      modifies this`rows, this`delivered
      ensures rows == SettleAll(old(rows), items, outcome)
      ensures delivered == old(delivered) + DispatchedOf(items, outcome)
      ensures aborted == AnyAborts(items, outcome)
    {
      var todo := items;
      while todo != []
        invariant SettleAll(rows, todo, outcome) == SettleAll(old(rows), items, outcome)
        invariant delivered + DispatchedOf(todo, outcome) == old(delivered) + DispatchedOf(items, outcome)
        invariant AnyAborts(todo, outcome) == AnyAborts(items, outcome)
        decreases |todo|
      {
        var it := todo[0];
        var o := outcome(it.id);
        DispatchedStep(delivered, todo, outcome);
        if o.dispatched {
          delivered := delivered + [it.id];
        }
        if o.dispatched && o.written {
          rows := WriteDispatched(rows, it.id, o.at);
        } else if o.caught {
          rows := WriteFailure(rows, it.id, it.attempts, o.error, o.at);
        } else {
          return true;
        }
        todo := todo[1..];
      }
      aborted := false;
    }

    /** One timer tick; the result is when the next one is scheduled, if at all. */
    method Tick(now: int, outcome: Outcomes) returns (next: Option<int>)
      modifies this`rows, this`delivered, this`running
      ensures running == old(running)
      ensures old(running) ==> rows == old(rows) && delivered == old(delivered)
      ensures var queue := Swept(old(rows), cfg, now);
              var full := !AnyAborts(ItemsOf(queue, now), outcome) && |BatchOf(queue, now)| >= BATCH;
              && (!old(running) ==>
                    rows == SettleAll(ClaimRows(queue, SetOf(BatchOf(queue, now)), now), ItemsOf(queue, now), outcome)
                    && delivered == old(delivered) + DispatchedOf(ItemsOf(queue, now), outcome))
              && next == if stopping then None else Some(if !old(running) && full then 0 else 500)
    {
      var delay := 500;
      if running {
        return if stopping then None else Some(delay);
      }
      running := true;
      var drained, aborted := DrainOnce(now, outcome);
      if !aborted && drained >= BATCH {
        delay := 0;
      }
      running := false;
      next := if stopping then None else Some(delay);
    }

    /**
     * Deletes old dispatched rows, all of them or a full batch; which ones a batch takes is not
     * promised. Failed rows are never among them.
     */
    method PruneOnce(now: int) returns (n: nat)
      modifies this`rows, this`pruning
      ensures pruning == old(pruning)
      ensures old(pruning) || cfg.retentionDays < 1 ==> n == 0 && rows == old(rows)
      ensures !old(pruning) && cfg.retentionDays >= 1 ==>
                n == Min(|PrunableIds(old(rows), cfg, now)|, PRUNE_BATCH) && n == |old(rows.Keys) - rows.Keys|
      ensures rows.Keys <= old(rows.Keys) && old(rows.Keys) - rows.Keys <= PrunableIds(old(rows), cfg, now)
      ensures forall id | id in old(rows) && id !in rows ::
                && cfg.retentionDays >= 1 && old(rows)[id].status == Dispatched && old(rows)[id].dispatchedAt.Some?
                && old(rows)[id].dispatchedAt.value + cfg.retentionDays * 86_400_000 < now
      ensures !old(pruning) && cfg.retentionDays >= 1 && n < 5_000 ==>
                forall id | id in rows && rows[id].status == Dispatched && rows[id].dispatchedAt.Some? ::
                  now <= rows[id].dispatchedAt.value + cfg.retentionDays * 86_400_000
      ensures forall id | id in rows :: rows[id] == old(rows)[id]
    {
      if pruning || cfg.retentionDays < 1 {
        assert old(rows.Keys) - rows.Keys == {};
        return 0;
      }
      pruning := true;
      var batch := LowestOf(PrunableIds(rows, cfg, now), PRUNE_BATCH);
      BatchSize(batch, PrunableIds(rows, cfg, now));
      PrunedAreOld(rows, cfg, now);
      rows := rows - SetOf(batch);
      assert old(rows.Keys) - rows.Keys == SetOf(batch);
      n := |batch|;
      assert n < 5_000 ==> SetOf(batch) == PrunableIds(old(rows), cfg, now);
      pruning := false;
    }
  }

  lemma PrunedAreOld(rows: Rows, cfg: Settings, now: int)
    ensures forall id :: id in PrunableIds(rows, cfg, now)
              <==> id in rows && rows[id].status == Dispatched && rows[id].dispatchedAt.Some?
                   && rows[id].dispatchedAt.value + cfg.retentionDays * 86_400_000 < now
  {
  }

  function PrunableIds(rows: Rows, cfg: Settings, now: int): set<Id> {
    set id | id in rows && Prunable(rows[id], cfg, now)
  }

  lemma {:induction false} Cardinality(batch: seq<Id>)
    requires NoDuplicates(batch)
    ensures |SetOf(batch)| == |batch|
    decreases |batch|
  {
    if batch != [] {
      var init, last := batch[..|batch| - 1], batch[|batch| - 1];
      Cardinality(init);
      assert batch == init + [last] && last !in init;
      assert SetOf(batch) == SetOf(init) + {last};
    }
  }

  /** A batch taken from `ids` holds them all or is full. */
  lemma BatchSize(batch: seq<Id>, ids: set<Id>)
    requires NoDuplicates(batch) && |batch| <= PRUNE_BATCH && SetOf(batch) <= ids
    requires |batch| < PRUNE_BATCH ==> SetOf(batch) == ids
    ensures |batch| == |SetOf(batch)| == Min(|ids|, PRUNE_BATCH)
  {
    Cardinality(batch);
    assert ids == SetOf(batch) + (ids - SetOf(batch));
  }

  // ------------------------------------------------- a drain, row by row

  /** What a drain without an abort makes of one claimed row. */
  function Settled(row: Row, o: Outcome): Row {
    var claimed := row.(status := Dispatching, attempts := row.attempts + 1);
    if o.dispatched && o.written then
      claimed.(status := Dispatched, dispatchedAt := Some(o.at), lastError := None)
    else if row.attempts + 1 >= MAX_ATTEMPTS then
      claimed.(status := Failed, lastError := Some(o.error), nextAttemptAt := None)
    else
      claimed.(status := Queued, lastError := Some(o.error), nextAttemptAt := Some(o.at + BackoffMs(row.attempts + 1)))
  }

  ghost predicate Distinct(items: seq<Item>) { forall i, j :: 0 <= i < j < |items| ==> items[i].id != items[j].id }

  lemma {:induction false} SettleAllByRow(rows: Rows, items: seq<Item>, outcome: Outcomes)
    requires Distinct(items)
    requires forall it | it in items :: it.id in rows && rows[it.id].status == Dispatching
    requires forall it | it in items :: !Aborts(outcome(it.id))
    ensures var after := SettleAll(rows, items, outcome);
            && after.Keys == rows.Keys
            && (forall it | it in items :: after[it.id] == SettleOne(rows, it, outcome(it.id))[it.id])
            && (forall id | id in rows && (forall it | it in items :: it.id != id) :: after[id] == rows[id])
    decreases |items|
  {
    if items != [] {
      var it := items[0];
      assert it in items;
      var rows1 := SettleOne(rows, it, outcome(it.id));
      RestIsDistinct(items);
      SettleAllByRow(rows1, items[1..], outcome);
      forall k | k in items[1..] ensures SettleOne(rows1, k, outcome(k.id))[k.id] == SettleOne(rows, k, outcome(k.id))[k.id] {
        OnlyItsRow(rows, rows1, k, outcome(k.id));
      }
    }
  }

  lemma OnlyItsRow(rows: Rows, others: Rows, it: Item, o: Outcome)
    requires it.id in rows && it.id in others && rows[it.id] == others[it.id]
    ensures SettleOne(rows, it, o)[it.id] == SettleOne(others, it, o)[it.id]
  {
  }

  lemma RestIsDistinct(items: seq<Item>)
    requires Distinct(items) && items != []
    ensures Distinct(items[1..])
    ensures forall k | k in items[1..] :: k in items && k.id != items[0].id
    ensures forall k | k in items :: k == items[0] || k in items[1..]
  {
    forall k | k in items[1..] ensures k in items && k.id != items[0].id {
      var i :| 0 <= i < |items[1..]| && items[1..][i] == k;
      assert items[i + 1] == k;
    }
  }

  /** One drain of a lone worker at time `now`, nothing being stale. */
  function Round(rows: Rows, now: int, outcome: Outcomes): Rows {
    SettleAll(ClaimRows(rows, BatchAt(rows, now), now), ItemsOf(rows, now), outcome)
  }

  function BatchAt(rows: Rows, now: int): set<Id> { SetOf(BatchOf(rows, now)) }

  ghost predicate NoAborts(outcome: Outcomes) { forall id :: !Aborts(outcome(id)) }

  /** Between drains nothing is claimed, and what waits has attempts left. */
  ghost predicate Calm(rows: Rows) {
    forall id | id in rows :: rows[id].status != Dispatching
                              && (rows[id].status == Queued ==> rows[id].attempts < MAX_ATTEMPTS)
  }

  lemma BatchItems(rows: Rows, now: int)
    ensures Distinct(ItemsOf(rows, now))
    ensures forall it | it in ItemsOf(rows, now) ::
              it.id in BatchAt(rows, now) && it.id in rows && it == Item(it.id, rows[it.id].attempts + 1)
    ensures forall id | id in BatchAt(rows, now) :: id in rows && Due(rows[id], now)
    ensures forall id | id in BatchAt(rows, now) :: Item(id, rows[id].attempts + 1) in ItemsOf(rows, now)
  {
    var batch, items := BatchOf(rows, now), ItemsOf(rows, now);
    forall it | it in items
      ensures it.id in batch && it == Item(it.id, rows[it.id].attempts + 1)
    {
      var i :| 0 <= i < |items| && items[i] == it;
      assert batch[i] in batch;
    }
    forall id | id in batch ensures Item(id, rows[id].attempts + 1) in items {
      var i :| 0 <= i < |batch| && batch[i] == id;
      assert items[i] == Item(id, rows[id].attempts + 1);
    }
  }

  /** A drain changes exactly its batch, each row as its own outcome says. */
  lemma RoundByRow(rows: Rows, now: int, outcome: Outcomes)
    requires Calm(rows) && NoAborts(outcome)
    ensures var after := Round(rows, now, outcome);
            && after.Keys == rows.Keys && BatchAt(rows, now) <= DueIds(rows, now)
            && forall id | id in rows :: if id in BatchAt(rows, now)
                                         then after[id] == Settled(rows[id], outcome(id)).(claimedAt := Some(now))
                                         else after[id] == rows[id]
  {
    RoundOfItems(rows, now, outcome);
    BatchItems(rows, now);
    forall id | id in BatchAt(rows, now)
      ensures Round(rows, now, outcome)[id] == Settled(rows[id], outcome(id)).(claimedAt := Some(now))
    {
      var it := Item(id, rows[id].attempts + 1);
      OneRowSettles(ClaimRows(rows, BatchAt(rows, now), now), rows[id], it, outcome(id), now);
    }
  }

  lemma RoundOfItems(rows: Rows, now: int, outcome: Outcomes)
    requires NoAborts(outcome)
    ensures var after := Round(rows, now, outcome);
            var claimed := ClaimRows(rows, BatchAt(rows, now), now);
            && after.Keys == rows.Keys == claimed.Keys
            && (forall it | it in ItemsOf(rows, now) :: it.id in rows && after[it.id] == SettleOne(claimed, it, outcome(it.id))[it.id])
            && (forall id | id in rows && id !in BatchAt(rows, now) :: after[id] == rows[id])
  {
    BatchItems(rows, now);
    SettleAllByRow(ClaimRows(rows, BatchAt(rows, now), now), ItemsOf(rows, now), outcome);
  }

  lemma OneRowSettles(claimed: Rows, row: Row, it: Item, o: Outcome, now: int)
    requires it.id in claimed && claimed[it.id] == ClaimRow(row, now) && it.attempts == row.attempts + 1
    ensures SettleOne(claimed, it, o)[it.id] == Settled(row, o).(claimedAt := Some(now))
  {
  }

  lemma StaysCalm(rows: Rows, now: int, outcome: Outcomes)
    requires Calm(rows) && NoAborts(outcome)
    ensures Calm(Round(rows, now, outcome))
  {
    RoundByRow(rows, now, outcome);
  }

  /** On a calm queue, which has nothing to reclaim, what drainOnce comes to is a round. */
  lemma DrainIsARound(rows: Rows, cfg: Settings, now: int, outcome: Outcomes)
    requires Calm(rows) && NoAborts(outcome)
    ensures var queue := Swept(rows, cfg, now);
            && SettleAll(ClaimRows(queue, SetOf(BatchOf(queue, now)), now), ItemsOf(queue, now), outcome)
               == Round(rows, now, outcome)
            && !AnyAborts(ItemsOf(queue, now), outcome)
  {
    assert StaleIds(rows, cfg, now) == {};
    assert SetOf(LowestOf(StaleIds(rows, cfg, now), BATCH)) == {};
    assert Swept(rows, cfg, now) == rows;
    NoneAborts(ItemsOf(rows, now), outcome);
  }

  lemma {:induction false} NoneAborts(items: seq<Item>, outcome: Outcomes)
    requires NoAborts(outcome)
    ensures !AnyAborts(items, outcome)
    decreases |items|
  {
    if items != [] { NoneAborts(items[1..], outcome); }
  }

  // ------------------------------------------------------------ termination

  /** Claims a row can still take. */
  function ClaimsLeft(row: Row): nat {
    if row.status == Queued && row.attempts < MAX_ATTEMPTS then MAX_ATTEMPTS - row.attempts else 0
  }

  ghost function Pick(ids: set<Id>): Id
    requires ids != {}
  {
    var id :| id in ids; id
  }

  ghost function WorkOn(rows: Rows, ids: set<Id>): nat
    requires ids <= rows.Keys
    decreases |ids|
  {
    if ids == {} then 0 else ClaimsLeft(rows[Pick(ids)]) + WorkOn(rows, ids - {Pick(ids)})
  }

  /** Claims the whole queue can still take. */
  ghost function Work(rows: Rows): nat { WorkOn(rows, rows.Keys) }

  lemma {:induction false} WorkShrinks(rows: Rows, rows': Rows, ids: set<Id>, batch: set<Id>)
    requires ids <= rows.Keys && ids <= rows'.Keys
    requires forall id | id in ids ::
               ClaimsLeft(rows'[id]) + (if id in batch then 1 else 0) <= ClaimsLeft(rows[id])
    ensures WorkOn(rows', ids) + |ids * batch| <= WorkOn(rows, ids)
    decreases |ids|
  {
    if ids != {} {
      var id := Pick(ids);
      WorkShrinks(rows, rows', ids - {id}, batch);
      if id in batch {
        assert ids * batch == (ids - {id}) * batch + {id};
      } else {
        assert ids * batch == (ids - {id}) * batch;
      }
    } else {
      assert ids * batch == {};
    }
  }

  lemma {:induction false} WorkIsBounded(rows: Rows, ids: set<Id>)
    requires ids <= rows.Keys
    ensures WorkOn(rows, ids) <= MAX_ATTEMPTS * |ids|
    ensures WorkOn(rows, ids) == 0 <==> forall id | id in ids :: ClaimsLeft(rows[id]) == 0
    decreases |ids|
  {
    if ids != {} {
      WorkIsBounded(rows, ids - {Pick(ids)});
    }
  }

  lemma RowsPay(rows: Rows, now: int, outcome: Outcomes)
    requires Calm(rows) && NoAborts(outcome)
    ensures Round(rows, now, outcome).Keys == rows.Keys && BatchAt(rows, now) <= rows.Keys
    ensures forall id | id in rows ::
              ClaimsLeft(Round(rows, now, outcome)[id]) + (if id in BatchAt(rows, now) then 1 else 0) <= ClaimsLeft(rows[id])
  {
    RoundByRow(rows, now, outcome);
  }

  /** Every drain pays for each row it claims. */
  lemma RoundPays(rows: Rows, now: int, outcome: Outcomes)
    requires Calm(rows) && NoAborts(outcome)
    ensures Work(Round(rows, now, outcome)) + |BatchAt(rows, now)| <= Work(rows)
  {
    RowsPay(rows, now, outcome);
    WorkShrinks(rows, Round(rows, now, outcome), rows.Keys, BatchAt(rows, now));
    assert rows.Keys * BatchAt(rows, now) == BatchAt(rows, now);
  }

  datatype Drain = Drain(now: int, outcome: Outcomes)

  function AfterDrains(rows: Rows, drains: seq<Drain>): Rows
    decreases |drains|
  {
    if drains == [] then rows else AfterDrains(Round(rows, drains[0].now, drains[0].outcome), drains[1..])
  }

  /** How often the row is claimed during the drains. */
  function ClaimsOf(rows: Rows, drains: seq<Drain>, id: Id): nat
    decreases |drains|
  {
    if drains == [] then 0
    else (if id in BatchAt(rows, drains[0].now) then 1 else 0)
         + ClaimsOf(Round(rows, drains[0].now, drains[0].outcome), drains[1..], id)
  }

  /** Whatever the schedule and the failures, no row is claimed more than eight times. */
  lemma {:induction false} AtMostEightClaims(rows: Rows, drains: seq<Drain>, id: Id)
    requires Calm(rows) && id in rows && (forall d | d in drains :: NoAborts(d.outcome))
    ensures ClaimsOf(rows, drains, id) <= ClaimsLeft(rows[id]) <= 8
    ensures id in AfterDrains(rows, drains)
    ensures ClaimsOf(rows, drains, id) == 8 ==> AfterDrains(rows, drains)[id].status in {Dispatched, Failed}
    decreases |drains|
  {
    EveryClaimCounts(rows, drains, id);
  }

  lemma {:induction false} EveryClaimCounts(rows: Rows, drains: seq<Drain>, id: Id)
    requires Calm(rows) && id in rows && (forall d | d in drains :: NoAborts(d.outcome))
    ensures var after := AfterDrains(rows, drains);
            && Calm(after) && id in after
            && ClaimsOf(rows, drains, id) + ClaimsLeft(after[id]) <= ClaimsLeft(rows[id])
            && (rows[id].status == Queued ==> after[id].status in {Queued, Dispatched, Failed})
    decreases |drains|
  {
    if drains != [] {
      var d := drains[0];
      assert d in drains && forall e | e in drains[1..] :: e in drains;
      StaysCalm(rows, d.now, d.outcome);
      ClaimCounts(rows, d.now, d.outcome, id);
      EveryClaimCounts(Round(rows, d.now, d.outcome), drains[1..], id);
    }
  }

  lemma ClaimCounts(rows: Rows, now: int, outcome: Outcomes, id: Id)
    requires Calm(rows) && NoAborts(outcome) && id in rows
    ensures var after := Round(rows, now, outcome);
            && id in after
            && (if id in BatchAt(rows, now) then 1 else 0) + ClaimsLeft(after[id]) <= ClaimsLeft(rows[id])
            && (rows[id].status == Queued ==> after[id].status in {Queued, Dispatched, Failed})
            && (rows[id].status in {Dispatched, Failed} ==> after[id].status == rows[id].status)
  {
    RoundByRow(rows, now, outcome);
  }

  /** Each drain happens when everything that waits is due. */
  ghost predicate WellTimed(rows: Rows, drains: seq<Drain>)
    decreases |drains|
  {
    drains == [] ||
    (&& (forall id | id in rows && rows[id].status == Queued :: Due(rows[id], drains[0].now))
     && WellTimed(Round(rows, drains[0].now, drains[0].outcome), drains[1..]))
  }

  /** The queue empties: as many well-timed drains as there are claims left settle every row. */
  lemma {:induction false} QueueEmpties(rows: Rows, drains: seq<Drain>)
    requires Calm(rows) && (forall d | d in drains :: NoAborts(d.outcome)) && WellTimed(rows, drains)
    requires |drains| >= Work(rows)
    ensures AfterDrains(rows, drains).Keys == rows.Keys
    ensures forall id | id in rows :: AfterDrains(rows, drains)[id].status in {Dispatched, Failed}
    decreases |drains|
  {
    if drains == [] {
      WorkIsBounded(rows, rows.Keys);
      assert forall id | id in rows :: ClaimsLeft(rows[id]) == 0;
    } else {
      var d := drains[0];
      assert d in drains && forall e | e in drains[1..] :: e in drains;
      RoundByRow(rows, d.now, d.outcome);
      StaysCalm(rows, d.now, d.outcome);
      RoundPays(rows, d.now, d.outcome);
      if DueIds(rows, d.now) == {} {
        NothingQueued(rows, d.now);
        WorkIsBounded(rows, rows.Keys);
      } else {
        var batch := BatchOf(rows, d.now);
        assert batch[0] in BatchAt(rows, d.now);
      }
      QueueEmpties(Round(rows, d.now, d.outcome), drains[1..]);
    }
  }

  lemma NothingQueued(rows: Rows, now: int)
    requires DueIds(rows, now) == {}
    requires forall id | id in rows && rows[id].status == Queued :: Due(rows[id], now)
    ensures forall id | id in rows :: rows[id].status != Queued
  {
    assert forall id | id in rows && Due(rows[id], now) :: id in DueIds(rows, now);
  }

  /** Nothing that waits is due later than `t`. */
  ghost predicate DueBy(rows: Rows, t: int) {
    forall id | id in rows && rows[id].status == Queued && rows[id].nextAttemptAt.Some? ::
      rows[id].nextAttemptAt.value <= t
  }

  /** The first drain is not before `from`; each next one waits out the longest backoff. */
  ghost predicate Spaced(drains: seq<Drain>, from: int, slack: int)
    decreases |drains|
  {
    drains == [] ||
    (&& drains[0].now >= from
     && (forall id :: drains[0].outcome(id).at <= drains[0].now + slack)
     && Spaced(drains[1..], drains[0].now + slack + 64_000, slack))
  }

  /** Drains spaced by 64 seconds are well timed, whatever fails. */
  lemma {:induction false} SpacedIsWellTimed(rows: Rows, drains: seq<Drain>, from: int, slack: nat)
    requires Calm(rows) && DueBy(rows, from) && Spaced(drains, from, slack)
    requires forall d | d in drains :: NoAborts(d.outcome)
    ensures WellTimed(rows, drains)
    decreases |drains|
  {
    if drains != [] {
      var d := drains[0];
      assert d in drains && forall e | e in drains[1..] :: e in drains;
      StaysCalm(rows, d.now, d.outcome);
      DueAfterRound(rows, d.now, d.outcome, from, slack);
      SpacedIsWellTimed(Round(rows, d.now, d.outcome), drains[1..], d.now + slack + 64_000, slack);
    }
  }

  lemma DueAfterRound(rows: Rows, now: int, outcome: Outcomes, from: int, slack: nat)
    requires Calm(rows) && NoAborts(outcome) && DueBy(rows, from) && from <= now
    requires forall id :: outcome(id).at <= now + slack
    ensures DueBy(Round(rows, now, outcome), now + slack + 64_000)
  {
    RoundByRow(rows, now, outcome);
    var after := Round(rows, now, outcome);
    forall id | id in after && after[id].status == Queued && after[id].nextAttemptAt.Some?
      ensures after[id].nextAttemptAt.value <= now + slack + 64_000
    {
      if id in BatchAt(rows, now) { RetryDelays(rows[id].attempts + 1); }
    }
  }

  // --------------------------------------------- a drain is a run of steps

  /** The steps one worker takes for its first row. */
  function StepsFor(w: WorkerId, o: Outcome): seq<Step> {
    if o.dispatched && o.written then [Dispatch(w), WriteSuccess(w, o.at)]
    else if o.dispatched then [Dispatch(w), WriteThrows(w, o.error), WriteFailed(w, o.at)]
    else [DispatchThrows(w, o.error), WriteFailed(w, o.at)]
  }

  function StepsForAll(w: WorkerId, items: seq<Item>, outcome: Outcomes): seq<Step>
    decreases |items|
  {
    if items == [] then [] else StepsFor(w, outcome(items[0].id)) + StepsForAll(w, items[1..], outcome)
  }

  lemma OneRowIsARun(s: State, cfg: Settings, w: WorkerId, o: Outcome)
    requires Busy(s, w) && s.workers[w].phase.Pending? && !Aborts(o)
    ensures var s' := Exec(s, cfg, StepsFor(w, o));
            && s'.rows == SettleOne(s.rows, Head(s, w), o)
            && s'.workers == s.workers[w := Worker(s.workers[w].todo[1..], Pending)]
            && s'.delivered == s.delivered + (if o.dispatched then {Head(s, w).id} else {})
            && s'.appended == s.appended
  {
    var steps := StepsFor(w, o);
    var s1 := Apply(s, cfg, steps[0]);
    var s2 := Apply(s1, cfg, steps[1]);
    assert Exec(s2, cfg, steps[2..]) == if |steps| == 2 then s2 else Apply(s2, cfg, steps[2]) by {
      if |steps| == 3 {
        assert steps[2..] == [steps[2]];
        assert Exec(Apply(s2, cfg, steps[2]), cfg, []) == Apply(s2, cfg, steps[2]);
      }
    }
    assert steps[1..][1..] == steps[2..];
    assert Exec(s1, cfg, steps[1..]) == Exec(s2, cfg, steps[2..]);
  }

  /** The loop of `drainOnce` over its batch is one of the interleavings of module OutboxRuns. */
  lemma {:induction false} DrainIsARun(s: State, cfg: Settings, w: WorkerId, outcome: Outcomes)
    requires w in s.workers && s.workers[w].phase.Pending?
    requires forall it | it in s.workers[w].todo :: !Aborts(outcome(it.id))
    ensures var items := s.workers[w].todo;
            var s' := Exec(s, cfg, StepsForAll(w, items, outcome));
            && s'.rows == SettleAll(s.rows, items, outcome)
            && s'.delivered == s.delivered + SetOf(DispatchedOf(items, outcome))
            && s'.appended == s.appended && s'.workers == s.workers[w := Worker([], Pending)]
    decreases |s.workers[w].todo|
  {
    var items := s.workers[w].todo;
    if items == [] {
      assert s.workers == s.workers[w := Worker([], Pending)];
    } else {
      var o := outcome(items[0].id);
      assert items[0] in items && forall it | it in items[1..] :: it in items;
      OneRowIsARun(s, cfg, w, o);
      var s1 := Exec(s, cfg, StepsFor(w, o));
      ExecConcat(s, cfg, StepsFor(w, o), StepsForAll(w, items[1..], outcome));
      DrainIsARun(s1, cfg, w, outcome);
      DispatchedSet(items, outcome);
    }
  }

  lemma DispatchedSet(items: seq<Item>, outcome: Outcomes)
    requires items != [] && !Aborts(outcome(items[0].id))
    ensures SetOf(DispatchedOf(items, outcome))
            == (if outcome(items[0].id).dispatched then {items[0].id} else {}) + SetOf(DispatchedOf(items[1..], outcome))
  {
    var rest := DispatchedOf(items[1..], outcome);
    assert SetOf([items[0].id] + rest) == {items[0].id} + SetOf(rest);
    assert [] + rest == rest;
  }

  // -------------------------------------------------------------- the bus

  type Handler = nat

  const ANY := "*"

  class DomainEventBus {
    var emitter: map<string, seq<Handler>>
    var calls: seq<(Handler, Id)>

    constructor ()
      ensures emitter == map[] && calls == []
    {
      emitter, calls := map[], [];
    }

    function Of(eventType: string): seq<Handler>
      reads this`emitter
    {
      if eventType in emitter then emitter[eventType] else []
    }

    /** The typed listeners in registration order, then the wildcard ones. */
    function Listeners(eventType: string): seq<Handler>
      reads this`emitter
    {
      Of(eventType) + Of(ANY)
    }

    method On(eventType: string, handler: Handler)
      modifies this`emitter
      ensures Of(eventType) == old(Of(eventType)) + [handler] && forall t | t != eventType :: Of(t) == old(Of(t))
    {
      emitter := emitter[eventType := Of(eventType) + [handler]];
    }

    method OnAny(handler: Handler)
      modifies this`emitter
      ensures forall t | t != ANY :: Listeners(t) == old(Listeners(t)) + [handler]
    {
      emitter := emitter[ANY := Of(ANY) + [handler]];
    }

    /** Every listener sees the event once, in order, whichever of them throw. */
    method Dispatch(eventType: string, id: Id, throws: Handler -> bool) returns (errors: nat)
      modifies this`calls
      ensures |calls| == |old(calls)| + |Listeners(eventType)|
      ensures calls[..|old(calls)|] == old(calls)
      ensures forall i | 0 <= i < |Listeners(eventType)| :: calls[|old(calls)| + i] == (Listeners(eventType)[i], id)
      ensures errors <= |Listeners(eventType)|
      ensures errors == 0 <==> forall h | h in Listeners(eventType) :: !throws(h)
    {
      var listeners := Listeners(eventType);
      errors := 0;
      for i := 0 to |listeners|
        invariant |calls| == |old(calls)| + i && calls[..|old(calls)|] == old(calls)
        invariant forall k | 0 <= k < i :: calls[|old(calls)| + k] == (listeners[k], id)
        invariant errors <= i && (errors == 0 <==> forall k | 0 <= k < i :: !throws(listeners[k]))
      {
        calls := calls + [(listeners[i], id)];
        if throws(listeners[i]) {
          errors := errors + 1;
        }
      }
    }
  }
}
