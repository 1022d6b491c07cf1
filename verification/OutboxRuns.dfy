/**
 * Several workers, a reclaim sweep, a pruner and producers on one outbox table, with crashes
 * between any two steps (backend/src/modules/outbox/outbox-worker.service.ts:109-278).
 *
 * A run is any sequence of steps; a step that is not enabled changes nothing. `delivered`
 * and `appended` are history: the ids whose dispatch onto the bus has completed, and the
 * ids `append` returned.
 */
module OutboxRuns {
  import opened Outbox

  type WorkerId = nat

  /** One row of a claimed batch, with the attempt count the claim returned. */
  datatype Item = Item(id: Id, attempts: nat)

  /** Where the worker stands with the first row of its batch. */
  datatype Phase = Pending | Delivered | Failing(error: string)

  datatype Worker = Worker(todo: seq<Item>, phase: Phase)

  datatype State = State(rows: Rows, workers: map<WorkerId, Worker>, delivered: set<Id>, appended: set<Id>)

  datatype Step =
    | Append(o: AppendOptions, newId: Id, now: int)
    | FindExisting(o: AppendOptions, id: Id)
    | Reclaim(batch: set<Id>, now: int)
    | Claim(w: WorkerId, order: seq<Id>, now: int)
    | Dispatch(w: WorkerId)
    | DispatchThrows(w: WorkerId, error: string)
    | WriteSuccess(w: WorkerId, at: int)
    | WriteThrows(w: WorkerId, error: string)
    | WriteFailed(w: WorkerId, at: int)
    | DrainAborts(w: WorkerId)
    | Crash(w: WorkerId)
    | Prune(batch: set<Id>, now: int)

  ghost const INIT := State(map[], map[], {}, {})

  predicate Busy(s: State, w: WorkerId) { w in s.workers && s.workers[w].todo != [] }

  function Head(s: State, w: WorkerId): Item
    requires Busy(s, w)
  {
    s.workers[w].todo[0]
  }

  ghost predicate NoDuplicates(ids: seq<Id>) { forall i, j :: 0 <= i < j < |ids| ==> ids[i] != ids[j] }

  /** The rows as `RETURNING` hands them back, in whatever order. */
  function Claimed(rows: Rows, order: seq<Id>): (items: seq<Item>)
    requires forall id | id in order :: id in rows
    ensures |items| == |order|
    ensures forall i | 0 <= i < |order| :: items[i] == Item(order[i], rows[order[i]].attempts + 1)
  {
    seq(|order|, i requires 0 <= i < |order| => assert order[i] in order; Item(order[i], rows[order[i]].attempts + 1))
  }

  function SetOf(ids: seq<Id>): set<Id> { set id | id in ids }

  ghost function PhaseTo(s: State, w: WorkerId, phase: Phase): State
    requires w in s.workers
  {
    s.(workers := s.workers[w := s.workers[w].(phase := phase)])
  }

  /** The worker is through with its first row. */
  ghost function Next(s: State, w: WorkerId): State
    requires Busy(s, w)
  {
    s.(workers := s.workers[w := Worker(s.workers[w].todo[1..], Pending)])
  }

  ghost function Apply(s: State, cfg: Settings, step: Step): State {
    match step
    case Append(o, newId, now) =>
      if newId in s.appended then s
      else s.(rows := s.rows[newId := NewRow(o, newId, now)], appended := s.appended + {newId})
    case FindExisting(o, id) =>
      if id in s.rows && SameEvent(s.rows[id], o) then s.(appended := s.appended + {id}) else s
    case Reclaim(batch, now) =>
      if |batch| <= BATCH && forall id :: id in batch ==> id in s.rows && Stale(s.rows[id], cfg, now)
      then s.(rows := ReclaimRows(s.rows, batch, now)) else s
    case Claim(w, order, now) =>
      if !Busy(s, w) && |order| <= BATCH && NoDuplicates(order)
         && forall id :: id in order ==> id in s.rows && Due(s.rows[id], now)
      then s.(rows := ClaimRows(s.rows, SetOf(order), now),
              workers := s.workers[w := Worker(Claimed(s.rows, order), Pending)])
      else s
    case Dispatch(w) =>
      if Busy(s, w) && s.workers[w].phase.Pending?
      then PhaseTo(s.(delivered := s.delivered + {Head(s, w).id}), w, Delivered) else s
    case DispatchThrows(w, error) =>
      if Busy(s, w) && s.workers[w].phase.Pending? then PhaseTo(s, w, Failing(error)) else s
    case WriteSuccess(w, at) =>
      if Busy(s, w) && s.workers[w].phase.Delivered?
      then Next(s.(rows := WriteDispatched(s.rows, Head(s, w).id, at)), w) else s
    case WriteThrows(w, error) =>
      if Busy(s, w) && s.workers[w].phase.Delivered? then PhaseTo(s, w, Failing(error)) else s
    case WriteFailed(w, at) =>
      if Busy(s, w) && s.workers[w].phase.Failing?
      then Next(s.(rows := WriteFailure(s.rows, Head(s, w).id, Head(s, w).attempts, s.workers[w].phase.error, at)), w)
      else s
    case DrainAborts(w) => s.(workers := s.workers - {w})
    case Crash(w) => s.(workers := s.workers - {w})
    case Prune(batch, now) =>
      if cfg.retentionDays >= 1 && forall id :: id in batch ==> id in s.rows && Prunable(s.rows[id], cfg, now)
      then s.(rows := s.rows - batch) else s
  }

  ghost function Exec(s: State, cfg: Settings, steps: seq<Step>): State
    decreases |steps|
  {
    if steps == [] then s else Exec(Apply(s, cfg, steps[0]), cfg, steps[1..])
  }

  // ------------------------------------------------------------- invariants

  ghost predicate RowOk(row: Row, id: Id, delivered: set<Id>) {
    && (row.status == Dispatched ==> id in delivered && row.dispatchedAt.Some?)
    && (row.status == Dispatching ==> row.claimedAt.Some?)
    && (row.status == Failed ==> row.attempts >= MAX_ATTEMPTS)
  }

  ghost predicate ItemOk(s: State, it: Item) {
    && it.attempts >= 1 && it.id in s.appended
    && (it.id in s.rows ==> it.attempts <= s.rows[it.id].attempts)
  }

  ghost predicate WorkerOk(s: State, k: Worker) {
    && (forall i | 0 <= i < |k.todo| :: ItemOk(s, k.todo[i]))
    && (k.phase.Delivered? ==> k.todo != [] && k.todo[0].id in s.delivered)
  }

  ghost predicate Inv(s: State) {
    && s.rows.Keys <= s.appended
    && (forall id | id in s.appended :: id in s.rows || id in s.delivered)
    && (forall id | id in s.rows :: RowOk(s.rows[id], id, s.delivered))
    && (forall w | w in s.workers :: WorkerOk(s, s.workers[w]))
  }

  /** What no step takes back: history, attempts, and the two final states. */
  ghost predicate Keeps(s: State, s': State) {
    && s.appended <= s'.appended && s.delivered <= s'.delivered
    && (forall id | id in s'.rows && id in s.appended :: id in s.rows && s.rows[id].attempts <= s'.rows[id].attempts)
    && (forall id | id in s.rows && s.rows[id].status == Failed :: id in s'.rows && s'.rows[id] == s.rows[id])
    && (forall id | id in s.rows && s.rows[id].status == Dispatched && id in s'.rows :: s'.rows[id] == s.rows[id])
  }

  lemma StepKeeps(s: State, cfg: Settings, step: Step)
    requires Inv(s)
    ensures Keeps(s, Apply(s, cfg, step))
    ensures forall id | id in s.rows && id !in Apply(s, cfg, step).rows :: s.rows[id].status == Dispatched
  {
    if step.WriteSuccess? || step.WriteFailed? {
      OneRowKeeps(s, cfg, step);
    } else if step.Claim? || step.Reclaim? || step.Prune? {
      BulkKeeps(s, cfg, step);
    }
  }

  lemma OneRowKeeps(s: State, cfg: Settings, step: Step)
    requires Inv(s) && (step.WriteSuccess? || step.WriteFailed?)
    ensures Keeps(s, Apply(s, cfg, step)) && Apply(s, cfg, step).rows.Keys == s.rows.Keys
  {
  }

  lemma BulkKeeps(s: State, cfg: Settings, step: Step)
    requires Inv(s) && (step.Claim? || step.Reclaim? || step.Prune?)
    ensures Keeps(s, Apply(s, cfg, step))
    ensures forall id | id in s.rows && id !in Apply(s, cfg, step).rows :: s.rows[id].status == Dispatched
  {
  }

  lemma RowsStayOk(s: State, cfg: Settings, step: Step)
    requires Inv(s)
    ensures var s' := Apply(s, cfg, step);
            && s'.rows.Keys <= s'.appended
            && (forall id | id in s'.appended :: id in s'.rows || id in s'.delivered)
            && (forall id | id in s'.rows :: RowOk(s'.rows[id], id, s'.delivered))
  {
    if step.WriteFailed? && Busy(s, step.w) {
      assert WorkerOk(s, s.workers[step.w]) && ItemOk(s, Head(s, step.w));
    } else if step.WriteSuccess? && Busy(s, step.w) {
      assert WorkerOk(s, s.workers[step.w]);
    }
  }

  lemma WorkerOkLater(s: State, s': State, k: Worker)
    requires Keeps(s, s') && WorkerOk(s, k)
    ensures WorkerOk(s', k)
  {
    forall i | 0 <= i < |k.todo| ensures ItemOk(s', k.todo[i]) {
      assert ItemOk(s, k.todo[i]);
    }
  }

  lemma MovedWorkerOk(s: State, cfg: Settings, step: Step, w: WorkerId)
    requires Inv(s) && Keeps(s, Apply(s, cfg, step))
    requires w in Apply(s, cfg, step).workers
    requires w !in s.workers || Apply(s, cfg, step).workers[w] != s.workers[w]
    ensures WorkerOk(Apply(s, cfg, step), Apply(s, cfg, step).workers[w])
  {
    var s' := Apply(s, cfg, step);
    if step.Claim? {
      forall i | 0 <= i < |s'.workers[w].todo| ensures ItemOk(s', s'.workers[w].todo[i]) {
        assert step.order[i] in step.order;
      }
    } else {
      WorkerOkLater(s, s', s.workers[w]);
      forall i | 0 <= i < |s'.workers[w].todo| ensures s'.workers[w].todo[i] in s.workers[w].todo {
      }
    }
  }

  lemma StepKeepsInv(s: State, cfg: Settings, step: Step)
    requires Inv(s)
    ensures Inv(Apply(s, cfg, step)) && Keeps(s, Apply(s, cfg, step))
  {
    var s' := Apply(s, cfg, step);
    StepKeeps(s, cfg, step);
    RowsStayOk(s, cfg, step);
    forall w | w in s'.workers ensures WorkerOk(s', s'.workers[w]) {
      if w in s.workers && s'.workers[w] == s.workers[w] {
        WorkerOkLater(s, s', s.workers[w]);
      } else {
        MovedWorkerOk(s, cfg, step, w);
      }
    }
  }

  lemma KeepsIsTransitive(a: State, b: State, c: State)
    requires Keeps(a, b) && Keeps(b, c) && a.rows.Keys <= a.appended
    ensures Keeps(a, c)
  {
  }

  lemma {:induction false} RunKeepsInv(s: State, cfg: Settings, steps: seq<Step>)
    requires Inv(s)
    ensures Inv(Exec(s, cfg, steps)) && Keeps(s, Exec(s, cfg, steps))
    decreases |steps|
  {
    if steps != [] {
      var s' := Apply(s, cfg, steps[0]);
      StepKeepsInv(s, cfg, steps[0]);
      RunKeepsInv(s', cfg, steps[1..]);
      KeepsIsTransitive(s, s', Exec(s', cfg, steps[1..]));
    }
  }

  // ---------------------------------------------------------------- results

  /**
   * At least once: whatever workers, sweeps, prunes and crashes do, an id that `append`
   * returned stays in the table until a dispatch of it has completed; only rows whose
   * dispatch completed are marked dispatched, and a row that is claimed can be reclaimed.
   */
  lemma AtLeastOnce(cfg: Settings, steps: seq<Step>, id: Id)
    requires id in Exec(INIT, cfg, steps).appended
    ensures var s := Exec(INIT, cfg, steps);
            && (id in s.rows || id in s.delivered)
            && (id !in s.delivered ==> s.rows[id].status != Dispatched)
            && (id in s.rows && s.rows[id].status == Dispatching ==>
                  exists now :: Stale(s.rows[id], cfg, now)
                                && Apply(s, cfg, Reclaim({id}, now)).rows[id].status == Queued)
  {
    RunKeepsInv(INIT, cfg, steps);
    var s := Exec(INIT, cfg, steps);
    if id in s.rows && s.rows[id].status == Dispatching {
      assert RowOk(s.rows[id], id, s.delivered);
      var now := s.rows[id].claimedAt.value + cfg.reclaimAfterMs + 1;
      assert Stale(s.rows[id], cfg, now) && |{id}| <= BATCH;
    }
  }

  /** The two final states are never left; a dispatched row can only be pruned. */
  lemma FinalStatesStay(cfg: Settings, steps: seq<Step>, more: seq<Step>, id: Id)
    requires var s := Exec(INIT, cfg, steps); id in s.rows && s.rows[id].status in {Dispatched, Failed}
    ensures var s := Exec(INIT, cfg, steps);
            var later := Exec(s, cfg, more);
            if id in later.rows then later.rows[id] == s.rows[id]
            else s.rows[id].status == Dispatched && id in later.delivered
  {
    RunKeepsInv(INIT, cfg, steps);
    RunKeepsInv(Exec(INIT, cfg, steps), cfg, more);
  }

  /** A row is given up only after eight claims. */
  lemma FailedMeansEightClaims(cfg: Settings, steps: seq<Step>, id: Id)
    requires var s := Exec(INIT, cfg, steps); id in s.rows && s.rows[id].status == Failed
    ensures Exec(INIT, cfg, steps).rows[id].attempts >= 8
  {
    RunKeepsInv(INIT, cfg, steps);
  }

  /** In every run, a failure write that requeues sets the next attempt 1 to 64 seconds ahead. */
  lemma RetriesWaitOneTo64Seconds(cfg: Settings, steps: seq<Step>, w: WorkerId, at: int)
    requires var s := Exec(INIT, cfg, steps);
             && Busy(s, w) && s.workers[w].phase.Failing?
             && Head(s, w).id in s.rows && s.rows[Head(s, w).id].status == Dispatching
    ensures var s := Exec(INIT, cfg, steps);
            var row := Apply(s, cfg, WriteFailed(w, at)).rows[Head(s, w).id];
            || (row.status == Failed && row.nextAttemptAt.None?)
            || (row.status == Queued && row.nextAttemptAt.Some? && at + 1000 <= row.nextAttemptAt.value <= at + 64_000)
  {
    RunKeepsInv(INIT, cfg, steps);
    var s := Exec(INIT, cfg, steps);
    assert WorkerOk(s, s.workers[w]) && ItemOk(s, Head(s, w));
    if Head(s, w).attempts < MAX_ATTEMPTS { RetryDelays(Head(s, w).attempts); }
  }

  // ------------------------------------------------ what a step does to a row

  /** The worker writes the outcome of its first row, which is this one. */
  ghost predicate WritesOutcome(s: State, w: WorkerId, phase: Phase, id: Id) {
    Busy(s, w) && s.workers[w].phase == phase && Head(s, w).id == id
  }

  /**
   * Every way a row changes, in terms of its columns: it is claimed when it is queued and its
   * backoff is over, requeued when its claim is older than the configured age, recorded when its
   * dispatch is, and requeued with a later attempt or given up when its dispatch or its record failed.
   */
  lemma RowChanges(s: State, cfg: Settings, step: Step, id: Id)
    requires Inv(s) && id in s.rows && id in Apply(s, cfg, step).rows && Apply(s, cfg, step).rows[id] != s.rows[id]
    ensures var row, row' := s.rows[id], Apply(s, cfg, step).rows[id];
            match step
            case Claim(w, order, now) =>
              && id in order && |order| <= 50 && row.status == Queued
              && (row.nextAttemptAt.None? || row.nextAttemptAt.value <= now)
              && row' == row.(status := Dispatching, attempts := row.attempts + 1, claimedAt := Some(now))
            case Reclaim(batch, now) =>
              && id in batch && |batch| <= 50 && row.status == Dispatching
              && row.claimedAt.Some? && row.claimedAt.value + cfg.reclaimAfterMs < now
              && row' == row.(status := Queued, nextAttemptAt := Some(now))
            case WriteSuccess(w, at) =>
              && row.status == Dispatching && WritesOutcome(s, w, Delivered, id)
              && row' == row.(status := Dispatched, dispatchedAt := Some(at), lastError := None)
            case WriteFailed(w, at) =>
              && row.status == Dispatching && Busy(s, w) && Head(s, w).id == id && s.workers[w].phase.Failing?
              && row' == if Head(s, w).attempts >= 8
                         then row.(status := Failed, lastError := Some(s.workers[w].phase.error), nextAttemptAt := None)
                         else row.(status := Queued, lastError := Some(s.workers[w].phase.error),
                                   nextAttemptAt := Some(at + BackoffMs(Head(s, w).attempts)))
            case _ => false
  {
    if step.Append? { AppendKeepsRow(s, cfg, step, id); }
  }

  lemma AppendKeepsRow(s: State, cfg: Settings, step: Step, id: Id)
    requires Inv(s) && step.Append? && id in s.rows
    ensures Apply(s, cfg, step).rows[id] == s.rows[id]
  {
  }

  /** In every run: whatever step starts a dispatch of a queued row claims it, and not before its backoff is over. */
  lemma ClaimsHonourBackoff(cfg: Settings, steps: seq<Step>, step: Step, id: Id)
    requires var s := Exec(INIT, cfg, steps);
             && id in s.rows && s.rows[id].status == Queued
             && id in Apply(s, cfg, step).rows && Apply(s, cfg, step).rows[id].status == Dispatching
    ensures var row := Exec(INIT, cfg, steps).rows[id];
            && step.Claim? && id in step.order && (row.nextAttemptAt.None? || row.nextAttemptAt.value <= step.now)
            && Apply(Exec(INIT, cfg, steps), cfg, step).rows[id].attempts == row.attempts + 1
  {
    RunKeepsInv(INIT, cfg, steps);
    RowChanges(Exec(INIT, cfg, steps), cfg, step, id);
  }

  /** Rows appear by an append, queued and due, and vanish by a prune of old dispatched ones. */
  lemma RowsComeAndGo(s: State, cfg: Settings, step: Step, id: Id)
    requires Inv(s)
    ensures id !in s.rows && id in Apply(s, cfg, step).rows ==>
              step.Append? && step.newId == id && id !in s.appended && IsNew(Apply(s, cfg, step).rows[id], step.o, id, step.now)
    ensures id in s.rows && id !in Apply(s, cfg, step).rows ==>
              && step.Prune? && id in step.batch && cfg.retentionDays >= 1 && s.rows[id].status == Dispatched
              && s.rows[id].dispatchedAt.Some? && s.rows[id].dispatchedAt.value + cfg.retentionDays * 86_400_000 < step.now
  {
  }

  lemma {:induction false} ExecConcat(s: State, cfg: Settings, a: seq<Step>, b: seq<Step>)
    ensures Exec(s, cfg, a + b) == Exec(Exec(s, cfg, a), cfg, b)
    decreases |a|
  {
    if a == [] {
      assert a + b == b;
    } else {
      assert (a + b)[1..] == a[1..] + b;
      ExecConcat(Apply(s, cfg, a[0]), cfg, a[1..], b);
    }
  }

  // -------------------------------------------------- when a row is given up

  ghost predicate IsFailed(s: State, id: Id) { id in s.rows && s.rows[id].status == Failed }

  /** A failure write of an eighth or later claim that reaches the row while it is claimed. */
  ghost predicate GivesUp(s: State, step: Step, id: Id) {
    && step.WriteFailed? && Busy(s, step.w) && s.workers[step.w].phase.Failing?
    && Head(s, step.w).id == id && Head(s, step.w).attempts >= 8
    && id in s.rows && s.rows[id].status == Dispatching
  }

  lemma StepFailsIff(s: State, cfg: Settings, step: Step, id: Id)
    requires Inv(s)
    ensures IsFailed(Apply(s, cfg, step), id) <==> IsFailed(s, id) || GivesUp(s, step, id)
  {
    if IsFailed(s, id) {
      StepKeeps(s, cfg, step);
    } else if step.WriteFailed? {
      if Busy(s, step.w) && s.workers[step.w].phase.Failing? {
        assert Apply(s, cfg, step).rows
               == WriteFailure(s.rows, Head(s, step.w).id, Head(s, step.w).attempts, s.workers[step.w].phase.error, step.at);
      }
    } else {
      OthersFailNothing(s, cfg, step, id);
    }
  }

  lemma OthersFailNothing(s: State, cfg: Settings, step: Step, id: Id)
    requires !step.WriteFailed? && !IsFailed(s, id)
    ensures !IsFailed(Apply(s, cfg, step), id)
  {
  }

  /**
   * In every run, from any reachable state, a row is given up if and only if it was before or
   * some step of the run gave it up so. Claims lost to crashes, however many, never do.
   */
  lemma {:induction false} FailedIff(s: State, cfg: Settings, steps: seq<Step>, id: Id)
    requires Inv(s)
    ensures IsFailed(Exec(s, cfg, steps), id)
            <==> IsFailed(s, id) || exists i :: 0 <= i < |steps| && GivesUp(Exec(s, cfg, steps[..i]), steps[i], id)
    decreases |steps|
  {
    if steps != [] {
      var init, last := steps[..|steps| - 1], steps[|steps| - 1];
      FailedIff(s, cfg, init, id);
      RunKeepsInv(s, cfg, init);
      StepFailsIff(Exec(s, cfg, init), cfg, last, id);
      assert steps == init + [last];
      ExecConcat(s, cfg, init, [last]);
      ExecLast(Exec(s, cfg, init), cfg, last);
      PrefixesAgree(s, cfg, steps, id);
    }
  }

  lemma ExecLast(s: State, cfg: Settings, step: Step)
    ensures Exec(s, cfg, [step]) == Apply(s, cfg, step)
  {
    assert [step][1..] == [];
    assert Exec(Apply(s, cfg, step), cfg, []) == Apply(s, cfg, step);
  }

  lemma PrefixesAgree(s: State, cfg: Settings, steps: seq<Step>, id: Id)
    requires steps != []
    ensures var init, last := steps[..|steps| - 1], steps[|steps| - 1];
            (exists i :: 0 <= i < |steps| && GivesUp(Exec(s, cfg, steps[..i]), steps[i], id))
            <==> (exists i :: 0 <= i < |init| && GivesUp(Exec(s, cfg, init[..i]), init[i], id))
                 || GivesUp(Exec(s, cfg, init), last, id)
  {
    var init := steps[..|steps| - 1];
    forall i | 0 <= i < |init| ensures steps[..i] == init[..i] && steps[i] == init[i] {
    }
  }

  /** For runs from the start: `failed` means that such a write happened. */
  lemma GivenUpIff(cfg: Settings, steps: seq<Step>, id: Id)
    ensures IsFailed(Exec(INIT, cfg, steps), id)
            <==> exists i :: 0 <= i < |steps| && GivesUp(Exec(INIT, cfg, steps[..i]), steps[i], id)
  {
    FailedIff(INIT, cfg, steps, id);
  }

  // ---------------------------------------------- a row that keeps orphaning

  /** One claim lost to a crash, and the sweep that recovers it. */
  function Orphaned(id: Id, now: int, cfg: Settings): seq<Step> {
    [Claim(0, [id], now), Crash(0), Reclaim({id}, now + cfg.reclaimAfterMs + 1)]
  }

  ghost predicate Waiting(s: State, id: Id, n: nat, now: int) {
    id in s.rows && s.rows[id].status == Queued && s.rows[id].attempts == n && Due(s.rows[id], now) && s.workers == map[]
  }

  lemma OneMoreOrphan(s: State, cfg: Settings, id: Id, n: nat, now: int)
    requires Waiting(s, id, n, now)
    ensures Waiting(Exec(s, cfg, Orphaned(id, now, cfg)), id, n + 1, now + cfg.reclaimAfterMs + 1)
  {
    var steps := Orphaned(id, now, cfg);
    var s1 := Apply(s, cfg, steps[0]);
    assert id in SetOf([id]);
    assert s1.rows[id] == ClaimRow(s.rows[id], now);
    var s2 := Apply(s1, cfg, steps[1]);
    assert s2.workers == map[];
    var s3 := Apply(s2, cfg, steps[2]);
    assert |{id}| <= BATCH;
    assert steps[1..] == [steps[1], steps[2]] && steps[1..][1..] == [steps[2]];
    assert Exec(s3, cfg, []) == s3;
    assert Exec(s2, cfg, [steps[2]]) == s3;
    assert Exec(s1, cfg, steps[1..]) == s3;
  }

  /**
   * The attempt cap is only looked at in the failure write: a row whose worker dies after
   * every claim collects any number of attempts and is still queued, never given up.
   */
  lemma {:induction false} OrphansAreNeverGivenUp(cfg: Settings, o: AppendOptions, n: nat)
    returns (steps: seq<Step>, now: int)
    ensures Waiting(Exec(INIT, cfg, steps), 0, n, now)
    decreases n
  {
    if n == 0 {
      steps, now := [Append(o, 0, 0)], 0;
      assert Exec(Apply(INIT, cfg, steps[0]), cfg, []) == Apply(INIT, cfg, steps[0]);
    } else {
      var before, t := OrphansAreNeverGivenUp(cfg, o, n - 1);
      OneMoreOrphan(Exec(INIT, cfg, before), cfg, 0, n - 1, t);
      ExecConcat(INIT, cfg, before, Orphaned(0, t, cfg));
      steps, now := before + Orphaned(0, t, cfg), t + cfg.reclaimAfterMs + 1;
    }
  }
}
