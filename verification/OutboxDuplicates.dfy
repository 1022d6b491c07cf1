/**
 * What the outbox does beyond "at least once": when an event is dispatched once only, and when
 * a late failure write undoes what another worker has delivered
 * (backend/src/modules/outbox/outbox-worker.service.ts:156-275).
 */
module OutboxDuplicates {
  import opened Outbox
  import opened OutboxRuns

  /** The i-th row in the worker's hands is this one. */
  ghost predicate HeldAt(s: State, w: WorkerId, i: nat, id: Id) {
    w in s.workers && i < |s.workers[w].todo| && s.workers[w].todo[i].id == id
  }

  // -------------------------------------------------------- once and once only

  ghost predicate Dispatched1(s: State, step: Step, id: Id) {
    step.Dispatch? && Busy(s, step.w) && s.workers[step.w].phase.Pending? && Head(s, step.w).id == id
  }

  /** How often the run dispatches this event onto the bus. */
  ghost function Dispatches(s: State, cfg: Settings, steps: seq<Step>, id: Id): nat
    decreases |steps|
  {
    if steps == [] then 0
    else (if Dispatched1(s, steps[0], id) then 1 else 0) + Dispatches(Apply(s, cfg, steps[0]), cfg, steps[1..], id)
  }

  /** The worker has dispatched the event and not yet recorded it. */
  ghost predicate Unrecorded(s: State, w: WorkerId, id: Id) { HeldAt(s, w, 0, id) && s.workers[w].phase.Delivered? }

  /** A crash or a failing write between dispatch and record, or a reclaim of a row that is in live hands. */
  ghost predicate Disturbs(s: State, step: Step, id: Id) {
    match step
    case Crash(w) => Unrecorded(s, w, id)
    case DrainAborts(w) => Unrecorded(s, w, id)
    case WriteThrows(w, _) => Unrecorded(s, w, id)
    case Reclaim(batch, _) => id in batch && exists w, i: nat :: HeldAt(s, w, i, id)
    case _ => false
  }

  ghost predicate Undisturbed(s: State, cfg: Settings, steps: seq<Step>, id: Id)
    decreases |steps|
  {
    steps == [] || (!Disturbs(s, steps[0], id) && Undisturbed(Apply(s, cfg, steps[0]), cfg, steps[1..], id))
  }

  /** Whoever holds the row holds it alone, and claimed. */
  ghost predicate HeldOnce(s: State, id: Id) {
    && (forall w, i: nat | HeldAt(s, w, i, id) :: id in s.rows && s.rows[id].status == Dispatching)
    && (forall w, i: nat, v, j: nat | HeldAt(s, w, i, id) && HeldAt(s, v, j, id) :: w == v && i == j)
  }

  /** Dispatched, and recorded or in the hands of the worker that is about to record it. */
  ghost predicate Done(s: State, id: Id) {
    && id in s.appended
    && (forall w, i: nat | HeldAt(s, w, i, id) :: Unrecorded(s, w, id) && i == 0)
    && (id in s.rows && s.rows[id].status != Dispatched ==> exists w :: HeldAt(s, w, 0, id))
  }

  ghost predicate Once(s: State, id: Id, n: nat) {
    && HeldOnce(s, id) && n <= 1
    && (n == 0 ==> forall w :: !Unrecorded(s, w, id))
    && (n == 1 ==> Done(s, id))
  }

  /** The same hands, over rows that changed as far as a held row allows. */
  lemma SameHands(s: State, s': State, id: Id, n: nat)
    requires Once(s, id, n) && s'.workers == s.workers && s.appended <= s'.appended
    requires forall w, i: nat | HeldAt(s, w, i, id) :: id in s'.rows && s'.rows[id].status == Dispatching
    requires n == 1 && id in s'.rows && s'.rows[id].status != Dispatched ==> exists w :: HeldAt(s, w, 0, id)
    ensures Once(s', id, n)
  {
    HandsAgree(s, s', id);
    if n == 1 && id in s'.rows && s'.rows[id].status != Dispatched {
      var w :| HeldAt(s, w, 0, id);
      assert HeldAt(s', w, 0, id);
    }
  }

  lemma HandsAgree(s: State, s': State, id: Id)
    requires s'.workers == s.workers
    ensures forall w, i: nat :: HeldAt(s', w, i, id) <==> HeldAt(s, w, i, id)
    ensures forall w :: Unrecorded(s', w, id) <==> Unrecorded(s, w, id)
  {
  }

  lemma HeldWasAppended(s: State, w: WorkerId, i: nat, id: Id)
    requires Inv(s) && HeldAt(s, w, i, id)
    ensures id in s.appended
  {
    assert WorkerOk(s, s.workers[w]) && ItemOk(s, s.workers[w].todo[i]);
  }

  lemma AppendKeepsOnce(s: State, cfg: Settings, step: Step, id: Id, n: nat)
    requires Inv(s) && Once(s, id, n) && (step.Append? || step.FindExisting?)
    ensures Once(Apply(s, cfg, step), id, n)
  {
    forall w, i: nat | HeldAt(s, w, i, id) ensures id in s.appended {
      HeldWasAppended(s, w, i, id);
    }
    SameHands(s, Apply(s, cfg, step), id, n);
  }

  lemma PruneKeepsOnce(s: State, cfg: Settings, step: Step, id: Id, n: nat)
    requires Once(s, id, n) && step.Prune?
    ensures Once(Apply(s, cfg, step), id, n)
  {
    SameHands(s, Apply(s, cfg, step), id, n);
  }

  lemma ReclaimKeepsOnce(s: State, cfg: Settings, step: Step, id: Id, n: nat)
    requires Once(s, id, n) && step.Reclaim? && !Disturbs(s, step, id)
    ensures Once(Apply(s, cfg, step), id, n)
  {
    SameHands(s, Apply(s, cfg, step), id, n);
  }

  /** Some hands less, but none that has dispatched the event. */
  lemma FewerHands(s: State, s': State, id: Id, n: nat)
    requires Once(s, id, n) && s'.rows == s.rows && s'.appended == s.appended
    requires forall w | w in s'.workers :: w in s.workers && s'.workers[w] == s.workers[w]
    requires n == 1 ==> forall w | HeldAt(s, w, 0, id) :: w in s'.workers
    ensures Once(s', id, n)
  {
    forall w, i: nat | HeldAt(s', w, i, id) ensures HeldAt(s, w, i, id) {
    }
    forall w | Unrecorded(s', w, id) ensures Unrecorded(s, w, id) {
    }
    forall w | w in s'.workers && Unrecorded(s, w, id) ensures Unrecorded(s', w, id) {
    }
    if n == 1 && id in s.rows && s.rows[id].status != Dispatched {
      var w :| HeldAt(s, w, 0, id);
      assert HeldAt(s', w, 0, id);
    }
  }

  lemma CrashKeepsOnce(s: State, cfg: Settings, step: Step, id: Id, n: nat)
    requires Once(s, id, n) && (step.Crash? || step.DrainAborts?) && !Disturbs(s, step, id)
    ensures Once(Apply(s, cfg, step), id, n)
  {
    forall w | n == 1 && HeldAt(s, w, 0, id) ensures w in Apply(s, cfg, step).workers {
      assert Unrecorded(s, w, id);
    }
    FewerHands(s, Apply(s, cfg, step), id, n);
  }

  /** A claim takes queued rows only, so the row is in nobody else's hands. */
  lemma ClaimKeepsOnce(s: State, cfg: Settings, step: Step, id: Id, n: nat)
    requires Once(s, id, n) && step.Claim? && Apply(s, cfg, step) != s
    ensures Once(Apply(s, cfg, step), id, n)
  {
    if id in step.order {
      NobodyHasDue(s, step, id, n);
      ClaimedOnce(s, cfg, step, id);
    } else {
      ClaimOfOthers(s, cfg, step, id, n);
    }
  }

  lemma NobodyHasDue(s: State, step: Step, id: Id, n: nat)
    requires Once(s, id, n) && step.Claim? && id in s.rows && Due(s.rows[id], step.now)
    ensures n == 0 && forall w, i: nat :: !HeldAt(s, w, i, id)
  {
  }

  lemma ClaimedOnce(s: State, cfg: Settings, step: Step, id: Id)
    requires step.Claim? && Apply(s, cfg, step) != s && id in step.order
    requires forall w, i: nat :: !HeldAt(s, w, i, id)
    ensures Once(Apply(s, cfg, step), id, 0)
  {
    var s' := Apply(s, cfg, step);
    forall w, i: nat | HeldAt(s', w, i, id) ensures w == step.w && i < |step.order| && step.order[i] == id {
      assert !HeldAt(s, w, i, id);
    }
    assert s'.rows[id].status == Dispatching && s'.workers[step.w].phase.Pending?;
  }

  lemma ClaimOfOthers(s: State, cfg: Settings, step: Step, id: Id, n: nat)
    requires Once(s, id, n) && step.Claim? && Apply(s, cfg, step) != s && id !in step.order
    ensures Once(Apply(s, cfg, step), id, n)
  {
    var s' := Apply(s, cfg, step);
    forall w, i: nat | HeldAt(s', w, i, id) ensures w != step.w && HeldAt(s, w, i, id) {
      if w == step.w { NotClaimed(s.rows, step.order, i, id); }
    }
    forall w, i: nat | HeldAt(s, w, i, id) ensures w != step.w && HeldAt(s', w, i, id) {
    }
    forall w ensures Unrecorded(s', w, id) <==> Unrecorded(s, w, id) {
      assert HeldAt(s', w, 0, id) <==> HeldAt(s, w, 0, id);
    }
    if n == 1 && id in s.rows && s.rows[id].status != Dispatched {
      var w :| HeldAt(s, w, 0, id);
      assert HeldAt(s', w, 0, id);
    }
  }

  lemma NotClaimed(rows: Rows, order: seq<Id>, i: nat, id: Id)
    requires (forall x | x in order :: x in rows) && id !in order && i < |order|
    ensures Claimed(rows, order)[i].id != id
  {
  }

  lemma DispatchKeepsOnce(s: State, cfg: Settings, step: Step, id: Id, n: nat)
    requires Inv(s) && Once(s, id, n) && (step.Dispatch? || step.DispatchThrows?) && Apply(s, cfg, step) != s
    ensures Once(Apply(s, cfg, step), id, n + if Dispatched1(s, step, id) then 1 else 0)
  {
    if Head(s, step.w).id == id {
      assert HeldAt(s, step.w, 0, id);
      HeldWasAppended(s, step.w, 0, id);
      HeadIsDispatched(s, cfg, step, id, n);
    } else {
      PhaseOfOthers(s, Apply(s, cfg, step), step.w, id, n);
    }
  }

  lemma HeadIsDispatched(s: State, cfg: Settings, step: Step, id: Id, n: nat)
    requires Once(s, id, n) && (step.Dispatch? || step.DispatchThrows?) && Apply(s, cfg, step) != s
    requires HeldAt(s, step.w, 0, id) && id in s.appended
    ensures Once(Apply(s, cfg, step), id, n + if Dispatched1(s, step, id) then 1 else 0)
  {
    var s' := Apply(s, cfg, step);
    assert !Unrecorded(s, step.w, id) && n == 0;
    forall w, i: nat ensures HeldAt(s', w, i, id) <==> HeldAt(s, w, i, id) {
    }
    forall w, i: nat | HeldAt(s', w, i, id) ensures w == step.w && i == 0 {
      assert HeldAt(s, w, i, id);
    }
    assert HeldAt(s', step.w, 0, id);
  }

  /** A worker whose first row is another one moves on with it. */
  lemma PhaseOfOthers(s: State, s': State, w0: WorkerId, id: Id, n: nat)
    requires Once(s, id, n) && Busy(s, w0) && Head(s, w0).id != id
    requires exists phase :: s'.workers == s.workers[w0 := s.workers[w0].(phase := phase)]
    requires s'.rows == s.rows && s'.appended == s.appended
    ensures Once(s', id, n)
  {
    forall w, i: nat ensures HeldAt(s', w, i, id) <==> HeldAt(s, w, i, id) {
    }
    forall w ensures Unrecorded(s', w, id) <==> Unrecorded(s, w, id) {
      assert HeldAt(s', w, 0, id) <==> HeldAt(s, w, 0, id);
    }
    if n == 1 && id in s.rows && s.rows[id].status != Dispatched {
      var w :| HeldAt(s, w, 0, id);
      assert HeldAt(s', w, 0, id);
    }
  }

  lemma ThrowKeepsOnce(s: State, cfg: Settings, step: Step, id: Id, n: nat)
    requires Once(s, id, n) && step.WriteThrows? && Apply(s, cfg, step) != s && !Disturbs(s, step, id)
    ensures Once(Apply(s, cfg, step), id, n)
  {
    assert HeldAt(s, step.w, 0, Head(s, step.w).id) && Head(s, step.w).id != id;
    PhaseOfOthers(s, Apply(s, cfg, step), step.w, id, n);
  }

  /** The worker has written the outcome of its first row and goes on to the next. */
  ghost predicate MovesOn(s: State, s': State, w: WorkerId) {
    Busy(s, w) && s'.workers == s.workers[w := Worker(s.workers[w].todo[1..], Pending)] && s'.appended == s.appended
  }

  lemma HeldBefore(s: State, s': State, w0: WorkerId, w: WorkerId, i: nat, id: Id)
    requires MovesOn(s, s', w0)
    ensures HeldAt(s', w, i, id) <==> HeldAt(s, w, if w == w0 then i + 1 else i, id)
  {
  }

  lemma WriteKeepsOnce(s: State, cfg: Settings, step: Step, id: Id, n: nat)
    requires Inv(s) && Once(s, id, n) && (step.WriteSuccess? || step.WriteFailed?) && Apply(s, cfg, step) != s
    ensures Once(Apply(s, cfg, step), id, n)
  {
    var s' := Apply(s, cfg, step);
    assert MovesOn(s, s', step.w);
    if Head(s, step.w).id == id {
      assert HeldAt(s, step.w, 0, id);
      if n == 1 { assert Unrecorded(s, step.w, id); }
      OwnWriteKeepsOnce(s, s', step.w, id, n);
    } else {
      OtherWriteKeepsOnce(s, s', step.w, id, n);
    }
  }

  lemma OwnWriteKeepsOnce(s: State, s': State, w0: WorkerId, id: Id, n: nat)
    requires Once(s, id, n) && MovesOn(s, s', w0) && HeldAt(s, w0, 0, id)
    requires n == 1 ==> id in s'.rows && s'.rows[id].status == Dispatched
    ensures Once(s', id, n)
  {
    forall w, i: nat ensures !HeldAt(s', w, i, id) {
      HeldBefore(s, s', w0, w, i, id);
    }
  }

  lemma OtherWriteKeepsOnce(s: State, s': State, w0: WorkerId, id: Id, n: nat)
    requires Once(s, id, n) && MovesOn(s, s', w0) && Head(s, w0).id != id
    requires (id in s'.rows <==> id in s.rows) && (id in s.rows ==> s'.rows[id] == s.rows[id])
    ensures Once(s', id, n)
  {
    forall w, i: nat ensures HeldAt(s', w, i, id) <==> HeldAt(s, w, if w == w0 then i + 1 else i, id) {
      HeldBefore(s, s', w0, w, i, id);
    }
    forall w, i: nat, v, j: nat | HeldAt(s', w, i, id) && HeldAt(s', v, j, id) ensures w == v && i == j {
      assert HeldAt(s, w, if w == w0 then i + 1 else i, id) && HeldAt(s, v, if v == w0 then j + 1 else j, id);
    }
    forall w | Unrecorded(s', w, id) ensures w != w0 && Unrecorded(s, w, id) {
      assert HeldAt(s', w, 0, id);
    }
    if n == 1 { OthersAreDone(s, s', w0, id); }
  }

  lemma OthersAreDone(s: State, s': State, w0: WorkerId, id: Id)
    requires Done(s, id) && MovesOn(s, s', w0) && Head(s, w0).id != id
    requires (id in s'.rows <==> id in s.rows) && (id in s.rows ==> s'.rows[id] == s.rows[id])
    ensures Done(s', id)
  {
    forall w, i: nat | HeldAt(s', w, i, id) ensures Unrecorded(s', w, id) && i == 0 {
      HeldBefore(s, s', w0, w, i, id);
    }
    if id in s.rows && s.rows[id].status != Dispatched {
      var w :| HeldAt(s, w, 0, id);
      HeldBefore(s, s', w0, w, 0, id);
      assert HeldAt(s', w, 0, id);
    }
  }

  lemma StepKeepsOnce(s: State, cfg: Settings, step: Step, id: Id, n: nat)
    requires Inv(s) && Once(s, id, n) && !Disturbs(s, step, id)
    ensures Once(Apply(s, cfg, step), id, n + if Dispatched1(s, step, id) then 1 else 0)
  {
    if Apply(s, cfg, step) == s {
      StutterDispatchesNothing(s, cfg, step, id);
    } else if step.Append? || step.FindExisting? {
      AppendKeepsOnce(s, cfg, step, id, n);
    } else if step.Prune? {
      PruneKeepsOnce(s, cfg, step, id, n);
    } else if step.Reclaim? {
      ReclaimKeepsOnce(s, cfg, step, id, n);
    } else if step.Crash? || step.DrainAborts? {
      CrashKeepsOnce(s, cfg, step, id, n);
    } else if step.Claim? {
      ClaimKeepsOnce(s, cfg, step, id, n);
    } else if step.Dispatch? || step.DispatchThrows? {
      DispatchKeepsOnce(s, cfg, step, id, n);
    } else if step.WriteThrows? {
      ThrowKeepsOnce(s, cfg, step, id, n);
    } else {
      WriteKeepsOnce(s, cfg, step, id, n);
    }
  }

  lemma StutterDispatchesNothing(s: State, cfg: Settings, step: Step, id: Id)
    requires Apply(s, cfg, step) == s
    ensures !Dispatched1(s, step, id)
  {
  }

  lemma {:induction false} RunKeepsOnce(s: State, cfg: Settings, steps: seq<Step>, id: Id, n: nat)
    requires Inv(s) && Once(s, id, n) && Undisturbed(s, cfg, steps, id)
    ensures n + Dispatches(s, cfg, steps, id) <= 1
    decreases |steps|
  {
    if steps != [] {
      StepKeepsInv(s, cfg, steps[0]);
      StepKeepsOnce(s, cfg, steps[0], id, n);
      RunKeepsOnce(Apply(s, cfg, steps[0]), cfg, steps[1..], id, n + if Dispatched1(s, steps[0], id) then 1 else 0);
    }
  }

  /**
   * Exactly once is what is left when nothing goes wrong in between: however many workers, failed
   * dispatches, crashes elsewhere, sweeps and prunes there are, an event is dispatched at most
   * once in every run in which no crash and no failing write separates its dispatch from its
   * record, and its row is not reclaimed from live hands.
   */
  lemma AtMostOnce(cfg: Settings, steps: seq<Step>, id: Id)
    requires Undisturbed(INIT, cfg, steps, id)
    ensures Dispatches(INIT, cfg, steps, id) <= 1
  {
    RunKeepsOnce(INIT, cfg, steps, id, 0);
  }

  /** A row that is queued again is dispatched again. */
  lemma QueuedIsDispatched(s: State, cfg: Settings, w: WorkerId, id: Id, now: int)
    requires !Busy(s, w) && id in s.rows && Due(s.rows[id], now)
    ensures Dispatches(s, cfg, [Claim(w, [id], now)] + ([Dispatch(w)] + []), id) == 1
  {
    var s' := Apply(s, cfg, Claim(w, [id], now));
    assert s'.workers[w] == Worker(Claimed(s.rows, [id]), Pending);
    CountFirst(s', cfg, Dispatch(w), [], id);
    CountFirst(s, cfg, Claim(w, [id], now), [Dispatch(w)] + [], id);
  }

  lemma ReclaimedIsDispatched(s: State, cfg: Settings, w: WorkerId, id: Id) returns (more: seq<Step>)
    requires Inv(s) && !Busy(s, w) && id in s.rows && s.rows[id].status == Dispatching
    ensures more != [] && more[0].Reclaim? && id in more[0].batch && Dispatches(s, cfg, more, id) == 1
  {
    assert RowOk(s.rows[id], id, s.delivered);
    var now := s.rows[id].claimedAt.value + cfg.reclaimAfterMs + 1;
    assert Stale(s.rows[id], cfg, now) && |{id}| <= BATCH;
    var s' := Apply(s, cfg, Reclaim({id}, now));
    assert Due(s'.rows[id], now) && s'.workers == s.workers;
    QueuedIsDispatched(s', cfg, w, id, now);
    CountFirst(s, cfg, Reclaim({id}, now), [Claim(w, [id], now)] + ([Dispatch(w)] + []), id);
    more := [Reclaim({id}, now)] + ([Claim(w, [id], now)] + ([Dispatch(w)] + []));
  }

  /** A crash there does cost a second dispatch: the row is reclaimed and claimed once more. */
  lemma CrashDuplicates(s: State, cfg: Settings, w: WorkerId, id: Id) returns (more: seq<Step>)
    requires Inv(s) && Unrecorded(s, w, id) && id in s.rows && s.rows[id].status == Dispatching
    ensures Dispatches(s, cfg, [Crash(w)] + more, id) == 1
  {
    var s' := Apply(s, cfg, Crash(w));
    StepKeepsInv(s, cfg, Crash(w));
    more := ReclaimedIsDispatched(s', cfg, w, id);
    CountFirst(s, cfg, Crash(w), more, id);
  }

  /** So does a reclaim from live hands, given a second worker. */
  lemma ReclaimDuplicates(s: State, cfg: Settings, w: WorkerId, v: WorkerId, id: Id) returns (more: seq<Step>)
    requires Inv(s) && Unrecorded(s, w, id) && !Busy(s, v) && id in s.rows && s.rows[id].status == Dispatching
    ensures more != [] && Disturbs(s, more[0], id) && Dispatches(s, cfg, more, id) == 1
  {
    more := ReclaimedIsDispatched(s, cfg, v, id);
    assert HeldAt(s, w, 0, id);
  }

  /** And a failing record, up to the seventh attempt; the eighth gives up what was delivered. */
  lemma ThrowDuplicates(s: State, cfg: Settings, w: WorkerId, v: WorkerId, id: Id, error: string, at: int)
    returns (more: seq<Step>)
    requires Inv(s) && Unrecorded(s, w, id) && !Busy(s, v) && id in s.rows && s.rows[id].status == Dispatching
    ensures var written := Apply(Apply(s, cfg, WriteThrows(w, error)), cfg, WriteFailed(w, at));
            if Head(s, w).attempts >= MAX_ATTEMPTS then IsFailed(written, id)
            else Dispatches(written, cfg, more, id) == 1
  {
    var written := Apply(Apply(s, cfg, WriteThrows(w, error)), cfg, WriteFailed(w, at));
    more := [];
    if Head(s, w).attempts < MAX_ATTEMPTS {
      var now := written.rows[id].nextAttemptAt.value;
      QueuedIsDispatched(written, cfg, v, id, now);
      more := [Claim(v, [id], now)] + ([Dispatch(v)] + []);
    }
  }

  lemma CountFirst(s: State, cfg: Settings, step: Step, rest: seq<Step>, id: Id)
    ensures Dispatches(s, cfg, [step] + rest, id)
            == (if Dispatched1(s, step, id) then 1 else 0) + Dispatches(Apply(s, cfg, step), cfg, rest, id)
  {
    assert ([step] + rest)[1..] == rest;
  }

  // --------------------------------------------------------- late failure writes

  /** The claim that this item stands for is the row's latest. */
  ghost predicate Current(s: State, it: Item) { it.id in s.rows && s.rows[it.id].attempts == it.attempts }

  /** The worker has the row by its latest claim. */
  ghost predicate HoldsClaim(s: State, w: WorkerId, id: Id) {
    exists i: nat :: HeldAt(s, w, i, id) && Current(s, s.workers[w].todo[i])
  }

  /** A claim counts the attempt up, so no two items stand for the same claim. */
  ghost predicate ClaimsDiffer(s: State) {
    forall w, i: nat, v, j: nat, id | HeldAt(s, w, i, id) && HeldAt(s, v, j, id)
                                      && s.workers[w].todo[i].attempts == s.workers[v].todo[j].attempts :: w == v && i == j
  }

  lemma NewClaimsDiffer(s: State, cfg: Settings, step: Step)
    requires Inv(s) && ClaimsDiffer(s) && step.Claim? && Apply(s, cfg, step) != s
    ensures ClaimsDiffer(Apply(s, cfg, step))
  {
    var s' := Apply(s, cfg, step);
    forall w, i: nat, v, j: nat, id | HeldAt(s', w, i, id) && HeldAt(s', v, j, id)
                                      && s'.workers[w].todo[i].attempts == s'.workers[v].todo[j].attempts
      ensures w == v && i == j
    {
      if w == step.w && v == step.w {
        assert step.order[i] == id && step.order[j] == id;
      } else if w == step.w {
        assert step.order[i] == id;
        OlderClaim(s, v, j, id);
      } else if v == step.w {
        assert step.order[j] == id;
        OlderClaim(s, w, i, id);
      } else {
        assert HeldAt(s, w, i, id) && HeldAt(s, v, j, id);
      }
    }
  }

  lemma OlderClaim(s: State, w: WorkerId, i: nat, id: Id)
    requires Inv(s) && HeldAt(s, w, i, id)
    ensures id in s.rows ==> s.workers[w].todo[i].attempts <= s.rows[id].attempts
  {
    assert WorkerOk(s, s.workers[w]) && ItemOk(s, s.workers[w].todo[i]);
  }

  /** Every item that is left was there, perhaps one place further back. */
  lemma ItemsWereThere(s: State, cfg: Settings, step: Step, w: WorkerId, i: nat, id: Id)
    requires !step.Claim? && HeldAt(Apply(s, cfg, step), w, i, id)
    ensures var back := if (step.WriteSuccess? || step.WriteFailed?) && step.w == w && Apply(s, cfg, step) != s then i + 1 else i;
            HeldAt(s, w, back, id) && s.workers[w].todo[back] == Apply(s, cfg, step).workers[w].todo[i]
  {
  }

  lemma StepKeepsClaims(s: State, cfg: Settings, step: Step)
    requires Inv(s) && ClaimsDiffer(s)
    ensures ClaimsDiffer(Apply(s, cfg, step))
  {
    var s' := Apply(s, cfg, step);
    if s' == s {
    } else if step.Claim? {
      NewClaimsDiffer(s, cfg, step);
    } else {
      forall w, i: nat, v, j: nat, id | HeldAt(s', w, i, id) && HeldAt(s', v, j, id)
                                        && s'.workers[w].todo[i].attempts == s'.workers[v].todo[j].attempts
        ensures w == v && i == j
      {
        ItemsWereThere(s, cfg, step, w, i, id);
        ItemsWereThere(s, cfg, step, v, j, id);
      }
    }
  }

  lemma {:induction false} RunKeepsClaims(s: State, cfg: Settings, steps: seq<Step>)
    requires Inv(s) && ClaimsDiffer(s)
    ensures Inv(Exec(s, cfg, steps)) && ClaimsDiffer(Exec(s, cfg, steps))
    decreases |steps|
  {
    if steps != [] {
      StepKeepsInv(s, cfg, steps[0]);
      StepKeepsClaims(s, cfg, steps[0]);
      RunKeepsClaims(Apply(s, cfg, steps[0]), cfg, steps[1..]);
    }
  }

  /** In every run at most one worker has a row by its latest claim. */
  lemma OneHolder(cfg: Settings, steps: seq<Step>, w: WorkerId, v: WorkerId, id: Id)
    requires HoldsClaim(Exec(INIT, cfg, steps), w, id) && HoldsClaim(Exec(INIT, cfg, steps), v, id)
    ensures w == v
  {
    RunKeepsClaims(INIT, cfg, steps);
  }

  /**
   * The failure write names no owner. In every run it takes effect exactly on a row that is
   * claimed; and it takes effect although its worker's claim has been superseded exactly when
   * the row has been claimed again since, by which it carries more attempts.
   */
  lemma LateFailureIff(cfg: Settings, steps: seq<Step>, w: WorkerId, at: int)
    requires var s := Exec(INIT, cfg, steps); Busy(s, w) && s.workers[w].phase.Failing?
    ensures var s := Exec(INIT, cfg, steps);
            var it := Head(s, w);
            var takesEffect := Apply(s, cfg, WriteFailed(w, at)).rows != s.rows;
            && (takesEffect <==> it.id in s.rows && s.rows[it.id].status == Dispatching)
            && (takesEffect && !HoldsClaim(s, w, it.id)
                <==> it.id in s.rows && s.rows[it.id].status == Dispatching && it.attempts < s.rows[it.id].attempts)
  {
    var s := Exec(INIT, cfg, steps);
    RunKeepsClaims(INIT, cfg, steps);
    var it := Head(s, w);
    assert HeldAt(s, w, 0, it.id);
    OlderClaim(s, w, 0, it.id);
    if it.id in s.rows && s.rows[it.id].status == Dispatching {
      assert Apply(s, cfg, WriteFailed(w, at)).rows[it.id].status != Dispatching;
    }
    if it.id in s.rows && it.attempts < s.rows[it.id].attempts { OnlyOneEach(cfg, steps, w, it.id); }
  }

  /** A worker has no row twice. */
  ghost predicate RowsDiffer(s: State) {
    forall w, i: nat, j: nat, id | HeldAt(s, w, i, id) && HeldAt(s, w, j, id) :: i == j
  }

  lemma StepKeepsRowsDiffer(s: State, cfg: Settings, step: Step)
    requires RowsDiffer(s)
    ensures RowsDiffer(Apply(s, cfg, step))
  {
    var s' := Apply(s, cfg, step);
    forall w, i: nat, j: nat, id | HeldAt(s', w, i, id) && HeldAt(s', w, j, id) ensures i == j {
      if step.Claim? {
        if w == step.w && s' != s {
          assert step.order[i] == id && step.order[j] == id;
        } else {
          assert HeldAt(s, w, i, id) && HeldAt(s, w, j, id);
        }
      } else {
        ItemsWereThere(s, cfg, step, w, i, id);
        ItemsWereThere(s, cfg, step, w, j, id);
      }
    }
  }

  lemma {:induction false} RunKeepsRowsDiffer(s: State, cfg: Settings, steps: seq<Step>)
    requires RowsDiffer(s)
    ensures RowsDiffer(Exec(s, cfg, steps))
    decreases |steps|
  {
    if steps != [] {
      StepKeepsRowsDiffer(s, cfg, steps[0]);
      RunKeepsRowsDiffer(Apply(s, cfg, steps[0]), cfg, steps[1..]);
    }
  }

  lemma OnlyOneEach(cfg: Settings, steps: seq<Step>, w: WorkerId, id: Id)
    requires var s := Exec(INIT, cfg, steps);
             Busy(s, w) && Head(s, w).id == id && id in s.rows && Head(s, w).attempts < s.rows[id].attempts
    ensures !HoldsClaim(Exec(INIT, cfg, steps), w, id)
  {
    RunKeepsRowsDiffer(INIT, cfg, steps);
    assert HeldAt(Exec(INIT, cfg, steps), w, 0, id);
  }

  // ------------------------------------------------ what a late write can undo

  /** One worker's dispatch throws, but late: the row is with another worker by now, and delivered. */
  lemma SecondClaim(s: State, cfg: Settings, id: Id, n: nat, now: int, error: string) returns (steps: seq<Step>)
    requires Waiting(s, id, n, now)
    ensures var s' := Exec(s, cfg, steps);
            && id in s'.rows && s'.rows[id].status == Dispatching && id in s'.delivered
            && s'.workers == map[1 := Worker([Item(id, n + 1)], Failing(error)), 2 := Worker([Item(id, n + 2)], Delivered)]
  {
    var t := now + cfg.reclaimAfterMs + 1;
    var s1 := Apply(s, cfg, Claim(1, [id], now));
    ClaimsOne(s, cfg, 1, id, now);
    assert Stale(s1.rows[id], cfg, t) && |{id}| <= BATCH;
    var s2 := Apply(s1, cfg, Reclaim({id}, t));
    assert s2.rows[id] == s1.rows[id].(status := Queued, nextAttemptAt := Some(t));
    ClaimsOne(s2, cfg, 2, id, t);
    var s3 := Apply(s2, cfg, Claim(2, [id], t));
    BothProceed(s3, cfg, id, n, error);
    steps := [Claim(1, [id], now), Reclaim({id}, t)] + [Claim(2, [id], t), Dispatch(2)] + [DispatchThrows(1, error)];
    FiveSteps(s, cfg, Claim(1, [id], now), Reclaim({id}, t), Claim(2, [id], t), Dispatch(2), DispatchThrows(1, error));
  }

  lemma ClaimsOne(s: State, cfg: Settings, w: WorkerId, id: Id, now: int)
    requires !Busy(s, w) && id in s.rows && Due(s.rows[id], now)
    ensures var s' := Apply(s, cfg, Claim(w, [id], now));
            && id in s'.rows && s'.rows[id] == ClaimRow(s.rows[id], now)
            && s'.workers == s.workers[w := Worker([Item(id, s.rows[id].attempts + 1)], Pending)]
            && s'.delivered == s.delivered
  {
    assert id in SetOf([id]);
    assert Claimed(s.rows, [id]) == [Item(id, s.rows[id].attempts + 1)];
  }

  lemma BothProceed(s: State, cfg: Settings, id: Id, n: nat, error: string)
    requires id in s.rows
    requires s.workers == map[1 := Worker([Item(id, n + 1)], Pending), 2 := Worker([Item(id, n + 2)], Pending)]
    ensures var s' := Apply(Apply(s, cfg, Dispatch(2)), cfg, DispatchThrows(1, error));
            && s'.rows == s.rows && id in s'.delivered
            && s'.workers == map[1 := Worker([Item(id, n + 1)], Failing(error)), 2 := Worker([Item(id, n + 2)], Delivered)]
  {
    var s1 := Apply(s, cfg, Dispatch(2));
    assert s1.workers == map[1 := Worker([Item(id, n + 1)], Pending), 2 := Worker([Item(id, n + 2)], Delivered)];
  }

  lemma FiveSteps(s: State, cfg: Settings, a: Step, b: Step, c: Step, d: Step, e: Step)
    ensures Exec(s, cfg, [a, b] + [c, d] + [e])
            == Apply(Apply(Apply(Apply(Apply(s, cfg, a), cfg, b), cfg, c), cfg, d), cfg, e)
  {
    ExecConcat(s, cfg, [a, b] + [c, d], [e]);
    ExecConcat(s, cfg, [a, b], [c, d]);
    TwoSteps(s, cfg, a, b);
    TwoSteps(Exec(s, cfg, [a, b]), cfg, c, d);
    ExecLast(Exec(s, cfg, [a, b] + [c, d]), cfg, e);
  }

  lemma TwoSteps(s: State, cfg: Settings, a: Step, b: Step)
    ensures Exec(s, cfg, [a, b]) == Apply(Apply(s, cfg, a), cfg, b)
  {
    assert [a, b] == [a] + [b];
    ExecConcat(s, cfg, [a], [b]);
    ExecLast(s, cfg, a);
    ExecLast(Apply(s, cfg, a), cfg, b);
  }

  /**
   * So the late write can requeue a row that another worker has just delivered, and from the
   * eighth claim on give it up; the other worker's own record then finds nothing to record.
   */
  lemma LateFailureUndoesDelivery(cfg: Settings, o: AppendOptions, n: nat, error: string, at: int)
    ensures exists steps :: var s := Exec(INIT, cfg, steps);
              && 0 in s.delivered && 0 in s.rows && (forall w :: !Busy(s, w))
              && s.rows[0].status == if n + 1 >= MAX_ATTEMPTS then Failed else Queued
  {
    var before, now := OrphansAreNeverGivenUp(cfg, o, n);
    var claims := SecondClaim(Exec(INIT, cfg, before), cfg, 0, n, now, error);
    ExecConcat(INIT, cfg, before, claims);
    var s := Exec(INIT, cfg, before + claims);
    var writes := [WriteFailed(1, at), WriteSuccess(2, at)];
    TwoSteps(s, cfg, writes[0], writes[1]);
    LateWrites(s, cfg, 0, n, error, at);
    ExecConcat(INIT, cfg, before + claims, writes);
    assert 0 in Exec(INIT, cfg, before + claims + writes).delivered;
  }

  lemma LateWrites(s: State, cfg: Settings, id: Id, n: nat, error: string, at: int)
    requires id in s.rows && s.rows[id].status == Dispatching && id in s.delivered
    requires s.workers == map[1 := Worker([Item(id, n + 1)], Failing(error)), 2 := Worker([Item(id, n + 2)], Delivered)]
    ensures var s' := Apply(Apply(s, cfg, WriteFailed(1, at)), cfg, WriteSuccess(2, at));
            && id in s'.delivered && id in s'.rows && (forall w :: !Busy(s', w))
            && s'.rows[id].status == if n + 1 >= MAX_ATTEMPTS then Failed else Queued
  {
    assert [Item(id, n + 1)][1..] == [] && [Item(id, n + 2)][1..] == [];
    var s1 := Apply(s, cfg, WriteFailed(1, at));
    assert s1.workers == map[1 := Worker([], Pending), 2 := Worker([Item(id, n + 2)], Delivered)];
    var s2 := Apply(s1, cfg, WriteSuccess(2, at));
    assert s2.workers == map[1 := Worker([], Pending), 2 := Worker([], Pending)];
  }
}
