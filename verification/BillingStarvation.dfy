/**
 * Which paid orders no recovery sweep can ever grant, and when they stop the sweep for others
 * (backend/src/modules/billing/billing-settlement.service.ts:219-372; the currency check at
 * backend/src/modules/marketing/wallet/growth-wallet.service.ts:323-337).
 */
module BillingStarvation {
  import opened Billing
  import opened BillingRuns
  import opened BillingSettlement
  import opened BillingRecovery

  // ------------------------------------------------- orders that never succeed

  /** Past the point where only the stamp, or only the write, is left. */
  predicate PastLookup(h: Handler, id: OrderId) { h.id == id && (h.Stamping? || h.Committing?) }

  /**
   * Paid, and it cannot be granted: without a package or an amount, or in another currency than
   * its workspace's wallet; not on the books, and nobody is past the check that refuses it.
   */
  ghost predicate Stuck(s: State, id: OrderId) {
    && id in s.orders && s.orders[id].status == SUCCEEDED && Recoverable(s.orders[id]) && s.orders[id].grantedAt.None?
    && Hopeless(s, s.orders[id]) && !HasRef(s.growth, id)
    && forall p | p in s.handlers :: !PastLookup(s.handlers[p], id)
  }

  lemma HopelessStays(s: State, step: Step, id: OrderId)
    requires Inv(s) && id in s.orders && Hopeless(s, s.orders[id])
    ensures id in Apply(s, step).orders && Hopeless(Apply(s, step), Apply(s, step).orders[id])
  {
    StepKeepsOrders(s, step);
    CurrenciesStay(s, step);
    assert DutyOf(Apply(s, step).orders[id]) == DutyOf(s.orders[id]);
  }

  lemma OnlyCommittersPay(s: State, step: Step, id: OrderId)
    requires HasRef(Apply(s, step).growth, id) && !HasRef(s.growth, id)
    ensures step.Commit? && step.pid in s.handlers && PastLookup(s.handlers[step.pid], id)
  {
    WhoWrites(s, step);
    if step.Commit? {
      CommitWrites(s, step);
    } else {
      LedgersStay(s, step);
    }
  }

  /** A handler of a stuck order is refused before it gets past the lookup. */
  lemma StuckIsRefused(s: State, step: Step, p: Pid, id: OrderId)
    requires Inv(s) && Stuck(s, id) && p in Apply(s, step).handlers
    ensures !PastLookup(Apply(s, step).handlers[p], id)
  {
    if p in s.handlers { assert HandlerOk(s, s.handlers[p]) && !PastLookup(s.handlers[p], id); }
    if p in s.handlers && Apply(s, step).handlers[p] == s.handlers[p] {
    } else if step.Commit? {
      CommitterMoves(s, step, p);
    } else if step.Probe? || step.Precheck? || step.Lookup? {
      CheckRefuses(s, step, p, id);
    } else if step.Upsert? || step.CreateBoost? {
      WriterIsForOthers(s, step, p, id);
    }
  }

  lemma CheckRefuses(s: State, step: Step, p: Pid, id: OrderId)
    requires Stuck(s, id) && (step.Probe? || step.Precheck? || step.Lookup?) && p in Apply(s, step).handlers
    requires p in s.handlers ==> HandlerOk(s, s.handlers[p])
    ensures !PastLookup(Apply(s, step).handlers[p], id)
  {
    if p in s.handlers { assert !PastLookup(s.handlers[p], id); }
  }

  lemma WriterIsForOthers(s: State, step: Step, p: Pid, id: OrderId)
    requires Stuck(s, id) && (step.Upsert? || step.CreateBoost?) && p in Apply(s, step).handlers
    ensures !PastLookup(Apply(s, step).handlers[p], id)
  {
    if p in s.handlers { assert !PastLookup(s.handlers[p], id); }
  }

  lemma StuckStays(s: State, step: Step, id: OrderId)
    requires Inv(s) && Stuck(s, id)
    ensures Stuck(Apply(s, step), id)
  {
    var s' := Apply(s, step);
    StepKeepsOrders(s, step);
    HopelessStays(s, step, id);
    if s'.orders[id].grantedAt.Some? { OnlyStampersStamp(s, step, id); }
    if HasRef(s'.growth, id) { OnlyCommittersPay(s, step, id); }
    forall p | p in s'.handlers ensures !PastLookup(s'.handlers[p], id) {
      StuckIsRefused(s, step, p, id);
    }
    assert DutyOf(s'.orders[id]) == DutyOf(s.orders[id]) && !Open(s.orders[id]);
  }

  /** Whatever any handlers do: a stuck order stays paid and unstamped. */
  lemma {:induction false} StuckForGood(s: State, steps: seq<Step>, id: OrderId)
    requires Inv(s) && Stuck(s, id)
    ensures Inv(Exec(s, steps)) && Stuck(Exec(s, steps), id)
    decreases |steps|
  {
    if steps != [] {
      StepKeepsInv(s, steps[0]);
      StuckStays(s, steps[0], id);
      StuckForGood(Apply(s, steps[0]), steps[1..], id);
    }
  }

  // ------------------------------------------------------ all others can succeed

  ghost predicate CanBeStamped(s: State, id: OrderId) {
    exists more :: var later := Exec(s, more); id in later.orders && later.orders[id].grantedAt.Some?
  }

  lemma OneStepEarlier(s: State, step: Step, id: OrderId)
    requires CanBeStamped(Apply(s, step), id)
    ensures CanBeStamped(s, id)
  {
    var more :| id in Exec(Apply(s, step), more).orders && Exec(Apply(s, step), more).orders[id].grantedAt.Some?;
    ExecFirst(s, step, more);
    assert id in Exec(s, [step] + more).orders;
  }

  lemma StamperStamps(s: State, p: Pid, id: OrderId)
    requires p in s.handlers && s.handlers[p] == Stamping(id) && id in s.orders
    ensures CanBeStamped(s, id)
  {
    var s' := Apply(s, Stamp(p, 0));
    assert Exec(s', []) == s' && id in s'.orders && s'.orders[id].grantedAt.Some?;
    OneStepEarlier(s, Stamp(p, 0), id);
  }

  /** A growth commit ends at the stamp, whether it writes or meets the row. */
  lemma CommitterStamps(s: State, p: Pid, id: OrderId)
    requires p in s.handlers && s.handlers[p].Committing? && s.handlers[p].id == id && id in s.orders
    requires DutyOf(s.orders[id]).CreditGrowth?
             || (DutyOf(s.orders[id]).CreditAi? && s.handlers[p].found == HasRow(s.ai, s.orders[id].workspaceId))
    ensures CanBeStamped(s, id)
  {
    Committed(s, p, id, s.handlers[p].found, false);
    StamperStamps(Apply(s, Commit(p, false)), p, id);
    OneStepEarlier(s, Commit(p, false), id);
  }

  lemma PosterStamps(s: State, p: Pid, id: OrderId)
    requires p in s.handlers && s.handlers[p] == Posting(id) && id in s.orders
    requires DutyOf(s.orders[id]).CreditGrowth? || DutyOf(s.orders[id]).CreditAi?
    requires !Refused(s, s.orders[id])
    ensures CanBeStamped(s, id)
  {
    var o := s.orders[id];
    assert Apply(s, Lookup(p)) == To(s, p, Committing(id, HasRow(WalletFor(s, o), o.workspaceId)));
    CommitterStamps(Apply(s, Lookup(p)), p, id);
    OneStepEarlier(s, Lookup(p), id);
  }

  lemma GranterPays(s: State, p: Pid, id: OrderId)
    requires p in s.handlers && s.handlers[p] == Granting(id) && id in s.orders && IsCredit(s.orders[id])
    requires !Hopeless(s, s.orders[id]) && !HasRef(WalletFor(s, s.orders[id]), id)
    ensures CanBeStamped(s, id)
  {
    assert Apply(s, Precheck(p)) == To(s, p, Posting(id));
    PosterStamps(Apply(s, Precheck(p)), p, id);
    OneStepEarlier(s, Precheck(p), id);
  }

  lemma GranterActivates(s: State, p: Pid, id: OrderId)
    requires p in s.handlers && s.handlers[p] == Granting(id) && id in s.orders
    requires DutyOf(s.orders[id]).Activate? && s.orders[id].packageId.Some?
    ensures CanBeStamped(s, id)
  {
    var s' := Apply(s, Upsert(p, 0, 0, false));
    assert s'.handlers[p] == Stamping(id) && s'.orders == s.orders;
    StamperStamps(s', p, id);
    OneStepEarlier(s, Upsert(p, 0, 0, false), id);
  }

  /** A sweep that takes the order up and is not disturbed stamps it. */
  lemma SweepStamps(s: State, id: OrderId)
    requires Inv(s) && id in s.orders && s.orders[id].status == SUCCEEDED && Recoverable(s.orders[id])
    requires !Hopeless(s, s.orders[id]) || HasRef(s.growth, id)
    ensures CanBeStamped(s, id)
  {
    var p := AnIdle(s.handlers.Keys);
    SweptProbe(s, p, id, 0);
    var picked := Apply(s, Pick(p, id));
    ProbedStamps(s, Apply(picked, Probe(p, 0)), p, id);
    OneStepEarlier(picked, Probe(p, 0), id);
    OneStepEarlier(s, Pick(p, id), id);
  }

  lemma ProbedStamps(s: State, probed: State, p: Pid, id: OrderId)
    requires Inv(s) && id in s.orders && Recoverable(s.orders[id])
    requires probed == To(s, p, if LooksGranted(s, s.orders[id], id, 0) then Stamping(id) else Granting(id))
    requires !Hopeless(s, s.orders[id]) || HasRef(s.growth, id)
    ensures CanBeStamped(probed, id)
  {
    if LooksGranted(s, s.orders[id], id, 0) {
      StamperStamps(probed, p, id);
    } else if IsCredit(s.orders[id]) {
      GranterPays(probed, p, id);
    } else {
      if HasRef(s.growth, id) { PaidRefsAreTopUps(s, id); }
      GranterActivates(probed, p, id);
    }
  }

  lemma PaidRefsAreTopUps(s: State, id: OrderId)
    requires Inv(s) && id in s.orders && HasRef(s.growth, id)
    ensures DutyOf(s.orders[id]).CreditGrowth?
  {
    var i :| 0 <= i < |s.growth.ledger| && s.growth.ledger[i].ref == id;
  }

  /**
   * Exactly which paid orders are never stamped as granted, in no continuation of any reachable
   * state, whatever the handlers do: the stuck ones.
   */
  lemma NeverStampedIff(steps: seq<Step>, id: OrderId)
    requires var s := Exec(INIT, steps);
             id in s.orders && s.orders[id].status == SUCCEEDED && Recoverable(s.orders[id]) && s.orders[id].grantedAt.None?
    ensures !CanBeStamped(Exec(INIT, steps), id) <==> Stuck(Exec(INIT, steps), id)
  {
    var s := Exec(INIT, steps);
    Reachable(steps);
    if Stuck(s, id) {
      forall more ensures var later := Exec(s, more); !(id in later.orders && later.orders[id].grantedAt.Some?) {
        StuckForGood(s, more, id);
      }
    } else {
      UnstuckStamps(s, id);
    }
  }

  lemma UnstuckStamps(s: State, id: OrderId)
    requires Inv(s) && !Stuck(s, id)
    requires id in s.orders && s.orders[id].status == SUCCEEDED && Recoverable(s.orders[id]) && s.orders[id].grantedAt.None?
    ensures CanBeStamped(s, id)
  {
    if !Hopeless(s, s.orders[id]) || HasRef(s.growth, id) {
      SweepStamps(s, id);
    } else {
      var p :| p in s.handlers && PastLookup(s.handlers[p], id);
      assert HandlerOk(s, s.handlers[p]);
      if s.handlers[p].Stamping? { StamperStamps(s, p, id); } else { CommitterStamps(s, p, id); }
    }
  }

  // ---------------------------------------------------- windows they fill

  /** A stuck order does not look granted. */
  lemma StuckLooksUngranted(s: State, id: OrderId, now: int)
    requires Stuck(s, id)
    ensures !LooksGranted(s, s.orders[id], id, now)
  {
  }

  /**
   * When every order of a window is stuck, an uninterrupted pass, whatever strikes it, grants and
   * stamps nothing and leaves all tables as they are.
   */
  lemma {:induction false} StuckWindowStarves(s: State, w: seq<OrderId>, faults: map<OrderId, Fault>, now: int,
                                              end: OrderId -> int)
    requires Inv(s) && 0 !in s.handlers && forall id | id in w :: Stuck(s, id)
    ensures SweepAll(s, w, faults, now, end) == s && Regranted(s, w, faults, now, end) == []
    decreases |w|
  {
    if w != [] {
      var id := w[0];
      StuckLooksUngranted(s, id, now);
      SweepOneIs(s, id, FaultOf(faults, id), now, end(id));
      StuckComesToNothing(s, id, FaultOf(faults, id), now, end(id));
      SweepAllStep(s, w, faults, now, end);
      assert forall other | other in w[1..] :: other in w;
      StuckWindowStarves(s, w[1..], faults, now, end);
    }
  }

  lemma StuckComesToNothing(s: State, id: OrderId, f: Fault, now: int, end: int)
    requires Stuck(s, id)
    ensures Worked(s, id, f, now, end) == s && !Succeeds(s, id, f)
  {
  }

  lemma FullOfOldest(orders: Orders, pass: Pass, limit: nat, oldest: set<OrderId>, w: seq<OrderId>, id: OrderId)
    requires oldest <= Waiting(orders, pass) && |oldest| == limit && IsWindow(orders, pass, limit, w) && id in oldest
    requires forall a, b | a in oldest && b in Waiting(orders, pass) && b !in oldest :: !NoLater(orders[b], orders[a])
    ensures id in w
  {
    if id !in w {
      Distinct(w);
      forall i | 0 <= i < |w| ensures w[i] in oldest - {id} {
        assert NoLater(orders[w[i]], orders[id]);
      }
      CardLess(Elements(w), oldest - {id});
      assert false;
    }
  }

  /** And it is then the only window: older doomed orders fill it, so no other order is ever tried. */
  lemma OldestFillTheWindow(orders: Orders, pass: Pass, limit: nat, oldest: set<OrderId>, w: seq<OrderId>)
    requires oldest <= Waiting(orders, pass) && |oldest| == limit && IsWindow(orders, pass, limit, w)
    requires forall a, b | a in oldest && b in Waiting(orders, pass) && b !in oldest :: !NoLater(orders[b], orders[a])
    ensures Elements(w) == oldest
  {
    forall id | id in oldest ensures id in Elements(w) {
      FullOfOldest(orders, pass, limit, oldest, w, id);
    }
    Distinct(w);
    assert Elements(w) == oldest + (Elements(w) - oldest);
  }

  /** Settled strictly before `id`. */
  predicate Older(orders: Orders, a: OrderId, id: OrderId)
    requires a in orders && id in orders
  {
    !NoLater(orders[id], orders[a])
  }

  /** With `limit` waiting orders older than `id`, no window of the table holds `id`. */
  lemma CrowdedOut(orders: Orders, pass: Pass, limit: nat, older: set<OrderId>, w: seq<OrderId>, id: OrderId)
    requires older <= Waiting(orders, pass) && |older| >= limit && id in orders && IsWindow(orders, pass, limit, w)
    requires forall a | a in older :: Older(orders, a, id)
    ensures id !in w
  {
    if id in w { OlderComeFirst(orders, pass, limit, older, w, id); }
  }

  lemma OlderComeFirst(orders: Orders, pass: Pass, limit: nat, older: set<OrderId>, w: seq<OrderId>, id: OrderId)
    requires older <= Waiting(orders, pass) && id in orders && IsWindow(orders, pass, limit, w) && id in w
    requires forall a | a in older :: Older(orders, a, id)
    ensures |w| > |older|
  {
    var i :| 0 <= i < |w| && w[i] == id;
    forall a | a in older ensures a in w && a != id {
      OlderIsIn(orders, pass, limit, w, i, a);
    }
    Distinct(w);
    CardLess(older + {id}, Elements(w));
    assert |older + {id}| == |older| + 1;
  }

  lemma OlderIsIn(orders: Orders, pass: Pass, limit: nat, w: seq<OrderId>, i: nat, a: OrderId)
    requires IsWindow(orders, pass, limit, w) && i < |w| && a in Waiting(orders, pass) && Older(orders, a, w[i])
    ensures a in w
  {
  }

  // ----------------------------------------------------------- for good

  /** Each round works on a window of the tables it finds; its turns may hold any steps, and may end early. */
  ghost predicate Windowed(s: State, rounds: seq<Round>, pass: Pass, limit: nat)
    decreases |rounds|
  {
    rounds == [] || (IsWindow(s.orders, pass, limit, rounds[0].w) && Windowed(AfterRound(s, rounds[0]), rounds[1..], pass, limit))
  }

  predicate InAWindow(rounds: seq<Round>, id: OrderId) { exists k :: 0 <= k < |rounds| && id in rounds[k].w }

  predicate NoPicks(steps: seq<Step>, id: OrderId) { forall i | 0 <= i < |steps| :: !Picks(steps[i], id) }

  /** Nobody takes the order up but the sweep out of its windows. */
  predicate Unattended(r: Round, id: OrderId) {
    NoPicks(r.between, id) && forall k | 0 <= k < |r.turns| :: NoPicks(r.turns[k].lead, id) && NoPicks(r.turns[k].work, id)
  }

  /** Paid, unstamped, and in nobody's hands. */
  ghost predicate Idle(s: State, id: OrderId) {
    id in s.orders && s.orders[id].status == SUCCEEDED && s.orders[id].grantedAt.None? && NobodyHolds(s, id)
  }

  lemma IdleStep(s: State, step: Step, id: OrderId)
    requires Idle(s, id) && !Picks(step, id)
    ensures Idle(Apply(s, step), id)
  {
    StepKeepsOrders(s, step);
    HoldersBegin(s, step, id);
    if Apply(s, step).orders[id].grantedAt.Some? { OnlyStampersStamp(s, step, id); }
  }

  lemma {:induction false} IdleRun(s: State, steps: seq<Step>, id: OrderId)
    requires Idle(s, id) && NoPicks(steps, id)
    ensures Idle(Exec(s, steps), id)
    decreases |steps|
  {
    if steps != [] {
      assert !Picks(steps[0], id);
      IdleStep(s, steps[0], id);
      IdleRun(Apply(s, steps[0]), steps[1..], id);
    }
  }

  lemma {:induction false} IdleTurns(s: State, w: seq<OrderId>, turns: seq<Turn>, id: OrderId)
    requires Idle(s, id) && id !in w && forall k | 0 <= k < |turns| :: NoPicks(turns[k].lead, id) && NoPicks(turns[k].work, id)
    ensures Idle(AfterTurns(s, w, turns), id)
    decreases |turns|
  {
    if turns != [] && w != [] {
      var t := turns[0];
      IdleRun(s, t.lead, id);
      IdleStep(Exec(s, t.lead), Pick(0, w[0]), id);
      IdleRun(Picked(s, w[0], t), t.work, id);
      IdleTurns(AfterTurn(s, w[0], t), w[1..], turns[1..], id);
    }
  }

  lemma IdleRound(s: State, r: Round, id: OrderId)
    requires Idle(s, id) && Unattended(r, id) && id !in r.w
    ensures Idle(AfterRound(s, r), id)
  {
    IdleTurns(s, r.w, r.turns, id);
    IdleRun(AfterTurns(s, r.w, r.turns), r.between, id);
  }

  lemma {:induction false} StuckTurns(s: State, w: seq<OrderId>, turns: seq<Turn>, id: OrderId)
    requires Inv(s) && Stuck(s, id)
    ensures Inv(AfterTurns(s, w, turns)) && Stuck(AfterTurns(s, w, turns), id)
    decreases |turns|
  {
    if turns != [] && w != [] {
      var t := turns[0];
      StuckForGood(s, t.lead, id);
      StepKeepsInv(Exec(s, t.lead), Pick(0, w[0]));
      StuckStays(Exec(s, t.lead), Pick(0, w[0]), id);
      StuckForGood(Picked(s, w[0], t), t.work, id);
      StuckTurns(AfterTurn(s, w[0], t), w[1..], turns[1..], id);
    }
  }

  lemma StuckRound(s: State, r: Round, id: OrderId)
    requires Inv(s) && Stuck(s, id)
    ensures Inv(AfterRound(s, r)) && Stuck(AfterRound(s, r), id)
  {
    StuckTurns(s, r.w, r.turns, id);
    StuckForGood(AfterTurns(s, r.w, r.turns), r.between, id);
  }

  lemma {:induction false} TurnsKeep(s: State, w: seq<OrderId>, turns: seq<Turn>)
    ensures OrdersKept(s.orders, AfterTurns(s, w, turns).orders)
    decreases |turns|
  {
    if turns != [] && w != [] {
      TurnKeeps(s, w[0], turns[0]);
      TurnsKeep(AfterTurn(s, w[0], turns[0]), w[1..], turns[1..]);
      KeptOn(s.orders, AfterTurn(s, w[0], turns[0]).orders, AfterTurns(s, w, turns).orders);
    }
  }

  lemma RoundKeeps(s: State, r: Round)
    ensures OrdersKept(s.orders, AfterRound(s, r).orders)
  {
    TurnsKeep(s, r.w, r.turns);
    RunKeeps(AfterTurns(s, r.w, r.turns), r.between);
    KeptOn(s.orders, AfterTurns(s, r.w, r.turns).orders, AfterRound(s, r).orders);
  }

  /** A turn with a stuck order always breaks off, so `failing` has to hold it. */
  lemma StuckAreFailing(s: State, id: OrderId, t: Turn, failing: set<OrderId>, from: int)
    requires Inv(s) && 0 !in s.handlers && Stuck(s, id) && TurnOk(s, id, t, failing, from)
    ensures id in failing
  {
    StuckTurns(s, [id], [t], id);
    assert AfterTurns(s, [id], [t]) == AfterTurn(s, id, t);
    if id !in failing { TurnStamps(s, id, t, failing, from); }
  }

  /** `limit` stuck orders of the pass, all settled before `id`. */
  ghost predicate Blocked(s: State, pass: Pass, limit: nat, stuck: set<OrderId>, id: OrderId) {
    && id in s.orders && s.orders[id].status == SUCCEEDED && |stuck| >= limit
    && forall a | a in stuck :: Stuck(s, a) && InPass(s.orders[a], pass) && Older(s.orders, a, id)
  }

  lemma StaysBlocked(s: State, r: Round, pass: Pass, limit: nat, stuck: set<OrderId>, id: OrderId)
    requires Inv(s) && Blocked(s, pass, limit, stuck, id)
    ensures Blocked(AfterRound(s, r), pass, limit, stuck, id)
  {
    var s' := AfterRound(s, r);
    RoundKeeps(s, r);
    assert !Open(s.orders[id]);
    forall a | a in stuck ensures Stuck(s', a) && InPass(s'.orders[a], pass) && Older(s'.orders, a, id) {
      StuckRound(s, r, a);
      assert !Open(s.orders[a]);
    }
  }

  lemma RoundKeepsInv(s: State, r: Round)
    requires Inv(s)
    ensures Inv(AfterRound(s, r))
  {
    TurnsKeepInv(s, r.w, r.turns);
    RunKeepsInv(AfterTurns(s, r.w, r.turns), r.between);
  }

  lemma {:induction false} TurnsKeepInv(s: State, w: seq<OrderId>, turns: seq<Turn>)
    requires Inv(s)
    ensures Inv(AfterTurns(s, w, turns))
    decreases |turns|
  {
    if turns != [] && w != [] {
      RunKeepsInv(s, turns[0].lead);
      StepKeepsInv(Exec(s, turns[0].lead), Pick(0, w[0]));
      RunKeepsInv(Picked(s, w[0], turns[0]), turns[0].work);
      TurnsKeepInv(AfterTurn(s, w[0], turns[0]), w[1..], turns[1..]);
    }
  }

  /**
   * For good: behind `limit` stuck orders an order is in no window again, whatever happens
   * inside the passes and between them; and if nobody else takes it up, it stays unstamped.
   */
  lemma {:induction false} StarvedForGood(s: State, rounds: seq<Round>, pass: Pass, limit: nat, stuck: set<OrderId>, id: OrderId)
    requires Inv(s) && Blocked(s, pass, limit, stuck, id) && Windowed(s, rounds, pass, limit)
    ensures !InAWindow(rounds, id)
    ensures Idle(s, id) && (forall k | 0 <= k < |rounds| :: Unattended(rounds[k], id)) ==> Idle(AfterRounds(s, rounds), id)
    decreases |rounds|
  {
    if rounds != [] {
      CrowdedOut(s.orders, pass, limit, stuck, rounds[0].w, id);
      RoundKeepsInv(s, rounds[0]);
      StaysBlocked(s, rounds[0], pass, limit, stuck, id);
      StarvedForGood(AfterRound(s, rounds[0]), rounds[1..], pass, limit, stuck, id);
      if Idle(s, id) && forall k | 0 <= k < |rounds| :: Unattended(rounds[k], id) {
        IdleRound(s, rounds[0], id);
        assert forall k | 0 <= k < |rounds[1..]| :: Unattended(rounds[1..][k], id);
      }
    }
  }

  // ------------------------------------------------- order by order, exactly

  /** No other waiting order was settled in the very same instant. */
  predicate NoTies(orders: Orders, pass: Pass, id: OrderId)
    requires id in orders
  {
    forall a | a in Waiting(orders, pass) && a != id :: !NoLater(orders[a], orders[id]) || !NoLater(orders[id], orders[a])
  }

  /** These are unstamped all along, since they are in the end. */
  ghost predicate NeverStamped(s: State, rounds: seq<Round>, older: set<OrderId>) {
    forall a | a in older :: a in AfterRounds(s, rounds).orders && AfterRounds(s, rounds).orders[a].grantedAt.None?
  }

  lemma {:induction false} RoundsKeepOrders(s: State, rounds: seq<Round>)
    ensures OrdersKept(s.orders, AfterRounds(s, rounds).orders)
    decreases |rounds|
  {
    if rounds != [] {
      RoundKeeps(s, rounds[0]);
      RoundsKeepOrders(AfterRound(s, rounds[0]), rounds[1..]);
      KeptOn(s.orders, AfterRound(s, rounds[0]).orders, AfterRounds(s, rounds).orders);
    }
  }

  lemma {:induction false} OlderKeepItOut(s: State, rounds: seq<Round>, pass: Pass, limit: nat, older: set<OrderId>, id: OrderId)
    requires Windowed(s, rounds, pass, limit) && Idle(s, id) && forall k | 0 <= k < |rounds| :: Unattended(rounds[k], id)
    requires older <= Waiting(s.orders, pass) && |older| >= limit && NeverStamped(s, rounds, older)
    requires forall a | a in older :: Older(s.orders, a, id)
    ensures Idle(AfterRounds(s, rounds), id)
    decreases |rounds|
  {
    if rounds != [] {
      var s' := AfterRound(s, rounds[0]);
      CrowdedOut(s.orders, pass, limit, older, rounds[0].w, id);
      IdleRound(s, rounds[0], id);
      RoundKeeps(s, rounds[0]);
      RoundsKeepOrders(s', rounds[1..]);
      forall a | a in older ensures a in Waiting(s'.orders, pass) && Older(s'.orders, a, id) {
        assert !Open(s.orders[a]) && !Open(s.orders[id]);
      }
      assert forall k | 0 <= k < |rounds[1..]| :: Unattended(rounds[1..][k], id);
      OlderKeepItOut(s', rounds[1..], pass, limit, older, id);
    }
  }

  lemma {:induction false} OkIsWindowed(s: State, rounds: seq<Round>, pass: Pass, limit: nat, failing: set<OrderId>, from: int)
    requires RoundsOk(s, rounds, pass, limit, failing, from)
    ensures Windowed(s, rounds, pass, limit)
    decreases |rounds|
  {
    if rounds != [] { OkIsWindowed(AfterRound(s, rounds[0]), rounds[1..], pass, limit, failing, from); }
  }

  /**
   * Order by order, for passes that run to their ends with any other steps inside and between
   * them: once they are enough in number, `id` is stamped if and only if fewer than `limit` of
   * the orders that wait and sort no later are ones that fail and keep failing.
   */
  lemma StampedIff(s: State, rounds: seq<Round>, pass: Pass, limit: nat, failing: set<OrderId>, from: int, id: OrderId)
    requires RoundsOk(s, rounds, pass, limit, failing, from) && SettledBy(s.orders, pass, from)
    requires id in Waiting(s.orders, pass) && id !in failing && NoTies(s.orders, pass, id)
    requires NobodyHolds(s, id) && forall k | 0 <= k < |rounds| :: Unattended(rounds[k], id)
    requires NeverStamped(s, rounds, Ahead(s.orders, pass, id) * failing)
    requires Enough(|rounds|, Max(1, limit - |Ahead(s.orders, pass, id) * failing|), |Ahead(s.orders, pass, id) - failing|)
    ensures var later := AfterRounds(s, rounds);
            id in later.orders && (later.orders[id].grantedAt.Some? <==> |Ahead(s.orders, pass, id) * failing| < limit)
  {
    var older := Ahead(s.orders, pass, id) * failing;
    if |older| < limit {
      SweepsCatchUp(s, rounds, pass, limit, failing, from, id);
    } else {
      OkIsWindowed(s, rounds, pass, limit, failing, from);
      OlderKeepItOut(s, rounds, pass, limit, older, id);
    }
  }

  // -------------------------------------------------- such a state is reached

  function TopUp(ws: WorkspaceId, currency: string): Order {
    Order(ws, WALLET_TOPUP, None, None, 1, 5_000, currency, None, PENDING, None, None)
  }

  function Paid(o: Order, at: int): Order { o.(status := SUCCEEDED, succeededAt := Some(at)) }

  /**
   * One order in lira and `n` in dollars, placed while the workspace has no wallet and its default
   * currency changes; orders are held to the wallet's currency only once there is a wallet
   * (backend/src/modules/billing/billing.service.ts:363-384).
   */
  ghost predicate Placed(s: State, n: nat) {
    && s == INIT.(orders := s.orders) && (forall i: nat :: i in s.orders <==> i <= n)
    && s.orders[0] == TopUp("w", "TRY") && forall i: nat | 1 <= i <= n :: s.orders[i] == TopUp("w", "USD")
  }

  lemma {:induction false} PlaceAll(n: nat) returns (steps: seq<Step>)
    ensures Placed(Exec(INIT, steps), n)
  {
    if n == 0 {
      steps := [Place(0, TopUp("w", "TRY"))];
      ExecOne(INIT, steps[0]);
    } else {
      var before := PlaceAll(n - 1);
      var last := Place(n, TopUp("w", "USD"));
      ExecLast(INIT, before, last);
      steps := before + [last];
    }
  }

  /**
   * The order in lira was credited first, so the wallet is in lira; the first `k` orders in
   * dollars have been paid since and were refused.
   */
  ghost predicate Refusals(s: State, n: nat, k: nat) {
    && s.handlers == map[] && k <= n && (forall i: nat :: i in s.orders <==> i <= n)
    && (forall i: nat | 1 <= i <= n :: s.orders[i] == if i <= k then Paid(TopUp("w", "USD"), i) else TopUp("w", "USD"))
    && s.growth == Post(NOTHING, Entry("w", 5_000, 0), "TRY")
  }

  /** Settled and checked: about to be paid out or refused. */
  lemma DueNow(s: State, id: OrderId, at: int)
    requires s.handlers == map[] && id in s.orders && Open(s.orders[id]) && s.orders[id].grantedAt.None?
    requires DutyOf(s.orders[id]).CreditGrowth? && s.orders[id].amount > 0 && !HasRef(s.growth, id)
    ensures Exec(s, [Settle(0, id), Flip(0, at)] + [Precheck(0)])
            == s.(orders := s.orders[id := Paid(s.orders[id], at)], handlers := map[0 := Posting(id)])
  {
    FlipsIn(s, 0, id, at);
    ExecTwo(s, Settle(0, id), Flip(0, at));
    ExecLast(s, [Settle(0, id), Flip(0, at)], Precheck(0));
  }

  lemma FirstIsCredited(s: State, n: nat) returns (steps: seq<Step>)
    requires Placed(s, n)
    ensures Refusals(Exec(s, steps), n, 0)
  {
    var due := [Settle(0, 0), Flip(0, 0)] + [Precheck(0)];
    DueNow(s, 0, 0);
    FirstPaysOut(Exec(s, due));
    ExecConcat(s, due, [Lookup(0), Commit(0, false)] + [Stamp(0, 0)]);
    steps := due + ([Lookup(0), Commit(0, false)] + [Stamp(0, 0)]);
  }

  lemma FirstPaysOut(s: State)
    requires s.handlers == map[0 := Posting(0)] && 0 in s.orders && s.orders[0] == Paid(TopUp("w", "TRY"), 0)
    requires s.growth == NOTHING
    ensures Exec(s, [Lookup(0), Commit(0, false)] + [Stamp(0, 0)])
            == s.(growth := Post(NOTHING, Entry("w", 5_000, 0), "TRY"), handlers := map[],
                  orders := s.orders[0 := s.orders[0].(grantedAt := Some(0))])
  {
    var looked := To(s, 0, Committing(0, false));
    assert Apply(s, Lookup(0)) == looked;
    Committed(looked, 0, 0, false, false);
    var paid := To(s.(growth := Post(NOTHING, Entry("w", 5_000, 0), "TRY")), 0, Stamping(0));
    assert Apply(looked, Commit(0, false)) == paid;
    ExecTwo(s, Lookup(0), Commit(0, false));
    ExecLast(s, [Lookup(0), Commit(0, false)], Stamp(0, 0));
    FirstIsStamped(paid);
  }

  lemma FirstIsStamped(s: State)
    requires s.handlers == map[0 := Stamping(0)] && 0 in s.orders
    ensures Apply(s, Stamp(0, 0)) == s.(handlers := map[], orders := s.orders[0 := s.orders[0].(grantedAt := Some(0))])
  {
    assert s.handlers - {0} == map[];
  }

  lemma OnlyFirstIsPaid(id: OrderId)
    requires id != 0
    ensures !HasRef(Post(NOTHING, Entry("w", 5_000, 0), "TRY"), id)
    ensures OtherCurrency(Post(NOTHING, Entry("w", 5_000, 0), "TRY"), "w", "USD")
    ensures !OtherCurrency(Post(NOTHING, Entry("w", 5_000, 0), "TRY"), "v", "TRY")
  {
  }

  lemma NextIsRefused(s: State, n: nat, k: nat) returns (steps: seq<Step>)
    requires Refusals(s, n, k) && k < n
    ensures Refusals(Exec(s, steps), n, k + 1)
  {
    var id := k + 1;
    OnlyFirstIsPaid(id);
    var due := [Settle(0, id), Flip(0, id)] + [Precheck(0)];
    DueNow(s, id, id);
    var s1 := Exec(s, due);
    assert Apply(s1, Lookup(0)) == Ends(s1, 0) && Ends(s1, 0).handlers == map[];
    ExecLast(s, due, Lookup(0));
    steps := due + [Lookup(0)];
  }

  lemma {:induction false} AllAreRefused(s: State, n: nat, k: nat) returns (steps: seq<Step>)
    requires Refusals(s, n, 0) && k <= n
    ensures Refusals(Exec(s, steps), n, k)
  {
    if k == 0 {
      steps := [];
    } else {
      var before := AllAreRefused(s, n, k - 1);
      var more := NextIsRefused(Exec(s, before), n, k - 1);
      ExecConcat(s, before, more);
      steps := before + more;
    }
  }

  /** A top-up of another workspace is paid last, and its handler dies before the credit. */
  lemma LastIsPaid(s: State, n: nat) returns (steps: seq<Step>)
    requires Refusals(s, n, n)
    ensures Exec(s, steps) == s.(orders := s.orders[n + 1 := Paid(TopUp("v", "TRY"), n + 1)])
  {
    var id := n + 1;
    var order := TopUp("v", "TRY");
    PaysIn(s, 0, id, order, id);
    var s3 := s.(orders := s.orders[id := Paid(order, id)], handlers := map[0 := Granting(id)]);
    ExecTwo(s, Place(id, order), Settle(0, id));
    ExecLast(s, [Place(id, order), Settle(0, id)], Flip(0, id));
    ExecLast(s, [Place(id, order), Settle(0, id)] + [Flip(0, id)], Throw(0));
    assert Ends(s3, 0).handlers == map[];
    steps := [Place(id, order), Settle(0, id)] + [Flip(0, id)] + [Throw(0)];
  }

  function UpTo(n: nat): set<OrderId> { if n == 0 then {} else UpTo(n - 1) + {n} }

  lemma {:induction false} UpToCounts(n: nat)
    ensures |UpTo(n)| == n && forall i: nat :: i in UpTo(n) <==> 1 <= i <= n
  {
    if n > 0 { UpToCounts(n - 1); }
  }

  /** In no continuation by windows of the sweep is the order ever taken up. */
  ghost predicate Starved(s: State, pass: Pass, limit: nat, id: OrderId) {
    forall rounds | Windowed(s, rounds, pass, limit) && (forall k | 0 <= k < |rounds| :: Unattended(rounds[k], id)) ::
      !InAWindow(rounds, id) && Idle(AfterRounds(s, rounds), id)
  }

  lemma LastIsBlocked(s: State, n: nat)
    requires Refusals(s, n, n)
    ensures var s' := s.(orders := s.orders[n + 1 := Paid(TopUp("v", "TRY"), n + 1)]);
            Blocked(s', TOPUPS, n, UpTo(n), n + 1) && Idle(s', n + 1) && !Stuck(s', n + 1)
  {
    UpToCounts(n);
    OnlyFirstIsPaid(n + 1);
    var s' := s.(orders := s.orders[n + 1 := Paid(TopUp("v", "TRY"), n + 1)]);
    forall i | i in UpTo(n) ensures Stuck(s', i) && InPass(s'.orders[i], TOPUPS) && Older(s'.orders, i, n + 1) {
      RefusedIsStuck(s, n, i);
    }
  }

  lemma RefusedIsStuck(s: State, n: nat, i: nat)
    requires Refusals(s, n, n) && 1 <= i <= n
    ensures var s' := s.(orders := s.orders[n + 1 := Paid(TopUp("v", "TRY"), n + 1)]);
            Stuck(s', i) && InPass(s'.orders[i], TOPUPS) && Older(s'.orders, i, n + 1)
  {
    OnlyFirstIsPaid(i);
  }

  lemma RefusalsAreReached(n: nat) returns (steps: seq<Step>)
    ensures Refusals(Exec(INIT, steps), n, n)
  {
    var placed := PlaceAll(n);
    var first := FirstIsCredited(Exec(INIT, placed), n);
    ExecConcat(INIT, placed, first);
    var refused := AllAreRefused(Exec(INIT, placed + first), n, n);
    ExecConcat(INIT, placed + first, refused);
    steps := placed + first + refused;
  }

  /**
   * And it happens, for every window size: two currencies among the top-ups placed before a
   * workspace had a wallet leave a paid top-up of another workspace that any sweep could grant
   * but none ever takes up.
   */
  lemma StarvationIsReached(limit: nat)
    ensures exists steps :: var s := Exec(INIT, steps);
              Idle(s, limit + 1) && CanBeStamped(s, limit + 1) && Starved(s, TOPUPS, limit, limit + 1)
  {
    var before := RefusalsAreReached(limit);
    var last := LastIsPaid(Exec(INIT, before), limit);
    ExecConcat(INIT, before, last);
    LastIsBlocked(Exec(INIT, before), limit);
    Reachable(before + last);
    BlockedIsStarved(Exec(INIT, before + last), TOPUPS, limit, UpTo(limit), limit + 1);
    UnstuckStamps(Exec(INIT, before + last), limit + 1);
  }

  lemma BlockedIsStarved(s: State, pass: Pass, limit: nat, stuck: set<OrderId>, id: OrderId)
    requires Inv(s) && Blocked(s, pass, limit, stuck, id) && Idle(s, id)
    ensures Starved(s, pass, limit, id)
  {
    forall rounds | Windowed(s, rounds, pass, limit) && (forall k | 0 <= k < |rounds| :: Unattended(rounds[k], id))
      ensures !InAWindow(rounds, id) && Idle(AfterRounds(s, rounds), id)
    {
      StarvedForGood(s, rounds, pass, limit, stuck, id);
    }
  }
}
