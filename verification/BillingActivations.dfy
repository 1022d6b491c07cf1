/**
 * When a paid subscription order is stamped as granted although nothing was activated for it
 * (backend/src/modules/billing/billing-settlement.service.ts:131-146, 244-294).
 */
module BillingActivations {
  import opened Billing
  import opened BillingRuns

  ghost predicate IsActivation(s: State, id: OrderId) { id in s.orders && DutyOf(s.orders[id]).Activate? }

  /** A sweep's probe that takes the open period of the workspace for this order's own. */
  ghost predicate FoundAt(s: State, step: Step, id: OrderId) {
    step.Probe? && step.pid in s.handlers && s.handlers[step.pid] == Probing(id)
    && id in s.orders && LooksGranted(s, s.orders[id], id, step.now)
  }

  ghost predicate FoundIn(s: State, steps: seq<Step>, id: OrderId) {
    exists i :: 0 <= i < |steps| && FoundAt(Exec(s, steps[..i]), steps[i], id)
  }

  /** Stamped, or about to be. */
  ghost predicate Settled(s: State, id: OrderId) {
    id in s.orders && (s.orders[id].grantedAt.Some? || exists p :: p in s.handlers && s.handlers[p] == Stamping(id))
  }

  /** A handler comes to the stamp of an activation by writing it or by such a probe. */
  lemma StampersActivate(s: State, step: Step, p: Pid, id: OrderId)
    requires IsActivation(s, id) && p in Apply(s, step).handlers && Apply(s, step).handlers[p] == Stamping(id)
    requires p !in s.handlers || s.handlers[p] != Stamping(id)
    requires p in s.handlers ==> HandlerOk(s, s.handlers[p])
    ensures id in Apply(s, step).activated || FoundAt(s, step, id)
  {
    if step.Commit? { CommitterMoves(s, step, p); }
  }

  lemma StepSettles(s: State, step: Step, id: OrderId)
    requires Inv(s) && IsActivation(Apply(s, step), id) && Settled(Apply(s, step), id)
    ensures (IsActivation(s, id) && Settled(s, id)) || id in Apply(s, step).activated || FoundAt(s, step, id)
  {
    var s' := Apply(s, step);
    if id !in s.orders {
      NewIsUnsettled(s, step, id);
    } else {
      StepKeeps(s, step);
      if p :| p in s'.handlers && s'.handlers[p] == Stamping(id) {
        if p in s.handlers { assert HandlerOk(s, s.handlers[p]); }
        if p !in s.handlers || s.handlers[p] != Stamping(id) { StampersActivate(s, step, p, id); }
      } else if s.orders[id].grantedAt.None? {
        OnlyStampersStamp(s, step, id);
      }
    }
  }

  lemma NewIsUnsettled(s: State, step: Step, id: OrderId)
    requires Inv(s) && id !in s.orders
    ensures !Settled(Apply(s, step), id)
  {
    var s' := Apply(s, step);
    StepKeepsInv(s, step);
    if id in s'.orders {
      NewOrdersAreUnstamped(s, step, id);
      if p :| p in s'.handlers && s'.handlers[p] == Stamping(id) {
        assert HandlerOk(s', s'.handlers[p]);
        NewOrdersAreOpen(s, step, id);
      }
    }
  }

  lemma NewOrdersAreOpen(s: State, step: Step, id: OrderId)
    requires id !in s.orders && id in Apply(s, step).orders
    ensures Open(Apply(s, step).orders[id])
  {
    WhoWrites(s, step);
  }

  lemma {:induction false} RunSettles(steps: seq<Step>, id: OrderId)
    requires var s := Exec(INIT, steps); IsActivation(s, id) && Settled(s, id)
    ensures id in Exec(INIT, steps).activated || FoundIn(INIT, steps, id)
    decreases |steps|
  {
    if steps != [] {
      var init, last := steps[..|steps| - 1], steps[|steps| - 1];
      var s := Exec(INIT, init);
      Reachable(init);
      ExecLast(INIT, init, last);
      assert steps == init + [last];
      StepSettles(s, last, id);
      if IsActivation(s, id) && Settled(s, id) {
        RunSettles(init, id);
        StepKeeps(s, last);
        if FoundIn(INIT, init, id) { FoundLater(init, last, id); }
      }
    }
  }

  lemma FoundLater(steps: seq<Step>, last: Step, id: OrderId)
    requires FoundIn(INIT, steps, id)
    ensures FoundIn(INIT, steps + [last], id)
  {
    var i :| 0 <= i < |steps| && FoundAt(Exec(INIT, steps[..i]), steps[i], id);
    assert (steps + [last])[..i] == steps[..i] && (steps + [last])[i] == steps[i];
  }

  /**
   * In every run from the start: a stamped subscription order has been activated, or some probe
   * of the run met the workspace on that very package in an open period.
   */
  lemma StampedWasActivatedOrFound(steps: seq<Step>, id: OrderId)
    requires var s := Exec(INIT, steps); IsActivation(s, id) && s.orders[id].grantedAt.Some?
    ensures id in Exec(INIT, steps).activated || FoundIn(INIT, steps, id)
  {
    RunSettles(steps, id);
  }

  // --------------------------------------------------- skipped, and for good

  ghost predicate Skipped(s: State, id: OrderId) {
    IsActivation(s, id) && s.orders[id].grantedAt.Some? && id !in s.activated
  }

  /** Such a probe, followed by its stamp, skips the order. */
  lemma FoundIsSkipped(s: State, pid: Pid, id: OrderId, now: int, at: int)
    requires IsActivation(s, id) && id !in s.activated && FoundAt(s, Probe(pid, now), id)
    ensures var s' := Apply(Apply(s, Probe(pid, now)), Stamp(pid, at));
            Skipped(s', id) && s'.subs == s.subs && s'.handlers == s.handlers - {pid}
  {
    var s1 := Apply(s, Probe(pid, now));
    assert s1 == To(s, pid, Stamping(id));
    assert s1.handlers - {pid} == s.handlers - {pid};
  }

  /** The sweep picks unstamped orders only, so what is skipped stays skipped: the payment buys nothing. */
  lemma {:induction false} SkippedForGood(s: State, steps: seq<Step>, id: OrderId)
    requires Inv(s) && Skipped(s, id) && NobodyHolds(s, id) && forall i | 0 <= i < |steps| :: !Picks(steps[i], id)
    ensures Skipped(Exec(s, steps), id) && NobodyHolds(Exec(s, steps), id)
    decreases |steps|
  {
    if steps != [] {
      assert OrderOk(s, id) && !Picks(steps[0], id);
      StepKeepsInv(s, steps[0]);
      StepKeeps(s, steps[0]);
      HoldersBegin(s, steps[0], id);
      if steps[0].Upsert? { UpsertActivates(s, steps[0]); } else { OnlyUpsertsActivate(s, steps[0]); }
      SkippedForGood(Apply(s, steps[0]), steps[1..], id);
    }
  }

  // --------------------------------------------------------- how it comes about

  function Renewal(): Order {
    Order("w", SUBSCRIPTION, Some("pro"), None, 1, 5_000, "USD", None, PENDING, None, None)
  }

  lemma FirstIsActivated() returns (steps: seq<Step>)
    ensures var s := Exec(INIT, steps);
            && s.handlers == map[] && s.activated == {1} && s.orders.Keys == {1} && "w" in s.subs
            && s.subs["w"] == Subscription("pro", ACTIVE, 0, 1_000, false, None, None)
  {
    var place, settle, flip := Place(1, Renewal()), Settle(0, 1), Flip(0, 0);
    var s3 := Apply(Apply(Apply(INIT, place), settle), flip);
    PaysIn(INIT, 0, 1, Renewal(), 0);
    var s4 := Apply(s3, Upsert(0, 0, 1_000, false));
    assert s4.handlers == map[0 := Stamping(1)] && s4.activated == {1};
    steps := [place, settle] + [flip, Upsert(0, 0, 1_000, false)] + [Stamp(0, 0)];
    ExecFive(INIT, place, settle, flip, Upsert(0, 0, 1_000, false), Stamp(0, 0));
  }

  lemma ExecFive(s: State, a: Step, b: Step, c: Step, d: Step, e: Step)
    ensures Exec(s, [a, b] + [c, d] + [e]) == Apply(Apply(Apply(Apply(Apply(s, a), b), c), d), e)
  {
    ExecConcat(s, [a, b] + [c, d], [e]);
    ExecConcat(s, [a, b], [c, d]);
    ExecTwo(s, a, b);
    ExecTwo(Exec(s, [a, b]), c, d);
    ExecOne(Exec(s, [a, b] + [c, d]), e);
  }

  /** A second order for the package is paid, its grant dies and a sweep takes it up. */
  lemma SecondIsPicked(s: State) returns (steps: seq<Step>)
    requires s.handlers == map[] && 2 !in s.orders
    ensures Exec(s, steps) == s.(orders := s.orders[2 := Renewal().(status := SUCCEEDED, succeededAt := Some(500))],
                                 handlers := map[0 := Probing(2)])
  {
    var s3 := Apply(Apply(Apply(s, Place(2, Renewal())), Settle(0, 2)), Flip(0, 500));
    PaysIn(s, 0, 2, Renewal(), 500);
    DiesAndIsPicked(s3, 2);
    steps := [Place(2, Renewal()), Settle(0, 2)] + [Flip(0, 500), Throw(0)] + [Pick(0, 2)];
    ExecFive(s, Place(2, Renewal()), Settle(0, 2), Flip(0, 500), Throw(0), Pick(0, 2));
  }

  /** The period of the first order is open, so the probe takes it for the second one's. */
  lemma SecondIsSkipped(s: State) returns (more: seq<Step>)
    requires s.handlers == map[] && 2 !in s.orders && 2 !in s.activated
    requires "w" in s.subs && s.subs["w"] == Subscription("pro", ACTIVE, 0, 1_000, false, None, None)
    ensures var s' := Exec(s, more);
            Skipped(s', 2) && s'.subs == s.subs && s'.handlers == map[] && s'.orders[2].status == SUCCEEDED
  {
    var picked := SecondIsPicked(s);
    var s5 := Exec(s, picked);
    FoundIsSkipped(s5, 0, 2, 600, 600);
    assert s5.handlers - {0} == map[];
    ExecTwo(s5, Probe(0, 600), Stamp(0, 600));
    ExecConcat(s, picked, [Probe(0, 600), Stamp(0, 600)]);
    RunKeeps(s5, [Probe(0, 600), Stamp(0, 600)]);
    more := picked + [Probe(0, 600), Stamp(0, 600)];
  }

  /** The grant dies and the sweep takes the order up. */
  lemma DiesAndIsPicked(s: State, id: OrderId)
    requires s.handlers == map[0 := Granting(id)] && IsActivation(s, id) && s.orders[id].status == SUCCEEDED
    ensures Apply(Apply(s, Throw(0)), Pick(0, id)) == To(s, 0, Probing(id))
  {
    var s1 := Apply(s, Throw(0));
    assert s1.handlers == map[];
    assert s1.handlers[0 := Probing(id)] == s.handlers[0 := Probing(id)];
  }

  /**
   * So a renewal paid early whose own grant failed is lost: some run stamps it, never activates
   * it, leaves the period where the first payment put it, and has nobody left to grant it.
   */
  lemma RenewalIsSkipped()
    ensures exists steps :: var s := Exec(INIT, steps);
              && Skipped(s, 2) && s.orders[2].status == SUCCEEDED && 1 in s.activated && NobodyHolds(s, 2)
              && "w" in s.subs && s.subs["w"].currentPeriodEnd == 1_000
  {
    var first := FirstIsActivated();
    var second := SecondIsSkipped(Exec(INIT, first));
    RunKeeps(Exec(INIT, first), second);
    ExecConcat(INIT, first, second);
    assert Skipped(Exec(INIT, first + second), 2);
  }
}
