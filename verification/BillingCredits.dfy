/**
 * When a paid growth top-up can be stamped as granted without being credited
 * (backend/src/modules/marketing/wallet/growth-wallet.service.ts:258-322;
 * backend/src/modules/billing/billing-settlement.service.ts:131-146, 300-328).
 */
module BillingCredits {
  import opened Billing
  import opened BillingRuns

  /** Stamped, so that no sweep looks at it again, but not on the books. */
  ghost predicate Lost(s: State, id: OrderId) {
    id in s.orders && s.orders[id].grantedAt.Some? && !HasRef(s.growth, id)
  }

  /** The handler looked for the wallet row before there was one, or is past that. */
  predicate Exposed(h: Handler, id: OrderId) { h == Stamping(id) || h == Committing(id, false) }

  ghost predicate Exposes(s: State, id: OrderId) { exists p :: p in s.handlers && Exposed(s.handlers[p], id) }

  /** The order can still be tried for the first time in a workspace without a wallet row. */
  predicate FirstTry(s: State, o: Order) {
    !HasRow(s.growth, o.workspaceId) && (Open(o) || o.status == SUCCEEDED) && o.amount > 0
  }

  ghost predicate AtRisk(s: State, id: OrderId)
    requires id in s.orders
  {
    !HasRef(s.growth, id) && (s.orders[id].grantedAt.Some? || Exposes(s, id) || FirstTry(s, s.orders[id]))
  }

  ghost predicate IsTopUp(s: State, id: OrderId) { id in s.orders && DutyOf(s.orders[id]).CreditGrowth? }

  // -------------------------------------------- out of risk stays out of risk

  lemma RefStays(s: State, step: Step, id: OrderId)
    requires HasRef(s.growth, id)
    ensures HasRef(Apply(s, step).growth, id)
  {
    StepKeeps(s, step);
    var i :| 0 <= i < |s.growth.ledger| && s.growth.ledger[i].ref == id;
    assert Apply(s, step).growth.ledger[i].ref == id;
  }

  /** A handler moves onto the stamp of a top-up only if the credit is there or its insert met the row. */
  lemma StampersAreCredited(s: State, step: Step, p: Pid, id: OrderId)
    requires Inv(s) && IsTopUp(s, id) && p in Apply(s, step).handlers && Apply(s, step).handlers[p] == Stamping(id)
    requires p !in s.handlers || s.handlers[p] != Stamping(id)
    ensures HasRef(Apply(s, step).growth, id) || (p in s.handlers && s.handlers[p] == Committing(id, false))
  {
    if p in s.handlers { assert HandlerOk(s, s.handlers[p]); }
    if step.Commit? {
      CommitterIsCredited(s, step, p, id);
    } else {
      WhoWrites(s, step);
      OthersFindTheCredit(s, step, p, id);
    }
  }

  lemma OthersFindTheCredit(s: State, step: Step, p: Pid, id: OrderId)
    requires IsTopUp(s, id) && !step.Commit? && p in Apply(s, step).handlers && Apply(s, step).handlers[p] == Stamping(id)
    requires p in s.handlers ==> HandlerOk(s, s.handlers[p]) && s.handlers[p] != Stamping(id)
    ensures HasRef(s.growth, id)
  {
  }

  lemma CommitterIsCredited(s: State, step: Step, p: Pid, id: OrderId)
    requires Inv(s) && IsTopUp(s, id) && step.Commit?
    requires p in Apply(s, step).handlers && Apply(s, step).handlers[p] == Stamping(id)
    requires p !in s.handlers || s.handlers[p] != Stamping(id)
    ensures HasRef(Apply(s, step).growth, id) || (p in s.handlers && s.handlers[p] == Committing(id, false))
  {
    CommitterMoves(s, step, p);
    assert HandlerOk(s, s.handlers[p]);
    Committed(s, p, s.handlers[p].id, s.handlers[p].found, step.replyLost);
    PostingLands(s.growth, EntryFor(s.orders[id], id), s.orders[id].currency);
  }

  lemma OnlyLookupsCommit(s: State, step: Step, p: Pid)
    requires p in Apply(s, step).handlers && Apply(s, step).handlers[p].Committing?
    requires p !in s.handlers || s.handlers[p] != Apply(s, step).handlers[p]
    ensures step.Lookup? && step.pid == p
  {
  }

  lemma LookupExposes(s: State, p: Pid, id: OrderId)
    requires Inv(s) && IsTopUp(s, id)
    requires var s' := Apply(s, Lookup(p)); p in s'.handlers && s'.handlers[p] == Committing(id, false)
    requires p !in s.handlers || s.handlers[p] != Committing(id, false)
    ensures FirstTry(s, s.orders[id])
  {
    assert HandlerOk(s, s.handlers[p]);
  }

  lemma NotExposedNext(s: State, step: Step, id: OrderId)
    requires Inv(s) && IsTopUp(s, id) && !Exposes(s, id) && !FirstTry(s, s.orders[id])
    ensures HasRef(Apply(s, step).growth, id) || !Exposes(Apply(s, step), id)
  {
    var s' := Apply(s, step);
    if p :| p in s'.handlers && Exposed(s'.handlers[p], id) {
      assert !(p in s.handlers && Exposed(s.handlers[p], id));
      if s'.handlers[p] == Stamping(id) {
        StampersAreCredited(s, step, p, id);
      } else {
        OnlyLookupsCommit(s, step, p);
        LookupExposes(s, p, id);
      }
    }
  }

  lemma StampNeedsStamper(s: State, step: Step, id: OrderId)
    requires id in s.orders && s.orders[id].grantedAt.None? && id in Apply(s, step).orders
    requires Apply(s, step).orders[id].grantedAt.Some?
    ensures Exposes(s, id)
  {
    assert step.Stamp? && s.handlers[step.pid] == Stamping(id);
  }

  lemma StepKeepsSafe(s: State, step: Step, id: OrderId)
    requires Inv(s) && IsTopUp(s, id) && !AtRisk(s, id)
    ensures IsTopUp(Apply(s, step), id) && !AtRisk(Apply(s, step), id)
  {
    var s' := Apply(s, step);
    StepKeeps(s, step);
    if HasRef(s.growth, id) {
      RefStays(s, step, id);
    } else {
      if s'.orders[id].grantedAt.Some? { StampNeedsStamper(s, step, id); }
      NotExposedNext(s, step, id);
      assert DutyOf(s'.orders[id]) == DutyOf(s.orders[id]);
      AmountIsKept(s, step, id);
    }
  }

  /** A closed order is not opened again. */
  lemma AmountIsKept(s: State, step: Step, id: OrderId)
    requires IsTopUp(s, id)
    ensures var s' := Apply(s, step);
            id in s'.orders && s'.orders[id].amount == s.orders[id].amount
            && (Open(s'.orders[id]) || s'.orders[id].status == SUCCEEDED ==> Open(s.orders[id]) || s.orders[id].status == SUCCEEDED)
  {
    StepKeeps(s, step);
  }

  lemma {:induction false} SafeForGood(s: State, steps: seq<Step>, id: OrderId)
    requires Inv(s) && IsTopUp(s, id) && !AtRisk(s, id)
    ensures IsTopUp(Exec(s, steps), id) && !AtRisk(Exec(s, steps), id)
    decreases |steps|
  {
    if steps != [] {
      StepKeepsInv(s, steps[0]);
      StepKeepsSafe(s, steps[0], id);
      SafeForGood(Apply(s, steps[0]), steps[1..], id);
    }
  }

  // --------------------------------------------------- at risk can be lost

  /** Some continuation loses the credit. */
  ghost predicate CanBeLost(s: State, id: OrderId) { exists more :: Lost(Exec(s, more), id) }

  lemma OneStepEarlier(s: State, step: Step, id: OrderId)
    requires CanBeLost(Apply(s, step), id)
    ensures CanBeLost(s, id)
  {
    var more :| Lost(Exec(Apply(s, step), more), id);
    assert ([step] + more)[1..] == more && ([step] + more)[0] == step;
    assert Exec(s, [step] + more) == Exec(Apply(s, step), more);
  }

  lemma StamperCanLose(s: State, p: Pid, id: OrderId)
    requires IsTopUp(s, id) && !HasRef(s.growth, id) && p in s.handlers && s.handlers[p] == Stamping(id)
    ensures CanBeLost(s, id)
  {
    var s' := Apply(s, Stamp(p, 0));
    assert Lost(Exec(s', []), id);
    OneStepEarlier(s, Stamp(p, 0), id);
  }

  lemma ConflictCanLose(s: State, p: Pid, id: OrderId)
    requires IsTopUp(s, id) && !HasRef(s.growth, id) && p in s.handlers && s.handlers[p] == Committing(id, false)
    requires HasRow(s.growth, s.orders[id].workspaceId)
    ensures CanBeLost(s, id)
  {
    var s' := Apply(s, Commit(p, false));
    assert s' == To(s.(conflicts := s.conflicts + {id}), p, Stamping(id));
    StamperCanLose(s', p, id);
    OneStepEarlier(s, Commit(p, false), id);
  }

  lemma CommitterCanLose(s: State, p: Pid, id: OrderId)
    requires IsTopUp(s, id) && !HasRef(s.growth, id) && p in s.handlers && s.handlers[p] == Committing(id, false)
    ensures CanBeLost(s, id)
  {
    if HasRow(s.growth, s.orders[id].workspaceId) {
      ConflictCanLose(s, p, id);
    } else {
      var open := OpenRow(true, s.orders[id].workspaceId, "");
      assert Apply(s, open) == s.(growth := Opened(s.growth, s.orders[id].workspaceId, ""));
      ConflictCanLose(Apply(s, open), p, id);
      OneStepEarlier(s, open, id);
    }
  }

  lemma PosterCanLose(s: State, p: Pid, id: OrderId)
    requires Inv(s) && IsTopUp(s, id) && !HasRef(s.growth, id) && p in s.handlers && s.handlers[p] == Posting(id)
    requires !HasRow(s.growth, s.orders[id].workspaceId)
    ensures CanBeLost(s, id)
  {
    assert !Refused(s, s.orders[id]);
    assert Apply(s, Lookup(p)) == To(s, p, Committing(id, false));
    CommitterCanLose(Apply(s, Lookup(p)), p, id);
    OneStepEarlier(s, Lookup(p), id);
  }

  lemma GranterCanLose(s: State, p: Pid, id: OrderId)
    requires Inv(s) && IsTopUp(s, id) && !HasRef(s.growth, id) && p in s.handlers && s.handlers[p] == Granting(id)
    requires FirstTry(s, s.orders[id])
    ensures CanBeLost(s, id)
  {
    assert Apply(s, Precheck(p)) == To(s, p, Posting(id));
    StepKeepsInv(s, Precheck(p));
    PosterCanLose(Apply(s, Precheck(p)), p, id);
    OneStepEarlier(s, Precheck(p), id);
  }

  lemma PaidCanLose(s: State, id: OrderId)
    requires Inv(s) && IsTopUp(s, id) && !HasRef(s.growth, id) && s.orders[id].status == SUCCEEDED
    requires FirstTry(s, s.orders[id])
    ensures CanBeLost(s, id)
  {
    var p := AnIdle(s.handlers.Keys);
    var s1 := Apply(s, Pick(p, id));
    assert s1 == To(s, p, Probing(id));
    StepKeepsInv(s, Pick(p, id));
    assert Apply(s1, Probe(p, 0)) == To(s1, p, Granting(id));
    StepKeepsInv(s1, Probe(p, 0));
    GranterCanLose(Apply(s1, Probe(p, 0)), p, id);
    OneStepEarlier(s1, Probe(p, 0), id);
    OneStepEarlier(s, Pick(p, id), id);
  }

  lemma OpenCanLose(s: State, id: OrderId)
    requires Inv(s) && IsTopUp(s, id) && !HasRef(s.growth, id) && Open(s.orders[id]) && FirstTry(s, s.orders[id])
    ensures CanBeLost(s, id)
  {
    var p := AnIdle(s.handlers.Keys);
    var s1 := Apply(s, Settle(p, id));
    assert s1 == To(s, p, Flipping(id));
    StepKeepsInv(s, Settle(p, id));
    var s2 := Apply(s1, Flip(p, 0));
    StepKeepsInv(s1, Flip(p, 0));
    assert s2.handlers[p] == Granting(id) && s2.growth == s.growth;
    assert s2.orders[id] == s.orders[id].(status := SUCCEEDED, succeededAt := Some(0));
    GranterCanLose(s2, p, id);
    OneStepEarlier(s1, Flip(p, 0), id);
    OneStepEarlier(s, Settle(p, id), id);
  }

  /**
   * Exactly when a top-up can end up stamped but not credited, from any reachable state and
   * whatever else runs: it is not credited yet, and it is stamped already, or a handler looked
   * for the wallet row before there was one, or the order can still be tried while there is none.
   */
  lemma CanBeLostIff(steps: seq<Step>, id: OrderId)
    requires IsTopUp(Exec(INIT, steps), id)
    ensures CanBeLost(Exec(INIT, steps), id) <==> AtRisk(Exec(INIT, steps), id)
  {
    var s := Exec(INIT, steps);
    Reachable(steps);
    if AtRisk(s, id) {
      AtRiskCanLose(s, id);
    } else {
      forall more ensures !Lost(Exec(s, more), id) {
        SafeForGood(s, more, id);
      }
    }
  }

  lemma AtRiskCanLose(s: State, id: OrderId)
    requires Inv(s) && IsTopUp(s, id) && AtRisk(s, id)
    ensures CanBeLost(s, id)
  {
    if s.orders[id].grantedAt.Some? {
      assert Lost(Exec(s, []), id);
    } else if p :| p in s.handlers && Exposed(s.handlers[p], id) {
      if s.handlers[p] == Stamping(id) { StamperCanLose(s, p, id); } else { CommitterCanLose(s, p, id); }
    } else if Open(s.orders[id]) {
      OpenCanLose(s, id);
    } else {
      PaidCanLose(s, id);
    }
  }

  /**
   * So once the workspace has its wallet row, a top-up nobody has begun to pay out is credited
   * in full before it is stamped, in every continuation.
   */
  lemma CreditedOnceTheRowIsThere(steps: seq<Step>, more: seq<Step>, id: OrderId)
    requires var s := Exec(INIT, steps);
             && IsTopUp(s, id) && HasRow(s.growth, s.orders[id].workspaceId)
             && s.orders[id].grantedAt.None? && !Exposes(s, id)
    requires var later := Exec(Exec(INIT, steps), more); id in later.orders && later.orders[id].grantedAt.Some?
    ensures var later := Exec(Exec(INIT, steps), more);
            exists i :: 0 <= i < |later.growth.ledger| && later.growth.ledger[i].ref == id
                        && DutyOf(later.orders[id]) == CreditGrowth(later.growth.ledger[i].delta)
                        && later.growth.ledger[i].workspaceId == later.orders[id].workspaceId
  {
    var later := Exec(Exec(INIT, steps), more);
    Reachable(steps);
    SafeForGood(Exec(INIT, steps), more, id);
    RunKeepsInv(Exec(INIT, steps), more);
    var i :| 0 <= i < |later.growth.ledger| && later.growth.ledger[i].ref == id;
  }

  // ------------------------------------------------ one currency per wallet

  /** Every entry is in its wallet's currency, and so is what a handler that found the row is about to write. */
  ghost predicate OneCurrency(s: State) {
    && (forall i | 0 <= i < |s.growth.ledger| :: var e := s.growth.ledger[i];
          e.ref in s.orders && e.workspaceId in s.growth.currencies
          && s.orders[e.ref].currency == s.growth.currencies[e.workspaceId])
    && (forall p | p in s.handlers && s.handlers[p].Committing? && s.handlers[p].found
                   && IsTopUp(s, s.handlers[p].id) :: !Refused(s, s.orders[s.handlers[p].id]))
  }

  lemma EntriesKeepCurrency(s: State, s': State)
    requires OneCurrency(s) && OrdersKept(s.orders, s'.orders) && s'.growth.ledger == s.growth.ledger
    requires forall ws | ws in s.growth.currencies :: ws in s'.growth.currencies && s'.growth.currencies[ws] == s.growth.currencies[ws]
    ensures forall i | 0 <= i < |s'.growth.ledger| :: var e := s'.growth.ledger[i];
              e.ref in s'.orders && e.workspaceId in s'.growth.currencies
              && s'.orders[e.ref].currency == s'.growth.currencies[e.workspaceId]
  {
    forall i | 0 <= i < |s'.growth.ledger|
      ensures var e := s'.growth.ledger[i];
              e.ref in s'.orders && e.workspaceId in s'.growth.currencies
              && s'.orders[e.ref].currency == s'.growth.currencies[e.workspaceId]
    {
      assert s.growth.ledger[i] == s'.growth.ledger[i];
    }
  }

  lemma CommitKeepsCurrency(s: State, step: Step)
    requires Inv(s) && OneCurrency(s) && step.Commit?
    ensures forall i | 0 <= i < |Apply(s, step).growth.ledger| :: var e := Apply(s, step).growth.ledger[i];
              e.ref in s.orders && e.workspaceId in Apply(s, step).growth.currencies
              && s.orders[e.ref].currency == Apply(s, step).growth.currencies[e.workspaceId]
  {
    CommitWrites(s, step);
    CurrenciesStay(s, step);
    var s' := Apply(s, step);
    if s'.growth.ledger != s.growth.ledger {
      var h := s.handlers[step.pid];
      assert HandlerOk(s, h);
      Committed(s, step.pid, h.id, h.found, step.replyLost);
      var w := Post(s.growth, EntryFor(s.orders[h.id], h.id), s.orders[h.id].currency);
      assert s'.growth == w && w.ledger == s.growth.ledger + [EntryFor(s.orders[h.id], h.id)];
    }
  }

  lemma HandlersKeepCurrency(s: State, step: Step, p: Pid)
    requires Inv(s) && OneCurrency(s) && p in Apply(s, step).handlers
    requires Apply(s, step).handlers[p].Committing? && Apply(s, step).handlers[p].found
    requires IsTopUp(Apply(s, step), Apply(s, step).handlers[p].id)
    ensures !Refused(Apply(s, step), Apply(s, step).orders[Apply(s, step).handlers[p].id])
  {
    var s' := Apply(s, step);
    var id := s'.handlers[p].id;
    StepKeeps(s, step);
    CurrenciesStay(s, step);
    if p !in s.handlers || s.handlers[p] != s'.handlers[p] {
      OnlyLookupsCommit(s, step, p);
      WhoWrites(s, step);
    } else {
      assert HandlerOk(s, s.handlers[p]) && IsTopUp(s, id) && !Refused(s, s.orders[id]);
      assert HasRow(s.growth, s.orders[id].workspaceId);
    }
  }

  lemma StepKeepsCurrency(s: State, step: Step)
    requires Inv(s) && OneCurrency(s)
    ensures OneCurrency(Apply(s, step))
  {
    var s' := Apply(s, step);
    StepKeepsOrders(s, step);
    if step.Commit? {
      WhoWrites(s, step);
      CommitKeepsCurrency(s, step);
    } else {
      LedgersStay(s, step);
      CurrenciesStay(s, step);
      EntriesKeepCurrency(s, s');
    }
    forall p | p in s'.handlers && s'.handlers[p].Committing? && s'.handlers[p].found && IsTopUp(s', s'.handlers[p].id)
      ensures !Refused(s', s'.orders[s'.handlers[p].id])
    {
      HandlersKeepCurrency(s, step, p);
    }
  }

  lemma {:induction false} RunKeepsCurrency(s: State, steps: seq<Step>)
    requires Inv(s) && OneCurrency(s)
    ensures OneCurrency(Exec(s, steps))
    decreases |steps|
  {
    if steps != [] {
      StepKeepsInv(s, steps[0]);
      StepKeepsCurrency(s, steps[0]);
      RunKeepsCurrency(Apply(s, steps[0]), steps[1..]);
    }
  }

  /**
   * No amount is ever credited in a currency that is not the wallet's: in every run, whatever
   * races for the row, each entry of a growth ledger pays an order in the currency of its wallet.
   */
  lemma CreditedInTheWalletsCurrency(steps: seq<Step>, i: nat)
    requires i < |Exec(INIT, steps).growth.ledger|
    ensures var s := Exec(INIT, steps);
            var e := s.growth.ledger[i];
            e.ref in s.orders && e.workspaceId in s.growth.currencies
            && s.growth.currencies[e.workspaceId] == s.orders[e.ref].currency
  {
    Reachable([]);
    assert Exec(INIT, []) == INIT;
    RunKeepsCurrency(INIT, steps);
  }

  // ------------------------------------------------ how it comes about

  /** Two handlers about to pay two first top-ups of one workspace. */
  ghost predicate TwoFirst(s: State, p: Pid, q: Pid, i: OrderId, j: OrderId) {
    && p != q && i != j && p in s.handlers && q in s.handlers
    && s.handlers[p] == Posting(i) && s.handlers[q] == Posting(j) && IsTopUp(s, i) && IsTopUp(s, j)
    && s.orders[i].workspaceId == s.orders[j].workspaceId && !HasRow(s.growth, s.orders[i].workspaceId)
    && !HasRef(s.growth, i) && !HasRef(s.growth, j)
  }

  /**
   * No other writer is needed: when two first top-ups of a workspace settle together, the one
   * that commits second meets the row of the first and is stamped without being credited.
   */
  lemma SecondFirstTopUpIsLost(s: State, p: Pid, q: Pid, i: OrderId, j: OrderId, now: int)
    requires Inv(s) && TwoFirst(s, p, q, i, j)
    ensures var looked := Apply(Apply(s, Lookup(p)), Lookup(q));
            var committed := Apply(Apply(looked, Commit(p, false)), Commit(q, false));
            var s' := Apply(Apply(committed, Stamp(p, now)), Stamp(q, now));
            HasRef(s'.growth, i) && Lost(s', j)
  {
    var s1 := Apply(s, Lookup(p));
    assert s1 == To(s, p, Committing(i, false));
    var s2 := Apply(s1, Lookup(q));
    assert s2 == To(s1, q, Committing(j, false));
    CommitsCollide(s2, p, q, i, j, now);
  }

  lemma CommitsCollide(s: State, p: Pid, q: Pid, i: OrderId, j: OrderId, now: int)
    requires p != q && i != j && p in s.handlers && q in s.handlers && IsTopUp(s, i) && IsTopUp(s, j)
    requires s.handlers[p] == Committing(i, false) && s.handlers[q] == Committing(j, false)
    requires s.orders[i].workspaceId == s.orders[j].workspaceId && !HasRow(s.growth, s.orders[i].workspaceId)
    requires !HasRef(s.growth, i) && !HasRef(s.growth, j)
    ensures var committed := Apply(Apply(s, Commit(p, false)), Commit(q, false));
            var s' := Apply(Apply(committed, Stamp(p, now)), Stamp(q, now));
            HasRef(s'.growth, i) && Lost(s', j)
  {
    var paid := Post(s.growth, EntryFor(s.orders[i], i), s.orders[i].currency);
    PostingLands(s.growth, EntryFor(s.orders[i], i), s.orders[i].currency);
    var s1 := Apply(s, Commit(p, false));
    Committed(s, p, i, false, false);
    assert s1 == To(s.(growth := paid), p, Stamping(i));
    var s2 := Apply(s1, Commit(q, false));
    Committed(s1, q, j, false, false);
    assert s2 == To(s1.(conflicts := s1.conflicts + {j}), q, Stamping(j));
    var s3 := Apply(s2, Stamp(p, now));
    assert s3.growth == paid && s3.orders[j] == s.orders[j] && s3.handlers[q] == Stamping(j);
  }

  function TopUp(currency: string): Order {
    Order("w", WALLET_TOPUP, None, None, 1, 5_000, currency, None, PENDING, None, None)
  }

  /** Placed, settled and checked: about to be paid out. */
  lemma PaidUp(s: State, p: Pid, id: OrderId, now: int)
    requires p !in s.handlers && id !in s.orders && !HasRef(s.growth, id)
    ensures var order := TopUp("TRY");
            Apply(Apply(Apply(Apply(s, Place(id, order)), Settle(p, id)), Flip(p, now)), Precheck(p))
            == s.(orders := s.orders[id := order.(status := SUCCEEDED, succeededAt := Some(now))],
                  handlers := s.handlers[p := Posting(id)])
  {
    PaysIn(s, p, id, TopUp("TRY"), now);
  }

  lemma FourSteps(s: State, a: Step, b: Step, c: Step, d: Step)
    ensures Exec(s, [a, b, c, d]) == Apply(Apply(Apply(Apply(s, a), b), c), d)
  {
    assert [a, b, c, d] == [a, b] + [c, d];
    ExecConcat(s, [a, b], [c, d]);
    ExecTwo(s, a, b);
    ExecTwo(Exec(s, [a, b]), c, d);
  }

  function PayUp(p: Pid, id: OrderId, now: int): seq<Step> {
    [Place(id, TopUp("TRY")), Settle(p, id), Flip(p, now), Precheck(p)]
  }

  lemma PaidUpRun(s: State, p: Pid, id: OrderId, now: int)
    requires p !in s.handlers && id !in s.orders && !HasRef(s.growth, id)
    ensures Exec(s, PayUp(p, id, now))
            == s.(orders := s.orders[id := TopUp("TRY").(status := SUCCEEDED, succeededAt := Some(now))],
                  handlers := s.handlers[p := Posting(id)])
  {
    FourSteps(s, Place(id, TopUp("TRY")), Settle(p, id), Flip(p, now), Precheck(p));
    PaidUp(s, p, id, now);
  }

  lemma TwoAreDue() returns (steps: seq<Step>)
    ensures TwoFirst(Exec(INIT, steps), 0, 1, 1, 2)
  {
    PaidUpRun(INIT, 0, 1, 10);
    var s1 := Exec(INIT, PayUp(0, 1, 10));
    SecondIsDue(s1);
    ExecConcat(INIT, PayUp(0, 1, 10), PayUp(1, 2, 11));
    steps := PayUp(0, 1, 10) + PayUp(1, 2, 11);
  }

  lemma SecondIsDue(s: State)
    requires s == INIT.(orders := map[1 := TopUp("TRY").(status := SUCCEEDED, succeededAt := Some(10))],
                        handlers := map[0 := Posting(1)])
    ensures TwoFirst(Exec(s, PayUp(1, 2, 11)), 0, 1, 1, 2)
  {
    PaidUpRun(s, 1, 2, 11);
  }

  lemma TheSecondIsLost(s: State, p: Pid, q: Pid, i: OrderId, j: OrderId) returns (more: seq<Step>)
    requires Inv(s) && TwoFirst(s, p, q, i, j)
    ensures HasRef(Exec(s, more).growth, i) && Lost(Exec(s, more), j)
    ensures DutyOf(Exec(s, more).orders[j]) == DutyOf(s.orders[j])
  {
    var commits, stamps := [Lookup(p), Lookup(q), Commit(p, false), Commit(q, false)], [Stamp(p, 0), Stamp(q, 0)];
    more := commits + stamps;
    FourSteps(s, commits[0], commits[1], commits[2], commits[3]);
    ExecTwo(Exec(s, commits), stamps[0], stamps[1]);
    ExecConcat(s, commits, stamps);
    SecondFirstTopUpIsLost(s, p, q, i, j, 0);
    RunKeeps(s, more);
  }

  /** So the exception is real, and reached by two payments alone. */
  lemma StampedWithoutCredit()
    ensures exists steps :: Lost(Exec(INIT, steps), 2) && HasRef(Exec(INIT, steps).growth, 1) && IsTopUp(Exec(INIT, steps), 2)
  {
    var steps := TwoAreDue();
    Reachable(steps);
    var more := TheSecondIsLost(Exec(INIT, steps), 0, 1, 1, 2);
    ExecConcat(INIT, steps, more);
    assert Lost(Exec(INIT, steps + more), 2);
  }
}
