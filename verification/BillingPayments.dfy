/**
 * What one undisturbed settlement buys, on the columns of the order and of the tables it pays
 * into (backend/src/modules/billing/billing-settlement.service.ts:95-197, 375-426, 514-558).
 */
module BillingPayments {
  import opened Billing
  import opened BillingRuns
  import opened BillingSettlement

  /** Open, and handler 0 free to settle it. */
  ghost predicate Payable(s: State, id: OrderId) {
    0 !in s.handlers && id in s.orders && s.orders[id].status in {PENDING, AWAITING_TRANSFER}
  }

  /** Paid and stamped, nothing else about any order changed. */
  predicate PaidAndStamped(s: State, s': State, id: OrderId, now: int) {
    id in s.orders && s'.orders == s.orders[id := s.orders[id].(status := SUCCEEDED, succeededAt := Some(now),
                                                                grantedAt := Some(now))]
  }

  lemma Settles(s: State, id: OrderId, now: int, end: int)
    requires Payable(s, id)
    ensures var flipped := Flipped(s, id, now);
            SettleRun(s, id, NoFault, now, end) == Worked(flipped, id, NoFault, now, end)
            && DutyOf(flipped.orders[id]) == DutyOf(s.orders[id])
    ensures BooksAfter(Flipped(s, id, now), id, NoFault, now, end).orders == Flipped(s, id, now).orders
  {
    SettleRunIs(s, id, NoFault, now, end);
    BooksIgnoreHandlers(Flipped(s, id, now), id, NoFault, now, end, s.handlers);
  }

  /** An entry under a new ref is appended, and raises its workspace's balance only. */
  lemma PostPays(w: Wallet, e: Entry, currency: string)
    requires !HasRef(w, e.ref)
    ensures var w' := Post(w, e, currency);
            && w'.ledger == w.ledger + [e] && Balance(w', e.workspaceId) == Balance(w, e.workspaceId) + e.delta
            && forall ws: WorkspaceId | ws != e.workspaceId :: Balance(w', ws) == Balance(w, ws)
  {
  }

  /** A first top-up raises the balance of its workspace by its amount, and nothing else. */
  lemma TopUpPays(s: State, id: OrderId, now: int, end: int)
    requires Payable(s, id) && s.orders[id].orderType == WALLET_TOPUP && s.orders[id].amount > 0 && !HasRef(s.growth, id)
    requires var ws := s.orders[id].workspaceId;
             ws in s.growth.currencies ==> s.growth.currencies[ws] == s.orders[id].currency
    ensures var s' := SettleRun(s, id, NoFault, now, end);
            var o := s.orders[id];
            && PaidAndStamped(s, s', id, now)
            && Balance(s'.growth, o.workspaceId) == Balance(s.growth, o.workspaceId) + o.amount
            && (forall ws: WorkspaceId | ws != o.workspaceId :: Balance(s'.growth, ws) == Balance(s.growth, ws))
            && s'.growth.ledger == s.growth.ledger + [Entry(o.workspaceId, o.amount, id)]
            && s'.ai == s.ai && s'.boosts == s.boosts && s'.subs == s.subs
  {
    Settles(s, id, now, end);
    var o := s.orders[id];
    PostPays(s.growth, Entry(o.workspaceId, o.amount, id), o.currency);
    assert BooksAfter(Flipped(s, id, now), id, NoFault, now, end)
           == Flipped(s, id, now).(growth := Post(s.growth, Entry(o.workspaceId, o.amount, id), o.currency));
  }

  /** So does a first order of credit packs, by the credits of all its packs. */
  lemma PacksPay(s: State, id: OrderId, now: int, end: int, credits: int)
    requires Payable(s, id) && s.orders[id].orderType == ADDON && !HasRef(s.ai, id)
    requires IsPack(s.orders[id].addOnCode, s.orders[id].quantity, credits)
    ensures var s' := SettleRun(s, id, NoFault, now, end);
            var o := s.orders[id];
            && PaidAndStamped(s, s', id, now)
            && Balance(s'.ai, o.workspaceId) == Balance(s.ai, o.workspaceId) + credits
            && (forall ws: WorkspaceId | ws != o.workspaceId :: Balance(s'.ai, ws) == Balance(s.ai, ws))
            && s'.ai.ledger == s.ai.ledger + [Entry(o.workspaceId, credits, id)]
            && s'.growth == s.growth && s'.boosts == s.boosts && s'.subs == s.subs
  {
    Settles(s, id, now, end);
    var o := s.orders[id];
    assert DutyOf(o) == CreditAi(credits);
    PostPays(s.ai, Entry(o.workspaceId, credits, id), o.currency);
    assert BooksAfter(Flipped(s, id, now), id, NoFault, now, end)
           == Flipped(s, id, now).(ai := Post(s.ai, Entry(o.workspaceId, credits, id), o.currency));
  }

  /** A boost gets its row, which ends with the workspace's period. */
  lemma BoostIsBought(s: State, id: OrderId, now: int, end: int)
    requires Payable(s, id) && s.orders[id].orderType == ADDON && s.orders[id].addOnCode.Some?
    requires s.orders[id].addOnCode.value in {"quota_boost_10", "extra_profile", "ai_credit_boost_500",
                                              "messages_boost_1000", "sms_otp_package", "voice_campaigns_package",
                                              "fax_package"}
    ensures var s' := SettleRun(s, id, NoFault, now, end);
            var o := s.orders[id];
            && PaidAndStamped(s, s', id, now)
            && s'.boosts == s.boosts + [Boost(o.workspaceId, o.addOnCode.value, o.quantity,
                 if o.workspaceId in s.subs then Some(s.subs[o.workspaceId].currentPeriodEnd) else None, id)]
            && s'.growth == s.growth && s'.ai == s.ai && s'.subs == s.subs
  {
    Settles(s, id, now, end);
    assert DutyOf(s.orders[id]) == AddBoost(s.orders[id].addOnCode.value);
  }

  /** A subscription, upgrade or renewal puts the workspace on the package for a fresh period. */
  lemma PackageIsBought(s: State, id: OrderId, now: int, end: int)
    requires Payable(s, id) && s.orders[id].orderType in {SUBSCRIPTION, UPGRADE, RENEWAL} && s.orders[id].packageId.Some?
    ensures var s' := SettleRun(s, id, NoFault, now, end);
            var o := s.orders[id];
            && PaidAndStamped(s, s', id, now)
            && s'.subs == s.subs[o.workspaceId :=
                 Subscription(o.packageId.value, ACTIVE, now, end, false, None, o.providerRef)]
            && s'.growth == s.growth && s'.ai == s.ai && s'.boosts == s.boosts
  {
    Settles(s, id, now, end);
  }

  /** What cannot be granted is paid all the same, unstamped, and changes no other table. */
  lemma UngrantedIsPaid(s: State, id: OrderId, now: int, end: int)
    requires Payable(s, id)
    requires var o := s.orders[id];
             || (o.orderType == WALLET_TOPUP && o.amount <= 0)
             || (o.orderType == WALLET_TOPUP && !HasRef(s.growth, id) && o.workspaceId in s.growth.currencies
                 && s.growth.currencies[o.workspaceId] != o.currency)
             || (o.orderType == ADDON && (o.addOnCode.None? || o.addOnCode.value !in {
                   "credits_1k", "credits_4k", "credits_12k", "quota_boost_10", "extra_profile", "ai_credit_boost_500",
                   "messages_boost_1000", "sms_otp_package", "voice_campaigns_package", "fax_package"}))
             || (o.orderType in {SUBSCRIPTION, UPGRADE, RENEWAL} && o.packageId.None?)
    ensures SettleRun(s, id, NoFault, now, end)
            == s.(orders := s.orders[id := s.orders[id].(status := SUCCEEDED, succeededAt := Some(now))])
  {
    Settles(s, id, now, end);
  }
}
