/**
 * BillingSettlementService as a class over its tables
 * (backend/src/modules/billing/billing-settlement.service.ts:95-558). Fault parameters stand
 * for what the database and other transactions do to a call.
 */
module BillingService {
  import opened Billing
  import opened BillingRuns
  import opened BillingSettlement
  import E = Entitlements
  import EC = EntitlementCache
  import L = BillingLifecycle

  function WidenedAt(c: E.Catalogue, workspaces: map<WorkspaceId, E.Workspace>, ws: WorkspaceId,
                     features: set<string>): map<WorkspaceId, E.Workspace> {
    if ws !in workspaces || workspaces[ws].activatedModules.None? then workspaces
    else workspaces[ws := workspaces[ws].(activatedModules :=
                                            Some(E.Widened(c, workspaces[ws].activatedModules.value, features)))]
  }

  function FeaturesOf(packages: map<string, E.Package>, packageId: string): set<string> {
    if packageId in packages then packages[packageId].features else {}
  }

  /** The allow-lists after a grant: a subscription order that went through has its modules switched on. */
  ghost function ModulesAfter(c: E.Catalogue, packages: map<string, E.Package>, workspaces: map<WorkspaceId, E.Workspace>,
                              s: State, id: OrderId, f: Fault): map<WorkspaceId, E.Workspace>
    requires id in s.orders
  {
    var o := s.orders[id];
    if DutyOf(o).Activate? && Succeeds(s, id, f)
    then WidenedAt(c, workspaces, o.workspaceId, FeaturesOf(packages, o.packageId.value)) else workspaces
  }

  /** The same for the sweep, which grants only what it does not find. */
  ghost function ModulesSwept(c: E.Catalogue, packages: map<string, E.Package>, workspaces: map<WorkspaceId, E.Workspace>,
                              s: State, id: OrderId, f: Fault, now: int): map<WorkspaceId, E.Workspace>
    requires id in s.orders
  {
    if f.ProbeDies? || LooksGranted(s, s.orders[id], id, now) then workspaces
    else ModulesAfter(c, packages, workspaces, s, id, f)
  }

  lemma FlipKeepsModules(c: E.Catalogue, packages: map<string, E.Package>, workspaces: map<WorkspaceId, E.Workspace>,
                         s: State, id: OrderId, f: Fault, now: int)
    requires id in s.orders
    ensures ModulesAfter(c, packages, workspaces, Flipped(s, id, now), id, f) == ModulesAfter(c, packages, workspaces, s, id, f)
  {
    assert DutyOf(Flipped(s, id, now).orders[id]) == DutyOf(s.orders[id]);
  }

  lemma WidenedAtTwice(c: E.Catalogue, workspaces: map<WorkspaceId, E.Workspace>, ws: WorkspaceId, features: set<string>)
    ensures WidenedAt(c, WidenedAt(c, workspaces, ws, features), ws, features) == WidenedAt(c, workspaces, ws, features)
  {
    if ws in workspaces && workspaces[ws].activatedModules.Some? {
      E.WidenedTwice(c, workspaces[ws].activatedModules.value, features);
    }
  }

  lemma ActivationsSucceed(s: State, id: OrderId, f: Fault)
    requires id in s.orders && DutyOf(s.orders[id]).Activate? && s.orders[id].packageId.Some?
    ensures Succeeds(s, id, f) <==> !f.DiesFirst? && !f.ReplyIsLost?
  {
  }

  /**
   * A settled subscription order that the sweep comes back to: its package's modules end up
   * switched on if and only if nothing had to be switched on, or the settlement's grant went
   * through, or the sweep does not find the order granted. Where the reply to the activation
   * was lost, it does find it while the new period is open; the modules then stay off.
   */
  lemma ModulesOnIff(c: E.Catalogue, packages: map<string, E.Package>, workspaces: map<WorkspaceId, E.Workspace>, s: State,
                     id: OrderId, f: Fault, t: int, end: int, now: int)
    requires 0 !in s.handlers && id in s.orders && Open(s.orders[id]) && DutyOf(s.orders[id]).Activate?
    requires s.orders[id].packageId.Some?
    ensures var o := s.orders[id];
            var wanted := WidenedAt(c, workspaces, o.workspaceId, FeaturesOf(packages, o.packageId.value));
            var settled := SettleRun(s, id, f, t, end);
            && id in settled.orders
            && (ModulesSwept(c, packages, ModulesAfter(c, packages, workspaces, s, id, f), settled, id, NoFault, now) == wanted
                <==> wanted == workspaces || Succeeds(s, id, f) || !LooksGranted(settled, settled.orders[id], id, now))
            && (f.ReplyIsLost? ==> (LooksGranted(settled, settled.orders[id], id, now) <==> now < end))
  {
    var o := s.orders[id];
    SettleRunIs(s, id, f, t, end);
    var settled := SettleRun(s, id, f, t, end);
    BooksIgnoreHandlers(Flipped(s, id, t), id, f, t, end, s.handlers);
    assert DutyOf(settled.orders[id]) == DutyOf(o);
    ActivationsSucceed(s, id, f);
    ActivationsSucceed(settled, id, NoFault);
    WidenedAtTwice(c, workspaces, o.workspaceId, FeaturesOf(packages, o.packageId.value));
  }

  /** Paid, without a stamp, and of a type that the pass recovers. */
  predicate Unfinished(o: Order, pass: Pass) {
    o.status == SUCCEEDED && o.grantedAt.None?
    && match pass
       case SUBSCRIPTIONS => o.orderType in {SUBSCRIPTION, UPGRADE, RENEWAL}
       case TOPUPS => o.orderType == WALLET_TOPUP
       case CREDITS => o.orderType == ADDON && o.addOnCode.Some?
                       && o.addOnCode.value in {"credits_1k", "credits_4k", "credits_12k"}
  }

  /** Orders without a settlement time sort behind all that have one. */
  predicate SettledBefore(a: Order, b: Order) {
    a.succeededAt.Some? && (b.succeededAt.None? || a.succeededAt.value < b.succeededAt.value)
  }

  class BillingSettlementService {
    const catalogue: E.Catalogue
    const entitlements: EC.EntitlementsService
    var orders: map<OrderId, Order>
    var growth: Wallet
    var ai: Wallet
    var boosts: seq<Boost>
    var subs: Subscriptions
    var workspaces: map<WorkspaceId, E.Workspace>
    var packages: map<string, E.Package>
    ghost var conflicts: set<OrderId>
    ghost var activated: set<OrderId>

    constructor (entitlements: EC.EntitlementsService, packages: map<string, E.Package>,
                 workspaces: map<WorkspaceId, E.Workspace>)
      ensures this.entitlements == entitlements && catalogue == entitlements.catalogue
      ensures this.packages == packages && this.workspaces == workspaces && Books() == INIT
    {
      this.entitlements, catalogue := entitlements, entitlements.catalogue;
      orders, growth, ai := map[], Wallet(map[], map[], []), Wallet(map[], map[], []);
      boosts, subs, this.packages, this.workspaces := [], map[], packages, workspaces;
      conflicts, activated := {}, {};
    }

    /** The tables as a state of the machine, no handler under way. */
    ghost function Books(): State
      reads this
    {
      State(orders, growth, ai, boosts, subs, map[], conflicts, activated)
    }

    function Features(packageId: string): set<string>
      reads this
    {
      FeaturesOf(packages, packageId)
    }

    method ActivateEntitledModules(ws: WorkspaceId, packageId: string)
      modifies this`workspaces, entitlements`cache
      ensures workspaces == WidenedAt(catalogue, old(workspaces), ws, Features(packageId))
      ensures workspaces.Keys == old(workspaces.Keys) && forall other | other in workspaces && other != ws ::
                workspaces[other] == old(workspaces)[other]
      ensures ws in workspaces ==> workspaces[ws].status == old(workspaces)[ws].status
                                   && workspaces[ws].activatedModules.Some? == old(workspaces)[ws].activatedModules.Some?
      ensures ws in workspaces && workspaces[ws].activatedModules.Some? ==> forall k ::
                k in workspaces[ws].activatedModules.value
                <==> k in old(workspaces)[ws].activatedModules.value
                     || (packageId in packages && k in packages[packageId].features && k in catalogue.featureKeys
                         && k != "autoAssign" && k != "smsOtp")
      ensures entitlements.cache == if workspaces == old(workspaces) then old(entitlements.cache)
                                    else old(entitlements.cache) - {ws}
    {
      if ws !in workspaces || workspaces[ws].activatedModules.None? { return; }
      var activated := workspaces[ws].activatedModules.value;
      var features := Features(packageId);
      var toAdd := E.Filter(catalogue.Modules(), k => k in features && k !in activated);
      if |toAdd| == 0 {
        assert E.Widened(catalogue, activated, features) == activated;
        return;
      }
      workspaces := workspaces[ws := workspaces[ws].(activatedModules := Some(activated + toAdd))];
      assert workspaces[ws].activatedModules != old(workspaces)[ws].activatedModules;
      entitlements.Invalidate(ws);
    }

    method ActivateSubscription(id: OrderId, f: Fault, now: int, end: int) returns (ok: bool)
      requires id in orders && DutyOf(orders[id]).Activate? && !f.DiesFirst?
      modifies this`subs, this`activated, this`workspaces, entitlements`cache
      ensures Books() == BooksAfter(old(Books()), id, f, now, end)
      ensures ok == (orders[id].packageId.Some? && !f.ReplyIsLost?)
      ensures subs == if orders[id].packageId.None? then old(subs)
                      else old(subs)[orders[id].workspaceId :=
                             Subscription(orders[id].packageId.value, ACTIVE, now, end, false, None, orders[id].providerRef)]
      ensures workspaces == if ok then WidenedAt(catalogue, old(workspaces), orders[id].workspaceId,
                                                 Features(orders[id].packageId.value))
                            else old(workspaces)
      ensures entitlements.cache == if workspaces == old(workspaces) then old(entitlements.cache)
                                    else old(entitlements.cache) - {orders[id].workspaceId}
    {
      var o := orders[id];
      if o.packageId.None? { return false; }
      activated := activated + {id};
      subs := subs[o.workspaceId := Subscription(o.packageId.value, ACTIVE, now, end, false, None, o.providerRef)];
      if f.ReplyIsLost? { return false; }
      ActivateEntitledModules(o.workspaceId, o.packageId.value);
      ok := true;
    }

    /** The growth wallet's credit; `f` may put another transaction between its lookup and its commit. */
    method CreditGrowthWallet(id: OrderId, f: Fault, ghost now: int, ghost end: int) returns (ok: bool)
      requires id in orders && DutyOf(orders[id]).CreditGrowth? && !f.DiesFirst?
      modifies this`growth, this`conflicts
      ensures growth.ledger == old(growth.ledger)
              || (growth.ledger == old(growth.ledger) + [Entry(orders[id].workspaceId, orders[id].amount, id)]
                  && Balance(growth, orders[id].workspaceId)
                     == old(Balance(growth, orders[id].workspaceId)) + orders[id].amount)
      ensures f.NoFault? && ok ==> HasRef(growth, id)
      ensures Books() == BooksAfter(old(Books()), id, f, now, end)
      ensures ok == Succeeds(old(Books()), id, f)
    {
      var o := orders[id];
      if o.amount <= 0 { return false; }
      if HasRef(growth, id) { return true; }
      if OtherCurrency(growth, o.workspaceId, o.currency) { return false; }
      var found := HasRow(growth, o.workspaceId);
      if f.RowRace? { growth := Opened(growth, o.workspaceId, f.currency); }
      if !found && HasRow(growth, o.workspaceId) {
        conflicts := conflicts + {id};
        return true;
      }
      PostingLands(growth, Entry(o.workspaceId, o.amount, id), o.currency);
      growth := Post(growth, Entry(o.workspaceId, o.amount, id), o.currency);
      ok := !f.ReplyIsLost?;
    }

    method GrantAddOn(id: OrderId, f: Fault, ghost now: int, ghost end: int) returns (ok: bool)
      requires id in orders && orders[id].orderType == ADDON && !f.DiesFirst?
      modifies this`ai, this`boosts, entitlements`cache
      ensures ai.ledger != old(ai.ledger) ==> exists credits ::
                && IsPack(orders[id].addOnCode, orders[id].quantity, credits)
                && ai.ledger == old(ai.ledger) + [Entry(orders[id].workspaceId, credits, id)]
                && Balance(ai, orders[id].workspaceId) == old(Balance(ai, orders[id].workspaceId)) + credits
      ensures boosts != old(boosts) ==> orders[id].addOnCode.Some? && boosts == old(boosts) + [
                Boost(orders[id].workspaceId, orders[id].addOnCode.value, orders[id].quantity,
                      if orders[id].workspaceId in subs then Some(subs[orders[id].workspaceId].currentPeriodEnd) else None, id)]
      ensures Books() == BooksAfter(old(Books()), id, f, now, end)
      ensures ok == Succeeds(old(Books()), id, f)
      ensures entitlements.cache == if ok && DutyOf(orders[id]).CreditAi?
                                    then old(entitlements.cache) - {orders[id].workspaceId} else old(entitlements.cache)
    {
      var o := orders[id];
      var code := if o.addOnCode.Some? then o.addOnCode.value else "";
      var credits := CreditsOf(code);
      if credits > 0 {
        ok := CreditAiWallet(id, credits * Max(1, o.quantity), f, now, end);
        assert IsPack(o.addOnCode, o.quantity, credits * Max(1, o.quantity));
        if ok { entitlements.Invalidate(o.workspaceId); }
        return;
      }
      if code !in BOOSTS { return false; }
      var end' := if o.workspaceId in subs then Some(subs[o.workspaceId].currentPeriodEnd) else None;
      boosts := boosts + [Boost(o.workspaceId, code, o.quantity, end', id)];
      ok := !f.ReplyIsLost?;
    }

    /** The AI wallet's credit: a conflict on the wallet row surfaces. */
    method CreditAiWallet(id: OrderId, amount: int, f: Fault, ghost now: int, ghost end: int) returns (ok: bool)
      requires id in orders && DutyOf(orders[id]) == CreditAi(amount) && !f.DiesFirst?
      modifies this`ai
      ensures ai.ledger == old(ai.ledger)
              || (ai.ledger == old(ai.ledger) + [Entry(orders[id].workspaceId, amount, id)]
                  && Balance(ai, orders[id].workspaceId) == old(Balance(ai, orders[id].workspaceId)) + amount)
      ensures Books() == BooksAfter(old(Books()), id, f, now, end)
      ensures ok == Succeeds(old(Books()), id, f)
    {
      var o := orders[id];
      if HasRef(ai, id) { return true; }
      var found := HasRow(ai, o.workspaceId);
      if f.RowRace? { ai := Opened(ai, o.workspaceId, f.currency); }
      if !found && HasRow(ai, o.workspaceId) { return false; }
      ai := Post(ai, Entry(o.workspaceId, amount, id), o.currency);
      ok := !f.ReplyIsLost?;
    }

    method GrantEntitlement(id: OrderId, f: Fault, now: int, end: int) returns (ok: bool)
      requires id in orders
      modifies this`growth, this`conflicts, this`ai, this`boosts, this`subs, this`activated, this`workspaces, entitlements`cache
      ensures Books() == BooksAfter(old(Books()), id, f, now, end)
      ensures ok == Succeeds(old(Books()), id, f)
      ensures workspaces == ModulesAfter(catalogue, packages, old(workspaces), old(Books()), id, f)
      ensures entitlements.cache in {old(entitlements.cache), old(entitlements.cache) - {orders[id].workspaceId}}
    {
      if f.DiesFirst? { return false; }
      match orders[id].orderType
      case WALLET_TOPUP => ok := CreditGrowthWallet(id, f, now, end);
      case ADDON => ok := GrantAddOn(id, f, now, end);
      case _ => ok := ActivateSubscription(id, f, now, end);
    }

    method MarkGranted(id: OrderId, now: int)
      requires id in orders
      modifies this`orders
      ensures Books() == Stamped(old(Books()), id, now)
    {
      orders := orders[id := orders[id].(grantedAt := Some(now))];
    }

    /** A grant and, if it succeeds, its stamp; what goes wrong is only logged. */
    method GrantAndMark(id: OrderId, f: Fault, now: int, end: int) returns (ok: bool)
      requires id in orders
      modifies this, entitlements`cache
      ensures packages == old(packages)
      ensures workspaces == ModulesAfter(catalogue, packages, old(workspaces), old(Books()), id, f)
      ensures Books() == Worked(old(Books()), id, f, now, end)
      ensures ok == (Succeeds(old(Books()), id, f) && !f.StampLost?)
      ensures entitlements.cache in {old(entitlements.cache), old(entitlements.cache) - {old(orders)[id].workspaceId}}
    {
      ghost var before := Books();
      ok := GrantEntitlement(id, f, now, end);
      ok := ok && !f.StampLost?;
      BooksIgnoreHandlers(before, id, f, now, end, map[]);
      if ok { MarkGranted(id, now); }
    }

    /**
     * A payment succeeded. The result says whether this call was the one that settled the order;
     * if so, nothing stale about its workspace is left in the cache.
     */
    method SettleSuccess(id: OrderId, f: Fault, now: int, end: int) returns (settled: bool)
      modifies this, entitlements`cache
      ensures settled <==> id in old(orders) && old(orders)[id].status in {PENDING, AWAITING_TRANSFER}
      ensures Books() == if settled then SettleRun(old(Books()), id, f, now, end) else old(Books())
      ensures packages == old(packages)
      ensures workspaces == if settled then ModulesAfter(catalogue, packages, old(workspaces), old(Books()), id, f)
                            else old(workspaces)
      ensures entitlements.cache == if settled then old(entitlements.cache) - {old(orders)[id].workspaceId}
                                    else old(entitlements.cache)
    {
      if id !in orders || orders[id].status in {SUCCEEDED, FAILED, CANCELLED} { return false; }
      if !Open(orders[id]) { return false; }
      SettleRunIs(Books(), id, f, now, end);
      ghost var before := Books();
      var workspaceId := orders[id].workspaceId;
      orders := orders[id := orders[id].(status := SUCCEEDED, succeededAt := Some(now))];
      assert Books() == Flipped(before, id, now);
      FlipKeepsModules(catalogue, packages, workspaces, before, id, f, now);
      var _ := GrantAndMark(id, f, now, end);
      entitlements.Invalidate(workspaceId);
      settled := true;
    }

    /** A payment failed; an order that is closed already is left alone. */
    method SettleFailure(id: OrderId) returns (settled: bool)
      modifies this`orders
      ensures settled <==> id in old(orders) && old(orders)[id].status in {PENDING, AWAITING_TRANSFER}
      ensures orders == if settled then old(orders)[id := old(orders)[id].(status := FAILED)] else old(orders)
      ensures Books() == Apply(old(Books()), Fail(id))
    {
      if id !in orders || !Open(orders[id]) { return false; }
      orders := orders[id := orders[id].(status := FAILED)];
      settled := true;
    }

    /** The recovery window of one pass. */
    method TakeOldest(pass: Pass, limit: nat) returns (w: seq<OrderId>)
      ensures IsWindow(orders, pass, limit, w) && |w| <= limit
      ensures forall i | 0 <= i < |w| :: w[i] in orders && Unfinished(orders[w[i]], pass)
      ensures forall i, j | 0 <= i < j < |w| :: w[i] != w[j] && !SettledBefore(orders[w[j]], orders[w[i]])
      ensures forall id | id in orders && Unfinished(orders[id], pass) && id !in w ::
                |w| == limit && forall i | 0 <= i < |w| :: !SettledBefore(orders[id], orders[w[i]])
    {
      w := [];
      var rest := Waiting(orders, pass);
      while |w| < limit && rest != {}
        invariant rest == (set id | id in Waiting(orders, pass) && id !in w)
        invariant IsWindow(orders, pass, |w|, w) && |w| <= limit
        decreases limit - |w|
      {
        ghost var least := Oldest(orders, rest);
        var id :| id in rest && forall other | other in rest :: NoLater(orders[id], orders[other]);
        WindowGrows(pass, w, id);
        w := w + [id];
        rest := rest - {id};
      }
      assert forall id | id in Waiting(orders, pass) && id !in w :: id in rest;
      UnfinishedIsWaiting(pass);
    }

    lemma UnfinishedIsWaiting(pass: Pass)
      ensures forall id :: id in Waiting(orders, pass) <==> id in orders && Unfinished(orders[id], pass)
      ensures forall a, b :: NoLater(a, b) ==> !SettledBefore(b, a)
    {
    }

    lemma WindowGrows(pass: Pass, w: seq<OrderId>, id: OrderId)
      requires IsWindow(orders, pass, |w|, w) && id in Waiting(orders, pass) && id !in w
      requires forall other | other in Waiting(orders, pass) && other !in w :: NoLater(orders[id], orders[other])
      ensures IsWindow(orders, pass, |w| + 1, w + [id])
    {
    }

    function FindsGrant(id: OrderId, pass: Pass, now: int): bool
      requires id in orders && InPass(orders[id], pass)
      reads this
    {
      var o := orders[id];
      match pass
      case SUBSCRIPTIONS =>
        o.workspaceId in subs && Some(subs[o.workspaceId].packageId) == o.packageId
        && subs[o.workspaceId].status == ACTIVE && subs[o.workspaceId].currentPeriodEnd > now
      case TOPUPS => HasRef(growth, id)
      case CREDITS => HasRef(ai, id)
    }

    /**
     * The sweep's work on one order. An error in the probe, or in the stamp of an order found
     * granted, is not caught and ends the sweep.
     */
    method ReconcileOne(id: OrderId, pass: Pass, f: Fault, now: int, end: int)
      returns (granted: bool, aborted: bool, ghost dropped: set<WorkspaceId>)
      requires id in orders && orders[id].status == SUCCEEDED && InPass(orders[id], pass)
      modifies this, entitlements`cache
      ensures Books() == SweepOne(old(Books()), id, f, now, end)
      ensures packages == old(packages)
      ensures workspaces == ModulesSwept(catalogue, packages, old(workspaces), old(Books()), id, f, now)
      ensures granted == GrantsAgain(old(Books()), id, f, now) && aborted == Aborts(old(Books()), id, f, now)
      ensures entitlements.cache == old(entitlements.cache) - dropped
      ensures dropped <= {old(orders)[id].workspaceId} && (granted ==> old(orders)[id].workspaceId in dropped)
    {
      SweepOneIs(Books(), id, f, now, end);
      assert FindsGrant(id, pass, now) == LooksGranted(Books(), orders[id], id, now);
      granted, aborted, dropped := false, false, {};
      if f.ProbeDies? {
        aborted := true;
      } else if FindsGrant(id, pass, now) {
        if f.StampLost? { return false, true, {}; }
        MarkGranted(id, now);
      } else {
        var workspaceId := orders[id].workspaceId;
        granted := GrantAndMark(id, f, now, end);
        if entitlements.cache != old(entitlements.cache) { dropped := {workspaceId}; }
        if granted {
          entitlements.Invalidate(workspaceId);
          dropped := {workspaceId};
          assert (old(entitlements.cache) - {workspaceId}) - {workspaceId} == old(entitlements.cache) - {workspaceId};
        }
      }
    }

    /**
     * One pass of the recovery sweep: it stamps what it finds granted and grants the rest again,
     * up to an error. `dropped` are the workspaces whose cached entitlements went.
     */
    method ReconcilePass(pass: Pass, limit: nat, faults: map<OrderId, Fault>, now: int, end: OrderId -> int)
      returns (regranted: nat, aborted: bool, ghost w: seq<OrderId>, ghost dropped: set<WorkspaceId>)
      modifies this, entitlements`cache
      ensures IsWindow(old(orders), pass, limit, w)
      ensures Books() == SweepAll(old(Books()), w, faults, now, end)
      ensures aborted == AbortsAll(old(Books()), w, faults, now, end)
      ensures regranted == |Regranted(old(Books()), w, faults, now, end)|
      ensures entitlements.cache == old(entitlements.cache) - dropped
      ensures dropped <= WorkspacesOf(old(orders), w)
      ensures Dropped(old(orders), Regranted(old(Books()), w, faults, now, end), dropped)
    {
      var rest := TakeOldest(pass, limit);
      w, dropped, regranted := rest, {}, 0;
      ghost var first := Books();
      ghost var done: seq<OrderId> := [];
      ghost var all := WorkspacesOf(orders, w);
      MinusMinus(entitlements.cache, {}, {});
      while rest != []
        invariant forall id | id in rest :: id in w && id in Waiting(first.orders, pass)
        invariant PassGoesOn(first, w, done, Books(), rest, faults, now, end) && regranted == |done|
        invariant entitlements.cache == old(entitlements.cache) - dropped
        invariant dropped <= all && Dropped(first.orders, done, dropped)
        decreases |rest|
      {
        assert rest[0] in rest && forall x | x in rest[1..] :: x in rest;
        var granted, broken, gone := ReconcileNext(first, w, done, rest, pass, faults, now, end);
        WorkspaceOf(first.orders, w, rest[0]);
        DroppedNext(first.orders, done, dropped, rest[0], granted, gone);
        MinusMinus(old(entitlements.cache), dropped, gone);
        dropped := dropped + gone;
        if broken { return regranted, true, w, dropped; }
        if granted { regranted, done := regranted + 1, done + [rest[0]]; }
        rest := rest[1..];
      }
      aborted := false;
    }

    /** The next order of a pass. */
    method ReconcileNext(ghost first: State, ghost w: seq<OrderId>, ghost done: seq<OrderId>, rest: seq<OrderId>, pass: Pass,
                         faults: map<OrderId, Fault>, now: int, end: OrderId -> int)
      returns (granted: bool, aborted: bool, ghost gone: set<WorkspaceId>)
      requires rest != [] && rest[0] in Waiting(first.orders, pass)
      requires PassGoesOn(first, w, done, Books(), rest, faults, now, end)
      modifies this, entitlements`cache
      ensures aborted ==> Books() == SweepAll(first, w, faults, now, end) && AbortsAll(first, w, faults, now, end)
                          && done == Regranted(first, w, faults, now, end)
      ensures !aborted ==> PassGoesOn(first, w, if granted then done + [rest[0]] else done, Books(), rest[1..], faults, now, end)
      ensures entitlements.cache == old(entitlements.cache) - gone
      ensures gone <= {first.orders[rest[0]].workspaceId} && (granted ==> first.orders[rest[0]].workspaceId in gone)
    {
      var id := rest[0];
      PassStep(first, w, done, Books(), rest, faults, now, end);
      granted, aborted, gone := ReconcileOne(id, pass, FaultOf(faults, id), now, end(id));
    }

    /** The whole sweep: each pass works on what the one before left, and an error ends it. */
    method ReconcileUngrantedOrders(limit: nat, faults: map<OrderId, Fault>, now: int, end: OrderId -> int)
      returns (regranted: nat, aborted: bool, ghost windows: seq<seq<OrderId>>)
      modifies this, entitlements`cache
      ensures 1 <= |windows| <= 3 && (|windows| < 3 ==> aborted)
      ensures Books() == AfterPasses(old(Books()), windows, faults, now, end)
      ensures PassesOk(old(Books()), windows, limit, faults, now, end, aborted)
      ensures regranted == RegrantedBy(old(Books()), windows, faults, now, end)
    {
      ghost var s0 := Books();
      windows, regranted := [], 0;
      regranted, aborted, windows := NextPass(SUBSCRIPTIONS, limit, faults, now, end, s0, windows, regranted);
      if aborted { return; }
      regranted, aborted, windows := NextPass(TOPUPS, limit, faults, now, end, s0, windows, regranted);
      if aborted { return; }
      regranted, aborted, windows := NextPass(CREDITS, limit, faults, now, end, s0, windows, regranted);
    }

    /** One pass more, counted in with those before it. */
    method NextPass(pass: Pass, limit: nat, faults: map<OrderId, Fault>, now: int, end: OrderId -> int, ghost s0: State,
                    ghost before: seq<seq<OrderId>>, counted: nat)
      returns (regranted: nat, aborted: bool, ghost windows: seq<seq<OrderId>>)
      requires PassAt(|before|) == pass && PassesOk(s0, before, limit, faults, now, end, false)
      requires Books() == AfterPasses(s0, before, faults, now, end) && counted == RegrantedBy(s0, before, faults, now, end)
      modifies this, entitlements`cache
      ensures |windows| == |before| + 1 && PassesOk(s0, windows, limit, faults, now, end, aborted)
      ensures Books() == AfterPasses(s0, windows, faults, now, end)
      ensures regranted == RegrantedBy(s0, windows, faults, now, end)
    {
      var n;
      ghost var w, dropped;
      n, aborted, w, dropped := ReconcilePass(pass, limit, faults, now, end);
      PassesExtend(s0, before, w, limit, faults, now, end, aborted);
      assert (before + [w])[..|before|] == before;
      regranted, windows := counted + n, before + [w];
    }

    /** A provider's renewal, on some row with its reference; stale and repeated ones are acknowledged. */
    method ExtendSubscriptionByProviderRef(providerRef: string, newPeriodEnd: int) returns (found: bool, ghost ws: WorkspaceId)
      modifies this`subs, entitlements`cache
      ensures found <==> exists ws :: ws in old(subs) && old(subs)[ws].providerRef == Some(providerRef)
      ensures found ==> ws in old(subs) && old(subs)[ws].providerRef == Some(providerRef)
                        && subs == old(subs)[ws := L.Extend(old(subs)[ws], newPeriodEnd)]
      ensures !found ==> subs == old(subs)
      ensures entitlements.cache == if subs == old(subs) then old(entitlements.cache) else old(entitlements.cache) - {ws}
    {
      var rows := set ws | ws in subs && subs[ws].providerRef == Some(providerRef);
      ws := "";
      if rows == {} {
        assert forall ws | ws in subs && subs[ws].providerRef == Some(providerRef) :: ws in rows;
        return false, ws;
      }
      var row :| row in rows;
      ws, found := row, true;
      if newPeriodEnd <= subs[row].currentPeriodEnd { return; }
      subs := subs[row := subs[row].(status := ACTIVE, currentPeriodStart := subs[row].currentPeriodEnd,
                                     currentPeriodEnd := newPeriodEnd)];
      assert subs[row] != old(subs)[row];
      entitlements.Invalidate(row);
    }

    /** The provider's cancellation takes effect at the period's end. */
    method CancelSubscriptionByProviderRef(providerRef: string) returns (found: bool, ghost ws: WorkspaceId)
      modifies this`subs, entitlements`cache
      ensures found <==> exists ws :: ws in old(subs) && old(subs)[ws].providerRef == Some(providerRef)
      ensures found ==> ws in old(subs) && old(subs)[ws].providerRef == Some(providerRef)
                        && subs == old(subs)[ws := old(subs)[ws].(cancelAtPeriodEnd := true)]
                        && entitlements.cache == old(entitlements.cache) - {ws}
      ensures !found ==> subs == old(subs) && entitlements.cache == old(entitlements.cache)
    {
      var rows := set ws | ws in subs && subs[ws].providerRef == Some(providerRef);
      ws := "";
      if rows == {} {
        assert forall ws | ws in subs && subs[ws].providerRef == Some(providerRef) :: ws in rows;
        return false, ws;
      }
      var row :| row in rows;
      ws, found := row, true;
      subs := subs[row := subs[row].(cancelAtPeriodEnd := true)];
      entitlements.Invalidate(row);
    }
  }

  lemma MinusMinus<K, V>(m: map<K, V>, a: set<K>, b: set<K>)
    ensures (m - a) - b == m - (a + b) && m - {} == m
  {
  }

  function WorkspacesOf(orders: map<OrderId, Order>, ids: seq<OrderId>): set<WorkspaceId> {
    set id | id in ids && id in orders :: orders[id].workspaceId
  }

  lemma WorkspaceOf(orders: map<OrderId, Order>, w: seq<OrderId>, id: OrderId)
    requires id in w && id in orders
    ensures orders[id].workspaceId in WorkspacesOf(orders, w)
  {
  }

  /** Every order granted something again has its workspace among those dropped from the cache. */
  ghost predicate Dropped(orders: map<OrderId, Order>, done: seq<OrderId>, dropped: set<WorkspaceId>) {
    forall id | id in done && id in orders :: orders[id].workspaceId in dropped
  }

  lemma DroppedNext(orders: map<OrderId, Order>, done: seq<OrderId>, dropped: set<WorkspaceId>, id: OrderId, granted: bool,
                    gone: set<WorkspaceId>)
    requires Dropped(orders, done, dropped) && id in orders && (granted ==> orders[id].workspaceId in gone)
    ensures Dropped(orders, if granted then done + [id] else done, dropped + gone)
  {
  }

  /** The rest of a pass, from where it stands, completes the whole of it. */
  ghost predicate PassGoesOn(first: State, w: seq<OrderId>, done: seq<OrderId>, s: State, rest: seq<OrderId>,
                             faults: map<OrderId, Fault>, now: int, end: OrderId -> int) {
    && OrdersKept(first.orders, s.orders)
    && SweepAll(s, rest, faults, now, end) == SweepAll(first, w, faults, now, end)
    && AbortsAll(s, rest, faults, now, end) == AbortsAll(first, w, faults, now, end)
    && done + Regranted(s, rest, faults, now, end) == Regranted(first, w, faults, now, end)
  }

  lemma PassStep(first: State, w: seq<OrderId>, done: seq<OrderId>, s: State, rest: seq<OrderId>,
                 faults: map<OrderId, Fault>, now: int, end: OrderId -> int)
    requires PassGoesOn(first, w, done, s, rest, faults, now, end) && rest != [] && rest[0] in first.orders
    ensures rest[0] in s.orders && DutyOf(s.orders[rest[0]]) == DutyOf(first.orders[rest[0]])
            && s.orders[rest[0]].workspaceId == first.orders[rest[0]].workspaceId
            && (!Open(first.orders[rest[0]]) ==> s.orders[rest[0]].status == first.orders[rest[0]].status)
    ensures var f := FaultOf(faults, rest[0]);
            var s' := SweepOne(s, rest[0], f, now, end(rest[0]));
            if Aborts(s, rest[0], f, now) then
              s' == SweepAll(first, w, faults, now, end) && AbortsAll(first, w, faults, now, end)
              && done == Regranted(first, w, faults, now, end)
            else PassGoesOn(first, w, if GrantsAgain(s, rest[0], f, now) then done + [rest[0]] else done, s', rest[1..],
                            faults, now, end)
  {
    var id := rest[0];
    SweepAllStep(s, rest, faults, now, end);
    OneKeeps(s, id, FaultOf(faults, id), now, end(id));
    var s' := SweepOne(s, id, FaultOf(faults, id), now, end(id));
    KeptOnward(first.orders, s.orders, s'.orders);
    Associates(done, id, Regranted(s', rest[1..], faults, now, end));
    assert done + [] == done;
    assert [] + Regranted(s', rest[1..], faults, now, end) == Regranted(s', rest[1..], faults, now, end);
  }

  lemma KeptOnward(a: map<OrderId, Order>, b: map<OrderId, Order>, c: map<OrderId, Order>)
    requires OrdersKept(a, b) && OrdersKept(b, c)
    ensures OrdersKept(a, c)
  {
  }

  lemma Associates(done: seq<OrderId>, id: OrderId, rest: seq<OrderId>)
    ensures (done + [id]) + rest == done + ([id] + rest)
  {
  }

  /** The books after a number of passes. */
  ghost function AfterPasses(s: State, windows: seq<seq<OrderId>>, faults: map<OrderId, Fault>, now: int,
                             end: OrderId -> int): State {
    if windows == [] then s
    else SweepAll(AfterPasses(s, windows[..|windows| - 1], faults, now, end), windows[|windows| - 1], faults, now, end)
  }

  function PassAt(k: nat): Pass { if k == 0 then SUBSCRIPTIONS else if k == 1 then TOPUPS else CREDITS }

  /** Each pass works on a window of the tables it finds; only the last one may break off. */
  ghost predicate PassesOk(s: State, windows: seq<seq<OrderId>>, limit: nat, faults: map<OrderId, Fault>, now: int,
                           end: OrderId -> int, aborted: bool) {
    forall k | 0 <= k < |windows| ::
      var before := AfterPasses(s, windows[..k], faults, now, end);
      && IsWindow(before.orders, PassAt(k), limit, windows[k])
      && AbortsAll(before, windows[k], faults, now, end) == (aborted && k == |windows| - 1)
  }

  ghost function RegrantedBy(s: State, windows: seq<seq<OrderId>>, faults: map<OrderId, Fault>, now: int,
                             end: OrderId -> int): nat {
    if windows == [] then 0
    else
      var init := windows[..|windows| - 1];
      RegrantedBy(s, init, faults, now, end)
      + |Regranted(AfterPasses(s, init, faults, now, end), windows[|windows| - 1], faults, now, end)|
  }

  lemma PassesExtend(s: State, windows: seq<seq<OrderId>>, w: seq<OrderId>, limit: nat, faults: map<OrderId, Fault>,
                     now: int, end: OrderId -> int, aborted: bool)
    requires PassesOk(s, windows, limit, faults, now, end, false)
    requires var before := AfterPasses(s, windows, faults, now, end);
             IsWindow(before.orders, PassAt(|windows|), limit, w) && AbortsAll(before, w, faults, now, end) == aborted
    ensures PassesOk(s, windows + [w], limit, faults, now, end, aborted)
  {
    var all := windows + [w];
    forall k | 0 <= k < |all|
      ensures var before := AfterPasses(s, all[..k], faults, now, end);
              && IsWindow(before.orders, PassAt(k), limit, all[k])
              && AbortsAll(before, all[k], faults, now, end) == (aborted && k == |all| - 1)
    {
      if k < |windows| { assert all[..k] == windows[..k]; } else { assert all[..k] == windows; }
    }
  }
}
