/**
 * Settlement under any interleaving of payment webhooks, their replays, failures and
 * recovery sweeps, each dying anywhere
 * (backend/src/modules/billing/billing-settlement.service.ts:95-372, 514-558;
 * backend/src/modules/marketing/wallet/growth-wallet.service.ts:258-320;
 * backend/src/modules/marketing/ai/ai-credit-wallet.service.ts:75-123).
 *
 * A run is any sequence of steps; a step that is not enabled changes nothing. A credit
 * transaction looks for the wallet row and, if there is none, inserts one at its commit; the
 * insert fails on the row's unique index exactly when another transaction has created the row
 * in between. `conflicts` and `activated` are history: the orders whose growth credit failed
 * that way, and the orders whose activation was written.
 */
module BillingRuns {
  import opened Billing

  type Pid = nat

  /** Where a handler stands with its order. */
  datatype Handler =
    | Flipping(id: OrderId)
    | Probing(id: OrderId)
    | Granting(id: OrderId)
    | Posting(id: OrderId)
    | Committing(id: OrderId, found: bool)
    | Stamping(id: OrderId)

  datatype State = State(orders: map<OrderId, Order>, growth: Wallet, ai: Wallet, boosts: seq<Boost>,
                         subs: Subscriptions, handlers: map<Pid, Handler>, conflicts: set<OrderId>, activated: set<OrderId>)

  datatype Step =
    | Place(newId: OrderId, order: Order)
    | Settle(pid: Pid, id: OrderId)
    | Flip(pid: Pid, now: int)
    | Fail(id: OrderId)
    | Pick(pid: Pid, id: OrderId)
    | Probe(pid: Pid, now: int)
    | Precheck(pid: Pid)
    | Lookup(pid: Pid)
    | Commit(pid: Pid, replyLost: bool)
    | OpenRow(growth: bool, ws: WorkspaceId, currency: string)
    | CreateBoost(pid: Pid, replyLost: bool)
    | Upsert(pid: Pid, now: int, end: int, replyLost: bool)
    | Stamp(pid: Pid, now: int)
    | Throw(pid: Pid)

  ghost const NOTHING := Wallet(map[], map[], [])
  ghost const INIT := State(map[], NOTHING, NOTHING, [], map[], map[], {}, {})

  ghost function To(s: State, pid: Pid, h: Handler): State { s.(handlers := s.handlers[pid := h]) }

  ghost function Ends(s: State, pid: Pid): State { s.(handlers := s.handlers - {pid}) }

  /** A finished write either lets the handler go on to the stamp or strands it. */
  ghost function Wrote(s: State, pid: Pid, id: OrderId, replyLost: bool): State {
    if replyLost then Ends(s, pid) else To(s, pid, Stamping(id))
  }

  /** A handler about to write a credit into one of the wallets. */
  predicate Pays(s: State, h: Handler) {
    h.id in s.orders && (DutyOf(s.orders[h.id]).CreditGrowth? || DutyOf(s.orders[h.id]).CreditAi?)
  }

  function WalletFor(s: State, o: Order): Wallet { if DutyOf(o).CreditAi? then s.ai else s.growth }

  ghost function WithWallet(s: State, o: Order, w: Wallet): State {
    if DutyOf(o).CreditAi? then s.(ai := w) else s.(growth := w)
  }

  /** A growth credit in another currency than the wallet's is refused. */
  predicate Refused(s: State, o: Order) {
    DutyOf(o).CreditGrowth? && OtherCurrency(s.growth, o.workspaceId, o.currency)
  }

  /** The probe's verdict that the grant is there already. */
  ghost predicate LooksGranted(s: State, o: Order, id: OrderId, now: int) {
    match DutyOf(o)
    case CreditGrowth(_) => HasRef(s.growth, id)
    case CreditAi(_) => HasRef(s.ai, id)
    case Activate(p) => o.workspaceId in s.subs && Some(s.subs[o.workspaceId].packageId) == p
                        && s.subs[o.workspaceId].status == ACTIVE && s.subs[o.workspaceId].currentPeriodEnd > now
    case _ => false
  }

  function EntryFor(o: Order, id: OrderId): Entry {
    Entry(o.workspaceId, match DutyOf(o) case CreditGrowth(a) => a case CreditAi(a) => a case _ => 0, id)
  }

  ghost function Apply(s: State, step: Step): State {
    match step
    case Place(newId, order) =>
      if newId in s.orders || !Open(order) || order.grantedAt.Some? then s
      else s.(orders := s.orders[newId := order])
    case Settle(pid, id) =>
      if pid in s.handlers || id !in s.orders || !Open(s.orders[id]) then s else To(s, pid, Flipping(id))
    case Flip(pid, now) =>
      if pid !in s.handlers || !s.handlers[pid].Flipping? || s.handlers[pid].id !in s.orders then s
      else
        var id := s.handlers[pid].id;
        if !Open(s.orders[id]) then Ends(s, pid)
        else To(s.(orders := s.orders[id := s.orders[id].(status := SUCCEEDED, succeededAt := Some(now))]), pid,
                Granting(id))
    case Fail(id) =>
      if id in s.orders && Open(s.orders[id]) then s.(orders := s.orders[id := s.orders[id].(status := FAILED)]) else s
    case Pick(pid, id) =>
      if pid !in s.handlers && id in s.orders && s.orders[id].status == SUCCEEDED && Recoverable(s.orders[id])
      then To(s, pid, Probing(id)) else s
    case Probe(pid, now) =>
      if pid !in s.handlers || !s.handlers[pid].Probing? || s.handlers[pid].id !in s.orders then s
      else
        var id := s.handlers[pid].id;
        To(s, pid, if LooksGranted(s, s.orders[id], id, now) then Stamping(id) else Granting(id))
    case Precheck(pid) =>
      if pid !in s.handlers || !s.handlers[pid].Granting? || s.handlers[pid].id !in s.orders then s
      else
        var id := s.handlers[pid].id;
        match DutyOf(s.orders[id]) {
          case CreditGrowth(a) =>
            if a <= 0 then Ends(s, pid) else To(s, pid, if HasRef(s.growth, id) then Stamping(id) else Posting(id))
          case CreditAi(a) => To(s, pid, if HasRef(s.ai, id) then Stamping(id) else Posting(id))
          case _ => s
        }
    case Lookup(pid) =>
      if pid !in s.handlers || !s.handlers[pid].Posting? || !Pays(s, s.handlers[pid]) then s
      else
        var id := s.handlers[pid].id;
        var o := s.orders[id];
        if Refused(s, o) then Ends(s, pid)
        else To(s, pid, Committing(id, HasRow(WalletFor(s, o), o.workspaceId)))
    case Commit(pid, replyLost) =>
      if pid !in s.handlers || !s.handlers[pid].Committing? || !Pays(s, s.handlers[pid]) then s
      else
        var id := s.handlers[pid].id;
        var o := s.orders[id];
        if !s.handlers[pid].found && HasRow(WalletFor(s, o), o.workspaceId) then
          if DutyOf(o).CreditAi? then Ends(s, pid) else To(s.(conflicts := s.conflicts + {id}), pid, Stamping(id))
        else Wrote(WithWallet(s, o, Post(WalletFor(s, o), EntryFor(o, id), o.currency)), pid, id, replyLost)
    case OpenRow(growth, ws, currency) =>
      if growth then s.(growth := Opened(s.growth, ws, currency)) else s.(ai := Opened(s.ai, ws, currency))
    case CreateBoost(pid, replyLost) =>
      if pid !in s.handlers || !s.handlers[pid].Granting? || s.handlers[pid].id !in s.orders
         || !DutyOf(s.orders[s.handlers[pid].id]).AddBoost? then s
      else
        var id := s.handlers[pid].id;
        var o := s.orders[id];
        var end := if o.workspaceId in s.subs then Some(s.subs[o.workspaceId].currentPeriodEnd) else None;
        Wrote(s.(boosts := s.boosts + [Boost(o.workspaceId, DutyOf(o).code, o.quantity, end, id)]), pid, id, replyLost)
    case Upsert(pid, now, end, replyLost) =>
      if pid !in s.handlers || !s.handlers[pid].Granting? || s.handlers[pid].id !in s.orders
         || !DutyOf(s.orders[s.handlers[pid].id]).Activate?
         || DutyOf(s.orders[s.handlers[pid].id]).packageId.None? then s
      else
        var id := s.handlers[pid].id;
        var o := s.orders[id];
        Wrote(s.(subs := s.subs[o.workspaceId :=
                   Subscription(o.packageId.value, ACTIVE, now, end, false, None, o.providerRef)],
                 activated := s.activated + {id}), pid, id, replyLost)
    case Stamp(pid, now) =>
      if pid !in s.handlers || !s.handlers[pid].Stamping? || s.handlers[pid].id !in s.orders then s
      else
        var id := s.handlers[pid].id;
        Ends(s.(orders := s.orders[id := s.orders[id].(grantedAt := Some(now))]), pid)
    case Throw(pid) => Ends(s, pid)
  }

  ghost function Exec(s: State, steps: seq<Step>): State
    decreases |steps|
  {
    if steps == [] then s else Exec(Apply(s, steps[0]), steps[1..])
  }

  // ------------------------------------------------------------- invariants

  /** The handler runs or ran a grant, so the order was paid. */
  predicate Acts(h: Handler) { !h.Flipping? }

  /** What the order is owed is on the books. */
  ghost predicate Landed(s: State, id: OrderId)
    requires id in s.orders
  {
    match DutyOf(s.orders[id])
    case CreditGrowth(_) => HasRef(s.growth, id) || id in s.conflicts
    case CreditAi(_) => HasRef(s.ai, id)
    case AddBoost(_) => HasBoost(s.boosts, id)
    case UnknownAddOn => false
    case Activate(_) => true
  }

  ghost predicate HandlerOk(s: State, h: Handler) {
    && h.id in s.orders
    && (Acts(h) ==> s.orders[h.id].status == SUCCEEDED)
    && (h.Probing? ==> Recoverable(s.orders[h.id]))
    && (h.Posting? || h.Committing? ==> Pays(s, h) && EntryFor(s.orders[h.id], h.id).delta > 0)
    && (h.Committing? && h.found ==> HasRow(WalletFor(s, s.orders[h.id]), s.orders[h.id].workspaceId))
    && (h.Stamping? ==> Landed(s, h.id))
  }

  ghost predicate OrderOk(s: State, id: OrderId)
    requires id in s.orders
  {
    && (s.orders[id].status == SUCCEEDED ==> s.orders[id].succeededAt.Some?)
    && (s.orders[id].grantedAt.Some? ==> s.orders[id].status == SUCCEEDED && Landed(s, id))
  }

  /** What an entry of the growth wallet, or else of the AI wallet, has to pay for. */
  function Owed(growth: bool, e: Entry): Duty { if growth then CreditGrowth(e.delta) else CreditAi(e.delta) }

  /** Every entry of a ledger pays for one paid order of its kind, in full. */
  ghost predicate PaysFor(orders: map<OrderId, Order>, growth: bool, ledger: seq<Entry>) {
    forall i | 0 <= i < |ledger| :: var e := ledger[i];
      e.ref in orders && orders[e.ref].status == SUCCEEDED && DutyOf(orders[e.ref]) == Owed(growth, e)
      && orders[e.ref].workspaceId == e.workspaceId && e.delta > 0
  }

  ghost predicate EntriesOk(s: State) {
    PaysFor(s.orders, true, s.growth.ledger) && PaysFor(s.orders, false, s.ai.ledger)
  }

  /** The handler that may create the boost row of order `id`. */
  ghost predicate HoldsTicket(s: State, pid: Pid, id: OrderId) {
    pid in s.handlers && s.handlers[pid] == Granting(id) && id in s.orders && DutyOf(s.orders[id]).AddBoost?
  }

  /** Rows are for paid boost orders, one row an order. */
  ghost predicate RowsOk(orders: map<OrderId, Order>, boosts: seq<Boost>) {
    && (forall i | 0 <= i < |boosts| :: boosts[i].origin in orders
          && orders[boosts[i].origin].status == SUCCEEDED && DutyOf(orders[boosts[i].origin]).AddBoost?)
    && (forall i, j :: 0 <= i < j < |boosts| ==> boosts[i].origin != boosts[j].origin)
  }

  ghost predicate BoostsOk(s: State) {
    && RowsOk(s.orders, s.boosts)
    && (forall p, id | HoldsTicket(s, p, id) :: !HasBoost(s.boosts, id))
    && (forall p, q, id | HoldsTicket(s, p, id) && HoldsTicket(s, q, id) :: p == q)
  }

  ghost predicate HandlersOk(s: State) { forall p | p in s.handlers :: HandlerOk(s, s.handlers[p]) }

  ghost predicate OrdersOk(s: State) { forall id | id in s.orders :: OrderOk(s, id) }

  ghost predicate Inv(s: State) {
    Conserved(s.growth) && Conserved(s.ai) && EntriesOk(s) && BoostsOk(s) && HandlersOk(s) && OrdersOk(s)
  }

  /** Orders keep what they are for; closed ones keep their status and their stamp. */
  ghost predicate OrdersKept(before: map<OrderId, Order>, after: map<OrderId, Order>) {
    forall id | id in before :: id in after && DutyOf(after[id]) == DutyOf(before[id])
      && after[id].workspaceId == before[id].workspaceId && after[id].currency == before[id].currency
      && (!Open(before[id]) ==> after[id].status == before[id].status && after[id].succeededAt == before[id].succeededAt)
      && (before[id].grantedAt.Some? ==> after[id].grantedAt.Some?)
  }

  /** Books only grow. */
  ghost predicate BooksGrow(s: State, s': State) {
    && s.growth.ledger <= s'.growth.ledger && s.ai.ledger <= s'.ai.ledger && s.boosts <= s'.boosts
    && s.growth.balances.Keys <= s'.growth.balances.Keys && s.ai.balances.Keys <= s'.ai.balances.Keys
    && s.conflicts <= s'.conflicts && s.activated <= s'.activated
  }

  ghost predicate Keeps(s: State, s': State) { OrdersKept(s.orders, s'.orders) && BooksGrow(s, s') }

  /** Which steps write which tables. */
  lemma WhoWrites(s: State, step: Step)
    ensures !(step.Place? || step.Flip? || step.Fail? || step.Stamp?) ==> Apply(s, step).orders == s.orders
    ensures !step.Commit? ==> Apply(s, step).conflicts == s.conflicts
    ensures !step.Commit? && !step.OpenRow? ==> Apply(s, step).growth == s.growth && Apply(s, step).ai == s.ai
    ensures !step.CreateBoost? ==> Apply(s, step).boosts == s.boosts
  {
  }

  lemma OnlyUpsertsActivate(s: State, step: Step)
    requires !step.Upsert?
    ensures Apply(s, step).activated == s.activated && Apply(s, step).subs == s.subs
  {
  }

  lemma UpsertActivates(s: State, step: Step)
    requires step.Upsert?
    ensures Apply(s, step).activated
            == if Apply(s, step) == s then s.activated else s.activated + {s.handlers[step.pid].id}
  {
  }

  lemma StepKeepsOrders(s: State, step: Step)
    ensures OrdersKept(s.orders, Apply(s, step).orders)
  {
    WhoWrites(s, step);
    if step.Place? {
      PlacingKeepsOrders(s, step);
    } else if step.Flip? {
      FlippingKeepsOrders(s, step);
    } else if step.Fail? {
      FailingKeepsOrders(s, step);
    } else if step.Stamp? {
      StampingKeepsOrders(s, step);
    }
  }

  lemma PlacingKeepsOrders(s: State, step: Step)
    requires step.Place?
    ensures OrdersKept(s.orders, Apply(s, step).orders)
  {
  }

  lemma FlippingKeepsOrders(s: State, step: Step)
    requires step.Flip?
    ensures OrdersKept(s.orders, Apply(s, step).orders)
  {
  }

  lemma FailingKeepsOrders(s: State, step: Step)
    requires step.Fail?
    ensures OrdersKept(s.orders, Apply(s, step).orders)
  {
    if Apply(s, step) != s {
      var o := s.orders[step.id];
      assert Apply(s, step).orders == s.orders[step.id := o.(status := FAILED)] && Open(o);
    }
  }

  lemma StampingKeepsOrders(s: State, step: Step)
    requires step.Stamp?
    ensures OrdersKept(s.orders, Apply(s, step).orders)
  {
  }

  lemma StepGrowsBooks(s: State, step: Step)
    ensures BooksGrow(s, Apply(s, step))
  {
    WhoWrites(s, step);
    if step.Commit? {
      CommitWrites(s, step);
      CommitGrowsBooks(s, step);
    }
  }

  /** The wallet write of a commit: into the wallet of its order's kind, at most one entry. */
  ghost predicate PostsOne(s: State, step: Step) {
    var s' := Apply(s, step);
    && s'.orders == s.orders && s'.boosts == s.boosts && s.conflicts <= s'.conflicts
    && s'.activated == s.activated
    && (|| (s'.growth == s.growth && s'.ai == s.ai)
        || (step.Commit? && step.pid in s.handlers && s.handlers[step.pid].Committing? && Pays(s, s.handlers[step.pid])
            && (var o := s.orders[s.handlers[step.pid].id];
                var w := Post(WalletFor(s, o), EntryFor(o, s.handlers[step.pid].id), o.currency);
                if DutyOf(o).CreditAi? then s'.ai == w && s'.growth == s.growth else s'.growth == w && s'.ai == s.ai)))
  }

  lemma CommitWrites(s: State, step: Step)
    requires step.Commit?
    ensures PostsOne(s, step)
  {
  }

  lemma CommitGrowsBooks(s: State, step: Step)
    requires step.Commit? && PostsOne(s, step)
    ensures BooksGrow(s, Apply(s, step))
  {
  }

  lemma StepKeeps(s: State, step: Step)
    ensures Keeps(s, Apply(s, step))
  {
    StepKeepsOrders(s, step);
    StepGrowsBooks(s, step);
  }

  lemma LandedLater(s: State, s': State, id: OrderId)
    requires Keeps(s, s') && id in s.orders && Landed(s, id)
    ensures Landed(s', id)
  {
    if HasRef(s.growth, id) {
      var i :| 0 <= i < |s.growth.ledger| && s.growth.ledger[i].ref == id;
      assert s'.growth.ledger[i].ref == id;
    }
    if HasRef(s.ai, id) {
      var i :| 0 <= i < |s.ai.ledger| && s.ai.ledger[i].ref == id;
      assert s'.ai.ledger[i].ref == id;
    }
    if HasBoost(s.boosts, id) {
      var i :| 0 <= i < |s.boosts| && s.boosts[i].origin == id;
      assert s'.boosts[i].origin == id;
    }
  }

  lemma PaysForLater(before: map<OrderId, Order>, after: map<OrderId, Order>, growth: bool, ledger: seq<Entry>)
    requires PaysFor(before, growth, ledger) && OrdersKept(before, after)
    ensures PaysFor(after, growth, ledger)
  {
    forall i | 0 <= i < |ledger|
      ensures ledger[i].ref in after && after[ledger[i].ref].status == SUCCEEDED
              && DutyOf(after[ledger[i].ref]) == Owed(growth, ledger[i])
              && after[ledger[i].ref].workspaceId == ledger[i].workspaceId && ledger[i].delta > 0
    {
      var e := ledger[i];
      assert e.ref in before && !Open(before[e.ref]);
    }
  }

  lemma PostPays(orders: map<OrderId, Order>, growth: bool, w: Wallet, e: Entry, currency: string)
    requires PaysFor(orders, growth, w.ledger) && PaysFor(orders, growth, [e])
    ensures PaysFor(orders, growth, Post(w, e, currency).ledger)
  {
    assert [e][0] == e;
  }

  lemma KeepsWallets(s: State, step: Step)
    requires Inv(s)
    ensures Conserved(Apply(s, step).growth) && Conserved(Apply(s, step).ai)
  {
    WhoWrites(s, step);
    if step.Commit? {
      CommitKeepsWallets(s, step);
    } else if step.OpenRow? {
      OpenConserves(s.growth, step.ws, step.currency);
      OpenConserves(s.ai, step.ws, step.currency);
    }
  }

  lemma CommitKeepsWallets(s: State, step: Step)
    requires Inv(s) && step.Commit?
    ensures Conserved(Apply(s, step).growth) && Conserved(Apply(s, step).ai)
  {
    CommitWrites(s, step);
    var s' := Apply(s, step);
    if !(s'.growth == s.growth && s'.ai == s.ai) {
      var o := s.orders[s.handlers[step.pid].id];
      PostConserves(WalletFor(s, o), EntryFor(o, s.handlers[step.pid].id), o.currency);
    }
  }

  lemma CommitKeepsEntries(s: State, step: Step)
    requires Inv(s) && step.Commit?
    ensures EntriesOk(Apply(s, step))
  {
    CommitWrites(s, step);
    var s' := Apply(s, step);
    if !(s'.growth == s.growth && s'.ai == s.ai) {
      var id := s.handlers[step.pid].id;
      assert HandlerOk(s, s.handlers[step.pid]);
      var o := s.orders[id];
      PostPays(s.orders, DutyOf(o).CreditGrowth?, WalletFor(s, o), EntryFor(o, id), o.currency);
    }
  }

  lemma KeepsEntries(s: State, step: Step)
    requires Inv(s)
    ensures EntriesOk(Apply(s, step))
  {
    var s' := Apply(s, step);
    if step.Commit? {
      CommitKeepsEntries(s, step);
    } else {
      WhoWrites(s, step);
      LedgersStay(s, step);
      StepKeepsOrders(s, step);
      PaysForLater(s.orders, s'.orders, true, s.growth.ledger);
      PaysForLater(s.orders, s'.orders, false, s.ai.ledger);
    }
  }

  lemma LedgersStay(s: State, step: Step)
    requires !step.Commit?
    ensures Apply(s, step).growth.ledger == s.growth.ledger && Apply(s, step).ai.ledger == s.ai.ledger
  {
    WhoWrites(s, step);
  }

  /** A wallet row keeps its currency. */
  lemma CurrenciesStay(s: State, step: Step)
    requires Inv(s)
    ensures forall ws | ws in s.growth.currencies ::
              ws in Apply(s, step).growth.currencies && Apply(s, step).growth.currencies[ws] == s.growth.currencies[ws]
  {
    WhoWrites(s, step);
    if step.Commit? { CommitWrites(s, step); }
  }

  lemma HandlerOkLater(s: State, s': State, h: Handler)
    requires HandlerOk(s, h) && Keeps(s, s')
    ensures HandlerOk(s', h)
  {
    if h.Stamping? { LandedLater(s, s', h.id); }
  }

  lemma PostingLands(w: Wallet, e: Entry, currency: string)
    ensures HasRef(Post(w, e, currency), e.ref)
  {
    if !HasRef(w, e.ref) { assert Post(w, e, currency).ledger[|w.ledger|].ref == e.ref; }
  }

  lemma ReaderOk(s: State, step: Step, p: Pid)
    requires Inv(s) && (step.Settle? || step.Pick? || step.Probe?)
    requires p in Apply(s, step).handlers
    requires p !in s.handlers || Apply(s, step).handlers[p] != s.handlers[p]
    ensures HandlerOk(Apply(s, step), Apply(s, step).handlers[p])
  {
    if p in s.handlers { assert HandlerOk(s, s.handlers[p]); }
  }

  lemma FlipperOk(s: State, step: Step, p: Pid)
    requires Inv(s) && step.Flip?
    requires p in Apply(s, step).handlers
    requires p !in s.handlers || Apply(s, step).handlers[p] != s.handlers[p]
    ensures HandlerOk(Apply(s, step), Apply(s, step).handlers[p])
  {
    assert HandlerOk(s, s.handlers[p]);
  }

  lemma CheckerOk(s: State, step: Step, p: Pid)
    requires Inv(s) && step.Precheck?
    requires p in Apply(s, step).handlers
    requires p !in s.handlers || Apply(s, step).handlers[p] != s.handlers[p]
    ensures HandlerOk(Apply(s, step), Apply(s, step).handlers[p])
  {
    assert HandlerOk(s, s.handlers[p]);
  }

  lemma LookerOk(s: State, step: Step, p: Pid)
    requires Inv(s) && step.Lookup?
    requires p in Apply(s, step).handlers
    requires p !in s.handlers || Apply(s, step).handlers[p] != s.handlers[p]
    ensures HandlerOk(Apply(s, step), Apply(s, step).handlers[p])
  {
    assert HandlerOk(s, s.handlers[p]);
  }

  /** What a commit does: it meets a row that its lookup did not see, or it writes the entry. */
  lemma Committed(s: State, p: Pid, id: OrderId, found: bool, replyLost: bool)
    requires p in s.handlers && s.handlers[p] == Committing(id, found) && id in s.orders
    requires DutyOf(s.orders[id]).CreditGrowth? || DutyOf(s.orders[id]).CreditAi?
    ensures var o := s.orders[id];
            Apply(s, Commit(p, replyLost))
            == if !found && HasRow(WalletFor(s, o), o.workspaceId) then
                 if DutyOf(o).CreditAi? then Ends(s, p) else To(s.(conflicts := s.conflicts + {id}), p, Stamping(id))
               else Wrote(WithWallet(s, o, Post(WalletFor(s, o), EntryFor(o, id), o.currency)), p, id, replyLost)
  {
  }

  lemma CommitterMoves(s: State, step: Step, p: Pid)
    requires step.Commit? && p in Apply(s, step).handlers
    requires p !in s.handlers || Apply(s, step).handlers[p] != s.handlers[p]
    ensures step.pid == p && p in s.handlers && s.handlers[p].Committing?
  {
  }

  lemma CommitterOk(s: State, step: Step, p: Pid)
    requires Inv(s) && step.Commit?
    requires p in Apply(s, step).handlers
    requires p !in s.handlers || Apply(s, step).handlers[p] != s.handlers[p]
    ensures HandlerOk(Apply(s, step), Apply(s, step).handlers[p])
  {
    CommitterMoves(s, step, p);
    assert HandlerOk(s, s.handlers[p]);
    if DutyOf(s.orders[s.handlers[p].id]).CreditAi? {
      AiCommitterOk(s, step, p);
    } else {
      GrowthCommitterOk(s, step, p);
    }
  }

  lemma AiCommitterOk(s: State, step: Step, p: Pid)
    requires step.Commit? && step.pid == p && p in s.handlers && s.handlers[p].Committing?
    requires HandlerOk(s, s.handlers[p]) && DutyOf(s.orders[s.handlers[p].id]).CreditAi?
    requires p in Apply(s, step).handlers && Apply(s, step).handlers[p] != s.handlers[p]
    ensures HandlerOk(Apply(s, step), Apply(s, step).handlers[p])
  {
    var id := s.handlers[p].id;
    Committed(s, p, id, s.handlers[p].found, step.replyLost);
    PostingLands(s.ai, EntryFor(s.orders[id], id), s.orders[id].currency);
  }

  lemma GrowthCommitterOk(s: State, step: Step, p: Pid)
    requires step.Commit? && step.pid == p && p in s.handlers && s.handlers[p].Committing?
    requires HandlerOk(s, s.handlers[p]) && DutyOf(s.orders[s.handlers[p].id]).CreditGrowth?
    requires p in Apply(s, step).handlers && Apply(s, step).handlers[p] != s.handlers[p]
    ensures HandlerOk(Apply(s, step), Apply(s, step).handlers[p])
  {
    var id := s.handlers[p].id;
    Committed(s, p, id, s.handlers[p].found, step.replyLost);
    PostingLands(s.growth, EntryFor(s.orders[id], id), s.orders[id].currency);
  }

  lemma BoosterOk(s: State, step: Step, p: Pid)
    requires Inv(s) && step.CreateBoost?
    requires p in Apply(s, step).handlers
    requires p !in s.handlers || Apply(s, step).handlers[p] != s.handlers[p]
    ensures HandlerOk(Apply(s, step), Apply(s, step).handlers[p])
  {
    assert HandlerOk(s, s.handlers[p]);
    assert Apply(s, step).boosts[|s.boosts|].origin == s.handlers[p].id;
  }

  lemma ActivatorOk(s: State, step: Step, p: Pid)
    requires Inv(s) && step.Upsert?
    requires p in Apply(s, step).handlers
    requires p !in s.handlers || Apply(s, step).handlers[p] != s.handlers[p]
    ensures HandlerOk(Apply(s, step), Apply(s, step).handlers[p])
  {
    assert HandlerOk(s, s.handlers[p]);
  }

  lemma MovedHandlerOk(s: State, step: Step, p: Pid)
    requires Inv(s) && p in Apply(s, step).handlers
    requires p !in s.handlers || Apply(s, step).handlers[p] != s.handlers[p]
    ensures HandlerOk(Apply(s, step), Apply(s, step).handlers[p])
  {
    if step.Commit? { CommitterOk(s, step, p); }
    else if step.CreateBoost? { BoosterOk(s, step, p); }
    else if step.Upsert? { ActivatorOk(s, step, p); }
    else if step.Flip? { FlipperOk(s, step, p); }
    else if step.Precheck? { CheckerOk(s, step, p); }
    else if step.Lookup? { LookerOk(s, step, p); }
    else { ReaderOk(s, step, p); }
  }

  lemma KeepsHandlers(s: State, step: Step)
    requires Inv(s)
    ensures HandlersOk(Apply(s, step))
  {
    var s' := Apply(s, step);
    StepKeeps(s, step);
    forall p | p in s'.handlers ensures HandlerOk(s', s'.handlers[p]) {
      if p in s.handlers && s'.handlers[p] == s.handlers[p] {
        HandlerOkLater(s, s', s.handlers[p]);
      } else {
        MovedHandlerOk(s, step, p);
      }
    }
  }

  /** A payment carries its time. */
  lemma PaidHasItsTime(s: State, step: Step, id: OrderId)
    requires Inv(s) && id in Apply(s, step).orders && Apply(s, step).orders[id].status == SUCCEEDED
    ensures Apply(s, step).orders[id].succeededAt.Some?
  {
    WhoWrites(s, step);
    if id in s.orders { assert OrderOk(s, id); }
  }

  lemma NewOrdersAreUnstamped(s: State, step: Step, id: OrderId)
    requires id in Apply(s, step).orders && id !in s.orders
    ensures Apply(s, step).orders[id].grantedAt.None?
  {
    WhoWrites(s, step);
  }

  lemma OnlyStampersStamp(s: State, step: Step, id: OrderId)
    requires id in s.orders && id in Apply(s, step).orders
    requires s.orders[id].grantedAt.None? && Apply(s, step).orders[id].grantedAt.Some?
    ensures step.Stamp? && step.pid in s.handlers && s.handlers[step.pid] == Stamping(id)
  {
    WhoWrites(s, step);
  }

  lemma StampedHasLanded(s: State, step: Step, id: OrderId)
    requires Inv(s) && id in Apply(s, step).orders && Apply(s, step).orders[id].grantedAt.Some?
    ensures Apply(s, step).orders[id].status == SUCCEEDED && Landed(Apply(s, step), id)
  {
    StepKeeps(s, step);
    if id !in s.orders {
      NewOrdersAreUnstamped(s, step, id);
    } else {
      assert OrderOk(s, id);
      if s.orders[id].grantedAt.None? {
        OnlyStampersStamp(s, step, id);
        assert HandlerOk(s, s.handlers[step.pid]);
      }
      LandedLater(s, Apply(s, step), id);
    }
  }

  lemma KeepsOrders(s: State, step: Step)
    requires Inv(s)
    ensures OrdersOk(Apply(s, step))
  {
    var s' := Apply(s, step);
    forall id | id in s'.orders ensures OrderOk(s', id) {
      if s'.orders[id].status == SUCCEEDED { PaidHasItsTime(s, step, id); }
      if s'.orders[id].grantedAt.Some? { StampedHasLanded(s, step, id); }
    }
  }

  /** A ticket was there before, or this step's flip handed it out for an order still open. */
  lemma TicketsComeFromFlips(s: State, step: Step, p: Pid, id: OrderId)
    requires Inv(s) && HoldsTicket(Apply(s, step), p, id)
    ensures HoldsTicket(s, p, id)
            || (step.Flip? && step.pid == p && id in s.orders && Open(s.orders[id]))
  {
    if p in s.handlers { assert HandlerOk(s, s.handlers[p]); }
    StepKeepsOrders(s, step);
    if step.Flip? {
      FlipTickets(s, step, p, id);
    } else {
      GrantersStand(s, step, p, id);
    }
  }

  lemma FlipTickets(s: State, step: Step, p: Pid, id: OrderId)
    requires step.Flip? && HoldsTicket(Apply(s, step), p, id)
    ensures HoldsTicket(s, p, id) || (step.pid == p && id in s.orders && Open(s.orders[id]))
  {
  }

  /** Else a granting handler was granting already, or was probing, which a boost order never is. */
  lemma GrantersStand(s: State, step: Step, p: Pid, id: OrderId)
    requires Inv(s) && !step.Flip? && HoldsTicket(Apply(s, step), p, id)
    ensures HoldsTicket(s, p, id)
  {
    if p in s.handlers { assert HandlerOk(s, s.handlers[p]); }
    GrantersOrigin(s, step, p, id);
    StepKeepsOrders(s, step);
  }

  lemma GrantersOrigin(s: State, step: Step, p: Pid, id: OrderId)
    requires !step.Flip? && p in Apply(s, step).handlers && Apply(s, step).handlers[p] == Granting(id)
    ensures p in s.handlers && s.handlers[p] in {Granting(id), Probing(id)}
  {
    if step.Precheck? || step.Lookup? || step.Commit? || step.CreateBoost? || step.Upsert? { PayersEnd(s, step, p, id); }
  }

  lemma PayersEnd(s: State, step: Step, p: Pid, id: OrderId)
    requires step.Precheck? || step.Lookup? || step.Commit? || step.CreateBoost? || step.Upsert?
    requires p in Apply(s, step).handlers && Apply(s, step).handlers[p] == Granting(id)
    ensures p in s.handlers && s.handlers[p] == Granting(id)
  {
  }

  lemma OpenOrdersHaveNoBoost(s: State, id: OrderId)
    requires Inv(s) && id in s.orders && Open(s.orders[id])
    ensures !HasBoost(s.boosts, id) && forall p :: !HoldsTicket(s, p, id)
  {
    forall p ensures !HoldsTicket(s, p, id) {
      assert p in s.handlers ==> HandlerOk(s, s.handlers[p]);
    }
  }

  lemma KeepsBoostRows(s: State, step: Step)
    requires Inv(s)
    ensures RowsOk(Apply(s, step).orders, Apply(s, step).boosts)
  {
    WhoWrites(s, step);
    StepKeepsOrders(s, step);
    RowsOkLater(s.orders, Apply(s, step).orders, s.boosts);
    if step.CreateBoost? { BoostKeepsRows(s, step); }
  }

  lemma RowsOkLater(before: map<OrderId, Order>, after: map<OrderId, Order>, boosts: seq<Boost>)
    requires RowsOk(before, boosts) && OrdersKept(before, after)
    ensures RowsOk(after, boosts)
  {
    forall i | 0 <= i < |boosts|
      ensures boosts[i].origin in after && after[boosts[i].origin].status == SUCCEEDED
              && DutyOf(after[boosts[i].origin]).AddBoost?
    {
      assert !Open(before[boosts[i].origin]);
    }
  }

  lemma BoostKeepsRows(s: State, step: Step)
    requires Inv(s) && step.CreateBoost?
    ensures RowsOk(Apply(s, step).orders, Apply(s, step).boosts)
  {
    var s' := Apply(s, step);
    if s'.boosts != s.boosts {
      var id := s.handlers[step.pid].id;
      assert HandlerOk(s, s.handlers[step.pid]);
      assert HoldsTicket(s, step.pid, id);
      assert s'.orders == s.orders && s'.boosts == s.boosts + [s'.boosts[|s.boosts|]];
      OneMoreRow(s.orders, s.boosts, s'.boosts[|s.boosts|]);
    }
  }

  lemma OneMoreRow(orders: map<OrderId, Order>, boosts: seq<Boost>, b: Boost)
    requires RowsOk(orders, boosts) && !HasBoost(boosts, b.origin)
    requires b.origin in orders && orders[b.origin].status == SUCCEEDED && DutyOf(orders[b.origin]).AddBoost?
    ensures RowsOk(orders, boosts + [b])
  {
  }

  lemma KeepsTickets(s: State, step: Step)
    requires Inv(s)
    ensures var s' := Apply(s, step);
            && (forall p, id | HoldsTicket(s', p, id) :: !HasBoost(s'.boosts, id))
            && (forall p, q, id | HoldsTicket(s', p, id) && HoldsTicket(s', q, id) :: p == q)
  {
    var s' := Apply(s, step);
    forall p, id | HoldsTicket(s', p, id) ensures !HasBoost(s'.boosts, id) {
      TicketsComeFromFlips(s, step, p, id);
      if HoldsTicket(s, p, id) {
        if s'.boosts != s.boosts { NewBoostIsNotTicketed(s, step, p, id); }
      } else {
        OpenOrdersHaveNoBoost(s, id);
      }
    }
    forall p, q, id | HoldsTicket(s', p, id) && HoldsTicket(s', q, id) ensures p == q {
      TicketsComeFromFlips(s, step, p, id);
      TicketsComeFromFlips(s, step, q, id);
      if id in s.orders && Open(s.orders[id]) { OpenOrdersHaveNoBoost(s, id); }
    }
  }

  /** Creating a row uses up the ticket for it, so a ticket that is left is for another order. */
  lemma NewBoostIsNotTicketed(s: State, step: Step, p: Pid, id: OrderId)
    requires Inv(s) && HoldsTicket(s, p, id) && HoldsTicket(Apply(s, step), p, id)
    requires Apply(s, step).boosts != s.boosts
    ensures !HasBoost(Apply(s, step).boosts, id)
  {
    WhoWrites(s, step);
    BoostUsesTicket(s, step, p, id);
  }

  lemma BoostUsesTicket(s: State, step: Step, p: Pid, id: OrderId)
    requires Inv(s) && step.CreateBoost? && HoldsTicket(s, p, id) && HoldsTicket(Apply(s, step), p, id)
    requires Apply(s, step).boosts != s.boosts
    ensures !HasBoost(Apply(s, step).boosts, id)
  {
    var id0 := s.handlers[step.pid].id;
    assert HoldsTicket(s, step.pid, id0);
    assert Apply(s, step).boosts[..|s.boosts|] == s.boosts;
    assert Apply(s, step).boosts[|s.boosts|].origin == id0 && id0 != id;
    forall i | 0 <= i < |s.boosts| ensures Apply(s, step).boosts[i].origin != id {
      assert Apply(s, step).boosts[i] == s.boosts[i];
    }
  }

  lemma StepKeepsInv(s: State, step: Step)
    requires Inv(s)
    ensures Inv(Apply(s, step))
  {
    KeepsWallets(s, step);
    KeepsEntries(s, step);
    KeepsBoostRows(s, step);
    KeepsTickets(s, step);
    KeepsHandlers(s, step);
    KeepsOrders(s, step);
  }

  lemma KeepsIsTransitive(a: State, b: State, c: State)
    requires Keeps(a, b) && Keeps(b, c)
    ensures Keeps(a, c)
  {
  }

  lemma {:induction false} RunKeeps(s: State, steps: seq<Step>)
    ensures Keeps(s, Exec(s, steps))
    decreases |steps|
  {
    if steps != [] {
      StepKeeps(s, steps[0]);
      RunKeeps(Apply(s, steps[0]), steps[1..]);
      KeepsIsTransitive(s, Apply(s, steps[0]), Exec(s, steps));
    }
  }

  lemma {:induction false} RunKeepsInv(s: State, steps: seq<Step>)
    requires Inv(s)
    ensures Inv(Exec(s, steps))
    decreases |steps|
  {
    if steps != [] {
      StepKeepsInv(s, steps[0]);
      RunKeepsInv(Apply(s, steps[0]), steps[1..]);
    }
  }

  lemma Reachable(steps: seq<Step>)
    ensures Inv(Exec(INIT, steps))
  {
    assert forall ws: WorkspaceId :: Balance(NOTHING, ws) == 0 == Credited([], ws);
    RunKeepsInv(INIT, steps);
  }

  // ---------------------------------------------------------------- results

  /** An order is settled once: whatever follows, a closed order keeps its status. */
  lemma ClosedForGood(steps: seq<Step>, more: seq<Step>, id: OrderId)
    requires id in Exec(INIT, steps).orders
    requires Exec(INIT, steps).orders[id].status != PENDING && Exec(INIT, steps).orders[id].status != AWAITING_TRANSFER
    ensures var later := Exec(Exec(INIT, steps), more);
            id in later.orders && later.orders[id].status == Exec(INIT, steps).orders[id].status
  {
    RunKeeps(Exec(INIT, steps), more);
  }

  /** So many credits are what was bought: packs of 1000, 4000 or 12000, at least one. */
  predicate IsPack(code: Option<string>, quantity: int, credits: int) {
    var packs := if quantity < 1 then 1 else quantity;
    || (code == Some("credits_1k") && credits == 1_000 * packs)
    || (code == Some("credits_4k") && credits == 4_000 * packs)
    || (code == Some("credits_12k") && credits == 12_000 * packs)
  }

  /**
   * Exactly-once credit, in both wallets: refs are unique, each entry is the amount of a paid
   * top-up or the paid number of credit packs, and a balance is what its entries add up to.
   */
  lemma CreditedAtMostOnce(steps: seq<Step>)
    ensures var s := Exec(INIT, steps);
            && UniqueRefs(s.growth.ledger) && UniqueRefs(s.ai.ledger)
            && (forall i | 0 <= i < |s.growth.ledger| :: var e := s.growth.ledger[i];
                  e.ref in s.orders && s.orders[e.ref].status == SUCCEEDED && s.orders[e.ref].orderType == WALLET_TOPUP
                  && e.delta == s.orders[e.ref].amount > 0 && s.orders[e.ref].workspaceId == e.workspaceId)
            && (forall i | 0 <= i < |s.ai.ledger| :: var e := s.ai.ledger[i];
                  e.ref in s.orders && s.orders[e.ref].status == SUCCEEDED && s.orders[e.ref].orderType == ADDON
                  && IsPack(s.orders[e.ref].addOnCode, s.orders[e.ref].quantity, e.delta)
                  && s.orders[e.ref].workspaceId == e.workspaceId)
            && forall ws: WorkspaceId :: Balance(s.growth, ws) == Credited(s.growth.ledger, ws)
                                         && Balance(s.ai, ws) == Credited(s.ai.ledger, ws)
  {
    Reachable(steps);
  }

  /**
   * A stamp means the grant landed: the AI credit always, the boost row always, the growth
   * credit unless its transaction was refused by the wallet row's own unique index.
   */
  lemma StampedMeansLanded(steps: seq<Step>, id: OrderId)
    requires var s := Exec(INIT, steps); id in s.orders && s.orders[id].grantedAt.Some?
    ensures var s := Exec(INIT, steps);
            && s.orders[id].status == SUCCEEDED
            && (DutyOf(s.orders[id]).CreditAi? ==> HasRef(s.ai, id))
            && (DutyOf(s.orders[id]).AddBoost? ==> HasBoost(s.boosts, id))
            && (DutyOf(s.orders[id]).CreditGrowth? ==> HasRef(s.growth, id) || id in s.conflicts)
            && !DutyOf(s.orders[id]).UnknownAddOn?
  {
    Reachable(steps);
    assert OrderOk(Exec(INIT, steps), id);
  }

  /**
   * Every way an order changes, in terms of its columns: an open one is paid or fails, and a
   * paid one is stamped, by a handler that is about to.
   */
  lemma OrderChanges(s: State, step: Step, id: OrderId)
    requires Inv(s) && id in s.orders && Apply(s, step).orders[id] != s.orders[id]
    ensures id in Apply(s, step).orders
    ensures var o, o' := s.orders[id], Apply(s, step).orders[id];
            match step
            case Flip(pid, now) => o.status in {PENDING, AWAITING_TRANSFER} && o' == o.(status := SUCCEEDED, succeededAt := Some(now))
            case Fail(failed) => failed == id && o.status in {PENDING, AWAITING_TRANSFER} && o' == o.(status := FAILED)
            case Stamp(pid, now) => o.status == SUCCEEDED && pid in s.handlers && s.handlers[pid] == Stamping(id)
                                    && o' == o.(grantedAt := Some(now))
            case _ => false
  {
    if step.Flip? || step.Fail? {
      ClosesOrder(s, step, id);
    } else if step.Stamp? {
      StampsOrder(s, step, id);
    } else {
      OthersKeepOrder(s, step, id);
    }
  }

  lemma ClosesOrder(s: State, step: Step, id: OrderId)
    requires (step.Flip? || step.Fail?) && id in s.orders
    ensures id in Apply(s, step).orders
    ensures Apply(s, step).orders[id] != s.orders[id] ==>
              && s.orders[id].status in {PENDING, AWAITING_TRANSFER}
              && if step.Flip? then Apply(s, step).orders[id] == s.orders[id].(status := SUCCEEDED, succeededAt := Some(step.now))
                 else step.id == id && Apply(s, step).orders[id] == s.orders[id].(status := FAILED)
  {
  }

  lemma StampsOrder(s: State, step: Step, id: OrderId)
    requires Inv(s) && step.Stamp? && id in s.orders
    ensures id in Apply(s, step).orders
    ensures Apply(s, step).orders[id] != s.orders[id] ==>
              && s.orders[id].status == SUCCEEDED && step.pid in s.handlers && s.handlers[step.pid] == Stamping(id)
              && Apply(s, step).orders[id] == s.orders[id].(grantedAt := Some(step.now))
  {
    if step.pid in s.handlers { assert HandlerOk(s, s.handlers[step.pid]); }
  }

  lemma OthersKeepOrder(s: State, step: Step, id: OrderId)
    requires !step.Flip? && !step.Fail? && !step.Stamp? && id in s.orders
    ensures id in Apply(s, step).orders && Apply(s, step).orders[id] == s.orders[id]
  {
    WhoWrites(s, step);
  }

  /** New orders are open and unstamped. */
  lemma OrdersBegin(s: State, step: Step, id: OrderId)
    requires id !in s.orders && id in Apply(s, step).orders
    ensures Apply(s, step).orders[id].status in {PENDING, AWAITING_TRANSFER} && Apply(s, step).orders[id].grantedAt.None?
  {
    WhoWrites(s, step);
  }

  /** A subscription row is written only for a paid subscription order of its workspace, in full. */
  lemma SubscriptionChanges(s: State, step: Step, ws: WorkspaceId)
    requires Inv(s) && ws in Apply(s, step).subs && (ws in s.subs ==> Apply(s, step).subs[ws] != s.subs[ws])
    ensures step.Upsert? && step.pid in s.handlers && s.handlers[step.pid].id in s.orders
    ensures var o := s.orders[s.handlers[step.pid].id];
            && o.status == SUCCEEDED && o.orderType in {SUBSCRIPTION, UPGRADE, RENEWAL} && o.workspaceId == ws
            && o.packageId.Some? && Apply(s, step).subs[ws]
               == Subscription(o.packageId.value, ACTIVE, step.now, step.end, false, None, o.providerRef)
  {
    if step.Upsert? {
      assert step.pid in s.handlers && HandlerOk(s, s.handlers[step.pid]);
    } else {
      OnlyUpsertsActivate(s, step);
    }
  }

  /** A boost row is created only for a paid add-on order, and ends with its workspace's period. */
  lemma BoostAppears(s: State, step: Step)
    requires Inv(s) && Apply(s, step).boosts != s.boosts
    ensures step.CreateBoost? && step.pid in s.handlers && s.handlers[step.pid].id in s.orders
    ensures var id := s.handlers[step.pid].id;
            var o := s.orders[id];
            && o.status == SUCCEEDED && o.orderType == ADDON && o.addOnCode.Some?
            && o.addOnCode.value in {"quota_boost_10", "extra_profile", "ai_credit_boost_500", "messages_boost_1000",
                                     "sms_otp_package", "voice_campaigns_package", "fax_package"}
            && Apply(s, step).boosts == s.boosts + [Boost(o.workspaceId, o.addOnCode.value, o.quantity,
                 if o.workspaceId in s.subs then Some(s.subs[o.workspaceId].currentPeriodEnd) else None, id)]
  {
    WhoWrites(s, step);
    if step.CreateBoost? { assert step.pid in s.handlers && HandlerOk(s, s.handlers[step.pid]); }
  }

  /** A boost row is created at most once per order, and only for a paid one. */
  lemma BoostedAtMostOnce(steps: seq<Step>, i: nat, j: nat)
    requires var s := Exec(INIT, steps); i < |s.boosts| && j < |s.boosts| && s.boosts[i].origin == s.boosts[j].origin
    ensures var s := Exec(INIT, steps); var id := s.boosts[i].origin;
            i == j && id in s.orders && s.orders[id].status == SUCCEEDED && DutyOf(s.orders[id]).AddBoost?
  {
    Reachable(steps);
  }

  lemma {:induction false} ExecConcat(s: State, first: seq<Step>, second: seq<Step>)
    ensures Exec(s, first + second) == Exec(Exec(s, first), second)
    decreases |first|
  {
    if first == [] {
      assert first + second == second;
    } else {
      assert (first + second)[0] == first[0] && (first + second)[1..] == first[1..] + second;
      ExecConcat(Apply(s, first[0]), first[1..], second);
    }
  }

  lemma ExecOne(s: State, step: Step)
    ensures Exec(s, [step]) == Apply(s, step)
  {
    assert [step][1..] == [];
    assert Exec(Apply(s, step), []) == Apply(s, step);
  }

  lemma ExecLast(s: State, steps: seq<Step>, last: Step)
    ensures Exec(s, steps + [last]) == Apply(Exec(s, steps), last)
  {
    ExecConcat(s, steps, [last]);
    ExecOne(Exec(s, steps), last);
  }

  lemma ExecTwo(s: State, first: Step, second: Step)
    ensures Exec(s, [first, second]) == Apply(Apply(s, first), second)
  {
    assert [first, second][1..] == [second] && [second][1..] == [];
    assert Exec(Apply(s, first), [second]) == Exec(Apply(Apply(s, first), second), []);
  }

  /**
   * What one sweep makes of a paid subscription order: it is stamped either way, but it is
   * activated if and only if the workspace does not already sit on that package in an open period.
   * So a renewal paid early buys no time when its own grant failed.
   */
  lemma SweepActivatesIff(s: State, pid: Pid, id: OrderId, now: int, end: int)
    requires pid !in s.handlers && id in s.orders && s.orders[id].status == SUCCEEDED && s.orders[id].packageId.Some?
    requires DutyOf(s.orders[id]).Activate?
    ensures var o := s.orders[id];
            var s' := Exec(Exec(s, [Pick(pid, id), Probe(pid, now)]), [Upsert(pid, now, end, false), Stamp(pid, now)]);
            var open := o.workspaceId in s.subs && Some(s.subs[o.workspaceId].packageId) == o.packageId
                        && s.subs[o.workspaceId].status == ACTIVE && now < s.subs[o.workspaceId].currentPeriodEnd;
            && s'.activated == (if open then s.activated else s.activated + {id})
            && s'.subs == if open then s.subs
                          else s.subs[o.workspaceId :=
                                 Subscription(o.packageId.value, ACTIVE, now, end, false, None, o.providerRef)]
    ensures var s' := Exec(Exec(s, [Pick(pid, id), Probe(pid, now)]), [Upsert(pid, now, end, false), Stamp(pid, now)]);
            s'.orders == s.orders[id := s.orders[id].(grantedAt := Some(now))]
  {
    ExecTwo(s, Pick(pid, id), Probe(pid, now));
    var probed := Apply(Apply(s, Pick(pid, id)), Probe(pid, now));
    SweptProbe(s, pid, id, now);
    ExecTwo(probed, Upsert(pid, now, end, false), Stamp(pid, now));
    if LooksGranted(s, s.orders[id], id, now) {
      assert Apply(probed, Upsert(pid, now, end, false)) == probed;
    } else {
      assert Apply(probed, Upsert(pid, now, end, false)).handlers[pid] == Stamping(id);
    }
  }

  /** Placed and paid: a handler is about to grant it. */
  lemma PaysIn(s: State, p: Pid, id: OrderId, order: Order, now: int)
    requires p !in s.handlers && id !in s.orders && Open(order) && order.grantedAt.None?
    ensures Apply(Apply(Apply(s, Place(id, order)), Settle(p, id)), Flip(p, now))
            == s.(orders := s.orders[id := order.(status := SUCCEEDED, succeededAt := Some(now))],
                  handlers := s.handlers[p := Granting(id)])
  {
    var s1 := Apply(s, Place(id, order));
    assert s1 == s.(orders := s.orders[id := order]);
    FlipsIn(s1, p, id, now);
  }

  lemma FlipsIn(s: State, p: Pid, id: OrderId, now: int)
    requires p !in s.handlers && id in s.orders && Open(s.orders[id])
    ensures Apply(Apply(s, Settle(p, id)), Flip(p, now))
            == To(s.(orders := s.orders[id := s.orders[id].(status := SUCCEEDED, succeededAt := Some(now))]), p, Granting(id))
  {
    assert Apply(s, Settle(p, id)) == To(s, p, Flipping(id));
  }

  /** There is always a process that has nothing to do. */
  lemma {:induction false} AnIdle(busy: set<Pid>) returns (p: Pid)
    ensures forall q | q in busy :: q < p
    decreases |busy|
  {
    if busy == {} { return 0; }
    var q :| q in busy;
    var m := AnIdle(busy - {q});
    p := if m > q then m else q + 1;
    forall x | x in busy ensures x < p {
      assert x == q || x in busy - {q};
    }
  }

  ghost predicate NobodyHolds(s: State, id: OrderId) { forall p | p in s.handlers :: s.handlers[p].id != id }

  predicate Picks(step: Step, id: OrderId) { step.Pick? && step.id == id }

  /** Only a settlement of an open order or a pick takes an order in hand. */
  lemma HoldersBegin(s: State, step: Step, id: OrderId)
    requires NobodyHolds(s, id) && !Picks(step, id) && (id in s.orders && !Open(s.orders[id]))
    ensures NobodyHolds(Apply(s, step), id)
  {
    if step.Settle? || step.Pick? || step.Flip? || step.Probe? {
      EarlyHoldersBegin(s, step, id);
    }
  }

  lemma EarlyHoldersBegin(s: State, step: Step, id: OrderId)
    requires step.Settle? || step.Pick? || step.Flip? || step.Probe?
    requires NobodyHolds(s, id) && !Picks(step, id) && (id in s.orders && !Open(s.orders[id]))
    ensures NobodyHolds(Apply(s, step), id)
  {
  }

  lemma SweptProbe(s: State, pid: Pid, id: OrderId, now: int)
    requires pid !in s.handlers && id in s.orders && s.orders[id].status == SUCCEEDED && Recoverable(s.orders[id])
    ensures Apply(Apply(s, Pick(pid, id)), Probe(pid, now))
            == To(s, pid, if LooksGranted(s, s.orders[id], id, now) then Stamping(id) else Granting(id))
  {
    assert Apply(s, Pick(pid, id)) == To(s, pid, Probing(id));
  }
}
