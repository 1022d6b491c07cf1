/**
 * Payment orders, prepaid wallets, subscriptions and add-on rows
 * (backend/src/modules/billing/billing-settlement.service.ts). Money is in minor units,
 * times are integer milliseconds.
 */
module Billing {

  datatype Option<T> = None | Some(value: T)

  type OrderId = nat
  type WorkspaceId = string

  datatype OrderType = SUBSCRIPTION | UPGRADE | RENEWAL | ADDON | WALLET_TOPUP
  datatype OrderStatus = PENDING | AWAITING_TRANSFER | SUCCEEDED | FAILED | CANCELLED | REFUNDED

  datatype Order = Order(workspaceId: WorkspaceId, orderType: OrderType, packageId: Option<string>,
                         addOnCode: Option<string>, quantity: int, amount: int, currency: string,
                         providerRef: Option<string>, status: OrderStatus, succeededAt: Option<int>, grantedAt: Option<int>)

  predicate Open(o: Order) { o.status == PENDING || o.status == AWAITING_TRANSFER }

  function CreditsOf(code: string): nat {
    if code == "credits_1k" then 1_000 else if code == "credits_4k" then 4_000
    else if code == "credits_12k" then 12_000 else 0
  }

  const BOOSTS: set<string> := {"quota_boost_10", "extra_profile", "ai_credit_boost_500", "messages_boost_1000",
                                "sms_otp_package", "voice_campaigns_package", "fax_package"}

  function Max(a: int, b: int): int { if a < b then b else a }

  /** What a paid order owes its workspace. */
  datatype Duty =
    | CreditGrowth(amount: int)
    | CreditAi(amount: int)
    | AddBoost(code: string)
    | UnknownAddOn
    | Activate(packageId: Option<string>)

  function DutyOf(o: Order): Duty {
    match o.orderType
    case WALLET_TOPUP => CreditGrowth(o.amount)
    case ADDON =>
      var code := if o.addOnCode.Some? then o.addOnCode.value else "";
      if CreditsOf(code) > 0 then CreditAi(CreditsOf(code) * Max(1, o.quantity))
      else if code in BOOSTS then AddBoost(code) else UnknownAddOn
    case _ => Activate(o.packageId)
  }

  /** The categories the recovery sweep re-grants: everything but plain boosts. */
  predicate Recoverable(o: Order) { DutyOf(o).CreditGrowth? || DutyOf(o).CreditAi? || DutyOf(o).Activate? }

  // ---------------------------------------------------------------- wallets

  datatype Entry = Entry(workspaceId: WorkspaceId, delta: int, ref: OrderId)

  /**
   * The wallet rows, one per workspace with its balance and its currency, and the append-only
   * ledger they are written together with.
   */
  datatype Wallet = Wallet(balances: map<WorkspaceId, int>, currencies: map<WorkspaceId, string>, ledger: seq<Entry>)

  predicate HasRef(w: Wallet, ref: OrderId) { exists i :: 0 <= i < |w.ledger| && w.ledger[i].ref == ref }

  predicate HasRow(w: Wallet, ws: WorkspaceId) { ws in w.balances }

  function Balance(w: Wallet, ws: WorkspaceId): int { if ws in w.balances then w.balances[ws] else 0 }

  /** The wallet keeps one currency and converts nothing. */
  predicate OtherCurrency(w: Wallet, ws: WorkspaceId, currency: string) {
    ws in w.currencies && w.currencies[ws] != currency
  }

  /** A row for the workspace, created empty if there is none. */
  function Opened(w: Wallet, ws: WorkspaceId, currency: string): Wallet {
    if HasRow(w, ws) then w else w.(balances := w.balances[ws := 0], currencies := w.currencies[ws := currency])
  }

  /** The credit transaction; the unique ref makes a second one roll back. */
  function Post(w: Wallet, e: Entry, currency: string): Wallet {
    if HasRef(w, e.ref) then w
    else
      var o := Opened(w, e.workspaceId, currency);
      o.(balances := o.balances[e.workspaceId := o.balances[e.workspaceId] + e.delta], ledger := o.ledger + [e])
  }

  /** What the ledger says a workspace was credited. */
  function Credited(ledger: seq<Entry>, ws: WorkspaceId): int {
    if ledger == [] then 0
    else Credited(ledger[..|ledger| - 1], ws)
         + (if ledger[|ledger| - 1].workspaceId == ws then ledger[|ledger| - 1].delta else 0)
  }

  ghost predicate UniqueRefs(ledger: seq<Entry>) {
    forall i, j :: 0 <= i < j < |ledger| ==> ledger[i].ref != ledger[j].ref
  }

  /** Refs are unique and every balance is what the ledger adds up to. */
  ghost predicate Conserved(w: Wallet) {
    && UniqueRefs(w.ledger) && w.balances.Keys == w.currencies.Keys
    && forall ws: WorkspaceId :: Balance(w, ws) == Credited(w.ledger, ws)
  }

  lemma OpenConserves(w: Wallet, ws: WorkspaceId, currency: string)
    requires Conserved(w)
    ensures Conserved(Opened(w, ws, currency))
  {
    var w' := Opened(w, ws, currency);
    assert forall x: WorkspaceId :: Balance(w', x) == Balance(w, x);
  }

  lemma PostConserves(w: Wallet, e: Entry, currency: string)
    requires Conserved(w)
    ensures Conserved(Post(w, e, currency)) && HasRef(Post(w, e, currency), e.ref)
  {
    var w' := Post(w, e, currency);
    if !HasRef(w, e.ref) {
      assert w'.ledger[..|w'.ledger| - 1] == w.ledger;
      assert w'.ledger[|w.ledger|].ref == e.ref;
      forall ws: WorkspaceId ensures Balance(w', ws) == Credited(w'.ledger, ws) {
        assert Balance(w, ws) == Credited(w.ledger, ws);
      }
    }
  }

  // ------------------------------------------------------ rows of a workspace

  datatype SubStatus = TRIALING | ACTIVE | PAST_DUE | SUB_CANCELLED | EXPIRED

  datatype Subscription = Subscription(packageId: string, status: SubStatus, currentPeriodStart: int,
                                       currentPeriodEnd: int, cancelAtPeriodEnd: bool, trialEndsAt: Option<int>,
                                       providerRef: Option<string>)

  type Subscriptions = map<WorkspaceId, Subscription>

  /** A boost row; `origin` is history: the order it was created for. */
  datatype Boost = Boost(workspaceId: WorkspaceId, code: string, quantity: int, currentPeriodEnd: Option<int>,
                         origin: OrderId)

  predicate HasBoost(boosts: seq<Boost>, o: OrderId) { exists i :: 0 <= i < |boosts| && boosts[i].origin == o }
}
