/**
 * The settlement service as written: what one call of settleSuccess, settleFailure or the
 * recovery sweep does to the tables
 * (backend/src/modules/billing/billing-settlement.service.ts:95-464, 514-558). Each call is
 * tied to the steps of BillingRuns, so what is proved of every run holds for these calls.
 */
module BillingSettlement {
  import opened Billing
  import opened BillingRuns

  /**
   * What goes wrong in one call: nothing; its probe, its grant or its stamp breaks off; the
   * reply of its write is lost; or another transaction creates the wallet row, in some
   * currency, between its lookup and its commit.
   */
  datatype Fault = NoFault | ProbeDies | DiesFirst | ReplyIsLost | RowRace(currency: string) | StampLost

  /** The steps of a credit; the race is a step of another transaction. */
  ghost function Credit(s: State, id: OrderId, f: Fault): State
    requires id in s.orders
  {
    var o := s.orders[id];
    var looked := Apply(Apply(s, Precheck(0)), Lookup(0));
    var raced := if f.RowRace? && 0 in looked.handlers && looked.handlers[0] == Committing(id, false) then
                   Apply(looked, OpenRow(!DutyOf(o).CreditAi?, o.workspaceId, f.currency)) else looked;
    Apply(raced, Commit(0, f.ReplyIsLost?))
  }

  /** The grant of the order that handler 0 holds. */
  ghost function Grant(s: State, id: OrderId, f: Fault, now: int, end: int): State
    requires id in s.orders
  {
    if f.DiesFirst? then Apply(s, Throw(0))
    else
      match DutyOf(s.orders[id])
      case CreditGrowth(_) => Credit(s, id, f)
      case CreditAi(_) => Credit(s, id, f)
      case AddBoost(_) => Apply(s, CreateBoost(0, f.ReplyIsLost?))
      case UnknownAddOn => Apply(s, Throw(0))
      case Activate(p) => if p.None? then Apply(s, Throw(0)) else Apply(s, Upsert(0, now, end, f.ReplyIsLost?))
  }

  ghost function Finish(s: State, f: Fault, now: int): State {
    Apply(Apply(s, if f.StampLost? then Throw(0) else Stamp(0, now)), Throw(0))
  }

  ghost function SettleRun(s: State, id: OrderId, f: Fault, now: int, end: int): State
    requires id in s.orders
  {
    Finish(Grant(Apply(Apply(s, Settle(0, id)), Flip(0, now)), id, f, now, end), f, now)
  }

  /**
   * The sweep's work on one order: probe, then evict it or grant it again. An error in the
   * probe, or in the stamp of an order found granted, is not caught.
   */
  ghost function SweepOne(s: State, id: OrderId, f: Fault, now: int, end: int): State
    requires id in s.orders
  {
    var picked := Apply(s, Pick(0, id));
    if f.ProbeDies? then Apply(picked, Throw(0))
    else if LooksGranted(s, s.orders[id], id, now) then Finish(Apply(picked, Probe(0, now)), f, now)
    else Finish(Grant(Apply(picked, Probe(0, now)), id, f, now, end), f, now)
  }

  /** The sweep ends here with an error. */
  ghost predicate Aborts(s: State, id: OrderId, f: Fault, now: int)
    requires id in s.orders
  {
    f.ProbeDies? || (f.StampLost? && LooksGranted(s, s.orders[id], id, now))
  }

  // ------------------------------------------------------------ grants, direct

  /** The grant cannot succeed, however often it is tried. */
  predicate Doomed(o: Order) {
    match DutyOf(o)
    case CreditGrowth(a) => a <= 0
    case UnknownAddOn => true
    case Activate(p) => p.None?
    case _ => false
  }

  /** Nor can it while the workspace's wallet is in another currency. */
  predicate Hopeless(s: State, o: Order) { Doomed(o) || Refused(s, o) }

  /** The credit transaction finds no wallet row and another one creates it first. */
  predicate Raced(s: State, o: Order, f: Fault) { f.RowRace? && !HasRow(WalletFor(s, o), o.workspaceId) }

  /** Whether the grant goes through, as far as the caller can tell. */
  predicate Succeeds(s: State, id: OrderId, f: Fault)
    requires id in s.orders
  {
    var o := s.orders[id];
    && !f.DiesFirst? && !Doomed(o)
    && match DutyOf(o)
       case CreditGrowth(_) => HasRef(s.growth, id) || (!Refused(s, o) && !f.ReplyIsLost?)
       case CreditAi(_) => HasRef(s.ai, id) || (!Raced(s, o, f) && !f.ReplyIsLost?)
       case _ => !f.ReplyIsLost?
  }

  predicate Holding(s: State, id: OrderId) {
    0 in s.handlers && s.handlers[0] == Granting(id) && id in s.orders && s.orders[id].status == SUCCEEDED
  }

  ghost function CreditAfter(s: State, id: OrderId, f: Fault): State
    requires id in s.orders
  {
    var o := s.orders[id];
    var w := WalletFor(s, o);
    if HasRef(w, id) || Refused(s, o) then s
    else if Raced(s, o, f) then
      var created := WithWallet(s, o, Opened(w, o.workspaceId, f.currency));
      if DutyOf(o).CreditAi? then created else created.(conflicts := s.conflicts + {id})
    else WithWallet(s, o, Post(w, EntryFor(o, id), o.currency))
  }

  ghost function BooksAfter(s: State, id: OrderId, f: Fault, now: int, end: int): State
    requires id in s.orders
  {
    var o := s.orders[id];
    if f.DiesFirst? || Doomed(o) then s
    else
      match DutyOf(o)
      case CreditGrowth(_) => CreditAfter(s, id, f)
      case CreditAi(_) => CreditAfter(s, id, f)
      case AddBoost(code) =>
        s.(boosts := s.boosts + [Boost(o.workspaceId, code, o.quantity,
             if o.workspaceId in s.subs then Some(s.subs[o.workspaceId].currentPeriodEnd) else None, id)])
      case UnknownAddOn => s
      case Activate(p) =>
        s.(subs := s.subs[o.workspaceId := Subscription(p.value, ACTIVE, now, end, false, None, o.providerRef)],
           activated := s.activated + {id})
  }

  /** What is left of handler 0 after a grant. */
  ghost function HandlersAfter(s: State, id: OrderId, f: Fault): map<Pid, Handler>
    requires id in s.orders
  {
    if Succeeds(s, id, f) then s.handlers[0 := Stamping(id)] else s.handlers - {0}
  }

  ghost predicate GrantComesTo(s: State, id: OrderId, f: Fault, now: int, end: int)
    requires id in s.orders
  {
    Grant(s, id, f, now, end) == BooksAfter(s, id, f, now, end).(handlers := HandlersAfter(s, id, f))
  }

  /** Precheck and lookup together: nothing to do, refused, or ready to commit. */
  lemma LookedUp(s: State, id: OrderId)
    requires Holding(s, id) && (DutyOf(s.orders[id]).CreditGrowth? || DutyOf(s.orders[id]).CreditAi?)
    ensures var o := s.orders[id];
            Apply(Apply(s, Precheck(0)), Lookup(0))
            == if Doomed(o) then Ends(s, 0)
               else if HasRef(WalletFor(s, o), id) then To(s, 0, Stamping(id))
               else if Refused(s, o) then Ends(s, 0)
               else To(s, 0, Committing(id, HasRow(WalletFor(s, o), o.workspaceId)))
  {
    var o := s.orders[id];
    var checked := Apply(s, Precheck(0));
    assert checked == if Doomed(o) then Ends(s, 0)
                      else To(s, 0, if HasRef(WalletFor(s, o), id) then Stamping(id) else Posting(id));
  }

  lemma RowOpened(s: State, id: OrderId, f: Fault)
    requires id in s.orders && f.RowRace? && (DutyOf(s.orders[id]).CreditGrowth? || DutyOf(s.orders[id]).CreditAi?)
    ensures var o := s.orders[id];
            Apply(s, OpenRow(!DutyOf(o).CreditAi?, o.workspaceId, f.currency))
            == WithWallet(s, o, Opened(WalletFor(s, o), o.workspaceId, f.currency))
  {
  }

  lemma CommitIdle(s: State, replyLost: bool)
    requires 0 !in s.handlers || !s.handlers[0].Committing?
    ensures Apply(s, Commit(0, replyLost)) == s
  {
  }

  ghost predicate CreditComesTo(s: State, id: OrderId, f: Fault)
    requires id in s.orders
  {
    Credit(s, id, f)
    == (if Doomed(s.orders[id]) then s else CreditAfter(s, id, f)).(handlers := HandlersAfter(s, id, f))
  }

  predicate IsCredit(o: Order) { DutyOf(o).CreditGrowth? || DutyOf(o).CreditAi? }

  lemma CreditNotRun(s: State, id: OrderId, f: Fault)
    requires Holding(s, id) && IsCredit(s.orders[id]) && !f.DiesFirst?
    requires Hopeless(s, s.orders[id]) || HasRef(WalletFor(s, s.orders[id]), id)
    ensures CreditComesTo(s, id, f)
  {
    LookedUp(s, id);
    CommitIdle(Apply(Apply(s, Precheck(0)), Lookup(0)), f.ReplyIsLost?);
  }

  lemma CreditPosted(s: State, id: OrderId, f: Fault)
    requires Holding(s, id) && IsCredit(s.orders[id]) && !f.DiesFirst?
    requires !Hopeless(s, s.orders[id]) && !HasRef(WalletFor(s, s.orders[id]), id) && !Raced(s, s.orders[id], f)
    ensures CreditComesTo(s, id, f)
  {
    var o := s.orders[id];
    LookedUp(s, id);
    assert CreditAfter(s, id, f) == WithWallet(s, o, Post(WalletFor(s, o), EntryFor(o, id), o.currency));
    var found := HasRow(WalletFor(s, o), o.workspaceId);
    Committed(To(s, 0, Committing(id, found)), 0, id, found, f.ReplyIsLost?);
  }

  lemma CreditRaced(s: State, id: OrderId, f: Fault)
    requires Holding(s, id) && IsCredit(s.orders[id]) && !f.DiesFirst?
    requires !Hopeless(s, s.orders[id]) && !HasRef(WalletFor(s, s.orders[id]), id) && Raced(s, s.orders[id], f)
    ensures CreditComesTo(s, id, f)
  {
    var o := s.orders[id];
    LookedUp(s, id);
    var looked := To(s, 0, Committing(id, false));
    RowOpened(looked, id, f);
    Committed(WithWallet(looked, o, Opened(WalletFor(looked, o), o.workspaceId, f.currency)), 0, id, false, false);
  }

  lemma CreditIs(s: State, id: OrderId, f: Fault)
    requires Holding(s, id) && IsCredit(s.orders[id]) && !f.DiesFirst?
    ensures CreditComesTo(s, id, f)
  {
    var o := s.orders[id];
    if Hopeless(s, o) || HasRef(WalletFor(s, o), id) {
      CreditNotRun(s, id, f);
    } else if Raced(s, o, f) {
      CreditRaced(s, id, f);
    } else {
      CreditPosted(s, id, f);
    }
  }

  lemma ActivationIs(s: State, id: OrderId, f: Fault, now: int, end: int)
    requires Holding(s, id) && DutyOf(s.orders[id]).Activate?
    ensures GrantComesTo(s, id, f, now, end)
  {
  }

  lemma AddOnIs(s: State, id: OrderId, f: Fault, now: int, end: int)
    requires Holding(s, id) && (DutyOf(s.orders[id]).AddBoost? || DutyOf(s.orders[id]).UnknownAddOn?)
    ensures GrantComesTo(s, id, f, now, end)
  {
  }

  /** The machine's grant is exactly: the books of the duty, and a stamp to come if it succeeded. */
  lemma GrantIs(s: State, id: OrderId, f: Fault, now: int, end: int)
    requires Holding(s, id)
    ensures GrantComesTo(s, id, f, now, end)
  {
    match DutyOf(s.orders[id])
    case CreditGrowth(_) => CreditGrantIs(s, id, f, now, end);
    case CreditAi(_) => CreditGrantIs(s, id, f, now, end);
    case Activate(_) => ActivationIs(s, id, f, now, end);
    case _ => AddOnIs(s, id, f, now, end);
  }

  lemma CreditGrantIs(s: State, id: OrderId, f: Fault, now: int, end: int)
    requires Holding(s, id) && IsCredit(s.orders[id])
    ensures GrantComesTo(s, id, f, now, end)
  {
    if !f.DiesFirst? { CreditIs(s, id, f); }
  }

  /** One call's outcome on an order it has just flipped or found ungranted. */
  ghost function Worked(s: State, id: OrderId, f: Fault, now: int, end: int): State
    requires id in s.orders
  {
    var s' := BooksAfter(s, id, f, now, end);
    if Succeeds(s, id, f) && !f.StampLost? then Stamped(s', id, now) else s'
  }

  ghost function Stamped(s: State, id: OrderId, now: int): State
    requires id in s.orders
  {
    s.(orders := s.orders[id := s.orders[id].(grantedAt := Some(now))])
  }

  ghost function Flipped(s: State, id: OrderId, now: int): State
    requires id in s.orders
  {
    s.(orders := s.orders[id := s.orders[id].(status := SUCCEEDED, succeededAt := Some(now))])
  }

  lemma FinishIs(s: State, id: OrderId, f: Fault, now: int)
    requires id in s.orders && (0 in s.handlers ==> s.handlers[0] == Stamping(id))
    ensures Finish(s, f, now)
            == (if 0 !in s.handlers || f.StampLost? then s else Stamped(s, id, now)).(handlers := s.handlers - {0})
  {
    var next := Apply(s, if f.StampLost? then Throw(0) else Stamp(0, now));
    assert next == (if 0 !in s.handlers || f.StampLost? then s else Stamped(s, id, now)).(handlers := s.handlers - {0});
    assert next.handlers - {0} == next.handlers;
  }

  lemma BooksIgnoreHandlers(s: State, id: OrderId, f: Fault, now: int, end: int, handlers: map<Pid, Handler>)
    requires id in s.orders
    ensures BooksAfter(s.(handlers := handlers), id, f, now, end)
            == BooksAfter(s, id, f, now, end).(handlers := handlers)
    ensures BooksAfter(s, id, f, now, end).orders == s.orders
    ensures BooksAfter(s, id, f, now, end).handlers == s.handlers
  {
    CreditIgnoresHandlers(s, id, f, handlers);
  }

  lemma CreditIgnoresHandlers(s: State, id: OrderId, f: Fault, handlers: map<Pid, Handler>)
    requires id in s.orders
    ensures CreditAfter(s.(handlers := handlers), id, f) == CreditAfter(s, id, f).(handlers := handlers)
    ensures CreditAfter(s, id, f).orders == s.orders && CreditAfter(s, id, f).handlers == s.handlers
  {
  }

  /** The handler that does the work leaves; the others stand where they stood. */
  lemma WorkedIs(s: State, id: OrderId, f: Fault, now: int, end: int)
    requires Holding(s, id)
    ensures Finish(Grant(s, id, f, now, end), f, now) == Worked(s.(handlers := s.handlers - {0}), id, f, now, end)
  {
    GrantIs(s, id, f, now, end);
    BooksIgnoreHandlers(s, id, f, now, end, s.handlers - {0});
    FinishIs(Grant(s, id, f, now, end), id, f, now);
    assert s.handlers[0 := Stamping(id)] - {0} == s.handlers - {0} && (s.handlers - {0}) - {0} == s.handlers - {0};
    assert Succeeds(s.(handlers := s.handlers - {0}), id, f) == Succeeds(s, id, f);
  }

  lemma SettleRunIs(s: State, id: OrderId, f: Fault, now: int, end: int)
    requires 0 !in s.handlers && id in s.orders && Open(s.orders[id])
    ensures SettleRun(s, id, f, now, end) == Worked(Flipped(s, id, now), id, f, now, end)
  {
    var flipping := Apply(s, Settle(0, id));
    assert flipping == To(s, 0, Flipping(id));
    assert Apply(flipping, Flip(0, now)) == To(Flipped(s, id, now), 0, Granting(id));
    HeldIs(Flipped(s, id, now), id, f, now, end);
  }

  lemma SweepOneIs(s: State, id: OrderId, f: Fault, now: int, end: int)
    requires 0 !in s.handlers && id in s.orders && s.orders[id].status == SUCCEEDED && Recoverable(s.orders[id])
    ensures SweepOne(s, id, f, now, end)
            == if f.ProbeDies? then s
               else if LooksGranted(s, s.orders[id], id, now) then if f.StampLost? then s else Stamped(s, id, now)
               else Worked(s, id, f, now, end)
  {
    var picked := Apply(s, Pick(0, id));
    assert picked == s.(handlers := s.handlers[0 := Probing(id)]);
    assert s.handlers[0 := Probing(id)] - {0} == s.handlers;
    if !f.ProbeDies? { ProbedIs(s, id, f, now, end); }
  }

  lemma ProbedIs(s: State, id: OrderId, f: Fault, now: int, end: int)
    requires 0 !in s.handlers && id in s.orders && s.orders[id].status == SUCCEEDED && Recoverable(s.orders[id])
    requires !f.ProbeDies?
    ensures SweepOne(s, id, f, now, end)
            == if LooksGranted(s, s.orders[id], id, now) then if f.StampLost? then s else Stamped(s, id, now)
               else Worked(s, id, f, now, end)
  {
    SweptProbe(s, 0, id, now);
    if LooksGranted(s, s.orders[id], id, now) {
      FoundIs(s, id, f, now);
    } else {
      HeldIs(s, id, f, now, end);
    }
  }

  lemma FoundIs(s: State, id: OrderId, f: Fault, now: int)
    requires 0 !in s.handlers && id in s.orders
    ensures Finish(To(s, 0, Stamping(id)), f, now) == if f.StampLost? then s else Stamped(s, id, now)
  {
    FinishIs(To(s, 0, Stamping(id)), id, f, now);
    assert s.handlers[0 := Stamping(id)] - {0} == s.handlers;
  }

  lemma HeldIs(s: State, id: OrderId, f: Fault, now: int, end: int)
    requires 0 !in s.handlers && id in s.orders && s.orders[id].status == SUCCEEDED
    ensures Finish(Grant(To(s, 0, Granting(id)), id, f, now, end), f, now) == Worked(s, id, f, now, end)
  {
    var held := To(s, 0, Granting(id));
    WorkedIs(held, id, f, now, end);
    assert s.handlers[0 := Granting(id)] - {0} == s.handlers;
    assert held.(handlers := s.handlers) == s;
  }

  // ------------------------------------------------------- recovery windows

  /** The three passes of the sweep. */
  datatype Pass = SUBSCRIPTIONS | TOPUPS | CREDITS

  predicate InPass(o: Order, pass: Pass) {
    match pass
    case SUBSCRIPTIONS => DutyOf(o).Activate?
    case TOPUPS => DutyOf(o).CreditGrowth?
    case CREDITS => DutyOf(o).CreditAi?
  }

  predicate Awaits(o: Order, pass: Pass) { o.status == SUCCEEDED && o.grantedAt.None? && InPass(o, pass) }

  function Waiting(orders: map<OrderId, Order>, pass: Pass): set<OrderId> {
    set id | id in orders && Awaits(orders[id], pass)
  }

  /** Settled no later; an order without a settlement time sorts last. */
  predicate NoLater(a: Order, b: Order) {
    b.succeededAt.None? || (a.succeededAt.Some? && a.succeededAt.value <= b.succeededAt.value)
  }

  /** `w` is some choice of the oldest `limit` waiting orders, oldest first. */
  ghost predicate IsWindow(orders: map<OrderId, Order>, pass: Pass, limit: nat, w: seq<OrderId>) {
    && (forall i | 0 <= i < |w| :: w[i] in Waiting(orders, pass))
    && (forall i, j | 0 <= i < j < |w| :: w[i] != w[j] && NoLater(orders[w[i]], orders[w[j]]))
    && (forall i, id | 0 <= i < |w| && id in Waiting(orders, pass) && id !in w :: NoLater(orders[w[i]], orders[id]))
    && |w| <= limit && (|w| < limit ==> forall id | id in Waiting(orders, pass) :: id in w)
  }

  lemma {:induction false} Oldest(orders: map<OrderId, Order>, ids: set<OrderId>) returns (least: OrderId)
    requires ids != {} && ids <= orders.Keys
    ensures least in ids && forall other | other in ids :: NoLater(orders[least], orders[other])
    decreases |ids|
  {
    var pick :| pick in ids;
    if ids == {pick} { return pick; }
    var best := Oldest(orders, ids - {pick});
    least := if NoLater(orders[pick], orders[best]) then pick else best;
    forall other | other in ids ensures NoLater(orders[least], orders[other]) {
      assert other != pick ==> other in ids - {pick};
    }
  }

  ghost function SweepAll(s: State, w: seq<OrderId>, faults: map<OrderId, Fault>, now: int, end: OrderId -> int): State
    decreases |w|
  {
    if w == [] || w[0] !in s.orders then s
    else
      var s' := SweepOne(s, w[0], FaultOf(faults, w[0]), now, end(w[0]));
      if Aborts(s, w[0], FaultOf(faults, w[0]), now) then s' else SweepAll(s', w[1..], faults, now, end)
  }

  /** A pass over a window breaks off somewhere. */
  ghost predicate AbortsAll(s: State, w: seq<OrderId>, faults: map<OrderId, Fault>, now: int, end: OrderId -> int)
    decreases |w|
  {
    w != [] && w[0] in s.orders
    && (Aborts(s, w[0], FaultOf(faults, w[0]), now)
        || AbortsAll(SweepOne(s, w[0], FaultOf(faults, w[0]), now, end(w[0])), w[1..], faults, now, end))
  }

  function FaultOf(faults: map<OrderId, Fault>, id: OrderId): Fault { if id in faults then faults[id] else NoFault }

  /** The sweep grants this order again: it neither finds it granted nor fails on it. */
  ghost predicate GrantsAgain(s: State, id: OrderId, f: Fault, now: int)
    requires id in s.orders
  {
    !f.ProbeDies? && !LooksGranted(s, s.orders[id], id, now) && Succeeds(s, id, f) && !f.StampLost?
  }

  /** The orders a pass grants again, in turn. */
  ghost function Regranted(s: State, w: seq<OrderId>, faults: map<OrderId, Fault>, now: int, end: OrderId -> int): seq<OrderId>
    decreases |w|
  {
    if w == [] || w[0] !in s.orders || Aborts(s, w[0], FaultOf(faults, w[0]), now) then []
    else
      (if GrantsAgain(s, w[0], FaultOf(faults, w[0]), now) then [w[0]] else [])
      + Regranted(SweepOne(s, w[0], FaultOf(faults, w[0]), now, end(w[0])), w[1..], faults, now, end)
  }

  /** The pass over a window, one order later. */
  lemma SweepAllStep(s: State, w: seq<OrderId>, faults: map<OrderId, Fault>, now: int, end: OrderId -> int)
    requires w != [] && w[0] in s.orders
    ensures var s' := SweepOne(s, w[0], FaultOf(faults, w[0]), now, end(w[0]));
            var broken := Aborts(s, w[0], FaultOf(faults, w[0]), now);
            && SweepAll(s, w, faults, now, end) == (if broken then s' else SweepAll(s', w[1..], faults, now, end))
            && AbortsAll(s, w, faults, now, end) == (broken || AbortsAll(s', w[1..], faults, now, end))
            && Regranted(s, w, faults, now, end)
               == (if broken then [] else
                   (if GrantsAgain(s, w[0], FaultOf(faults, w[0]), now) then [w[0]] else [])
                   + Regranted(s', w[1..], faults, now, end))
  {
  }

  /** A step of the sweep's own work on an order in hand, or of the transaction that races it. */
  predicate Own(step: Step) {
    match step
    case OpenRow(_, _, _) => true
    case Probe(p, _) => p == 0
    case Precheck(p) => p == 0
    case Lookup(p) => p == 0
    case Commit(p, _) => p == 0
    case CreateBoost(p, _) => p == 0
    case Upsert(p, _, _, _) => p == 0
    case Stamp(p, _) => p == 0
    case Throw(p) => p == 0
    case _ => false
  }

  predicate OwnSteps(steps: seq<Step>) { forall i | 0 <= i < |steps| :: Own(steps[i]) }

  lemma CreditIsARun(s: State, id: OrderId, f: Fault) returns (steps: seq<Step>)
    requires id in s.orders
    ensures Credit(s, id, f) == Exec(s, steps) && OwnSteps(steps)
  {
    var look := [Precheck(0), Lookup(0)];
    ExecTwo(s, Precheck(0), Lookup(0));
    var looked := Exec(s, look);
    var commit := Commit(0, f.ReplyIsLost?);
    if f.RowRace? && 0 in looked.handlers && looked.handlers[0] == Committing(id, false) {
      var open := OpenRow(!DutyOf(s.orders[id]).CreditAi?, s.orders[id].workspaceId, f.currency);
      ExecTwo(looked, open, commit);
      ExecConcat(s, look, [open, commit]);
      steps := look + [open, commit];
    } else {
      ExecOne(looked, commit);
      ExecConcat(s, look, [commit]);
      steps := look + [commit];
    }
  }

  lemma GrantIsARun(s: State, id: OrderId, f: Fault, now: int, end: int) returns (steps: seq<Step>)
    requires id in s.orders
    ensures Grant(s, id, f, now, end) == Exec(s, steps) && OwnSteps(steps)
  {
    var duty := DutyOf(s.orders[id]);
    if !f.DiesFirst? && IsCredit(s.orders[id]) {
      steps := CreditIsARun(s, id, f);
    } else {
      var step := if !f.DiesFirst? && duty.AddBoost? then CreateBoost(0, f.ReplyIsLost?)
                  else if !f.DiesFirst? && duty.Activate? && duty.packageId.Some? then Upsert(0, now, end, f.ReplyIsLost?)
                  else Throw(0);
      steps := [step];
      ExecOne(s, step);
    }
  }

  lemma WorkIsARun(s: State, id: OrderId, f: Fault, now: int, end: int) returns (steps: seq<Step>)
    requires id in s.orders
    ensures Finish(Grant(s, id, f, now, end), f, now) == Exec(s, steps) && OwnSteps(steps)
  {
    var grant := GrantIsARun(s, id, f, now, end);
    var finish := FinishIsARun(Exec(s, grant), f, now);
    ExecConcat(s, grant, finish);
    steps := grant + finish;
  }

  lemma FinishIsARun(s: State, f: Fault, now: int) returns (steps: seq<Step>)
    ensures Finish(s, f, now) == Exec(s, steps) && OwnSteps(steps)
  {
    var last := if f.StampLost? then Throw(0) else Stamp(0, now);
    ExecTwo(s, last, Throw(0));
    steps := [last, Throw(0)];
  }

  /** The sweep's work on one order: a pick and then steps of its own. */
  lemma OneIsATurn(s: State, id: OrderId, f: Fault, now: int, end: int) returns (work: seq<Step>)
    requires id in s.orders
    ensures SweepOne(s, id, f, now, end) == Exec(Apply(s, Pick(0, id)), work) && OwnSteps(work)
  {
    var picked := Apply(s, Pick(0, id));
    StepKeepsOrders(s, Pick(0, id));
    if f.ProbeDies? {
      ExecOne(picked, Throw(0));
      work := [Throw(0)];
    } else {
      work := ProbeIsARun(s, picked, id, f, now, end);
    }
  }

  lemma ProbeIsARun(s: State, picked: State, id: OrderId, f: Fault, now: int, end: int) returns (work: seq<Step>)
    requires id in s.orders && id in picked.orders
    ensures Exec(picked, work) == Finish(if LooksGranted(s, s.orders[id], id, now) then Apply(picked, Probe(0, now))
                                         else Grant(Apply(picked, Probe(0, now)), id, f, now, end), f, now)
    ensures OwnSteps(work)
  {
    StepKeepsOrders(picked, Probe(0, now));
    var rest;
    if LooksGranted(s, s.orders[id], id, now) {
      rest := FinishIsARun(Apply(picked, Probe(0, now)), f, now);
    } else {
      rest := WorkIsARun(Apply(picked, Probe(0, now)), id, f, now, end);
    }
    ExecFirst(picked, Probe(0, now), rest);
    work := [Probe(0, now)] + rest;
  }

  lemma ExecFirst(s: State, step: Step, rest: seq<Step>)
    ensures Exec(s, [step] + rest) == Exec(Apply(s, step), rest)
  {
    assert ([step] + rest)[1..] == rest;
  }

  /** A call is made of machine steps, so it keeps whatever they keep. */
  lemma OneIsARun(s: State, id: OrderId, f: Fault, now: int, end: int)
    requires id in s.orders
    ensures exists steps :: SweepOne(s, id, f, now, end) == Exec(s, steps)
  {
    var work := OneIsATurn(s, id, f, now, end);
    ExecFirst(s, Pick(0, id), work);
  }

  lemma SettleIsARun(s: State, id: OrderId, f: Fault, now: int, end: int)
    requires id in s.orders
    ensures exists steps :: SettleRun(s, id, f, now, end) == Exec(s, steps)
  {
    StepKeepsOrders(s, Settle(0, id));
    StepKeepsOrders(Apply(s, Settle(0, id)), Flip(0, now));
    var steps := TwoThenWork(s, Settle(0, id), Flip(0, now), id, f, now, end);
  }

  lemma TwoThenWork(s: State, first: Step, second: Step, id: OrderId, f: Fault, now: int, end: int)
    returns (steps: seq<Step>)
    requires id in s.orders && id in Apply(Apply(s, first), second).orders
    ensures Finish(Grant(Apply(Apply(s, first), second), id, f, now, end), f, now) == Exec(s, steps)
  {
    var work := WorkIsARun(Apply(Apply(s, first), second), id, f, now, end);
    ExecTwo(s, first, second);
    ExecConcat(s, [first, second], work);
    steps := [first, second] + work;
  }

  lemma OneKeeps(s: State, id: OrderId, f: Fault, now: int, end: int)
    requires id in s.orders
    ensures Keeps(s, SweepOne(s, id, f, now, end))
    ensures Inv(s) ==> Inv(SweepOne(s, id, f, now, end))
  {
    OneIsARun(s, id, f, now, end);
    var steps :| SweepOne(s, id, f, now, end) == Exec(s, steps);
    RunKeeps(s, steps);
    if Inv(s) { RunKeepsInv(s, steps); }
  }
}
