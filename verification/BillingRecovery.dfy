/**
 * What the recovery sweep achieves over time
 * (backend/src/modules/billing/billing-settlement.service.ts:219-372). Every pass looks only
 * at the oldest `limit` paid orders that carry no stamp.
 */
module BillingRecovery {
  import opened Billing
  import opened BillingRuns
  import opened BillingSettlement

  type Orders = map<OrderId, Order>

  /**
   * One pass, seen from the order table: every order of some window is stamped unless it is
   * one of those that fail. Whatever else happens up to the next pass only keeps orders.
   */
  ghost predicate Swept(before: Orders, after: Orders, pass: Pass, limit: nat, failing: set<OrderId>) {
    OrdersKept(before, after)
    && exists w :: IsWindow(before, pass, limit, w) && Stamps(after, w, failing)
  }

  ghost predicate Stamps(after: Orders, w: seq<OrderId>, failing: set<OrderId>) {
    forall id | id in w && id !in failing :: id in after && after[id].grantedAt.Some?
  }

  lemma SweptThenKept(before: Orders, after: Orders, later: Orders, pass: Pass, limit: nat, failing: set<OrderId>)
    requires Swept(before, after, pass, limit, failing) && OrdersKept(after, later)
    ensures Swept(before, later, pass, limit, failing)
  {
    var w :| IsWindow(before, pass, limit, w) && Stamps(after, w, failing);
    assert Stamps(later, w, failing);
  }

  /** An order that a pass cannot grant when its turn comes. */
  ghost predicate Fails(s: State, id: OrderId, faults: map<OrderId, Fault>)
    requires id in s.orders
  {
    FaultOf(faults, id) != NoFault || Hopeless(s, s.orders[id])
  }

  /** Whoever fails at its turn in the pass is one of `failing`. */
  ghost predicate Covered(s: State, w: seq<OrderId>, faults: map<OrderId, Fault>, now: int, end: OrderId -> int,
                          failing: set<OrderId>)
    decreases |w|
  {
    w == [] || w[0] !in s.orders
    || ((Fails(s, w[0], faults) ==> w[0] in failing)
        && Covered(SweepOne(s, w[0], FaultOf(faults, w[0]), now, end(w[0])), w[1..], faults, now, end, failing))
  }

  lemma OneStamps(s: State, id: OrderId, f: Fault, now: int, end: int)
    requires 0 !in s.handlers && id in s.orders && s.orders[id].status == SUCCEEDED && Recoverable(s.orders[id])
    ensures var s' := SweepOne(s, id, f, now, end);
            && s'.handlers == s.handlers && s'.orders.Keys == s.orders.Keys
            && (f.NoFault? && !Hopeless(s, s.orders[id]) ==> s'.orders[id].grantedAt.Some?)
            && s'.orders[id] == s.orders[id].(grantedAt := s'.orders[id].grantedAt)
            && (forall other | other in s.orders && other != id :: s'.orders[other] == s.orders[other])
  {
    SweepOneIs(s, id, f, now, end);
    BooksIgnoreHandlers(s, id, f, now, end, s.handlers);
  }

  predicate Sweepable(orders: Orders, w: seq<OrderId>) {
    forall id | id in w :: id in orders && orders[id].status == SUCCEEDED && Recoverable(orders[id])
  }

  /** Only stamps are added. */
  ghost predicate OnlyStamped(before: Orders, after: Orders) {
    && after.Keys == before.Keys
    && forall id | id in before :: after[id] == before[id].(grantedAt := after[id].grantedAt)
                                   && (before[id].grantedAt.Some? ==> after[id].grantedAt.Some?)
  }

  lemma {:induction false} PassStamps(s: State, w: seq<OrderId>, faults: map<OrderId, Fault>, now: int,
                                      end: OrderId -> int, failing: set<OrderId>)
    requires 0 !in s.handlers && Sweepable(s.orders, w)
    requires Covered(s, w, faults, now, end, failing) && !AbortsAll(s, w, faults, now, end)
    ensures SweepAll(s, w, faults, now, end).handlers == s.handlers
    ensures OnlyStamped(s.orders, SweepAll(s, w, faults, now, end).orders)
    ensures Stamps(SweepAll(s, w, faults, now, end).orders, w, failing)
    decreases |w|
  {
    if w != [] {
      var id := w[0];
      var next := SweepOne(s, id, FaultOf(faults, id), now, end(id));
      OneStamps(s, id, FaultOf(faults, id), now, end(id));
      OneKeeps(s, id, FaultOf(faults, id), now, end(id));
      SweepAllStep(s, w, faults, now, end);
      StampedIsKept(s.orders, next.orders);
      StillSweepable(s.orders, next.orders, w);
      PassStamps(next, w[1..], faults, now, end, failing);
      StampsAdd(s.orders, next.orders, SweepAll(next, w[1..], faults, now, end).orders, w, failing);
    }
  }

  lemma StampsAdd(before: Orders, next: Orders, after: Orders, w: seq<OrderId>, failing: set<OrderId>)
    requires w != [] && OnlyStamped(before, next) && OnlyStamped(next, after) && Stamps(after, w[1..], failing)
    requires w[0] in next && (w[0] !in failing ==> next[w[0]].grantedAt.Some?)
    ensures OnlyStamped(before, after) && Stamps(after, w, failing)
  {
    assert w == [w[0]] + w[1..];
  }

  /** A pass of the service, as BillingService.ReconcilePass promises it, is such a pass. */
  lemma PassIsSwept(s: State, w: seq<OrderId>, pass: Pass, limit: nat, faults: map<OrderId, Fault>, now: int,
                    end: OrderId -> int, failing: set<OrderId>)
    requires 0 !in s.handlers && IsWindow(s.orders, pass, limit, w)
    requires Covered(s, w, faults, now, end, failing) && !AbortsAll(s, w, faults, now, end)
    ensures var s' := SweepAll(s, w, faults, now, end);
            Swept(s.orders, s'.orders, pass, limit, failing) && OnlyStamped(s.orders, s'.orders) && s'.handlers == s.handlers
  {
    assert forall id | id in w :: id in Waiting(s.orders, pass);
    PassStamps(s, w, faults, now, end, failing);
    StampedIsKept(s.orders, SweepAll(s, w, faults, now, end).orders);
  }

  lemma StampedIsKept(before: Orders, after: Orders)
    requires OnlyStamped(before, after)
    ensures OrdersKept(before, after)
  {
  }

  // --------------------------------------------------------------- progress

  /** Tables before each pass; between passes any other handler may run and orders may arrive. */
  ghost predicate History(h: seq<Orders>, pass: Pass, limit: nat, failing: set<OrderId>) {
    h != [] && Since(h[0], h, pass, limit, failing)
  }

  /** Tables later than `first`: each is the one before it after a pass, and what is new in it is newer. */
  ghost predicate Since(first: Orders, h: seq<Orders>, pass: Pass, limit: nat, failing: set<OrderId>)
    decreases |h|
  {
    h == [] || (&& OrdersKept(first, h[0]) && OnlyNewer(first, h[0], pass)
                && (|h| > 1 ==> Swept(h[0], h[1], pass, limit, failing)) && Since(first, h[1..], pass, limit, failing))
  }

  /** Orders that were not waiting at first sort behind all that were. */
  ghost predicate OnlyNewer(first: Orders, orders: Orders, pass: Pass) {
    forall id, early | id in Waiting(orders, pass) && id !in Waiting(first, pass)
                     && early in Waiting(first, pass) && early in Waiting(orders, pass)
      :: !NoLater(orders[id], orders[early])
  }

  /** The waiting orders that sort no later than `id`, itself included. */
  function Ahead(orders: Orders, pass: Pass, id: OrderId): set<OrderId>
    requires id in orders
  {
    set a | a in Waiting(orders, pass) && NoLater(orders[a], orders[id])
  }

  ghost function Left(first: Orders, orders: Orders, pass: Pass, failing: set<OrderId>, id: OrderId): set<OrderId>
    requires id in first
  {
    set a | a in Ahead(first, pass, id) && a in Waiting(orders, pass) && a !in failing
  }

  function Elements(w: seq<OrderId>): set<OrderId> { set id | id in w }

  lemma {:induction false} Distinct(w: seq<OrderId>)
    requires forall i, j | 0 <= i < j < |w| :: w[i] != w[j]
    ensures |Elements(w)| == |w|
    decreases |w|
  {
    if w != [] {
      var init, last := w[..|w| - 1], w[|w| - 1];
      Distinct(init);
      assert w == init + [last];
      assert last !in Elements(init) && Elements(w) == Elements(init) + {last};
    }
  }

  lemma CardLess(a: set<OrderId>, b: set<OrderId>)
    requires a <= b
    ensures |a| <= |b|
  {
    assert b == a + (b - a);
  }

  /** Trying `tried` orders, of which few can fail, leaves that many fewer. */
  lemma Shrinks(tried: set<OrderId>, failing: set<OrderId>, early: set<OrderId>, before: set<OrderId>, after: set<OrderId>)
    requires tried <= early && tried - failing <= before && after <= before - (tried - failing)
    ensures |after| <= |before| - (|tried| - |early * failing|)
  {
    CardLess(tried * failing, early * failing);
    assert tried == (tried - failing) + tried * failing;
    CardLess(after, before - (tried - failing));
    assert before == (before - (tried - failing)) + (tried - failing);
  }

  /** What waits after a pass was waiting before it. */
  lemma LeftShrinks(first: Orders, before: Orders, after: Orders, pass: Pass, failing: set<OrderId>, id: OrderId)
    requires OrdersKept(first, before) && OrdersKept(before, after) && id in first
    ensures Left(first, after, pass, failing, id) <= Left(first, before, pass, failing, id)
  {
    forall a | a in Left(first, after, pass, failing, id) ensures a in Left(first, before, pass, failing, id) {
      assert a in before && !Open(first[a]) && !Open(before[a]);
    }
  }

  /** A window that misses an order ahead of `id` is full, and of such orders only. */
  lemma WindowIsEarly(first: Orders, before: Orders, pass: Pass, limit: nat, w: seq<OrderId>, id: OrderId, missed: OrderId)
    requires IsWindow(before, pass, limit, w) && OnlyNewer(first, before, pass) && OrdersKept(first, before)
    requires id in first && missed in Ahead(first, pass, id) && missed in Waiting(before, pass) && missed !in w
    ensures |Elements(w)| == limit && Elements(w) <= Ahead(first, pass, id) * Waiting(before, pass)
  {
    Distinct(w);
    forall i | 0 <= i < |w| ensures w[i] in Ahead(first, pass, id) && w[i] in Waiting(before, pass) {
      assert NoLater(before[w[i]], before[missed]);
      assert w[i] in Waiting(first, pass);
      assert before[w[i]].succeededAt == first[w[i]].succeededAt && before[missed].succeededAt == first[missed].succeededAt;
    }
  }

  /** One pass either finishes the orders ahead of `id` or stamps at least limit - p of them. */
  lemma PassAdvances(first: Orders, before: Orders, after: Orders, pass: Pass, limit: nat, failing: set<OrderId>, id: OrderId)
    requires OrdersKept(first, before) && Swept(before, after, pass, limit, failing) && OnlyNewer(first, before, pass)
    requires id in first
    ensures var p := |Ahead(first, pass, id) * failing|;
            || Left(first, after, pass, failing, id) == {}
            || |Left(first, after, pass, failing, id)| <= |Left(first, before, pass, failing, id)| - (limit - p)
  {
    var w :| IsWindow(before, pass, limit, w) && Stamps(after, w, failing);
    var left, left' := Left(first, before, pass, failing, id), Left(first, after, pass, failing, id);
    LeftShrinks(first, before, after, pass, failing, id);
    TriedAreDone(first, after, pass, failing, id, w);
    if missed :| missed in left && missed !in w {
      WindowIsEarly(first, before, pass, limit, w, id, missed);
      assert Elements(w) - failing <= left;
      assert left' <= left - (Elements(w) - failing);
      Shrinks(Elements(w), failing, Ahead(first, pass, id), left, left');
    } else {
      assert left' <= left && left <= Elements(w) - failing;
      assert left' == {};
    }
  }

  lemma TriedAreDone(first: Orders, after: Orders, pass: Pass, failing: set<OrderId>, id: OrderId, w: seq<OrderId>)
    requires Stamps(after, w, failing) && id in first
    ensures (Elements(w) - failing) !! Left(first, after, pass, failing, id)
  {
  }

  /** `k` times `d`. */
  function Times(k: nat, d: nat): nat { if k == 0 then 0 else Times(k - 1, d) + d }

  lemma {:induction false} TimesIs(k: nat, d: nat)
    ensures Times(k, d) == k * d
  {
    if k > 0 {
      TimesIs(k - 1, d);
      assert k * d == (k - 1) * d + d;
    }
  }

  /** Of the orders ahead of `id` that do not fail, at least `done` are done, or nothing is left. */
  ghost predicate Counted(first: Orders, orders: Orders, pass: Pass, failing: set<OrderId>, id: OrderId, done: int)
    requires id in first
  {
    var left := Left(first, orders, pass, failing, id);
    left == {} || |left| <= |Ahead(first, pass, id) - failing| - done
  }

  lemma PassCounts(first: Orders, before: Orders, after: Orders, pass: Pass, limit: nat, failing: set<OrderId>, id: OrderId,
                   d: nat, done: int)
    requires OrdersKept(first, before) && Swept(before, after, pass, limit, failing) && OnlyNewer(first, before, pass)
    requires id in first && d <= limit - |Ahead(first, pass, id) * failing|
    requires Counted(first, before, pass, failing, id, done)
    ensures Counted(first, after, pass, failing, id, done + d)
  {
    PassAdvances(first, before, after, pass, limit, failing, id);
    LeftShrinks(first, before, after, pass, failing, id);
  }

  lemma {:induction false} AfterPasses(first: Orders, h: seq<Orders>, pass: Pass, limit: nat, failing: set<OrderId>,
                                       id: OrderId, d: nat, done: int)
    requires Since(first, h, pass, limit, failing) && h != [] && id in first
    requires d <= limit - |Ahead(first, pass, id) * failing| && Counted(first, h[0], pass, failing, id, done)
    ensures Counted(first, h[|h| - 1], pass, failing, id, done + Times(|h| - 1, d)) && OrdersKept(first, h[|h| - 1])
    decreases |h|
  {
    if |h| > 1 {
      var rest := h[1..];
      assert rest[0] == h[1] && rest[|rest| - 1] == h[|h| - 1];
      PassCounts(first, h[0], rest[0], pass, limit, failing, id, d, done);
      AfterPasses(first, rest, pass, limit, failing, id, d, done + d);
      assert done + d + Times(|rest| - 1, d) == done + Times(|h| - 1, d);
    }
  }

  /**
   * Recovery makes progress, order by order: if p < limit of the waiting orders that sort no
   * later than `id` fail, and n do not, then `id` is stamped once the passes number n / (limit - p),
   * however many newer orders fail or arrive.
   */
  lemma RecoveryProgress(h: seq<Orders>, pass: Pass, limit: nat, failing: set<OrderId>, id: OrderId)
    requires History(h, pass, limit, failing) && id in Waiting(h[0], pass) && id !in failing
    requires |Ahead(h[0], pass, id) * failing| < limit
    requires Enough(|h| - 1, limit - |Ahead(h[0], pass, id) * failing|, |Ahead(h[0], pass, id) - failing|)
    ensures id in h[|h| - 1] && h[|h| - 1][id].grantedAt.Some?
  {
    var d := limit - |Ahead(h[0], pass, id) * failing|;
    EnoughIs(|h| - 1, d, |Ahead(h[0], pass, id) - failing|);
    ProgressBy(h, pass, limit, failing, id, d);
  }

  lemma ProgressBy(h: seq<Orders>, pass: Pass, limit: nat, failing: set<OrderId>, id: OrderId, d: nat)
    requires History(h, pass, limit, failing) && id in Waiting(h[0], pass) && id !in failing
    requires d <= limit - |Ahead(h[0], pass, id) * failing| && Times(|h| - 1, d) >= |Ahead(h[0], pass, id) - failing|
    ensures id in h[|h| - 1] && h[|h| - 1][id].grantedAt.Some?
  {
    assert Left(h[0], h[0], pass, failing, id) == Ahead(h[0], pass, id) - failing;
    AfterPasses(h[0], h, pass, limit, failing, id, d, 0);
    NothingLeft(h[0], h[|h| - 1], pass, failing, id, Times(|h| - 1, d));
  }

  lemma EnoughIs(passes: nat, each: nat, n: int)
    requires Enough(passes, each, n)
    ensures Times(passes, each) >= n
  {
    TimesIs(passes, each);
  }

  lemma NothingLeft(first: Orders, last: Orders, pass: Pass, failing: set<OrderId>, id: OrderId, done: int)
    requires OrdersKept(first, last) && id in Waiting(first, pass) && id !in failing
    requires Counted(first, last, pass, failing, id, done) && done >= |Ahead(first, pass, id) - failing|
    ensures id in last && last[id].grantedAt.Some?
  {
    assert |Left(first, last, pass, failing, id)| <= 0;
    assert !Open(first[id]);
    assert id !in Left(first, last, pass, failing, id);
  }

  /** `passes` passes at `each` orders a pass are enough for `n`. */
  predicate Enough(passes: int, each: int, n: int) { passes * each >= n }

  // ------------------------------------------------------ progress in runs

  /** The sweep runs as handler 0; it takes an order in hand by a pick. */
  predicate Starts(step: Step) { (step.Settle? || step.Pick?) && step.pid == 0 }

  predicate NoStart(steps: seq<Step>) { forall i | 0 <= i < |steps| :: !Starts(steps[i]) }

  /**
   * The sweep's turn with one order, in the middle of everything else: what other handlers do
   * before its pick, and its own steps with those of the others in between.
   */
  datatype Turn = Turn(lead: seq<Step>, work: seq<Step>)

  ghost function Picked(s: State, id: OrderId, t: Turn): State { Apply(Exec(s, t.lead), Pick(0, id)) }

  ghost function AfterTurn(s: State, id: OrderId, t: Turn): State { Exec(Picked(s, id, t), t.work) }

  /** A pass that an error ends early has fewer turns than its window has orders. */
  ghost function AfterTurns(s: State, w: seq<OrderId>, turns: seq<Turn>): State
    decreases |turns|
  {
    if turns == [] || w == [] then s else AfterTurns(AfterTurn(s, w[0], turns[0]), w[1..], turns[1..])
  }

  /** The sweep lets go of its order without a stamp. */
  ghost predicate Breaks(s: State, step: Step) { 0 in s.handlers && 0 !in Apply(s, step).handlers && !step.Stamp? }

  ghost predicate Unbroken(s: State, steps: seq<Step>)
    decreases |steps|
  {
    steps == [] || (!Breaks(s, steps[0]) && Unbroken(Apply(s, steps[0]), steps[1..]))
  }

  /**
   * Exactly why a turn breaks off: the sweep throws, its write's reply is lost, the top-up has
   * no amount, the currency is refused, or the AI wallet's row was made after its lookup.
   */
  lemma BreaksIff(s: State, step: Step)
    requires 0 in s.handlers && !s.handlers[0].Flipping? && HandlerOk(s, s.handlers[0])
    ensures var h := s.handlers[0];
            var o := s.orders[h.id];
            Breaks(s, step)
            <==> match step {
                   case Throw(p) => p == 0
                   case Precheck(p) => p == 0 && h.Granting? && DutyOf(o).CreditGrowth? && o.amount <= 0
                   case Lookup(p) => p == 0 && h.Posting? && Refused(s, o)
                   case Commit(p, lost) =>
                     p == 0 && h.Committing? && if !h.found && HasRow(WalletFor(s, o), o.workspaceId) then DutyOf(o).CreditAi? else lost
                   case CreateBoost(p, lost) => p == 0 && lost && h.Granting? && DutyOf(o).AddBoost?
                   case Upsert(p, _, _, lost) => p == 0 && lost && h.Granting? && DutyOf(o).Activate? && o.packageId.Some?
                   case _ => false
                 }
  {
  }

  /** A turn runs until the sweep has let go; unless its order is one of `failing`, it does not break off. */
  ghost predicate TurnOk(s: State, id: OrderId, t: Turn, failing: set<OrderId>, from: int) {
    && NoStart(t.lead) && NoStart(t.work) && SettlesAfter(t.lead, from) && SettlesAfter(t.work, from)
    && 0 !in AfterTurn(s, id, t).handlers
    && (id !in failing ==> Unbroken(Picked(s, id, t), t.work))
  }

  ghost predicate TurnsOk(s: State, w: seq<OrderId>, turns: seq<Turn>, failing: set<OrderId>, from: int)
    decreases |turns|
  {
    turns == [] || w == [] || (TurnOk(s, w[0], turns[0], failing, from)
                    && TurnsOk(AfterTurn(s, w[0], turns[0]), w[1..], turns[1..], failing, from))
  }

  /** One pass over its window, then whatever happens until the next one reads its window. */
  datatype Round = Round(w: seq<OrderId>, turns: seq<Turn>, between: seq<Step>)

  ghost function AfterRound(s: State, r: Round): State { Exec(AfterTurns(s, r.w, r.turns), r.between) }

  ghost function AfterRounds(s: State, rounds: seq<Round>): State
    decreases |rounds|
  {
    if rounds == [] then s else AfterRounds(AfterRound(s, rounds[0]), rounds[1..])
  }

  /** Orders are settled after `from`. */
  predicate SettlesAfter(steps: seq<Step>, from: int) {
    forall i :: 0 <= i < |steps| && steps[i].Flip? ==> steps[i].now > from
  }

  /** The pass runs to its end on a window of the tables it finds; handler 0, the sweep, is free for it. */
  ghost predicate RoundOk(s: State, r: Round, pass: Pass, limit: nat, failing: set<OrderId>, from: int) {
    && 0 !in s.handlers && IsWindow(s.orders, pass, limit, r.w) && |r.turns| == |r.w|
    && TurnsOk(s, r.w, r.turns, failing, from) && SettlesAfter(r.between, from)
  }

  ghost predicate RoundsOk(s: State, rounds: seq<Round>, pass: Pass, limit: nat, failing: set<OrderId>, from: int)
    decreases |rounds|
  {
    rounds == []
    || (RoundOk(s, rounds[0], pass, limit, failing, from)
        && RoundsOk(AfterRound(s, rounds[0]), rounds[1..], pass, limit, failing, from))
  }

  // ---------------------------------------------------- a turn stamps its order

  /** The sweep holds the order, or has stamped it and let go. */
  ghost predicate InHand(s: State, id: OrderId) {
    if 0 in s.handlers then s.handlers[0].id == id else id in s.orders && s.orders[id].grantedAt.Some?
  }

  lemma OwnGoesOn(s: State, step: Step, id: OrderId)
    requires 0 in s.handlers && s.handlers[0].id == id && !Starts(step) && !Breaks(s, step)
    ensures InHand(Apply(s, step), id)
  {
    if 0 !in Apply(s, step).handlers {
      assert step.Stamp?;
    } else if step.Precheck? || step.Lookup? || step.Commit? {
      CreditKeepsOrder(s, step, id);
    }
  }

  lemma CreditKeepsOrder(s: State, step: Step, id: OrderId)
    requires step.Precheck? || step.Lookup? || step.Commit?
    requires 0 in s.handlers && s.handlers[0].id == id && 0 in Apply(s, step).handlers
    ensures Apply(s, step).handlers[0].id == id
  {
  }

  lemma IdleStaysIdle(s: State, step: Step)
    requires 0 !in s.handlers && !Starts(step)
    ensures 0 !in Apply(s, step).handlers
  {
  }

  lemma {:induction false} RunStaysIdle(s: State, steps: seq<Step>)
    requires 0 !in s.handlers && NoStart(steps)
    ensures 0 !in Exec(s, steps).handlers
    decreases |steps|
  {
    if steps != [] {
      assert !Starts(steps[0]);
      IdleStaysIdle(s, steps[0]);
      RunStaysIdle(Apply(s, steps[0]), steps[1..]);
    }
  }

  lemma {:induction false} WorkStamps(s: State, steps: seq<Step>, id: OrderId)
    requires InHand(s, id) && NoStart(steps) && Unbroken(s, steps)
    ensures InHand(Exec(s, steps), id)
    decreases |steps|
  {
    if steps != [] {
      var s' := Apply(s, steps[0]);
      assert !Starts(steps[0]);
      if 0 in s.handlers {
        OwnGoesOn(s, steps[0], id);
      } else {
        IdleStaysIdle(s, steps[0]);
        StepKeeps(s, steps[0]);
      }
      WorkStamps(s', steps[1..], id);
    }
  }

  /** Whatever steps in between: a turn that does not break off has stamped its order when it ends. */
  lemma TurnStamps(s: State, id: OrderId, t: Turn, failing: set<OrderId>, from: int)
    requires 0 !in s.handlers && TurnOk(s, id, t, failing, from) && id !in failing
    requires id in s.orders && s.orders[id].status == SUCCEEDED && Recoverable(s.orders[id])
    ensures var s' := AfterTurn(s, id, t); id in s'.orders && s'.orders[id].grantedAt.Some?
  {
    var s1 := Exec(s, t.lead);
    RunStaysIdle(s, t.lead);
    RunKeeps(s, t.lead);
    assert Picked(s, id, t) == To(s1, 0, Probing(id));
    WorkStamps(Picked(s, id, t), t.work, id);
  }

  lemma TurnKeeps(s: State, id: OrderId, t: Turn)
    ensures OrdersKept(s.orders, AfterTurn(s, id, t).orders)
  {
    RunKeeps(s, t.lead);
    StepKeeps(Exec(s, t.lead), Pick(0, id));
    RunKeeps(Picked(s, id, t), t.work);
    KeptOn(s.orders, Exec(s, t.lead).orders, Picked(s, id, t).orders);
    KeptOn(s.orders, Picked(s, id, t).orders, AfterTurn(s, id, t).orders);
  }

  lemma StillSweepable(orders: Orders, next: Orders, w: seq<OrderId>)
    requires Sweepable(orders, w) && OrdersKept(orders, next) && w != []
    ensures Sweepable(next, w[1..])
  {
    forall other | other in w[1..] ensures other in next && next[other].status == SUCCEEDED && Recoverable(next[other]) {
      assert other in w && !Open(orders[other]);
    }
  }

  lemma {:induction false} TurnsStamp(s: State, w: seq<OrderId>, turns: seq<Turn>, failing: set<OrderId>, from: int)
    requires |turns| == |w| && 0 !in s.handlers && Sweepable(s.orders, w) && TurnsOk(s, w, turns, failing, from)
    ensures OrdersKept(s.orders, AfterTurns(s, w, turns).orders)
    ensures Stamps(AfterTurns(s, w, turns).orders, w, failing)
    decreases |turns|
  {
    if turns != [] {
      var s' := AfterTurn(s, w[0], turns[0]);
      TurnKeeps(s, w[0], turns[0]);
      if w[0] !in failing { TurnStamps(s, w[0], turns[0], failing, from); }
      StillSweepable(s.orders, s'.orders, w);
      TurnsStamp(s', w[1..], turns[1..], failing, from);
      KeptOn(s.orders, s'.orders, AfterTurns(s, w, turns).orders);
      assert w == [w[0]] + w[1..];
    }
  }

  /** Whatever was not settled at first and is now was settled after `from`. */
  ghost predicate NewAreLater(first: Orders, orders: Orders, from: int) {
    forall id | id in orders && orders[id].status == SUCCEEDED && !(id in first && first[id].status == SUCCEEDED) ::
      orders[id].succeededAt.Some? && orders[id].succeededAt.value > from
  }

  lemma StepKeepsLater(first: Orders, s: State, step: Step, from: int)
    requires NewAreLater(first, s.orders, from) && (step.Flip? ==> step.now > from)
    ensures NewAreLater(first, Apply(s, step).orders, from)
  {
    WhoWrites(s, step);
  }

  lemma {:induction false} RunKeepsLater(first: Orders, s: State, steps: seq<Step>, from: int)
    requires NewAreLater(first, s.orders, from) && SettlesAfter(steps, from)
    ensures NewAreLater(first, Exec(s, steps).orders, from)
    decreases |steps|
  {
    if steps != [] {
      StepKeepsLater(first, s, steps[0], from);
      assert forall i | 0 <= i < |steps[1..]| :: steps[1..][i] == steps[i + 1];
      RunKeepsLater(first, Apply(s, steps[0]), steps[1..], from);
    }
  }

  lemma TurnKeepsLater(first: Orders, s: State, id: OrderId, t: Turn, from: int)
    requires NewAreLater(first, s.orders, from) && SettlesAfter(t.lead, from) && SettlesAfter(t.work, from)
    ensures NewAreLater(first, AfterTurn(s, id, t).orders, from)
  {
    RunKeepsLater(first, s, t.lead, from);
    StepKeepsLater(first, Exec(s, t.lead), Pick(0, id), from);
    RunKeepsLater(first, Picked(s, id, t), t.work, from);
  }

  lemma {:induction false} TurnsKeepLater(first: Orders, s: State, w: seq<OrderId>, turns: seq<Turn>, failing: set<OrderId>,
                                          from: int)
    requires TurnsOk(s, w, turns, failing, from) && NewAreLater(first, s.orders, from)
    ensures NewAreLater(first, AfterTurns(s, w, turns).orders, from)
    decreases |turns|
  {
    if turns != [] && w != [] {
      TurnKeepsLater(first, s, w[0], turns[0], from);
      TurnsKeepLater(first, AfterTurn(s, w[0], turns[0]), w[1..], turns[1..], failing, from);
    }
  }

  lemma RoundSweeps(first: Orders, s: State, r: Round, pass: Pass, limit: nat, failing: set<OrderId>, from: int)
    requires RoundOk(s, r, pass, limit, failing, from) && OrdersKept(first, s.orders) && NewAreLater(first, s.orders, from)
    ensures var s' := AfterRound(s, r);
            && Swept(s.orders, s'.orders, pass, limit, failing)
            && OrdersKept(first, s'.orders) && NewAreLater(first, s'.orders, from)
  {
    var swept := AfterTurns(s, r.w, r.turns);
    assert forall id | id in r.w :: id in Waiting(s.orders, pass);
    TurnsStamp(s, r.w, r.turns, failing, from);
    TurnsKeepLater(first, s, r.w, r.turns, failing, from);
    RunKeeps(swept, r.between);
    assert Swept(s.orders, swept.orders, pass, limit, failing);
    SweptThenKept(s.orders, swept.orders, AfterRound(s, r).orders, pass, limit, failing);
    RunKeepsLater(first, swept, r.between, from);
    KeptOn(first, s.orders, AfterRound(s, r).orders);
  }

  lemma KeptOn(a: Orders, b: Orders, c: Orders)
    requires OrdersKept(a, b) && OrdersKept(b, c)
    ensures OrdersKept(a, c)
  {
  }

  /** All that waits at first was settled by `from`. */
  ghost predicate SettledBy(first: Orders, pass: Pass, from: int) {
    forall id | id in Waiting(first, pass) :: first[id].succeededAt.Some? && first[id].succeededAt.value <= from
  }

  lemma LaterIsNewer(first: Orders, orders: Orders, pass: Pass, from: int)
    requires OrdersKept(first, orders) && NewAreLater(first, orders, from) && SettledBy(first, pass, from)
    ensures OnlyNewer(first, orders, pass)
  {
    forall id, early | id in Waiting(orders, pass) && id !in Waiting(first, pass)
                       && early in Waiting(first, pass) && early in Waiting(orders, pass)
      ensures !NoLater(orders[id], orders[early])
    {
      assert !(id in first && first[id].status == SUCCEEDED);
      assert orders[early].succeededAt == first[early].succeededAt;
    }
  }

  /** The order tables before each pass, and after the last round. */
  ghost function Tables(s: State, rounds: seq<Round>): (h: seq<Orders>)
    ensures |h| == |rounds| + 1 && h[0] == s.orders
    decreases |rounds|
  {
    if rounds == [] then [s.orders] else [s.orders] + Tables(AfterRound(s, rounds[0]), rounds[1..])
  }

  lemma {:induction false} TablesEnd(s: State, rounds: seq<Round>)
    ensures Tables(s, rounds)[|rounds|] == AfterRounds(s, rounds).orders
    decreases |rounds|
  {
    if rounds != [] { TablesEnd(AfterRound(s, rounds[0]), rounds[1..]); }
  }

  lemma {:induction false} RoundsGoOn(first: Orders, s: State, rounds: seq<Round>, pass: Pass, limit: nat,
                                      failing: set<OrderId>, from: int)
    requires RoundsOk(s, rounds, pass, limit, failing, from) && SettledBy(first, pass, from)
    requires OrdersKept(first, s.orders) && NewAreLater(first, s.orders, from)
    ensures Since(first, Tables(s, rounds), pass, limit, failing)
    decreases |rounds|
  {
    LaterIsNewer(first, s.orders, pass, from);
    if rounds != [] {
      var s' := AfterRound(s, rounds[0]);
      RoundSweeps(first, s, rounds[0], pass, limit, failing, from);
      RoundsGoOn(first, s', rounds[1..], pass, limit, failing, from);
      assert Tables(s, rounds)[1..] == Tables(s', rounds[1..]);
    }
  }

  /** Passes with any steps of other handlers inside them and between them make a history. */
  lemma RoundsAreAHistory(s: State, rounds: seq<Round>, pass: Pass, limit: nat, failing: set<OrderId>, from: int)
    requires RoundsOk(s, rounds, pass, limit, failing, from) && SettledBy(s.orders, pass, from)
    ensures History(Tables(s, rounds), pass, limit, failing)
  {
    RoundsGoOn(s.orders, s, rounds, pass, limit, failing, from);
  }

  /**
   * So for the machine, whatever other handlers do inside the passes and between them: `id` is
   * stamped as soon as there are n / (limit - p) passes, where p < limit of the waiting orders
   * that sort no later than it fail and n do not. Orders settled meanwhile only have to carry
   * later times.
   */
  lemma SweepsCatchUp(s: State, rounds: seq<Round>, pass: Pass, limit: nat, failing: set<OrderId>, from: int, id: OrderId)
    requires RoundsOk(s, rounds, pass, limit, failing, from) && SettledBy(s.orders, pass, from)
    requires id in Waiting(s.orders, pass) && id !in failing
    requires |Ahead(s.orders, pass, id) * failing| < limit
    requires Enough(|rounds|, limit - |Ahead(s.orders, pass, id) * failing|, |Ahead(s.orders, pass, id) - failing|)
    ensures var later := AfterRounds(s, rounds); id in later.orders && later.orders[id].grantedAt.Some?
  {
    RoundsAreAHistory(s, rounds, pass, limit, failing, from);
    TablesEnd(s, rounds);
    RecoveryProgress(Tables(s, rounds), pass, limit, failing, id);
  }

  // ------------------------------------------- the service's pass is a round

  lemma OwnIsNoStart(steps: seq<Step>)
    requires OwnSteps(steps)
    ensures NoStart(steps) && forall from :: SettlesAfter(steps, from)
  {
    forall i | 0 <= i < |steps| ensures !Starts(steps[i]) && !steps[i].Flip? {
      assert Own(steps[i]);
    }
  }

  lemma OwnKeepsOrders(s: State, step: Step)
    requires Own(step) && !(step.Stamp? && 0 in s.handlers)
    ensures Apply(s, step).orders == s.orders
  {
    WhoWrites(s, step);
  }

  lemma {:induction false} IdleOwnRun(s: State, steps: seq<Step>)
    requires 0 !in s.handlers && OwnSteps(steps)
    ensures Exec(s, steps).orders == s.orders && Unbroken(s, steps)
    decreases |steps|
  {
    if steps != [] {
      assert Own(steps[0]);
      IdleStaysIdle(s, steps[0]);
      OwnKeepsOrders(s, steps[0]);
      IdleOwnRun(Apply(s, steps[0]), steps[1..]);
    }
  }

  /** With nobody else stepping, a turn that broke off leaves its order unstamped. */
  lemma {:induction false} StampedIsUnbroken(s: State, steps: seq<Step>, id: OrderId)
    requires 0 in s.handlers && s.handlers[0].id == id && id in s.orders && s.orders[id].grantedAt.None? && OwnSteps(steps)
    requires id in Exec(s, steps).orders && Exec(s, steps).orders[id].grantedAt.Some?
    ensures Unbroken(s, steps)
    decreases |steps|
  {
    if steps != [] {
      var s' := Apply(s, steps[0]);
      assert Own(steps[0]);
      if 0 !in s'.handlers {
        IdleOwnRun(s', steps[1..]);
        if !steps[0].Stamp? { OwnKeepsOrders(s, steps[0]); }
      } else {
        OwnGoesOn(s, steps[0], id);
        if steps[0].Stamp? { StampLetsGo(s, steps[0]); } else { OwnKeepsOrders(s, steps[0]); }
        StampedIsUnbroken(s', steps[1..], id);
      }
    }
  }

  lemma StampLetsGo(s: State, step: Step)
    requires 0 in s.handlers && 0 in Apply(s, step).handlers && step.Stamp? && Own(step)
    ensures Apply(s, step).orders == s.orders
  {
  }

  /** The sweep's uninterrupted work on one order is a turn. */
  lemma OneIsATurnOk(s: State, id: OrderId, faults: map<OrderId, Fault>, now: int, end: int, failing: set<OrderId>, from: int)
    returns (t: Turn)
    requires 0 !in s.handlers && id in s.orders && s.orders[id].status == SUCCEEDED && Recoverable(s.orders[id])
    requires s.orders[id].grantedAt.None? && (Fails(s, id, faults) ==> id in failing)
    ensures AfterTurn(s, id, t) == SweepOne(s, id, FaultOf(faults, id), now, end)
    ensures TurnOk(s, id, t, failing, from)
  {
    var f := FaultOf(faults, id);
    var work := OneIsATurn(s, id, f, now, end);
    t := Turn([], work);
    OwnIsNoStart(work);
    OneStamps(s, id, f, now, end);
    assert Picked(s, id, t) == To(s, 0, Probing(id));
    if id !in failing { StampedIsUnbroken(Picked(s, id, t), work, id); }
  }

  /** A pass of the service is such turns, one for each order of its window. */
  lemma {:induction false} PassIsTurns(s: State, w: seq<OrderId>, faults: map<OrderId, Fault>, now: int, end: OrderId -> int,
                                       failing: set<OrderId>, from: int) returns (turns: seq<Turn>)
    requires 0 !in s.handlers && Sweepable(s.orders, w) && Fresh(s.orders, w)
    requires Covered(s, w, faults, now, end, failing) && !AbortsAll(s, w, faults, now, end)
    ensures |turns| == |w| && TurnsOk(s, w, turns, failing, from)
    ensures AfterTurns(s, w, turns) == SweepAll(s, w, faults, now, end)
    decreases |w|
  {
    turns := [];
    if w != [] {
      var id := w[0];
      var next := SweepOne(s, id, FaultOf(faults, id), now, end(id));
      var t := OneIsATurnOk(s, id, faults, now, end(id), failing, from);
      OneStamps(s, id, FaultOf(faults, id), now, end(id));
      OneKeeps(s, id, FaultOf(faults, id), now, end(id));
      StillSweepable(s.orders, next.orders, w);
      StillFresh(s.orders, next.orders, w);
      SweepAllStep(s, w, faults, now, end);
      var rest := PassIsTurns(next, w[1..], faults, now, end, failing, from);
      turns := [t] + rest;
      assert turns[1..] == rest;
    }
  }

  lemma StillFresh(orders: Orders, next: Orders, w: seq<OrderId>)
    requires Fresh(orders, w) && w != [] && next.Keys == orders.Keys
    requires forall other | other in orders && other != w[0] :: next[other] == orders[other]
    ensures Fresh(next, w[1..])
  {
    forall i | 0 <= i < |w[1..]| ensures w[1..][i] in w && w[1..][i] != w[0] {
      assert w[1..][i] == w[i + 1];
    }
  }

  /** Unstamped, each once. */
  predicate Fresh(orders: Orders, w: seq<OrderId>) {
    && (forall i, j | 0 <= i < j < |w| :: w[i] != w[j])
    && (forall id | id in w :: id in orders && orders[id].grantedAt.None?)
  }

  /** So the pass that BillingService.ReconcilePass promises is a round, with nothing after it. */
  lemma ServicePassIsARound(s: State, w: seq<OrderId>, pass: Pass, limit: nat, faults: map<OrderId, Fault>, now: int,
                            end: OrderId -> int, failing: set<OrderId>, from: int) returns (r: Round)
    requires 0 !in s.handlers && IsWindow(s.orders, pass, limit, w)
    requires Covered(s, w, faults, now, end, failing) && !AbortsAll(s, w, faults, now, end)
    ensures RoundOk(s, r, pass, limit, failing, from) && AfterRound(s, r) == SweepAll(s, w, faults, now, end)
  {
    assert forall id | id in w :: id in Waiting(s.orders, pass);
    var turns := PassIsTurns(s, w, faults, now, end, failing, from);
    r := Round(w, turns, []);
  }
}
