/**
 * The hourly lifecycle sweep, renewals and internal grants, and how they agree with the
 * liveness that the entitlement fold reads
 * (backend/src/modules/billing/billing-scheduler.service.ts:8, 35-84;
 * backend/src/modules/billing/billing-settlement.service.ts:467-512;
 * backend/src/modules/billing/package-assignment.ts:32-163).
 */
module BillingLifecycle {
  import opened Billing
  import opened Entitlements
  import opened EntitlementCache

  const GRACE_MS := 7 * 24 * 60 * 60 * 1000

  // ------------------------------------------------------------- one row

  predicate TrialOver(x: Subscription, now: int) {
    x.status == TRIALING && x.trialEndsAt.Some? && x.trialEndsAt.value < now
  }

  predicate Lapsed(x: Subscription, now: int) { x.status == ACTIVE && x.currentPeriodEnd < now }

  predicate GraceOver(x: Subscription, now: int) { x.status == PAST_DUE && x.currentPeriodEnd < now - GRACE_MS }

  predicate BoostOver(a: AddOn, now: int) {
    a.status == ADDON_ACTIVE && a.currentPeriodEnd.Some? && a.currentPeriodEnd.value < now
  }

  function EndTrial(x: Subscription, now: int): Subscription { if TrialOver(x, now) then x.(status := EXPIRED) else x }

  function Lapse(x: Subscription, now: int): Subscription {
    if Lapsed(x, now) then x.(status := if x.cancelAtPeriodEnd then SUB_CANCELLED else PAST_DUE) else x
  }

  function EndGrace(x: Subscription, now: int): Subscription { if GraceOver(x, now) then x.(status := EXPIRED) else x }

  /** One row through the three passes of one sweep. */
  function SweepSub(x: Subscription, now: int): Subscription { EndGrace(Lapse(EndTrial(x, now), now), now) }

  function SweepAddOn(a: AddOn, now: int): AddOn { if BoostOver(a, now) then a.(status := ADDON_EXPIRED) else a }

  /** Sweeps at the given times, one after the other. */
  function SweepSubRun(x: Subscription, times: seq<int>): Subscription {
    if times == [] then x else SweepSub(SweepSubRun(x, times[..|times| - 1]), times[|times| - 1])
  }

  function SweepAddOnRun(a: AddOn, times: seq<int>): AddOn {
    if times == [] then a else SweepAddOn(SweepAddOnRun(a, times[..|times| - 1]), times[|times| - 1])
  }

  function Latest(first: int, rest: seq<int>): (t: int)
    ensures t >= first && (forall r | r in rest :: t >= r) && (t == first || t in rest)
  {
    if rest == [] then first
    else
      var init, last := rest[..|rest| - 1], rest[|rest| - 1];
      assert rest == init + [last];
      Max(Latest(first, init), last)
  }

  lemma TwoSweepsAreOne(x: Subscription, a: AddOn, s: int, t: int)
    ensures SweepSub(SweepSub(x, s), t) == SweepSub(x, Max(s, t))
    ensures SweepAddOn(SweepAddOn(a, s), t) == SweepAddOn(a, Max(s, t))
  {
  }

  /**
   * Missed, repeated or reordered ticks are harmless: any sweeps leave a row exactly as the
   * one sweep at the latest of their times would, whatever it goes through on the way.
   */
  lemma {:induction false} SweepsCollapse(x: Subscription, a: AddOn, first: int, rest: seq<int>)
    ensures SweepSubRun(x, [first] + rest) == SweepSub(x, Latest(first, rest))
    ensures SweepAddOnRun(a, [first] + rest) == SweepAddOn(a, Latest(first, rest))
    decreases |rest|
  {
    var times := [first] + rest;
    if rest == [] {
      assert times == [first] && times[..0] == [];
    } else {
      assert times[..|times| - 1] == [first] + rest[..|rest| - 1];
      SweepsCollapse(x, a, first, rest[..|rest| - 1]);
      TwoSweepsAreOne(x, a, Latest(first, rest[..|rest| - 1]), rest[|rest| - 1]);
    }
  }

  // ------------------------------------------------------------- liveness

  /** When the sweep side takes a live row down. */
  predicate Overdue(x: Subscription, t: int) {
    || (x.status == ACTIVE && x.cancelAtPeriodEnd && t > x.currentPeriodEnd)
    || (x.status in {ACTIVE, PAST_DUE} && !(x.status == ACTIVE && x.cancelAtPeriodEnd)
        && t > x.currentPeriodEnd + 604_800_000)
  }

  /**
   * What one sweep makes of a row, status by status: a trial that has ended expires; a paid row
   * whose period is over is past due, or cancelled if that was asked for, and expires once its
   * period has been over for seven days; nothing but the status ever changes.
   */
  lemma SweepByStatus(x: Subscription, a: AddOn, now: int)
    ensures var y := SweepSub(x, now);
            && y == x.(status := y.status)
            && y.status == match x.status {
                 case TRIALING => if x.trialEndsAt.Some? && x.trialEndsAt.value < now then EXPIRED else TRIALING
                 case ACTIVE =>
                   if now <= x.currentPeriodEnd then ACTIVE
                   else if x.cancelAtPeriodEnd then SUB_CANCELLED
                   else if x.currentPeriodEnd + 604_800_000 < now then EXPIRED else PAST_DUE
                 case PAST_DUE => if x.currentPeriodEnd + 604_800_000 < now then EXPIRED else PAST_DUE
                 case SUB_CANCELLED => SUB_CANCELLED
                 case EXPIRED => EXPIRED
               }
    ensures SweepAddOn(a, now) == a.(status := SweepAddOn(a, now).status)
    ensures SweepAddOn(a, now).status
            == if a.status == ADDON_ACTIVE && a.currentPeriodEnd.Some? && a.currentPeriodEnd.value < now then ADDON_EXPIRED
               else a.status
  {
  }

  /**
   * Sweeps and reads agree. Whatever sweeps have run up to `now`, a row is live exactly when it
   * was live to begin with and the latest sweep did not find it overdue: a non-cancelling
   * ACTIVE row until seven days after its period, a cancelling one until its period's end, a
   * trial until its end whether it was swept or not. No sweep ever revives a row.
   */
  lemma LiveAfterSweeps(x: Subscription, first: int, rest: seq<int>, now: int)
    requires Latest(first, rest) <= now
    ensures Live(SweepSubRun(x, [first] + rest), now) <==> Live(x, now) && !Overdue(x, Latest(first, rest))
  {
    SweepsCollapse(x, AddOn([], 0, ADDON_ACTIVE, None), first, rest);
  }

  lemma NeverRevives(x: Subscription, first: int, rest: seq<int>, now: int)
    requires !Live(x, now)
    ensures !Live(SweepSubRun(x, [first] + rest), now)
  {
    SweepsCollapse(x, AddOn([], 0, ADDON_ACTIVE, None), first, rest);
  }

  /** Expired boosts count for nothing before and after the sweep that marks them. */
  lemma BoostsAgree(a: AddOn, first: int, rest: seq<int>, now: int)
    requires Latest(first, rest) <= now
    ensures Counts(SweepAddOnRun(a, [first] + rest), now) == Counts(a, now)
  {
    SweepsCollapse(Subscription("", EXPIRED, 0, 0, false, None, None), a, first, rest);
  }

  // ------------------------------------------------------------- renewals

  /** One provider renewal: a stale or repeated one is acknowledged and ignored. */
  function Extend(x: Subscription, newEnd: int): Subscription {
    if newEnd <= x.currentPeriodEnd then x
    else x.(status := ACTIVE, currentPeriodStart := x.currentPeriodEnd, currentPeriodEnd := newEnd)
  }

  function ExtendAll(x: Subscription, ends: seq<int>): Subscription {
    if ends == [] then x else Extend(ExtendAll(x, ends[..|ends| - 1]), ends[|ends| - 1])
  }

  /**
   * Reordered or repeated renewals: the period ends at the latest end ever paid for, never
   * earlier than it did; the row is ACTIVE again if and only if some renewal was news.
   */
  lemma {:induction false} RenewalsReachTheLatest(x: Subscription, ends: seq<int>)
    ensures var r := ExtendAll(x, ends);
            && r.currentPeriodEnd == Latest(x.currentPeriodEnd, ends)
            && r.status == (if exists e :: e in ends && e > x.currentPeriodEnd then ACTIVE else x.status)
            && r == x.(status := r.status, currentPeriodStart := r.currentPeriodStart, currentPeriodEnd := r.currentPeriodEnd)
            && (r.currentPeriodEnd == x.currentPeriodEnd ==> r == x)
            && (r.currentPeriodEnd > x.currentPeriodEnd ==> x.currentPeriodEnd <= r.currentPeriodStart < r.currentPeriodEnd)
    decreases |ends|
  {
    if ends != [] {
      var init, last := ends[..|ends| - 1], ends[|ends| - 1];
      assert ends == init + [last];
      RenewalsReachTheLatest(x, init);
      if last > x.currentPeriodEnd { assert last in ends; }
      if e :| e in init && e > x.currentPeriodEnd { assert e in ends; }
    }
  }

  /** Two deliveries of the same renewals, in any order and number, end the same period. */
  lemma RenewalsAreOrderFree(x: Subscription, ends: seq<int>, others: seq<int>)
    requires forall e :: e in ends <==> e in others
    ensures ExtendAll(x, ends).currentPeriodEnd == ExtendAll(x, others).currentPeriodEnd
    ensures ExtendAll(x, ends).status == ExtendAll(x, others).status
  {
    RenewalsReachTheLatest(x, ends);
    RenewalsReachTheLatest(x, others);
    assert Latest(x.currentPeriodEnd, ends) == Latest(x.currentPeriodEnd, others);
  }

  /** Only the start of the period remembers the order. */
  lemma StartRemembersTheOrder(x: Subscription, a: int, b: int)
    requires x.currentPeriodEnd < a < b
    ensures ExtendAll(x, [a, b]).currentPeriodStart == a && ExtendAll(x, [b, a]).currentPeriodStart == x.currentPeriodEnd
  {
    forall y ensures ExtendAll(x, [y]) == Extend(x, y) {
      assert [y][..0] == [];
    }
    assert [a, b][..1] == [a] && [b, a][..1] == [b];
    assert ExtendAll(x, [a, b]) == Extend(Extend(x, a), b);
    assert ExtendAll(x, [b, a]) == Extend(Extend(x, b), a);
  }

  /** A new renewal brings a row back from any status, and it then lives exactly as long as it paid for. */
  lemma RenewalRevives(x: Subscription, newEnd: int, first: int, rest: seq<int>, now: int)
    requires newEnd > x.currentPeriodEnd && Latest(first, rest) <= now
    ensures Live(SweepSubRun(Extend(x, newEnd), [first] + rest), now)
            <==> Latest(first, rest) <= newEnd + (if x.cancelAtPeriodEnd then 0 else GRACE_MS)
  {
    LiveAfterSweeps(Extend(x, newEnd), first, rest, now);
  }

  // ------------------------------------------ a write in the middle of a sweep

  datatype SweepPass = TRIALS | LAPSES | GRACES

  predicate Found(pass: SweepPass, x: Subscription, now: int) {
    match pass
    case TRIALS => TrialOver(x, now)
    case LAPSES => Lapsed(x, now)
    case GRACES => GraceOver(x, now)
  }

  function Writes(pass: SweepPass, x: Subscription): SubStatus {
    if pass.LAPSES? then if x.cancelAtPeriodEnd then SUB_CANCELLED else PAST_DUE else EXPIRED
  }

  /** A pass reads the row as `x` and writes by id, without looking again, when it is `y`. */
  function LateWrite(pass: SweepPass, x: Subscription, y: Subscription, now: int): Subscription {
    if Found(pass, x, now) then y.(status := Writes(pass, x)) else y
  }

  /** The row as a pass reads it, and what the passes after it make of the row it leaves. */
  function AsRead(pass: SweepPass, x: Subscription, now: int): Subscription {
    match pass
    case TRIALS => x
    case LAPSES => EndTrial(x, now)
    case GRACES => Lapse(EndTrial(x, now), now)
  }

  function Onward(pass: SweepPass, z: Subscription, now: int): Subscription {
    match pass
    case TRIALS => EndGrace(Lapse(z, now), now)
    case LAPSES => EndGrace(z, now)
    case GRACES => z
  }

  /** The sweep of a row into which another writer puts `y` between the read and the write of a pass. */
  function Interrupted(pass: SweepPass, x: Subscription, y: Subscription, now: int): Subscription {
    Onward(pass, LateWrite(pass, AsRead(pass, x, now), y, now), now)
  }

  /** Left alone, every pass is such a write, and the sweep is what it was. */
  lemma UninterruptedIsTheSweep(pass: SweepPass, x: Subscription, now: int)
    ensures Interrupted(pass, x, AsRead(pass, x, now), now) == SweepSub(x, now)
  {
  }

  /**
   * The other writer's row survives the pass if and only if the pass had not found the row it
   * read, or writes the status that row has anyway. What the pass never touches is the rest.
   */
  lemma LateWriteIff(pass: SweepPass, x: Subscription, y: Subscription, now: int)
    ensures var z := LateWrite(pass, x, y, now);
            && (z == y <==> !Found(pass, x, now) || Writes(pass, x) == y.status)
            && z == y.(status := z.status)
  {
  }

  /**
   * Where the pass writes EXPIRED or CANCELLED, whatever was written in between is dead at every
   * instant and stays as it is under every later sweep.
   */
  lemma {:induction false} DeadWriteStays(pass: SweepPass, x: Subscription, y: Subscription, now: int, times: seq<int>, t: int)
    requires var read := AsRead(pass, x, now); Found(pass, read, now) && (pass.LAPSES? ==> read.cancelAtPeriodEnd)
    ensures var z := Interrupted(pass, x, y, now);
            && z.status == Writes(pass, AsRead(pass, x, now)) && z == y.(status := z.status)
            && SweepSubRun(z, times) == z && !Live(z, t)
    decreases |times|
  {
    if times != [] { DeadWriteStays(pass, x, y, now, times[..|times| - 1], t); }
  }

  /** Paid ahead: what a renewal or an activation leaves. */
  predicate PaidAhead(y: Subscription, now: int) { y.status == ACTIVE && y.currentPeriodEnd > now }

  /**
   * A row paid ahead in the middle of a sweep: it comes out of the sweep as it was written if
   * and only if the interrupted pass had not found the old row. Pass by pass, for all later
   * sweeps: after the trial or grace pass, or the lapse pass of a row marked to be cancelled,
   * it is dead at once and for good; after the lapse pass of another row it lives as long as it
   * was paid for but is never ACTIVE again.
   */
  lemma PaidInsideASweep(pass: SweepPass, x: Subscription, y: Subscription, now: int, first: int, rest: seq<int>, t: int)
    requires PaidAhead(y, now) && Latest(first, rest) <= t
    ensures var read, z := AsRead(pass, x, now), Interrupted(pass, x, y, now);
            var found := Found(pass, read, now);
            && (z == y <==> !found)
            && z == (if found then y.(status := Writes(pass, read)) else y)
            && (found ==> SweepSubRun(z, [first] + rest).status != ACTIVE)
            && (Live(SweepSubRun(z, [first] + rest), t)
                <==> if found && !(pass.LAPSES? && !read.cancelAtPeriodEnd) then false
                     else Latest(first, rest) <= y.currentPeriodEnd + (if !found && y.cancelAtPeriodEnd then 0 else GRACE_MS))
  {
    LateWriteIff(pass, AsRead(pass, x, now), y, now);
    LiveAfterSweeps(Interrupted(pass, x, y, now), first, rest, t);
    SweepsCollapse(Interrupted(pass, x, y, now), AddOn([], 0, ADDON_ACTIVE, None), first, rest);
  }

  /** A provider renewal is such a write whenever it is news and reaches beyond the sweep. */
  lemma RenewalInsideASweep(pass: SweepPass, x: Subscription, newEnd: int, now: int, first: int, rest: seq<int>, t: int)
    requires newEnd > now && newEnd > AsRead(pass, x, now).currentPeriodEnd && Latest(first, rest) <= t
    ensures var read := AsRead(pass, x, now);
            var y := Extend(read, newEnd);
            var z := Interrupted(pass, x, y, now);
            && (z == y <==> !Found(pass, read, now))
            && (Found(pass, read, now) && !(pass.LAPSES? && !read.cancelAtPeriodEnd) ==>
                  !Live(SweepSubRun(z, [first] + rest), t))
            && Live(Extend(SweepSub(x, now), newEnd), now)
  {
    PaidInsideASweep(pass, x, Extend(AsRead(pass, x, now), newEnd), now, first, rest, t);
  }

  /** So is an activation: a customer who pays while the trial pass runs is left without access. */
  lemma ActivationInsideASweep(pass: SweepPass, x: Subscription, packageId: string, start: int, end: int, now: int,
                               providerRef: Option<string>, first: int, rest: seq<int>, t: int)
    requires end > now && Latest(first, rest) <= t
    ensures var read := AsRead(pass, x, now);
            var y := Subscription(packageId, ACTIVE, start, end, false, None, providerRef);
            var z := Interrupted(pass, x, y, now);
            && (z == y <==> !Found(pass, read, now))
            && (Found(pass, read, now) && !(pass.LAPSES? && !read.cancelAtPeriodEnd) ==>
                  !Live(SweepSubRun(z, [first] + rest), t))
            && (!Found(pass, read, now) ==> (Live(SweepSubRun(z, [first] + rest), t) <==> Latest(first, rest) <= end + GRACE_MS))
  {
    PaidInsideASweep(pass, x, Subscription(packageId, ACTIVE, start, end, false, None, providerRef), now, first, rest, t);
  }

  // ------------------------------------------------------ internal grants

  /** 2999-12-31T00:00:00Z. */
  const INTERNAL_GRANT_PERIOD_END := 32_503_593_600_000

  /** The row is exactly the perpetual grant of a package. */
  predicate IsGrant(x: Subscription, packageId: string) {
    x.packageId == packageId && x.status == ACTIVE && x.trialEndsAt == None && !x.cancelAtPeriodEnd
    && x.currentPeriodEnd == INTERNAL_GRANT_PERIOD_END
  }

  /**
   * Perpetual means until 2999: up to the period end no sweep and no renewal changes an
   * internal grant, and it is live; it goes dark exactly seven days later.
   */
  lemma GrantIsFixed(x: Subscription, packageId: string, first: int, rest: seq<int>, now: int, newEnd: int)
    requires IsGrant(x, packageId) && Latest(first, rest) <= now
    ensures Latest(first, rest) <= INTERNAL_GRANT_PERIOD_END <==> SweepSubRun(x, [first] + rest) == x
    ensures Live(SweepSubRun(x, [first] + rest), now) <==> Latest(first, rest) <= INTERNAL_GRANT_PERIOD_END + GRACE_MS
    ensures newEnd <= INTERNAL_GRANT_PERIOD_END ==> Extend(x, newEnd) == x
  {
    SweepsCollapse(x, AddOn([], 0, ADDON_ACTIVE, None), first, rest);
  }
}
