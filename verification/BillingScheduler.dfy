/**
 * The lifecycle cron over the whole tables
 * (backend/src/modules/billing/billing-scheduler.service.ts:30-94).
 */
module BillingScheduler {
  import opened Billing
  import opened Entitlements
  import opened EntitlementCache
  import opened BillingLifecycle

  type AddOns = map<nat, AddOn>

  function SweepSubs(subs: Subscriptions, now: int): Subscriptions { map ws | ws in subs :: SweepSub(subs[ws], now) }

  function SweepAddOns(addOns: AddOns, now: int): AddOns { map id | id in addOns :: SweepAddOn(addOns[id], now) }

  /** The rows each pass finds, and the table it leaves. */
  function TrialsFound(subs: Subscriptions, now: int): set<WorkspaceId> { set ws | ws in subs && TrialOver(subs[ws], now) }
  function LapsesFound(subs: Subscriptions, now: int): set<WorkspaceId> { set ws | ws in subs && Lapsed(subs[ws], now) }
  function GracesFound(subs: Subscriptions, now: int): set<WorkspaceId> { set ws | ws in subs && GraceOver(subs[ws], now) }

  function TrialsEnded(subs: Subscriptions, now: int): Subscriptions { map ws | ws in subs :: EndTrial(subs[ws], now) }
  function PeriodsLapsed(subs: Subscriptions, now: int): Subscriptions { map ws | ws in subs :: Lapse(subs[ws], now) }
  function GracesEnded(subs: Subscriptions, now: int): Subscriptions { map ws | ws in subs :: EndGrace(subs[ws], now) }

  /** The workspaces whose row one sweep changes. */
  function Touched(subs: Subscriptions, now: int): set<WorkspaceId> {
    set ws | ws in subs && SweepSub(subs[ws], now) != subs[ws]
  }

  function SweepSubsRun(subs: Subscriptions, times: seq<int>): Subscriptions {
    if times == [] then subs else SweepSubs(SweepSubsRun(subs, times[..|times| - 1]), times[|times| - 1])
  }

  function SweepAddOnsRun(addOns: AddOns, times: seq<int>): AddOns {
    if times == [] then addOns else SweepAddOns(SweepAddOnsRun(addOns, times[..|times| - 1]), times[|times| - 1])
  }

  lemma {:induction false} RunIsByRow(subs: Subscriptions, addOns: AddOns, times: seq<int>)
    ensures SweepSubsRun(subs, times) == map ws | ws in subs :: SweepSubRun(subs[ws], times)
    ensures SweepAddOnsRun(addOns, times) == map id | id in addOns :: SweepAddOnRun(addOns[id], times)
    decreases |times|
  {
    if times != [] { RunIsByRow(subs, addOns, times[..|times| - 1]); }
  }

  /** With no other writer, any number of sweeps leaves both tables as one sweep at their latest time does. */
  lemma MissedTicksAreHarmless(subs: Subscriptions, addOns: AddOns, first: int, rest: seq<int>)
    ensures SweepSubsRun(subs, [first] + rest) == SweepSubs(subs, Latest(first, rest))
    ensures SweepAddOnsRun(addOns, [first] + rest) == SweepAddOns(addOns, Latest(first, rest))
  {
    RunIsByRow(subs, addOns, [first] + rest);
    forall ws | ws in subs ensures SweepSubRun(subs[ws], [first] + rest) == SweepSub(subs[ws], Latest(first, rest)) {
      SweepsCollapse(subs[ws], AddOn([], 0, ADDON_ACTIVE, None), first, rest);
    }
    forall id | id in addOns
      ensures SweepAddOnRun(addOns[id], [first] + rest) == SweepAddOn(addOns[id], Latest(first, rest))
    {
      SweepsCollapse(Subscription("", EXPIRED, 0, 0, false, None, None), addOns[id], first, rest);
    }
  }

  class BillingSchedulerService {
    var subs: Subscriptions
    var addOns: AddOns
    const entitlements: EntitlementsService

    constructor (subs: Subscriptions, addOns: AddOns, entitlements: EntitlementsService)
      ensures this.subs == subs && this.addOns == addOns && this.entitlements == entitlements
    {
      this.subs, this.addOns, this.entitlements := subs, addOns, entitlements;
    }

    /** One pass: the rows found are written by id and their cached entitlements dropped. */
    method WriteStatus(found: set<WorkspaceId>, status: WorkspaceId -> SubStatus)
      requires found <= subs.Keys
      modifies this`subs, entitlements`cache
      ensures subs == map ws | ws in old(subs) :: if ws in found then old(subs)[ws].(status := status(ws)) else old(subs)[ws]
      ensures entitlements.cache == old(entitlements.cache) - found
    {
      var rest := found;
      while rest != {}
        invariant rest <= found <= subs.Keys == old(subs).Keys
        invariant forall ws | ws in subs ::
                    subs[ws] == if ws in found - rest then old(subs)[ws].(status := status(ws)) else old(subs)[ws]
        invariant entitlements.cache == old(entitlements.cache) - (found - rest)
      {
        var ws :| ws in rest;
        subs := subs[ws := subs[ws].(status := status(ws))];
        entitlements.cache := entitlements.cache - {ws};
        rest := rest - {ws};
      }
    }

    method EndTrials(now: int) returns (expiredTrials: set<WorkspaceId>)
      modifies this`subs, entitlements`cache
      ensures expiredTrials == TrialsFound(old(subs), now)
      ensures subs == TrialsEnded(old(subs), now)
      ensures entitlements.cache == old(entitlements.cache) - expiredTrials
    {
      expiredTrials := TrialsFound(subs, now);
      WriteStatus(expiredTrials, _ => EXPIRED);
    }

    method LapsePeriods(now: int) returns (lapsed: set<WorkspaceId>)
      modifies this`subs, entitlements`cache
      ensures lapsed == LapsesFound(old(subs), now)
      ensures subs == PeriodsLapsed(old(subs), now)
      ensures entitlements.cache == old(entitlements.cache) - lapsed
    {
      var found := subs;
      lapsed := LapsesFound(subs, now);
      WriteStatus(lapsed, ws => if ws in found && found[ws].cancelAtPeriodEnd then SUB_CANCELLED else PAST_DUE);
    }

    method EndGraces(now: int) returns (dead: set<WorkspaceId>)
      modifies this`subs, entitlements`cache
      ensures dead == GracesFound(old(subs), now)
      ensures subs == GracesEnded(old(subs), now)
      ensures entitlements.cache == old(entitlements.cache) - dead
    {
      dead := GracesFound(subs, now);
      WriteStatus(dead, _ => EXPIRED);
    }

    /** The four ordered passes of one sweep. */
    method SweepLifecycle(now: int)
      modifies this, entitlements`cache
      ensures subs == SweepSubs(old(subs), now)
      ensures addOns == SweepAddOns(old(addOns), now)
      ensures entitlements.cache == old(entitlements.cache) - Touched(old(subs), now)
    {
      var expiredTrials := EndTrials(now);
      var lapsed := LapsePeriods(now);
      var dead := EndGraces(now);
      addOns := map id | id in addOns :: if BoostOver(addOns[id], now) then addOns[id].(status := ADDON_EXPIRED) else addOns[id];
      PassesAreTheSweep(old(subs), now);
    }
  }

  /** The passes together, the third seeing what the second just wrote, are the sweep of every row. */
  lemma PassesAreTheSweep(subs: Subscriptions, now: int)
    ensures var s1 := TrialsEnded(subs, now);
            var s2 := PeriodsLapsed(s1, now);
            && GracesEnded(s2, now) == SweepSubs(subs, now)
            && TrialsFound(subs, now) + LapsesFound(s1, now) + GracesFound(s2, now) == Touched(subs, now)
  {
    FoundAreTouched(subs, now);
  }

  lemma FoundAreTouched(subs: Subscriptions, now: int)
    ensures var s1 := TrialsEnded(subs, now);
            var s2 := PeriodsLapsed(s1, now);
            TrialsFound(subs, now) + LapsesFound(s1, now) + GracesFound(s2, now) == Touched(subs, now)
  {
    var s1 := TrialsEnded(subs, now);
    var s2 := PeriodsLapsed(s1, now);
    forall ws | ws in subs
      ensures ws in TrialsFound(subs, now) + LapsesFound(s1, now) + GracesFound(s2, now) <==> ws in Touched(subs, now)
    {
    }
  }
}
