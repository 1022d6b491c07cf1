/**
 * The fold of package and add-ons into one entitlement object
 * (backend/src/modules/billing/entitlements.service.ts:11-186, 226-348).
 */
module Entitlements {
  import opened Billing

  const FEATURE_KEYS: seq<string> :=
    ["autoAssign", "telephony", "installations", "commissions", "advancedReports", "apiAccess", "conversationAi",
     "sms", "workflows", "campaigns", "funnels", "reviews", "askAi", "agentStudio", "voiceAi", "invoicing",
     "mediaGen", "socialCampaigns", "memberships", "research", "smsOtp", "voiceCampaigns", "fax"]

  const LIMIT_KEYS: seq<string> :=
    ["aiCreditsMonthly", "messagesMonthly", "maxAgents", "maxWorkflows", "maxFunnels", "maxKnowledgeDocs",
     "maxCalendars"]

  /** The keys of a list that a test accepts, in order. */
  function Filter(keys: seq<string>, keep: string -> bool): (r: seq<string>)
    ensures forall k :: k in r <==> k in keys && keep(k)
  {
    if keys == [] then []
    else Filter(keys[..|keys| - 1], keep) + (if keep(keys[|keys| - 1]) then [keys[|keys| - 1]] else [])
  }

  /**
   * The feature and limit names in force. What is proved holds for any catalogue, so adding a
   * name to it needs no new proof; three limits have columns of their own.
   */
  datatype Catalogue = Catalogue(featureKeys: seq<string>, limitKeys: seq<string>) {
    predicate Valid() {
      "dailyLeadQuota" !in limitKeys && "maxUsers" !in limitKeys && "maxResearchProfiles" !in limitKeys
    }

    predicate Toggleable(k: string) { k in featureKeys && k != "autoAssign" && k != "smsOtp" }

    /** Also the default list of a new workspace. */
    function Modules(): (r: seq<string>)
      ensures forall k :: k in r <==> Toggleable(k)
    {
      Filter(featureKeys, k => k != "autoAssign" && k != "smsOtp")
    }
  }

  const CATALOGUE := Catalogue(FEATURE_KEYS, LIMIT_KEYS)

  lemma CatalogueIsValid()
    ensures CATALOGUE.Valid() && |FEATURE_KEYS| == 23 && |LIMIT_KEYS| == 7
    ensures forall i, j | 0 <= i < j < |FEATURE_KEYS| :: FEATURE_KEYS[i] != FEATURE_KEYS[j]
  {
  }

  /** A JSON value as the fold reads it: its finite number, if any, and its truth. */
  datatype Raw = Raw(number: Option<real>, truthy: bool)

  datatype GrantEntry = GrantEntry(key: string, raw: Raw)

  datatype AddOnStatus = ADDON_ACTIVE | ADDON_EXPIRED | ADDON_CANCELLED

  datatype AddOn = AddOn(grants: seq<GrantEntry>, quantity: int, status: AddOnStatus, currentPeriodEnd: Option<int>)

  /** `features` holds the truthy ones; `limits` the numeric ones. */
  datatype Package = Package(code: string, features: set<string>, dailyLeadQuota: real, maxUsers: real,
                             maxResearchProfiles: real, limits: map<string, real>)

  datatype Workspace = Workspace(activatedModules: Option<seq<string>>, status: string)

  datatype Effective = Effective(packageCode: Option<string>, subscriptionStatus: Option<SubStatus>,
                                 workspaceStatus: Option<string>, dailyLeadQuota: real, maxUsers: real,
                                 maxResearchProfiles: real, features: map<string, bool>, entitledModules: seq<string>,
                                 limits: map<string, real>, trialEndsAt: Option<int>, currentPeriodEnd: Option<int>)

  function ZeroEntitlements(c: Catalogue, status: Option<SubStatus>): Effective {
    Effective(None, status, None, 0.0, 1.0, 0.0, map k | k in c.featureKeys :: false, [], map k | k in c.limitKeys :: 0.0,
              None, None)
  }

  /** The read side's liveness. */
  predicate Live(sub: Subscription, now: int) {
    sub.status == ACTIVE || sub.status == PAST_DUE
    || (sub.status == TRIALING && sub.trialEndsAt.Some? && sub.trialEndsAt.value > now)
  }

  predicate Counts(a: AddOn, now: int) {
    a.status == ADDON_ACTIVE && (a.currentPeriodEnd.None? || a.currentPeriodEnd.value > now)
  }

  // -------------------------------------------------------------- limit fold

  datatype Grant = Grant(raw: real, quantity: int)

  /** One grant folded onto a limit; -1 is unlimited. */
  function Grown(base: real, g: Grant): real {
    if base == -1.0 || g.raw == -1.0 then -1.0 else base + Delta(g)
  }

  function Delta(g: Grant): real { g.raw * g.quantity as real }

  function Fold(base: real, gs: seq<Grant>): real {
    if gs == [] then base else Grown(Fold(base, gs[..|gs| - 1]), gs[|gs| - 1])
  }

  function Sum(gs: seq<Grant>): real { if gs == [] then 0.0 else Sum(gs[..|gs| - 1]) + Delta(gs[|gs| - 1]) }

  predicate Unlimited(base: real, gs: seq<Grant>) { base == -1.0 || exists g :: g in gs && g.raw == -1.0 }

  /** The documented meaning, which does not depend on any order. */
  function Closed(base: real, gs: seq<Grant>): real { if Unlimited(base, gs) then -1.0 else base + Sum(gs) }

  /** The grants of one limit among the first entries of an add-on. */
  function GrantsIn(entries: seq<GrantEntry>, quantity: int, limit: string): seq<Grant> {
    if entries == [] then []
    else
      var e := entries[|entries| - 1];
      GrantsIn(entries[..|entries| - 1], quantity, limit)
      + (if e.key == "limit." + limit && e.raw.number.Some? then [Grant(e.raw.number.value, quantity)] else [])
  }

  function GrantsOf(addOns: seq<AddOn>, now: int, limit: string): seq<Grant> {
    if addOns == [] then []
    else
      var a := addOns[|addOns| - 1];
      GrantsOf(addOns[..|addOns| - 1], now, limit) + (if Counts(a, now) then GrantsIn(a.grants, a.quantity, limit) else [])
  }

  predicate Unlocks(e: GrantEntry, feature: string) { e.key == "feature." + feature && e.raw.truthy }

  predicate GrantsFeature(entries: seq<GrantEntry>, feature: string) { exists e :: e in entries && Unlocks(e, feature) }

  predicate Granted(addOns: seq<AddOn>, now: int, feature: string) {
    exists a :: a in addOns && Counts(a, now) && GrantsFeature(a.grants, feature)
  }

  predicate Entitled(pkg: Package, addOns: seq<AddOn>, now: int, feature: string) {
    feature in pkg.features || Granted(addOns, now, feature)
  }

  predicate SwitchedOn(c: Catalogue, ws: Option<Workspace>, k: string) {
    c.Toggleable(k) && ws.Some? && ws.value.activatedModules.Some? ==> k in ws.value.activatedModules.value
  }

  function BaseLimit(pkg: Package, k: string): real { if k in pkg.limits then pkg.limits[k] else 0.0 }

  /** What the fold works on. */
  datatype Meters = Meters(dailyLeadQuota: real, maxUsers: real, maxResearchProfiles: real, limits: map<string, real>,
                           features: map<string, bool>)

  function MetersOf(c: Catalogue, pkg: Package, addOns: seq<AddOn>, now: int): Meters {
    Meters(Fold(pkg.dailyLeadQuota, GrantsOf(addOns, now, "dailyLeadQuota")),
           Fold(pkg.maxUsers, GrantsOf(addOns, now, "maxUsers")),
           Fold(pkg.maxResearchProfiles, GrantsOf(addOns, now, "maxResearchProfiles")),
           map k | k in c.limitKeys :: Fold(BaseLimit(pkg, k), GrantsOf(addOns, now, k)),
           map k | k in c.featureKeys :: Entitled(pkg, addOns, now, k))
  }

  /** What compute returns for a live subscription on an existing package. */
  function FullEntitlements(c: Catalogue, sub: Subscription, pkg: Package, addOns: seq<AddOn>, ws: Option<Workspace>,
                            now: int): Effective {
    var m := MetersOf(c, pkg, addOns, now);
    Effective(Some(pkg.code), Some(sub.status), if ws.Some? then Some(ws.value.status) else None,
              m.dailyLeadQuota, m.maxUsers, m.maxResearchProfiles,
              map k | k in m.features :: m.features[k] && SwitchedOn(c, ws, k),
              Filter(c.Modules(), k => k in m.features && m.features[k]), m.limits,
              sub.trialEndsAt, Some(sub.currentPeriodEnd))
  }

  function EffectiveOf(c: Catalogue, sub: Option<Subscription>, pkg: Option<Package>, addOns: seq<AddOn>,
                       ws: Option<Workspace>, now: int): Effective {
    if sub.None? then ZeroEntitlements(c, None)
    else if !Live(sub.value, now) || pkg.None? then ZeroEntitlements(c, Some(sub.value.status))
    else FullEntitlements(c, sub.value, pkg.value, addOns, ws, now)
  }

  // --------------------------------------------------------- the closed form

  lemma {:induction false} UnlimitedFold(base: real, gs: seq<Grant>)
    requires Unlimited(base, gs)
    ensures Fold(base, gs) == -1.0
  {
    if gs != [] {
      var init, last := gs[..|gs| - 1], gs[|gs| - 1];
      assert gs == init + [last];
      if Unlimited(base, init) { UnlimitedFold(base, init); }
    }
  }

  /** Once a running total is exactly -1 it is taken for unlimited and sticks. */
  predicate Hits(base: real, gs: seq<Grant>) { exists n :: 0 <= n <= |gs| && base + Sum(gs[..n]) == -1.0 }

  lemma {:induction false} LimitedFold(base: real, gs: seq<Grant>)
    requires !Unlimited(base, gs)
    ensures Fold(base, gs) == if Hits(base, gs) then -1.0 else base + Sum(gs)
  {
    if gs == [] {
      assert gs[..0] == [];
    } else {
      var init, last := gs[..|gs| - 1], gs[|gs| - 1];
      assert forall g | g in init :: g in gs;
      LimitedFold(base, init);
      assert forall n | 0 <= n <= |init| :: gs[..n] == init[..n];
      assert gs[..|gs|] == gs;
      if Hits(base, init) {
        var n :| 0 <= n <= |init| && base + Sum(init[..n]) == -1.0;
        assert base + Sum(gs[..n]) == -1.0;
      } else if Hits(base, gs) {
        var n :| 0 <= n <= |gs| && base + Sum(gs[..n]) == -1.0;
        assert n == |gs|;
      } else {
        assert base + Sum(gs[..|gs|]) != -1.0;
      }
    }
  }

  /**
   * The fold is the documented limit exactly when the limit is unlimited, or no running
   * total of the grants reaches -1, or the whole total is -1.
   */
  lemma FoldIsClosedIff(base: real, gs: seq<Grant>)
    ensures Fold(base, gs) == Closed(base, gs) <==> Unlimited(base, gs) || !Hits(base, gs) || base + Sum(gs) == -1.0
  {
    if Unlimited(base, gs) { UnlimitedFold(base, gs); } else { LimitedFold(base, gs); }
  }

  /** A limit or a grant as catalogues have them: unlimited, or not negative. */
  predicate Plain(x: real) { x == -1.0 || x >= 0.0 }

  predicate Sane(base: real, gs: seq<Grant>) {
    Plain(base) && forall g | g in gs :: Plain(g.raw) && g.quantity >= 0
  }

  lemma DeltaIsNotNegative(g: Grant)
    requires g.raw >= 0.0 && g.quantity >= 0
    ensures Delta(g) >= 0.0
  {
  }

  lemma {:induction false} SaneSums(base: real, gs: seq<Grant>)
    requires Sane(base, gs) && !Unlimited(base, gs)
    ensures Sum(gs) >= 0.0
  {
    if gs != [] {
      var init, last := gs[..|gs| - 1], gs[|gs| - 1];
      assert last in gs && forall g | g in init :: g in gs;
      SaneSums(base, init);
      DeltaIsNotNegative(last);
    }
  }

  /** Every catalogue-shaped limit and grant: the fold is the closed form. */
  lemma SaneFoldIsClosed(base: real, gs: seq<Grant>)
    requires Sane(base, gs)
    ensures Fold(base, gs) == Closed(base, gs)
  {
    FoldIsClosedIff(base, gs);
    if !Unlimited(base, gs) {
      forall n | 0 <= n <= |gs| ensures base + Sum(gs[..n]) != -1.0 {
        assert forall g | g in gs[..n] :: g in gs;
        SaneSums(base, gs[..n]);
      }
    }
  }

  lemma {:induction false} SumWithout(gs: seq<Grant>, i: nat)
    requires i < |gs|
    ensures Sum(gs) == Sum(gs[..i] + gs[i + 1..]) + Delta(gs[i])
    decreases |gs|
  {
    var init, last := gs[..|gs| - 1], gs[|gs| - 1];
    if i == |gs| - 1 {
      assert gs[..i] + gs[i + 1..] == init;
    } else {
      SumWithout(init, i);
      var rest := gs[..i] + gs[i + 1..];
      assert rest[..|rest| - 1] == init[..i] + init[i + 1..] && rest[|rest| - 1] == last;
    }
  }

  /** Taking one element out of a list takes it out of the bag. */
  lemma TakeOut<T>(xs: seq<T>, i: nat)
    requires i < |xs|
    ensures multiset(xs[..i] + xs[i + 1..]) == multiset(xs) - multiset{xs[i]}
  {
    assert xs == (xs[..i] + [xs[i]]) + xs[i + 1..];
  }

  lemma {:induction false} SumIsOrderFree(gs: seq<Grant>, hs: seq<Grant>)
    requires multiset(gs) == multiset(hs)
    ensures Sum(gs) == Sum(hs)
    decreases |gs|
  {
    if gs == [] {
      assert |multiset(hs)| == 0;
    } else {
      var init, last := gs[..|gs| - 1], gs[|gs| - 1];
      TakeOut(gs, |gs| - 1);
      assert init + gs[|gs|..] == init;
      assert last in multiset(hs);
      var i :| 0 <= i < |hs| && hs[i] == last;
      TakeOut(hs, i);
      SumIsOrderFree(init, hs[..i] + hs[i + 1..]);
      SumWithout(hs, i);
    }
  }

  /** So for such limits the order in which the database returns the add-ons does not matter. */
  lemma SaneFoldIsOrderFree(base: real, gs: seq<Grant>, hs: seq<Grant>)
    requires Sane(base, gs) && multiset(gs) == multiset(hs)
    ensures Fold(base, gs) == Fold(base, hs)
  {
    assert forall h | h in hs :: h in multiset(gs);
    assert forall g | g in gs :: g in multiset(hs);
    SaneFoldIsClosed(base, gs);
    SaneFoldIsClosed(base, hs);
    SumIsOrderFree(gs, hs);
  }

  lemma FoldTwo(base: real, g: Grant, h: Grant)
    ensures Fold(base, [g, h]) == Grown(Grown(base, g), h)
  {
    assert [g, h][..1] == [g] && [g][..0] == [];
    assert Fold(base, [g]) == Grown(Fold(base, []), g);
  }

  /**
   * A grant below -1 can freeze a limit at "unlimited", in one of two orders of the same grants;
   * so can a sound grant with a negative quantity.
   */
  lemma NegativeGrantUnlocks()
    ensures Fold(1.0, [Grant(-2.0, 1), Grant(5.0, 1)]) == -1.0 && Fold(1.0, [Grant(5.0, 1), Grant(-2.0, 1)]) == 4.0
    ensures Fold(1.0, [Grant(2.0, -1), Grant(5.0, 1)]) == -1.0 && Fold(1.0, [Grant(5.0, 1), Grant(2.0, -1)]) == 4.0
  {
    FoldTwo(1.0, Grant(-2.0, 1), Grant(5.0, 1));
    FoldTwo(1.0, Grant(5.0, 1), Grant(-2.0, 1));
    FoldTwo(1.0, Grant(2.0, -1), Grant(5.0, 1));
    FoldTwo(1.0, Grant(5.0, 1), Grant(2.0, -1));
  }

  // ------------------------------------------------------------- the method

  lemma KeyIs(key: string, prefix: string, rest: string)
    ensures key == prefix + rest <==> |key| >= |prefix| && key[..|prefix|] == prefix && key[|prefix|..] == rest
  {
    if |key| >= |prefix| && key[..|prefix|] == prefix && key[|prefix|..] == rest {
      assert key == key[..|prefix|] + key[|prefix|..];
    }
  }

  function Started(c: Catalogue, pkg: Package): Meters {
    Meters(pkg.dailyLeadQuota, pkg.maxUsers, pkg.maxResearchProfiles, map k | k in c.limitKeys :: BaseLimit(pkg, k),
           map k | k in c.featureKeys :: k in pkg.features)
  }

  /** A limit's value after one more entry. */
  function Stepped(value: real, e: GrantEntry, quantity: int, limit: string): real {
    if e.key == "limit." + limit && e.raw.number.Some? then Grown(value, Grant(e.raw.number.value, quantity)) else value
  }

  function Counted(m: Meters, e: GrantEntry, quantity: int): Meters {
    Meters(Stepped(m.dailyLeadQuota, e, quantity, "dailyLeadQuota"), Stepped(m.maxUsers, e, quantity, "maxUsers"),
           Stepped(m.maxResearchProfiles, e, quantity, "maxResearchProfiles"),
           map k | k in m.limits :: Stepped(m.limits[k], e, quantity, k),
           map k | k in m.features :: m.features[k] || Unlocks(e, k))
  }

  /** The nested loop, inner and outer. */
  function LoopEntries(m: Meters, entries: seq<GrantEntry>, quantity: int): Meters {
    if entries == [] then m
    else Counted(LoopEntries(m, entries[..|entries| - 1], quantity), entries[|entries| - 1], quantity)
  }

  function LoopRows(c: Catalogue, pkg: Package, rows: seq<AddOn>, now: int): Meters {
    if rows == [] then Started(c, pkg)
    else
      var m, a := LoopRows(c, pkg, rows[..|rows| - 1], now), rows[|rows| - 1];
      if Counts(a, now) then LoopEntries(m, a.grants, a.quantity) else m
  }

  lemma {:induction false} FoldConcat(base: real, gs: seq<Grant>, hs: seq<Grant>)
    ensures Fold(base, gs + hs) == Fold(Fold(base, gs), hs)
    decreases |hs|
  {
    if hs == [] {
      assert gs + hs == gs;
    } else {
      FoldConcat(base, gs, hs[..|hs| - 1]);
      assert (gs + hs)[..|gs + hs| - 1] == gs + hs[..|hs| - 1];
    }
  }

  lemma GrantsInStep(value: real, entries: seq<GrantEntry>, quantity: int, limit: string)
    requires entries != []
    ensures Fold(value, GrantsIn(entries, quantity, limit))
            == Stepped(Fold(value, GrantsIn(entries[..|entries| - 1], quantity, limit)), entries[|entries| - 1], quantity, limit)
  {
    var e, before := entries[|entries| - 1], GrantsIn(entries[..|entries| - 1], quantity, limit);
    if e.key == "limit." + limit && e.raw.number.Some? {
      var g := Grant(e.raw.number.value, quantity);
      assert (before + [g])[..|before|] == before;
    } else {
      assert before + [] == before;
    }
  }

  lemma {:induction false} LoopEntriesColumns(m: Meters, entries: seq<GrantEntry>, quantity: int)
    ensures var r := LoopEntries(m, entries, quantity);
            && r.dailyLeadQuota == Fold(m.dailyLeadQuota, GrantsIn(entries, quantity, "dailyLeadQuota"))
            && r.maxUsers == Fold(m.maxUsers, GrantsIn(entries, quantity, "maxUsers"))
            && r.maxResearchProfiles == Fold(m.maxResearchProfiles, GrantsIn(entries, quantity, "maxResearchProfiles"))
    decreases |entries|
  {
    if entries != [] {
      LoopEntriesColumns(m, entries[..|entries| - 1], quantity);
      GrantsInStep(m.dailyLeadQuota, entries, quantity, "dailyLeadQuota");
      GrantsInStep(m.maxUsers, entries, quantity, "maxUsers");
      GrantsInStep(m.maxResearchProfiles, entries, quantity, "maxResearchProfiles");
    }
  }

  lemma {:induction false} LoopEntriesLimit(m: Meters, entries: seq<GrantEntry>, quantity: int, k: string)
    requires k in m.limits
    ensures var r := LoopEntries(m, entries, quantity);
            k in r.limits && r.limits[k] == Fold(m.limits[k], GrantsIn(entries, quantity, k))
    decreases |entries|
  {
    if entries != [] {
      LoopEntriesLimit(m, entries[..|entries| - 1], quantity, k);
      GrantsInStep(m.limits[k], entries, quantity, k);
    }
  }

  lemma {:induction false} LoopEntriesKeys(m: Meters, entries: seq<GrantEntry>, quantity: int)
    ensures LoopEntries(m, entries, quantity).limits.Keys == m.limits.Keys
    decreases |entries|
  {
    if entries != [] { LoopEntriesKeys(m, entries[..|entries| - 1], quantity); }
  }

  lemma GrantsFeatureStep(entries: seq<GrantEntry>, feature: string)
    requires entries != []
    ensures GrantsFeature(entries, feature)
            == (GrantsFeature(entries[..|entries| - 1], feature) || Unlocks(entries[|entries| - 1], feature))
  {
    var init, last := entries[..|entries| - 1], entries[|entries| - 1];
    assert entries == init + [last];
    if GrantsFeature(entries, feature) && !Unlocks(last, feature) {
      var e :| e in entries && Unlocks(e, feature);
      assert e in init;
    }
    if GrantsFeature(init, feature) {
      var e :| e in init && Unlocks(e, feature);
      assert e in entries;
    }
  }

  lemma {:induction false} LoopEntriesFeatures(m: Meters, entries: seq<GrantEntry>, quantity: int)
    ensures LoopEntries(m, entries, quantity).features
            == map k | k in m.features :: m.features[k] || GrantsFeature(entries, k)
    decreases |entries|
  {
    if entries != [] {
      LoopEntriesFeatures(m, entries[..|entries| - 1], quantity);
      forall k ensures GrantsFeature(entries, k)
                       == (GrantsFeature(entries[..|entries| - 1], k) || Unlocks(entries[|entries| - 1], k))
      {
        GrantsFeatureStep(entries, k);
      }
    }
  }

  lemma GrantedStep(rows: seq<AddOn>, now: int, feature: string)
    requires rows != []
    ensures var a := rows[|rows| - 1];
            Granted(rows, now, feature)
            == (Granted(rows[..|rows| - 1], now, feature) || (Counts(a, now) && GrantsFeature(a.grants, feature)))
  {
    var init, last := rows[..|rows| - 1], rows[|rows| - 1];
    assert rows == init + [last];
    var here := Counts(last, now) && GrantsFeature(last.grants, feature);
    if Granted(rows, now, feature) && !here {
      var a :| a in rows && Counts(a, now) && GrantsFeature(a.grants, feature);
      assert a in init;
    }
    if Granted(init, now, feature) {
      var a :| a in init && Counts(a, now) && GrantsFeature(a.grants, feature);
      assert a in rows;
    }
  }

  /** A limit over all rows, from the limit over all but the last. */
  lemma GrantsOfStep(base: real, rows: seq<AddOn>, now: int, limit: string)
    requires rows != []
    ensures var a := rows[|rows| - 1];
            var before := Fold(base, GrantsOf(rows[..|rows| - 1], now, limit));
            Fold(base, GrantsOf(rows, now, limit))
            == if Counts(a, now) then Fold(before, GrantsIn(a.grants, a.quantity, limit)) else before
  {
    var a, before := rows[|rows| - 1], GrantsOf(rows[..|rows| - 1], now, limit);
    if Counts(a, now) {
      FoldConcat(base, before, GrantsIn(a.grants, a.quantity, limit));
    } else {
      assert before + [] == before;
    }
  }

  lemma {:induction false} LoopRowsColumns(c: Catalogue, pkg: Package, rows: seq<AddOn>, now: int)
    ensures var r, s := LoopRows(c, pkg, rows, now), MetersOf(c, pkg, rows, now);
            && r.dailyLeadQuota == s.dailyLeadQuota && r.maxUsers == s.maxUsers
            && r.maxResearchProfiles == s.maxResearchProfiles
    decreases |rows|
  {
    if rows != [] {
      var init, a := rows[..|rows| - 1], rows[|rows| - 1];
      LoopRowsColumns(c, pkg, init, now);
      LoopEntriesColumns(LoopRows(c, pkg, init, now), a.grants, a.quantity);
      GrantsOfStep(pkg.dailyLeadQuota, rows, now, "dailyLeadQuota");
      GrantsOfStep(pkg.maxUsers, rows, now, "maxUsers");
      GrantsOfStep(pkg.maxResearchProfiles, rows, now, "maxResearchProfiles");
    }
  }

  lemma {:induction false} LoopRowsLimit(c: Catalogue, pkg: Package, rows: seq<AddOn>, now: int, k: string)
    requires k in c.limitKeys
    ensures var m := LoopRows(c, pkg, rows, now);
            k in m.limits && m.limits[k] == Fold(BaseLimit(pkg, k), GrantsOf(rows, now, k))
    decreases |rows|
  {
    if rows != [] {
      var init, a := rows[..|rows| - 1], rows[|rows| - 1];
      LoopRowsLimit(c, pkg, init, now, k);
      LoopEntriesLimit(LoopRows(c, pkg, init, now), a.grants, a.quantity, k);
      GrantsOfStep(BaseLimit(pkg, k), rows, now, k);
    }
  }

  lemma {:induction false} LoopRowsKeys(c: Catalogue, pkg: Package, rows: seq<AddOn>, now: int)
    ensures LoopRows(c, pkg, rows, now).limits.Keys == set k | k in c.limitKeys
    decreases |rows|
  {
    if rows != [] {
      var init, a := rows[..|rows| - 1], rows[|rows| - 1];
      LoopRowsKeys(c, pkg, init, now);
      LoopEntriesKeys(LoopRows(c, pkg, init, now), a.grants, a.quantity);
    }
  }

  lemma LoopRowsLimits(c: Catalogue, pkg: Package, rows: seq<AddOn>, now: int)
    ensures LoopRows(c, pkg, rows, now).limits == MetersOf(c, pkg, rows, now).limits
  {
    LoopRowsKeys(c, pkg, rows, now);
    forall k | k in c.limitKeys
      ensures LoopRows(c, pkg, rows, now).limits[k] == Fold(BaseLimit(pkg, k), GrantsOf(rows, now, k))
    {
      LoopRowsLimit(c, pkg, rows, now, k);
    }
  }

  lemma {:induction false} LoopRowsFeatures(c: Catalogue, pkg: Package, rows: seq<AddOn>, now: int)
    ensures LoopRows(c, pkg, rows, now).features == MetersOf(c, pkg, rows, now).features
    decreases |rows|
  {
    if rows != [] {
      var init, a := rows[..|rows| - 1], rows[|rows| - 1];
      LoopRowsFeatures(c, pkg, init, now);
      LoopEntriesFeatures(LoopRows(c, pkg, init, now), a.grants, a.quantity);
      forall k | k in c.featureKeys
        ensures LoopRows(c, pkg, rows, now).features[k] == Entitled(pkg, rows, now, k)
      {
        GrantedStep(rows, now, k);
      }
    }
  }

  /** The nested loop computes the order-insensitive specification. */
  lemma LoopIsMeters(c: Catalogue, pkg: Package, rows: seq<AddOn>, now: int)
    ensures LoopRows(c, pkg, rows, now) == MetersOf(c, pkg, rows, now)
  {
    LoopRowsColumns(c, pkg, rows, now);
    LoopRowsLimits(c, pkg, rows, now);
    LoopRowsFeatures(c, pkg, rows, now);
  }

  lemma LimitKeyNames(e: GrantEntry, value: real, quantity: int, limit: string)
    ensures Stepped(value, e, quantity, limit)
            == if |e.key| >= 6 && e.key[..6] == "limit." && e.key[6..] == limit && e.raw.number.Some?
               then Grown(value, Grant(e.raw.number.value, quantity)) else value
  {
    KeyIs(e.key, "limit.", limit);
  }

  lemma KeysSplit(e: GrantEntry, quantity: int)
    ensures forall value, limit {:trigger Stepped(value, e, quantity, limit)} ::
              Stepped(value, e, quantity, limit)
              == if |e.key| >= 6 && e.key[..6] == "limit." && e.key[6..] == limit && e.raw.number.Some?
                 then Grown(value, Grant(e.raw.number.value, quantity)) else value
    ensures forall k :: Unlocks(e, k) == (|e.key| >= 8 && e.key[..8] == "feature." && e.key[8..] == k && e.raw.truthy)
  {
    forall value, limit {:trigger Stepped(value, e, quantity, limit)}
      ensures Stepped(value, e, quantity, limit)
              == if |e.key| >= 6 && e.key[..6] == "limit." && e.key[6..] == limit && e.raw.number.Some?
                 then Grown(value, Grant(e.raw.number.value, quantity)) else value
    {
      LimitKeyNames(e, value, quantity, limit);
    }
    forall k ensures Unlocks(e, k) == (|e.key| >= 8 && e.key[..8] == "feature." && e.key[8..] == k && e.raw.truthy) {
      KeyIs(e.key, "feature.", k);
    }
  }

  /** One entry of an add-on, on whichever limit or feature it names. */
  method FoldEntry(c: Catalogue, m: Meters, e: GrantEntry, quantity: int) returns (m': Meters)
    requires c.Valid() && Fits(c, m)
    ensures Fits(c, m') && m' == Counted(m, e, quantity)
  {
    m' := m;
    KeysSplit(e, quantity);
    if |e.key| >= 6 && e.key[..6] == "limit." {
      assert e.key[0] == 'l';
      if e.raw.number.Some? {
        var g := Grant(e.raw.number.value, quantity);
        var limitKey := e.key[6..];
        if limitKey == "dailyLeadQuota" {
          m' := m.(dailyLeadQuota := Grown(m.dailyLeadQuota, g));
        } else if limitKey == "maxUsers" {
          m' := m.(maxUsers := Grown(m.maxUsers, g));
        } else if limitKey == "maxResearchProfiles" {
          m' := m.(maxResearchProfiles := Grown(m.maxResearchProfiles, g));
        } else if limitKey in c.limitKeys {
          m' := m.(limits := m.limits[limitKey := Grown(m.limits[limitKey], g)]);
        }
      }
    } else if |e.key| >= 8 && e.key[..8] == "feature." {
      var featureKey := e.key[8..];
      if featureKey in c.featureKeys && e.raw.truthy { m' := m.(features := m.features[featureKey := true]); }
    }
  }

  /** The meters are for exactly the catalogue's names. */
  predicate Fits(c: Catalogue, m: Meters) {
    m.limits.Keys == (set k | k in c.limitKeys) && m.features.Keys == (set k | k in c.featureKeys)
  }

  /** The fold over the workspace's add-on rows, in whatever order they come. */
  method FoldAddOns(c: Catalogue, pkg: Package, rows: seq<AddOn>, now: int) returns (m: Meters)
    requires c.Valid()
    ensures m == MetersOf(c, pkg, rows, now)
  {
    m := Started(c, pkg);
    for i := 0 to |rows|
      invariant Fits(c, m) && m == LoopRows(c, pkg, rows[..i], now)
    {
      assert rows[..i + 1][..i] == rows[..i];
      if Counts(rows[i], now) {
        m := FoldAddOn(c, m, rows[i]);
      }
    }
    assert rows[..|rows|] == rows;
    LoopIsMeters(c, pkg, rows, now);
  }

  method FoldAddOn(c: Catalogue, m: Meters, a: AddOn) returns (m': Meters)
    requires c.Valid() && Fits(c, m)
    ensures Fits(c, m') && m' == LoopEntries(m, a.grants, a.quantity)
  {
    m' := m;
    for j := 0 to |a.grants|
      invariant Fits(c, m') && m' == LoopEntries(m, a.grants[..j], a.quantity)
    {
      assert a.grants[..j + 1][..j] == a.grants[..j];
      m' := FoldEntry(c, m', a.grants[j], a.quantity);
    }
    assert a.grants[..|a.grants|] == a.grants;
  }

  /** Switches off the modules that an explicit allow-list leaves out. */
  method MaskModules(features: map<string, bool>, modules: seq<string>, activated: seq<string>)
    returns (masked: map<string, bool>)
    requires forall k | k in modules :: k in features
    ensures masked == map k | k in features :: features[k] && (k in modules ==> k in activated)
  {
    masked := features;
    for i := 0 to |modules|
      invariant masked.Keys == features.Keys
      invariant forall k | k in features :: masked[k] == (features[k] && (k in modules[..i] ==> k in activated))
    {
      var k := modules[i];
      if k !in activated { masked := masked[k := false]; }
      assert modules[..i + 1] == modules[..i] + [k];
    }
    assert modules[..|modules|] == modules;
  }

  /** The feature map that the workspace's allow-list, if it has one, lets through. */
  method SwitchModules(c: Catalogue, features: map<string, bool>, ws: Option<Workspace>) returns (masked: map<string, bool>)
    requires forall k | k in c.Modules() :: k in features
    ensures masked == map k | k in features :: features[k] && SwitchedOn(c, ws, k)
  {
    masked := features;
    if ws.Some? && ws.value.activatedModules.Some? {
      masked := MaskModules(features, c.Modules(), ws.value.activatedModules.value);
    }
  }

  /** Effective entitlements of a workspace from its rows; `packages` is keyed by package id. */
  method Compute(c: Catalogue, sub: Option<Subscription>, packages: map<string, Package>, rows: seq<AddOn>,
                 ws: Option<Workspace>, now: int)
    returns (e: Effective)
    requires c.Valid()
    ensures e == EffectiveOf(c, sub, PackageOf(packages, sub), rows, ws, now)
  {
    if sub.None? { return ZeroEntitlements(c, None); }
    if !Live(sub.value, now) { return ZeroEntitlements(c, Some(sub.value.status)); }
    if sub.value.packageId !in packages { return ZeroEntitlements(c, Some(sub.value.status)); }
    var pkg := packages[sub.value.packageId];
    var m := FoldAddOns(c, pkg, rows, now);
    var entitledModules := Filter(c.Modules(), k => k in m.features && m.features[k]);
    var features := SwitchModules(c, m.features, ws);
    e := Effective(Some(pkg.code), Some(sub.value.status), if ws.Some? then Some(ws.value.status) else None,
                   m.dailyLeadQuota, m.maxUsers, m.maxResearchProfiles, features, entitledModules, m.limits,
                   sub.value.trialEndsAt, Some(sub.value.currentPeriodEnd));
  }

  function PackageOf(packages: map<string, Package>, sub: Option<Subscription>): Option<Package> {
    if sub.Some? && sub.value.packageId in packages then Some(packages[sub.value.packageId]) else None
  }

  // ---------------------------------------------------------------- results

  /** A catalogue-shaped add-on: every grant unlimited or not negative, no negative quantity. */
  predicate SaneAddOn(a: AddOn) {
    a.quantity >= 0 && forall e | e in a.grants && e.raw.number.Some? :: Plain(e.raw.number.value)
  }

  lemma {:induction false} SaneEntries(entries: seq<GrantEntry>, quantity: int, limit: string)
    requires quantity >= 0 && forall e | e in entries && e.raw.number.Some? :: Plain(e.raw.number.value)
    ensures Sane(0.0, GrantsIn(entries, quantity, limit))
  {
    if entries != [] {
      assert entries[|entries| - 1] in entries;
      SaneEntries(entries[..|entries| - 1], quantity, limit);
    }
  }

  lemma {:induction false} SaneGrants(rows: seq<AddOn>, now: int, limit: string)
    requires forall a | a in rows :: SaneAddOn(a)
    ensures Sane(0.0, GrantsOf(rows, now, limit))
  {
    if rows != [] {
      var a := rows[|rows| - 1];
      assert a in rows;
      SaneGrants(rows[..|rows| - 1], now, limit);
      SaneEntries(a.grants, a.quantity, limit);
    }
  }

  predicate SanePackage(c: Catalogue, pkg: Package) {
    Plain(pkg.dailyLeadQuota) && Plain(pkg.maxUsers) && Plain(pkg.maxResearchProfiles)
    && forall k | k in c.limitKeys :: Plain(BaseLimit(pkg, k))
  }

  /**
   * The documented limits: -1 if the base or any live grant is -1, else the base plus every
   * live grant times its quantity.
   */
  lemma LimitMeaning(c: Catalogue, pkg: Package, rows: seq<AddOn>, now: int)
    requires SanePackage(c, pkg) && forall a | a in rows :: SaneAddOn(a)
    ensures var m := MetersOf(c, pkg, rows, now);
            && m.dailyLeadQuota == Closed(pkg.dailyLeadQuota, GrantsOf(rows, now, "dailyLeadQuota"))
            && m.maxUsers == Closed(pkg.maxUsers, GrantsOf(rows, now, "maxUsers"))
            && m.maxResearchProfiles == Closed(pkg.maxResearchProfiles, GrantsOf(rows, now, "maxResearchProfiles"))
            && forall k | k in c.limitKeys :: m.limits[k] == Closed(BaseLimit(pkg, k), GrantsOf(rows, now, k))
  {
    forall base, limit | Plain(base)
      ensures Fold(base, GrantsOf(rows, now, limit)) == Closed(base, GrantsOf(rows, now, limit))
    {
      SaneGrants(rows, now, limit);
      SaneFoldIsClosed(base, GrantsOf(rows, now, limit));
    }
  }

  /** The grants of one limit without their order. */
  ghost function Part(a: AddOn, now: int, limit: string): multiset<Grant> {
    if Counts(a, now) then multiset(GrantsIn(a.grants, a.quantity, limit)) else multiset{}
  }

  ghost function Bag(rows: seq<AddOn>, now: int, limit: string): multiset<Grant> {
    if rows == [] then multiset{} else Bag(rows[..|rows| - 1], now, limit) + Part(rows[|rows| - 1], now, limit)
  }

  lemma {:induction false} BagIs(rows: seq<AddOn>, now: int, limit: string)
    ensures multiset(GrantsOf(rows, now, limit)) == Bag(rows, now, limit)
    decreases |rows|
  {
    if rows != [] { BagIs(rows[..|rows| - 1], now, limit); }
  }

  lemma BagSnoc(rows: seq<AddOn>, a: AddOn, now: int, limit: string)
    ensures Bag(rows + [a], now, limit) == Bag(rows, now, limit) + Part(a, now, limit)
  {
    assert (rows + [a])[..|rows|] == rows;
  }

  lemma PlusAssociates(x: multiset<Grant>, y: multiset<Grant>, z: multiset<Grant>)
    ensures (x + y) + z == x + (y + z)
  {
  }

  lemma {:induction false} BagConcat(xs: seq<AddOn>, ys: seq<AddOn>, now: int, limit: string)
    ensures Bag(xs + ys, now, limit) == Bag(xs, now, limit) + Bag(ys, now, limit)
    decreases |ys|
  {
    if ys == [] {
      assert xs + ys == xs;
    } else {
      BagConcat(xs, ys[..|ys| - 1], now, limit);
      BagLast(xs, ys, now, limit);
      PlusAssociates(Bag(xs, now, limit), Bag(ys[..|ys| - 1], now, limit), Part(ys[|ys| - 1], now, limit));
    }
  }

  lemma BagLast(xs: seq<AddOn>, ys: seq<AddOn>, now: int, limit: string)
    requires ys != []
    ensures Bag(xs + ys, now, limit) == Bag(xs + ys[..|ys| - 1], now, limit) + Part(ys[|ys| - 1], now, limit)
  {
    assert (xs + ys)[..|xs + ys| - 1] == xs + ys[..|ys| - 1];
  }

  lemma BagWithout(xs: seq<AddOn>, a: AddOn, ys: seq<AddOn>, now: int, limit: string)
    ensures Bag((xs + [a]) + ys, now, limit) == Bag(xs + ys, now, limit) + Part(a, now, limit)
  {
    BagConcat(xs + [a], ys, now, limit);
    BagSnoc(xs, a, now, limit);
    BagConcat(xs, ys, now, limit);
  }

  lemma {:induction false} BagIsOrderFree(rows: seq<AddOn>, others: seq<AddOn>, now: int, limit: string)
    requires multiset(rows) == multiset(others)
    ensures Bag(rows, now, limit) == Bag(others, now, limit)
    decreases |rows|
  {
    if rows == [] {
      assert |multiset(others)| == 0;
    } else {
      var init, last := rows[..|rows| - 1], rows[|rows| - 1];
      TakeOut(rows, |rows| - 1);
      assert init + rows[|rows|..] == init;
      assert last in multiset(others);
      var i :| 0 <= i < |others| && others[i] == last;
      TakeOut(others, i);
      assert others == (others[..i] + [last]) + others[i + 1..];
      BagIsOrderFree(init, others[..i] + others[i + 1..], now, limit);
      BagWithout(others[..i], last, others[i + 1..], now, limit);
    }
  }

  /** The database may return the add-ons in any order. */
  lemma MetersAreOrderFree(c: Catalogue, pkg: Package, rows: seq<AddOn>, others: seq<AddOn>, now: int)
    requires SanePackage(c, pkg) && (forall a | a in rows :: SaneAddOn(a)) && multiset(rows) == multiset(others)
    ensures MetersOf(c, pkg, rows, now) == MetersOf(c, pkg, others, now)
  {
    FoldIsOrderFree(pkg.dailyLeadQuota, rows, others, now, "dailyLeadQuota");
    FoldIsOrderFree(pkg.maxUsers, rows, others, now, "maxUsers");
    FoldIsOrderFree(pkg.maxResearchProfiles, rows, others, now, "maxResearchProfiles");
    LimitsAreOrderFree(c, pkg, rows, others, now);
    FeaturesAreOrderFree(c, pkg, rows, others, now);
  }

  lemma FeaturesAreOrderFree(c: Catalogue, pkg: Package, rows: seq<AddOn>, others: seq<AddOn>, now: int)
    requires multiset(rows) == multiset(others)
    ensures (map k | k in c.featureKeys :: Entitled(pkg, rows, now, k))
            == (map k | k in c.featureKeys :: Entitled(pkg, others, now, k))
  {
    EntitledIsOrderFree(pkg, rows, others, now);
  }

  lemma LimitsAreOrderFree(c: Catalogue, pkg: Package, rows: seq<AddOn>, others: seq<AddOn>, now: int)
    requires SanePackage(c, pkg) && (forall a | a in rows :: SaneAddOn(a)) && multiset(rows) == multiset(others)
    ensures (map k | k in c.limitKeys :: Fold(BaseLimit(pkg, k), GrantsOf(rows, now, k)))
            == (map k | k in c.limitKeys :: Fold(BaseLimit(pkg, k), GrantsOf(others, now, k)))
  {
    forall k | k in c.limitKeys
      ensures Fold(BaseLimit(pkg, k), GrantsOf(rows, now, k)) == Fold(BaseLimit(pkg, k), GrantsOf(others, now, k))
    {
      FoldIsOrderFree(BaseLimit(pkg, k), rows, others, now, k);
    }
  }

  lemma FoldIsOrderFree(base: real, rows: seq<AddOn>, others: seq<AddOn>, now: int, limit: string)
    requires Plain(base) && (forall a | a in rows :: SaneAddOn(a)) && multiset(rows) == multiset(others)
    ensures Fold(base, GrantsOf(rows, now, limit)) == Fold(base, GrantsOf(others, now, limit))
  {
    SaneGrants(rows, now, limit);
    BagIs(rows, now, limit);
    BagIs(others, now, limit);
    BagIsOrderFree(rows, others, now, limit);
    SaneFoldIsOrderFree(base, GrantsOf(rows, now, limit), GrantsOf(others, now, limit));
  }

  lemma EntitledIsOrderFree(pkg: Package, rows: seq<AddOn>, others: seq<AddOn>, now: int)
    requires multiset(rows) == multiset(others)
    ensures forall k :: Entitled(pkg, rows, now, k) == Entitled(pkg, others, now, k)
  {
    assert forall a :: a in rows <==> a in multiset(rows);
    assert forall a :: a in others <==> a in multiset(others);
  }

  // ------------------------------------------------- the answer, by its columns

  /** The numbers an add-on grants to one limit, each times the quantity that was bought. */
  function NumbersIn(entries: seq<GrantEntry>, quantity: int, limit: string): real {
    if entries == [] then 0.0
    else
      var e := entries[|entries| - 1];
      NumbersIn(entries[..|entries| - 1], quantity, limit)
      + (if e.raw.number.Some? && e.key == "limit." + limit then e.raw.number.value * quantity as real else 0.0)
  }

  /** What the add-ons in force at `now` grant to one limit. */
  function Bought(rows: seq<AddOn>, now: int, limit: string): real {
    if rows == [] then 0.0
    else
      var a := rows[|rows| - 1];
      var inForce := a.status == ADDON_ACTIVE && (a.currentPeriodEnd.Some? ==> now < a.currentPeriodEnd.value);
      Bought(rows[..|rows| - 1], now, limit)
      + (if inForce then NumbersIn(a.grants, a.quantity, limit) else 0.0)
  }

  /** An entry of an add-on in force grants `x` to the limit. */
  ghost predicate GrantsLimit(rows: seq<AddOn>, now: int, limit: string, x: real) {
    exists a, e :: && a in rows && e in a.grants
                   && a.status == ADDON_ACTIVE && (a.currentPeriodEnd.Some? ==> now < a.currentPeriodEnd.value)
                   && e.key == "limit." + limit && e.raw.number == Some(x)
  }

  /** The limit as documented: -1 if the base or a grant in force is -1, else the base and what was bought. */
  ghost function Documented(base: real, rows: seq<AddOn>, now: int, limit: string): real {
    if base == -1.0 || GrantsLimit(rows, now, limit, -1.0) then -1.0 else base + Bought(rows, now, limit)
  }

  lemma SumSnoc(gs: seq<Grant>, g: Grant)
    ensures Sum(gs + [g]) == Sum(gs) + Delta(g)
  {
    assert (gs + [g])[..|gs|] == gs;
  }

  lemma {:induction false} SumConcat(gs: seq<Grant>, hs: seq<Grant>)
    ensures Sum(gs + hs) == Sum(gs) + Sum(hs)
    decreases |hs|
  {
    if hs == [] {
      assert gs + hs == gs;
    } else {
      SumConcat(gs, hs[..|hs| - 1]);
      assert gs + hs == (gs + hs[..|hs| - 1]) + [hs[|hs| - 1]];
      SumSnoc(gs + hs[..|hs| - 1], hs[|hs| - 1]);
    }
  }

  lemma {:induction false} NumbersAreGrants(entries: seq<GrantEntry>, quantity: int, limit: string)
    ensures Sum(GrantsIn(entries, quantity, limit)) == NumbersIn(entries, quantity, limit)
    decreases |entries|
  {
    if entries != [] {
      var init, e := entries[..|entries| - 1], entries[|entries| - 1];
      NumbersAreGrants(init, quantity, limit);
      if e.key == "limit." + limit && e.raw.number.Some? {
        SumSnoc(GrantsIn(init, quantity, limit), Grant(e.raw.number.value, quantity));
      } else {
        assert GrantsIn(entries, quantity, limit) == GrantsIn(init, quantity, limit);
      }
    }
  }

  lemma {:induction false} GrantsComeFromEntries(entries: seq<GrantEntry>, quantity: int, limit: string)
    ensures forall x: real :: (exists g :: g in GrantsIn(entries, quantity, limit) && g.raw == x)
                              <==> exists e :: e in entries && e.key == "limit." + limit && e.raw.number == Some(x)
    decreases |entries|
  {
    if entries != [] {
      var init, e := entries[..|entries| - 1], entries[|entries| - 1];
      assert entries == init + [e];
      GrantsComeFromEntries(init, quantity, limit);
      var gs := GrantsIn(init, quantity, limit);
      if e.key == "limit." + limit && e.raw.number.Some? {
        OneMoreNumber(init, gs, e, quantity, limit);
      } else {
        assert GrantsIn(entries, quantity, limit) == gs;
      }
    }
  }

  lemma OneMoreNumber(init: seq<GrantEntry>, gs: seq<Grant>, e: GrantEntry, quantity: int, limit: string)
    requires e.key == "limit." + limit && e.raw.number.Some?
    requires forall x: real :: (exists g :: g in gs && g.raw == x)
                               <==> exists d :: d in init && d.key == "limit." + limit && d.raw.number == Some(x)
    ensures forall x: real :: (exists g :: g in gs + [Grant(e.raw.number.value, quantity)] && g.raw == x)
                              <==> exists d :: d in init + [e] && d.key == "limit." + limit && d.raw.number == Some(x)
  {
    var g0 := Grant(e.raw.number.value, quantity);
    forall x: real ensures (exists g :: g in gs + [g0] && g.raw == x)
                           <==> exists d :: d in init + [e] && d.key == "limit." + limit && d.raw.number == Some(x)
    {
      if g :| g in gs + [g0] && g.raw == x {
        if g in gs {
          var d :| d in init && d.key == "limit." + limit && d.raw.number == Some(x);
          assert d in init + [e];
        } else {
          assert e in init + [e];
        }
      }
      if d :| d in init + [e] && d.key == "limit." + limit && d.raw.number == Some(x) {
        if d in init {
          var g :| g in gs && g.raw == x;
          assert g in gs + [g0];
        } else {
          assert g0 in gs + [g0];
        }
      }
    }
  }

  lemma {:induction false} BoughtIsSum(rows: seq<AddOn>, now: int, limit: string)
    ensures Sum(GrantsOf(rows, now, limit)) == Bought(rows, now, limit)
    decreases |rows|
  {
    if rows != [] {
      var init, a := rows[..|rows| - 1], rows[|rows| - 1];
      BoughtIsSum(init, now, limit);
      if Counts(a, now) {
        NumbersAreGrants(a.grants, a.quantity, limit);
        SumConcat(GrantsOf(init, now, limit), GrantsIn(a.grants, a.quantity, limit));
        BoughtOnce(rows, now, limit);
      } else {
        NotInForce(rows, now, limit);
      }
    }
  }

  lemma NotInForce(rows: seq<AddOn>, now: int, limit: string)
    requires rows != [] && !Counts(rows[|rows| - 1], now)
    ensures var init := rows[..|rows| - 1];
            Bought(rows, now, limit) == Bought(init, now, limit) && GrantsOf(rows, now, limit) == GrantsOf(init, now, limit)
  {
    assert GrantsOf(rows, now, limit) == GrantsOf(rows[..|rows| - 1], now, limit) + [];
  }

  lemma BoughtOnce(rows: seq<AddOn>, now: int, limit: string)
    requires rows != [] && Counts(rows[|rows| - 1], now)
    ensures var init, a := rows[..|rows| - 1], rows[|rows| - 1];
            && Bought(rows, now, limit) == Bought(init, now, limit) + NumbersIn(a.grants, a.quantity, limit)
            && GrantsOf(rows, now, limit) == GrantsOf(init, now, limit) + GrantsIn(a.grants, a.quantity, limit)
  {
  }

  lemma GrantsLimitSnoc(init: seq<AddOn>, a: AddOn, now: int, limit: string, x: real)
    ensures GrantsLimit(init + [a], now, limit, x)
            <==> GrantsLimit(init, now, limit, x)
                 || (Counts(a, now) && exists e :: e in a.grants && e.key == "limit." + limit && e.raw.number == Some(x))
  {
    assert forall b :: b in init + [a] <==> b in init || b == a;
    if Counts(a, now) {
      if e :| e in a.grants && e.key == "limit." + limit && e.raw.number == Some(x) { assert a in init + [a]; }
    }
    if GrantsLimit(init, now, limit, x) {
      var b, e :| b in init && e in b.grants && b.status == ADDON_ACTIVE
                  && (b.currentPeriodEnd.Some? ==> now < b.currentPeriodEnd.value)
                  && e.key == "limit." + limit && e.raw.number == Some(x);
      assert b in init + [a];
    }
  }

  /** A grant of a limit comes from an entry of an add-on in force. */
  lemma {:induction false} GrantsComeFromRows(rows: seq<AddOn>, now: int, limit: string, x: real)
    ensures (exists g :: g in GrantsOf(rows, now, limit) && g.raw == x) <==> GrantsLimit(rows, now, limit, x)
    decreases |rows|
  {
    if rows != [] {
      var init, a := rows[..|rows| - 1], rows[|rows| - 1];
      assert rows == init + [a];
      GrantsComeFromRows(init, now, limit, x);
      GrantsComeFromEntries(a.grants, a.quantity, limit);
      GrantsLimitSnoc(init, a, now, limit, x);
      var all, before := GrantsOf(rows, now, limit), GrantsOf(init, now, limit);
      var last := if Counts(a, now) then GrantsIn(a.grants, a.quantity, limit) else [];
      assert all == before + last;
      assert forall g :: g in all <==> g in before || g in last;
    }
  }

  lemma DocumentedIsClosed(base: real, rows: seq<AddOn>, now: int, limit: string)
    ensures Closed(base, GrantsOf(rows, now, limit)) == Documented(base, rows, now, limit)
  {
    BoughtIsSum(rows, now, limit);
    GrantsComeFromRows(rows, now, limit, -1.0);
  }

  /** In force for reads: paid, or in a trial that has not ended. */
  predicate InForce(sub: Option<Subscription>, packages: map<string, Package>, now: int) {
    && sub.Some? && sub.value.packageId in packages
    && (sub.value.status in {ACTIVE, PAST_DUE}
        || (sub.value.status == TRIALING && sub.value.trialEndsAt.Some? && now < sub.value.trialEndsAt.value))
  }

  /**
   * The quotas and limits of the answer, each from its own column: as documented while the
   * subscription is in force on a listed package, else zero, with one user.
   */
  lemma QuotasMean(c: Catalogue, sub: Option<Subscription>, packages: map<string, Package>, rows: seq<AddOn>,
                   ws: Option<Workspace>, now: int)
    requires forall a | a in rows :: SaneAddOn(a)
    requires sub.Some? && sub.value.packageId in packages ==> SanePackage(c, packages[sub.value.packageId])
    ensures var e := EffectiveOf(c, sub, PackageOf(packages, sub), rows, ws, now);
            && e.limits.Keys == (set k | k in c.limitKeys)
            && if InForce(sub, packages, now) then
                 var pkg := packages[sub.value.packageId];
                 && e.dailyLeadQuota == Documented(pkg.dailyLeadQuota, rows, now, "dailyLeadQuota")
                 && e.maxUsers == Documented(pkg.maxUsers, rows, now, "maxUsers")
                 && e.maxResearchProfiles == Documented(pkg.maxResearchProfiles, rows, now, "maxResearchProfiles")
                 && forall k | k in c.limitKeys ::
                      e.limits[k] == Documented(if k in pkg.limits then pkg.limits[k] else 0.0, rows, now, k)
               else e.dailyLeadQuota == 0.0 && e.maxUsers == 1.0 && e.maxResearchProfiles == 0.0
                    && forall k | k in c.limitKeys :: e.limits[k] == 0.0
  {
    if InForce(sub, packages, now) {
      var pkg := packages[sub.value.packageId];
      LimitMeaning(c, pkg, rows, now);
      DocumentedIsClosed(pkg.dailyLeadQuota, rows, now, "dailyLeadQuota");
      DocumentedIsClosed(pkg.maxUsers, rows, now, "maxUsers");
      DocumentedIsClosed(pkg.maxResearchProfiles, rows, now, "maxResearchProfiles");
      forall k | k in c.limitKeys
        ensures MetersOf(c, pkg, rows, now).limits[k] == Documented(BaseLimit(pkg, k), rows, now, k)
      {
        DocumentedIsClosed(BaseLimit(pkg, k), rows, now, k);
      }
    }
  }

  /** The package or an add-on in force has this feature. */
  ghost predicate Has(pkg: Package, rows: seq<AddOn>, now: int, k: string) {
    k in pkg.features
    || exists a, e :: && a in rows && e in a.grants
                      && a.status == ADDON_ACTIVE && (a.currentPeriodEnd.Some? ==> now < a.currentPeriodEnd.value)
                      && e.key == "feature." + k && e.raw.truthy
  }

  lemma EntitledIsHas(pkg: Package, rows: seq<AddOn>, now: int, k: string)
    ensures Entitled(pkg, rows, now, k) <==> Has(pkg, rows, now, k)
  {
    if Granted(rows, now, k) {
      var a :| a in rows && Counts(a, now) && GrantsFeature(a.grants, k);
      var e :| e in a.grants && Unlocks(e, k);
    }
    if a, e :| a in rows && Counts(a, now) && e in a.grants && Unlocks(e, k) {
      assert GrantsFeature(a.grants, k) && Granted(rows, now, k);
    }
  }

  /**
   * A feature is on exactly when the subscription is in force, the package or an add-on in force
   * has it, and no allow-list leaves it out; the entitled modules are the toggleable ones before
   * the allow-list is looked at.
   */
  lemma FeatureMeaning(c: Catalogue, sub: Option<Subscription>, packages: map<string, Package>, rows: seq<AddOn>,
                       ws: Option<Workspace>, now: int, k: string)
    ensures var e := EffectiveOf(c, sub, PackageOf(packages, sub), rows, ws, now);
            && e.features.Keys == (set f | f in c.featureKeys)
            && (k in c.featureKeys ==>
                  (e.features[k] <==> && InForce(sub, packages, now) && Has(packages[sub.value.packageId], rows, now, k)
                                      && (k == "autoAssign" || k == "smsOtp" || ws.None? || ws.value.activatedModules.None?
                                          || k in ws.value.activatedModules.value)))
            && (k in e.entitledModules
                <==> && InForce(sub, packages, now) && Has(packages[sub.value.packageId], rows, now, k)
                     && k in c.featureKeys && k != "autoAssign" && k != "smsOtp")
  {
    if InForce(sub, packages, now) { EntitledIsHas(packages[sub.value.packageId], rows, now, k); }
  }

  /** The rest of the answer comes from its rows: the package's code, the two statuses and the two dates. */
  lemma RowsShowThrough(c: Catalogue, sub: Option<Subscription>, packages: map<string, Package>, rows: seq<AddOn>,
                        ws: Option<Workspace>, now: int)
    ensures var e := EffectiveOf(c, sub, PackageOf(packages, sub), rows, ws, now);
            && e.subscriptionStatus == (if sub.Some? then Some(sub.value.status) else None)
            && if InForce(sub, packages, now) then
                 && e.packageCode == Some(packages[sub.value.packageId].code)
                 && e.workspaceStatus == (if ws.Some? then Some(ws.value.status) else None)
                 && e.trialEndsAt == sub.value.trialEndsAt && e.currentPeriodEnd == Some(sub.value.currentPeriodEnd)
               else e.packageCode.None? && e.workspaceStatus.None? && e.trialEndsAt.None? && e.currentPeriodEnd.None?
  {
  }

  // ------------------------------------------------------ module activation

  /** The allow-list after a purchase: what was on it, then the package's modules not yet on it. */
  function Widened(c: Catalogue, activated: seq<string>, features: set<string>): (r: seq<string>)
    ensures forall k :: k in r <==> k in activated || (c.Toggleable(k) && k in features)
    ensures activated <= r
  {
    activated + Filter(c.Modules(), k => k in features && k !in activated)
  }

  /** Widening twice is widening once. */
  lemma WidenedTwice(c: Catalogue, activated: seq<string>, features: set<string>)
    ensures Widened(c, Widened(c, activated, features), features) == Widened(c, activated, features)
  {
    var r := Widened(c, activated, features);
    var toAdd := Filter(c.Modules(), k => k in features && k !in r);
    if toAdd != [] { assert toAdd[0] in toAdd; }
  }

  /**
   * A purchase lands hot: after the widening every toggleable module of the package is on and
   * no module that was on goes off; an allow-list never gains anything the package lacks.
   */
  lemma PurchaseLandsHot(c: Catalogue, sub: Subscription, packages: map<string, Package>, rows: seq<AddOn>,
                         ws: Workspace, now: int, k: string)
    requires k in c.featureKeys && sub.packageId in packages && Live(sub, now) && ws.activatedModules.Some?
    ensures var pkg := packages[sub.packageId];
            var ws' := ws.(activatedModules := Some(Widened(c, ws.activatedModules.value, pkg.features)));
            var before := EffectiveOf(c, Some(sub), Some(pkg), rows, Some(ws), now).features[k];
            var after := EffectiveOf(c, Some(sub), Some(pkg), rows, Some(ws'), now).features[k];
            && (k in pkg.features ==> after)
            && (before ==> after)
            && (after ==> before || k in pkg.features)
  {
  }
}
