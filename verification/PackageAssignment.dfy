/**
 * Putting a workspace on a package without a payment
 * (backend/src/modules/billing/package-assignment.ts:32-163).
 */
module PackageAssignment {
  import opened Billing
  import opened BillingLifecycle
  import E = Entitlements
  import Text

  /** A package of the catalogue, under its code. */
  datatype Listed = Listed(id: string, package: E.Package)

  datatype Assignment =
    | Assigned(packageId: string, changed: bool, limits: map<string, real>)
    | WorkspaceNotFound
    | UnknownPackageCode(code: string)

  function InternalGrant(packageId: string, now: int): (x: Subscription)
    ensures IsGrant(x, packageId)
  {
    Subscription(packageId, ACTIVE, now, INTERNAL_GRANT_PERIOD_END, false, None, None)
  }

  predicate Holds(subs: Subscriptions, ws: WorkspaceId, packageId: string) { ws in subs && IsGrant(subs[ws], packageId) }

  function Assign(subs: Subscriptions, ws: WorkspaceId, packageId: string, now: int): Subscriptions {
    if Holds(subs, ws, packageId) then subs else subs[ws := InternalGrant(packageId, now)]
  }

  /** The reply's quotas: the three columns, unless the limits of the package name them again. */
  function Quotas(p: E.Package): (q: map<string, real>)
    ensures forall k | k in p.limits :: k in q && q[k] == p.limits[k]
    ensures "dailyLeadQuota" in q && ("dailyLeadQuota" !in p.limits ==> q["dailyLeadQuota"] == p.dailyLeadQuota)
    ensures "maxUsers" in q && ("maxUsers" !in p.limits ==> q["maxUsers"] == p.maxUsers)
    ensures "maxResearchProfiles" in q
            && ("maxResearchProfiles" !in p.limits ==> q["maxResearchProfiles"] == p.maxResearchProfiles)
    ensures forall k | k in q && k !in p.limits :: k in {"dailyLeadQuota", "maxUsers", "maxResearchProfiles"}
  {
    map["dailyLeadQuota" := p.dailyLeadQuota, "maxUsers" := p.maxUsers, "maxResearchProfiles" := p.maxResearchProfiles]
    + p.limits
  }

  /**
   * Seeding on every deploy is free: once assigned, through any sweeps up to 2999 and any
   * provider renewals, assigning again changes no row; and other workspaces are never touched.
   */
  lemma AssignmentSticks(subs: Subscriptions, ws: WorkspaceId, packageId: string, now: int, first: int, rest: seq<int>,
                         ends: seq<int>, again: int)
    requires Latest(first, rest) <= INTERNAL_GRANT_PERIOD_END
    requires forall e | e in ends :: e <= INTERNAL_GRANT_PERIOD_END
    ensures var granted := Assign(subs, ws, packageId, now);
            && Holds(granted, ws, packageId)
            && (forall other | other != ws ::
                  (other in granted <==> other in subs) && (other in subs ==> granted[other] == subs[other]))
            && var lived := granted[ws := ExtendAll(SweepSubRun(granted[ws], [first] + rest), ends)];
               lived == granted && Assign(lived, ws, packageId, again) == granted
  {
    var granted := Assign(subs, ws, packageId, now);
    GrantIsFixed(granted[ws], packageId, first, rest, Latest(first, rest), 0);
    RenewalsReachTheLatest(granted[ws], ends);
  }

  /** `upper` is the case mapping that codes are looked up under. */
  class PackageAssignmentClient {
    const upper: string -> string
    var workspaces: set<WorkspaceId>
    var packages: map<string, Listed>
    var subs: Subscriptions

    constructor (upper: string -> string, workspaces: set<WorkspaceId>, packages: map<string, Listed>, subs: Subscriptions)
      ensures this.upper == upper && this.workspaces == workspaces && this.packages == packages && this.subs == subs
    {
      this.upper, this.workspaces, this.packages, this.subs := upper, workspaces, packages, subs;
    }

    method AssignPackageToWorkspace(ws: WorkspaceId, packageCode: Option<string>, now: int) returns (r: Assignment)
      modifies this`subs
      ensures var code := upper(Text.Trim(if packageCode.Some? then packageCode.value else ""));
              r == if ws !in workspaces then WorkspaceNotFound
                   else if code !in packages then UnknownPackageCode(code)
                   else Assigned(packages[code].id, !Holds(old(subs), ws, packages[code].id), Quotas(packages[code].package))
      ensures r.Assigned? ==>
                && ws in subs && subs[ws].packageId == r.packageId && subs[ws].status == ACTIVE
                && subs[ws].trialEndsAt.None? && !subs[ws].cancelAtPeriodEnd && subs[ws].currentPeriodEnd == 32_503_593_600_000
                && (r.changed ==> subs[ws].currentPeriodStart == now && subs[ws].providerRef.None?)
                && forall other | other != ws :: (other in subs <==> other in old(subs))
                                                 && (other in subs ==> subs[other] == old(subs)[other])
      ensures subs == if r.Assigned? then Assign(old(subs), ws, r.packageId, now) else old(subs)
      ensures r.Assigned? ==> Holds(subs, ws, r.packageId) && (!r.changed ==> subs == old(subs))
    {
      if ws !in workspaces { return WorkspaceNotFound; }
      var code := upper(Text.Trim(if packageCode.Some? then packageCode.value else ""));
      if code !in packages { return UnknownPackageCode(code); }
      var pkg := packages[code];
      var alreadyGranted := ws in subs && IsGrant(subs[ws], pkg.id);
      if !alreadyGranted { subs := subs[ws := InternalGrant(pkg.id, now)]; }
      r := Assigned(pkg.id, !alreadyGranted, Quotas(pkg.package));
    }
  }
}
