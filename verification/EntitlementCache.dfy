/**
 * The 30-second cache in front of the entitlement fold
 * (backend/src/modules/billing/entitlements.service.ts:188, 203-224).
 *
 * The class is the code; the machine is the same code with every read split into its
 * computation and its store, run by any number of callers beside mutations, invalidations and
 * the clock. The machine is generic in what is computed.
 */
module EntitlementCache {
  import opened Billing
  import opened Entitlements

  const CACHE_TTL_MS := 30_000

  datatype Cached<V> = Cached(value: V, expiresAt: int)

  // ---------------------------------------------------------------- machine

  type Pid = nat

  datatype Computing<V> = Computing(ws: WorkspaceId, value: V)

  datatype State<D, V> = State(db: D, cache: map<WorkspaceId, Cached<V>>, clock: int, computing: map<Pid, Computing<V>>)

  datatype Step<D> =
    | Tick(ms: nat)
    | Mutate(db: D)
    | Invalidate(ws: WorkspaceId)
    | Begin(pid: Pid, ws: WorkspaceId)
    | Store(pid: Pid)

  ghost predicate Hit<D, V>(s: State<D, V>, ws: WorkspaceId) { ws in s.cache && s.cache[ws].expiresAt > s.clock }

  /** A caller computes only on a miss; a step that is not enabled changes nothing. */
  ghost function Apply<D, V>(compute: (D, WorkspaceId, int) -> V, s: State<D, V>, step: Step<D>): State<D, V> {
    match step
    case Tick(ms) => s.(clock := s.clock + ms)
    case Mutate(db) => s.(db := db)
    case Invalidate(ws) => s.(cache := s.cache - {ws})
    case Begin(pid, ws) =>
      if pid in s.computing || Hit(s, ws) then s
      else s.(computing := s.computing[pid := Computing(ws, compute(s.db, ws, s.clock))])
    case Store(pid) =>
      if pid !in s.computing then s
      else
        var done := s.computing[pid];
        s.(cache := s.cache[done.ws := Cached(done.value, s.clock + CACHE_TTL_MS)], computing := s.computing - {pid})
  }

  /** The state before step n. */
  ghost function At<D, V>(compute: (D, WorkspaceId, int) -> V, s: State<D, V>, steps: seq<Step<D>>, n: nat): State<D, V>
    requires n <= |steps|
    decreases n
  {
    if n == 0 then s else Apply(compute, At(compute, s, steps, n - 1), steps[n - 1])
  }

  ghost predicate Cold<D, V>(s: State<D, V>) { s.cache == map[] && s.computing == map[] }

  /** A computation under way was begun at some step, and has not been stored since. */
  lemma {:induction false} BegunAt<D, V>(compute: (D, WorkspaceId, int) -> V, s: State<D, V>, steps: seq<Step<D>>, n: nat,
                                         pid: Pid) returns (b: nat)
    requires Cold(s) && n <= |steps| && pid in At(compute, s, steps, n).computing
    ensures b < n && pid !in At(compute, s, steps, b).computing
    ensures var done := At(compute, s, steps, n).computing[pid];
            var past := At(compute, s, steps, b);
            steps[b] == Begin(pid, done.ws) && done.value == compute(past.db, done.ws, past.clock)
    ensures forall j | b < j < n :: steps[j] != Store(pid)
    ensures forall j | b < j <= n :: pid in At(compute, s, steps, j).computing
                                     && At(compute, s, steps, j).computing[pid] == At(compute, s, steps, n).computing[pid]
    decreases n
  {
    var before := At(compute, s, steps, n - 1);
    if pid in before.computing {
      b := BegunAt(compute, s, steps, n - 1, pid);
      assert steps[n - 1] != Store(pid);
    } else {
      b := n - 1;
    }
  }

  /** A cache entry was stored at some step, and its workspace was not invalidated since. */
  lemma {:induction false} StoredAt<D, V>(compute: (D, WorkspaceId, int) -> V, s: State<D, V>, steps: seq<Step<D>>, n: nat,
                                          ws: WorkspaceId) returns (u: nat)
    requires Cold(s) && n <= |steps| && ws in At(compute, s, steps, n).cache
    ensures u < n && steps[u].Store? && steps[u].pid in At(compute, s, steps, u).computing
    ensures var past := At(compute, s, steps, u);
            past.computing[steps[u].pid].ws == ws
            && At(compute, s, steps, n).cache[ws] == Cached(past.computing[steps[u].pid].value, past.clock + CACHE_TTL_MS)
    ensures forall j | u < j < n :: steps[j] != Invalidate(ws)
    decreases n
  {
    var before := At(compute, s, steps, n - 1);
    if steps[n - 1].Store? && steps[n - 1].pid in before.computing && before.computing[steps[n - 1].pid].ws == ws {
      u := n - 1;
    } else {
      u := StoredAt(compute, s, steps, n - 1, ws);
    }
  }

  lemma {:induction false} ClockGoesOn<D, V>(compute: (D, WorkspaceId, int) -> V, s: State<D, V>, steps: seq<Step<D>>,
                                             m: nat, n: nat)
    requires m <= n <= |steps|
    ensures At(compute, s, steps, m).clock <= At(compute, s, steps, n).clock
    decreases n
  {
    if m < n { ClockGoesOn(compute, s, steps, m, n - 1); }
  }

  /**
   * The cached answer at step n was computed at step b and stored at step u, less than 30
   * seconds before, and its workspace was not invalidated after u.
   */
  ghost predicate Origin<D, V>(compute: (D, WorkspaceId, int) -> V, s: State<D, V>, steps: seq<Step<D>>, n: nat,
                               ws: WorkspaceId, b: nat, u: nat)
    requires n <= |steps| && ws in At(compute, s, steps, n).cache
  {
    && b < u < n && steps[b].Begin? && steps[b].ws == ws && steps[u] == Store(steps[b].pid)
    && (forall j | b < j < u :: steps[j] != Store(steps[b].pid))
    && At(compute, s, steps, n).cache[ws].value == compute(At(compute, s, steps, b).db, ws, At(compute, s, steps, b).clock)
    && At(compute, s, steps, b).clock <= At(compute, s, steps, u).clock <= At(compute, s, steps, n).clock
    && At(compute, s, steps, n).clock < At(compute, s, steps, u).clock + 30_000
    && (forall j | u < j < n :: steps[j] != Invalidate(ws))
  }

  /** Every cached answer, in every interleaving, has such an origin, and was under way in between. */
  lemma HitOrigin<D, V>(compute: (D, WorkspaceId, int) -> V, s: State<D, V>, steps: seq<Step<D>>, n: nat, ws: WorkspaceId)
    returns (b: nat, u: nat)
    requires Cold(s) && n <= |steps| && Hit(At(compute, s, steps, n), ws)
    ensures Origin(compute, s, steps, n, ws, b, u)
    ensures forall j | b < j <= u :: UnderWay(At(compute, s, steps, j), ws)
  {
    u := StoredAt(compute, s, steps, n, ws);
    b := BegunAt(compute, s, steps, u, steps[u].pid);
    ClockGoesOn(compute, s, steps, b, u);
    ClockGoesOn(compute, s, steps, u, n);
    forall j | b < j <= u ensures UnderWay(At(compute, s, steps, j), ws) {
      assert steps[u].pid in At(compute, s, steps, j).computing;
    }
  }

  /** Some caller has computed this workspace's entitlements and not stored them yet. */
  ghost predicate UnderWay<D, V>(s: State<D, V>, ws: WorkspaceId) {
    exists pid :: pid in s.computing && s.computing[pid].ws == ws
  }

  /** Nothing comes between a computation for this workspace and its store. */
  ghost predicate AtomicReads<D(!new)>(steps: seq<Step<D>>, ws: WorkspaceId) {
    forall j | 0 <= j < |steps| - 1 && steps[j].Begin? && steps[j].ws == ws :: steps[j + 1] == Store(steps[j].pid)
  }

  /**
   * If the reads of a workspace are not interrupted, an answer given at time t is what the fold
   * gave at some time in (t - 30 s, t], and the workspace was not invalidated in between.
   */
  lemma AnswersAreRecent<D(!new), V>(compute: (D, WorkspaceId, int) -> V, s: State<D, V>, steps: seq<Step<D>>, n: nat,
                                     ws: WorkspaceId) returns (b: nat)
    requires Cold(s) && AtomicReads(steps, ws) && n <= |steps| && Hit(At(compute, s, steps, n), ws)
    ensures b < n && At(compute, s, steps, n).cache[ws].value
                     == compute(At(compute, s, steps, b).db, ws, At(compute, s, steps, b).clock)
    ensures At(compute, s, steps, b).clock <= At(compute, s, steps, n).clock < At(compute, s, steps, b).clock + 30_000
    ensures forall j | b <= j < n :: steps[j] != Invalidate(ws)
  {
    var u;
    b, u := HitOrigin(compute, s, steps, n, ws);
    assert steps[b + 1] == Store(steps[b].pid);
    assert u == b + 1;
  }

  lemma {:induction false} SameDb<D, V>(compute: (D, WorkspaceId, int) -> V, s: State<D, V>, steps: seq<Step<D>>, m: nat, n: nat)
    requires m <= n <= |steps| && forall j | m <= j < n :: !steps[j].Mutate?
    ensures At(compute, s, steps, m).db == At(compute, s, steps, n).db
    decreases n
  {
    if m < n { SameDb(compute, s, steps, m, n - 1); }
  }

  // ------------------------------------------- what an invalidation achieves

  lemma {:induction false} AtPrefix<D, V>(compute: (D, WorkspaceId, int) -> V, s: State<D, V>, steps: seq<Step<D>>,
                                          more: seq<Step<D>>, n: nat)
    requires n <= |steps|
    ensures At(compute, s, steps + more, n) == At(compute, s, steps, n)
    decreases n
  {
    if n > 0 { AtPrefix(compute, s, steps, more, n - 1); }
  }

  /** With no computation of the workspace under way, every later answer was begun after the invalidation. */
  lemma BegunAfter<D, V>(compute: (D, WorkspaceId, int) -> V, s: State<D, V>, steps: seq<Step<D>>, k: nat, n: nat,
                         ws: WorkspaceId) returns (b: nat, u: nat)
    requires Cold(s) && k < n <= |steps| && steps[k] == Invalidate(ws) && Hit(At(compute, s, steps, n), ws)
    requires !UnderWay(At(compute, s, steps, k), ws)
    ensures k < b && Origin(compute, s, steps, n, ws, b, u)
  {
    b, u := HitOrigin(compute, s, steps, n, ws);
    assert steps[k] == Invalidate(ws);
    assert !(u < k);
    assert !(b < k <= u);
  }

  /** With one under way, its store serves what it computed before, and the next answer is that. */
  lemma OlderAnswer<D, V>(compute: (D, WorkspaceId, int) -> V, s: State<D, V>, steps: seq<Step<D>>, pid: Pid, ws: WorkspaceId)
    requires var now := At(compute, s, steps, |steps|); pid in now.computing && now.computing[pid].ws == ws
    ensures var run := steps + [Invalidate(ws), Store(pid)];
            var later := At(compute, s, run, |steps| + 2);
            Hit(later, ws) && later.cache[ws].value == At(compute, s, steps, |steps|).computing[pid].value
  {
    var k := |steps|;
    var more := [Invalidate(ws), Store(pid)];
    var run := steps + more;
    AtPrefix(compute, s, steps, more, k);
    assert run[k] == Invalidate(ws) && run[k + 1] == Store(pid);
    var invalidated := At(compute, s, run, k + 1);
    assert invalidated == Apply(compute, At(compute, s, run, k), Invalidate(ws));
    assert At(compute, s, run, k + 2) == Apply(compute, invalidated, Store(pid));
  }

  /** The answer at step n was begun after step k. */
  ghost predicate BegunSince<D, V>(compute: (D, WorkspaceId, int) -> V, s: State<D, V>, steps: seq<Step<D>>, k: nat, n: nat,
                                   ws: WorkspaceId)
    requires n <= |steps| && ws in At(compute, s, steps, n).cache
  {
    exists b: nat, u: nat :: k < b && Origin(compute, s, steps, n, ws, b, u)
  }

  /** However the run goes on, every answer for the workspace was begun after step k. */
  ghost predicate AlwaysBegunAfter<D(!new), V(!new)>(compute: (D, WorkspaceId, int) -> V, s: State<D, V>, steps: seq<Step<D>>,
                                                     k: nat, ws: WorkspaceId) {
    forall more: seq<Step<D>>, n: nat | k < n <= |steps + more| && Hit(At(compute, s, steps + more, n), ws) ::
      BegunSince(compute, s, steps + more, k, n, ws)
  }

  /**
   * What an invalidation is worth, exactly: every answer given after it was computed after it,
   * in every continuation, if and only if no computation of that workspace is under way when
   * it happens.
   */
  lemma InvalidationHoldsIff<D(!new), V(!new)>(compute: (D, WorkspaceId, int) -> V, s: State<D, V>, steps: seq<Step<D>>,
                                               ws: WorkspaceId)
    requires Cold(s)
    ensures AlwaysBegunAfter(compute, s, steps + [Invalidate(ws)], |steps|, ws)
            <==> !UnderWay(At(compute, s, steps, |steps|), ws)
  {
    if UnderWay(At(compute, s, steps, |steps|), ws) {
      InvalidationMissesIt(compute, s, steps, ws);
    } else {
      forall more: seq<Step<D>>, n: nat
        | |steps| < n <= |steps + [Invalidate(ws)] + more| && Hit(At(compute, s, steps + [Invalidate(ws)] + more, n), ws)
        ensures BegunSince(compute, s, steps + [Invalidate(ws)] + more, |steps|, n, ws)
      {
        AnswerBegunSince(compute, s, steps, more, n, ws);
      }
    }
  }

  lemma AnswerBegunSince<D, V>(compute: (D, WorkspaceId, int) -> V, s: State<D, V>, steps: seq<Step<D>>, more: seq<Step<D>>,
                               n: nat, ws: WorkspaceId)
    requires Cold(s) && !UnderWay(At(compute, s, steps, |steps|), ws)
    requires |steps| < n <= |steps + [Invalidate(ws)] + more| && Hit(At(compute, s, steps + [Invalidate(ws)] + more, n), ws)
    ensures BegunSince(compute, s, steps + [Invalidate(ws)] + more, |steps|, n, ws)
  {
    var run := steps + [Invalidate(ws)] + more;
    assert run == steps + ([Invalidate(ws)] + more);
    AtPrefix(compute, s, steps, [Invalidate(ws)] + more, |steps|);
    var b, u := BegunAfter(compute, s, run, |steps|, n, ws);
  }

  lemma InvalidationMissesIt<D(!new), V(!new)>(compute: (D, WorkspaceId, int) -> V, s: State<D, V>, steps: seq<Step<D>>,
                                               ws: WorkspaceId)
    requires UnderWay(At(compute, s, steps, |steps|), ws)
    ensures !AlwaysBegunAfter(compute, s, steps + [Invalidate(ws)], |steps|, ws)
  {
    var k := |steps|;
    var pid :| pid in At(compute, s, steps, k).computing && At(compute, s, steps, k).computing[pid].ws == ws;
    OlderAnswer(compute, s, steps, pid, ws);
    var run, more := steps + [Invalidate(ws)], [Step<D>.Store(pid)];
    assert run + more == steps + [Invalidate(ws), Store(pid)];
    assert k < k + 2 <= |run + more| && Hit(At(compute, s, run + more, k + 2), ws);
    assert !BegunSince(compute, s, run + more, k, k + 2, ws);
  }

  /**
   * So once a mutation has been followed by its invalidation while no read of that workspace is
   * under way, every later answer is a fold of the mutated tables.
   */
  lemma FreshAfterInvalidation<D, V>(compute: (D, WorkspaceId, int) -> V, s: State<D, V>, steps: seq<Step<D>>, k: nat,
                                     n: nat, ws: WorkspaceId)
    requires Cold(s) && k < n <= |steps| && Hit(At(compute, s, steps, n), ws)
    requires steps[k] == Invalidate(ws) && !UnderWay(At(compute, s, steps, k), ws)
    requires forall j | k <= j < n :: !steps[j].Mutate?
    ensures exists at :: At(compute, s, steps, n).cache[ws].value == compute(At(compute, s, steps, n).db, ws, at)
                         && At(compute, s, steps, k).clock <= at <= At(compute, s, steps, n).clock
  {
    var b, u := BegunAfter(compute, s, steps, k, n, ws);
    SameDb(compute, s, steps, b, n);
    ClockGoesOn(compute, s, steps, k, b);
    var at := At(compute, s, steps, b).clock;
    assert At(compute, s, steps, n).cache[ws].value == compute(At(compute, s, steps, n).db, ws, at);
  }

  // ------------------------------------------------------------------ class

  /** The tables the fold reads; rows of a workspace come in the database's order. */
  datatype Db = Db(subs: Subscriptions, packages: map<string, Package>, addOns: map<WorkspaceId, seq<AddOn>>,
                   workspaces: map<WorkspaceId, Workspace>)

  function SubOf(db: Db, ws: WorkspaceId): Option<Subscription> { if ws in db.subs then Some(db.subs[ws]) else None }

  function RowsOf(db: Db, ws: WorkspaceId): seq<AddOn> { if ws in db.addOns then db.addOns[ws] else [] }

  function WorkspaceOf(db: Db, ws: WorkspaceId): Option<Workspace> {
    if ws in db.workspaces then Some(db.workspaces[ws]) else None
  }

  ghost function Computed(c: Catalogue): (Db, WorkspaceId, int) -> Effective {
    (db: Db, ws: WorkspaceId, now: int) =>
      EffectiveOf(c, SubOf(db, ws), PackageOf(db.packages, SubOf(db, ws)), RowsOf(db, ws), WorkspaceOf(db, ws), now)
  }

  class EntitlementsService {
    const catalogue: Catalogue
    var cache: map<WorkspaceId, Cached<Effective>>

    constructor ()
      ensures catalogue == CATALOGUE && catalogue.Valid() && cache == map[]
    {
      CatalogueIsValid();
      catalogue := CATALOGUE;
      cache := map[];
    }

    ghost function Machine(db: Db, now: int): State<Db, Effective>
      reads this
    {
      State(db, cache, now, map[])
    }

    method Invalidate(ws: WorkspaceId)
      modifies this`cache
      ensures cache == old(cache) - {ws}
    {
      cache := cache - {ws};
    }

    /** One uninterrupted read: the cached answer while it is good, else a computation and its store. */
    method GetEffective(db: Db, ws: WorkspaceId, now: int) returns (value: Effective)
      requires catalogue.Valid()
      modifies this`cache
      ensures Hit(Machine(db, now), ws) && cache[ws].value == value
      ensures Machine(db, now)
              == Apply(Computed(catalogue), Apply(Computed(catalogue), old(Machine(db, now)), Begin(0, ws)), Store(0))
      ensures old(Hit(Machine(db, now), ws)) ==> cache == old(cache)
      ensures !old(Hit(Machine(db, now), ws)) ==>
                value == Computed(catalogue)(db, ws, now) && cache == old(cache)[ws := Cached(value, now + 30_000)]
      ensures ws in old(cache) && now < old(cache)[ws].expiresAt <==> old(Hit(Machine(db, now), ws))
    {
      if ws in cache && cache[ws].expiresAt > now { return cache[ws].value; }
      value := Compute(catalogue, SubOf(db, ws), db.packages, RowsOf(db, ws), WorkspaceOf(db, ws), now);
      cache := cache[ws := Cached(value, now + CACHE_TTL_MS)];
    }
  }
}
