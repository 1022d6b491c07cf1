/**
 * The tables behind the MCP authorization server and the two bounded searches over
 * `parentId` (backend/src/modules/mcp-oauth/mcp-oauth-token.service.ts:283-328).
 *
 * Row ids are drawn from one space: a `parentId` names the refresh token a pair was
 * rotated from or, for the first pair, the authorization code. SHA-256 is an injective
 * constructor and fresh random values are parameters.
 */
module OAuthStore {

  datatype Option<T> = None | Some(value: T)

  type Id = nat
  datatype Digest = Sha256(secret: string)
  datatype Kind = ACCESS | REFRESH

  datatype Grant = Grant(clientId: string, workspaceId: string, userId: string,
                         scopes: seq<string>, resource: string)

  datatype CodeRow = CodeRow(codeHash: Digest, grant: Grant, redirectUri: string, codeChallenge: Digest,
                             codeChallengeMethod: string, expiresAt: int, consumedAt: Option<int>)

  datatype TokenRow = TokenRow(tokenHash: Digest, kind: Kind, grant: Grant, expiresAt: int,
                               revokedAt: Option<int>, parentId: Option<Id>)

  type Codes = map<Id, CodeRow>
  type Tokens = map<Id, TokenRow>

  const ACCESS_TTL_MS: int := 60 * 60 * 1000
  const REFRESH_TTL_MS: int := 30 * 24 * 60 * 60 * 1000
  const MAX_CHAIN_DEPTH: nat := 200

  /** The ids and secrets one call of `issuePair` draws. */
  datatype Fresh = Fresh(accessId: Id, refreshId: Id, access: string, refresh: string)

  predicate IsFresh(f: Fresh, codes: Codes, tokens: Tokens) {
    f.accessId != f.refreshId && {f.accessId, f.refreshId} !! codes.Keys + tokens.Keys
  }

  function Mint(tokens: Tokens, grant: Grant, parentId: Id, f: Fresh, now: int): Tokens {
    tokens[f.accessId := TokenRow(Sha256(f.access), ACCESS, grant, now + ACCESS_TTL_MS, None, Some(parentId))]
          [f.refreshId := TokenRow(Sha256(f.refresh), REFRESH, grant, now + REFRESH_TTL_MS, None, Some(parentId))]
  }

  predicate Live(tokens: Tokens, id: Id) { id in tokens && tokens[id].revokedAt.None? }

  predicate LiveRefresh(tokens: Tokens, id: Id) { Live(tokens, id) && tokens[id].kind == REFRESH }

  /** `updateMany` on a set of ids, gated on `revokedAt: null`. */
  function RevokeAll(tokens: Tokens, ids: set<Id>, now: int): Tokens {
    map id | id in tokens ::
      if id in ids && tokens[id].revokedAt.None? then tokens[id].(revokedAt := Some(now)) else tokens[id]
  }

  // ------------------------------------------------------------- ancestry

  /** The row `n` parents above `id`, when there are that many. */
  ghost function Anc(tokens: Tokens, id: Id, n: nat): Option<Id>
    decreases n
  {
    if n == 0 then Some(id)
    else if id in tokens && tokens[id].parentId.Some? then Anc(tokens, tokens[id].parentId.value, n - 1)
    else None
  }

  /** `id` lies at most `k` generations below `root`. */
  ghost predicate Within(tokens: Tokens, root: Id, id: Id, k: nat) {
    exists n: nat :: n <= k && Anc(tokens, id, n) == Some(root)
  }

  predicate IsTop(tokens: Tokens, id: Id) { id !in tokens || tokens[id].parentId.None? }

  /** Later tables keep every row and its parent. */
  ghost predicate Extends(start: Tokens, now: Tokens) {
    forall id | id in start :: id in now && now[id].parentId == start[id].parentId
  }

  lemma {:induction false} AncCompose(tokens: Tokens, id: Id, m: nat, n: nat)
    requires Anc(tokens, id, m).Some?
    ensures Anc(tokens, id, m + n) == Anc(tokens, Anc(tokens, id, m).value, n)
    decreases m
  {
    if m > 0 { AncCompose(tokens, tokens[id].parentId.value, m - 1, n); }
  }

  lemma {:induction false} AncExtends(start: Tokens, now: Tokens, id: Id, n: nat)
    requires Extends(start, now) && Anc(start, id, n).Some?
    ensures Anc(now, id, n) == Anc(start, id, n)
    decreases n
  {
    if n > 0 { AncExtends(start, now, start[id].parentId.value, n - 1); }
  }

  /** A chain has one top, at one height. */
  lemma TopIsUnique(tokens: Tokens, id: Id, h: nat, n: nat)
    requires Anc(tokens, id, h).Some? && IsTop(tokens, Anc(tokens, id, h).value)
    requires Anc(tokens, id, n).Some?
    ensures n <= h
    ensures IsTop(tokens, Anc(tokens, id, n).value) ==> n == h
  {
    if n > h {
      AncCompose(tokens, id, h, n - h);
    } else if n < h {
      AncCompose(tokens, id, n, h - n);
    }
  }

  /** A chain that has a top never meets the same row twice. */
  lemma NoRepeat(tokens: Tokens, id: Id, h: nat, i: nat, j: nat)
    requires Anc(tokens, id, h).Some? && IsTop(tokens, Anc(tokens, id, h).value)
    requires Anc(tokens, id, i).Some? && Anc(tokens, id, j) == Anc(tokens, id, i)
    ensures i == j
  {
    TopIsUnique(tokens, id, h, i);
    TopIsUnique(tokens, id, h, j);
    var lo, hi := if i <= j then i else j, if i <= j then j else i;
    var n := lo + (h - hi);
    AncCompose(tokens, id, hi, h - hi);
    AncCompose(tokens, id, lo, h - hi);
    TopIsUnique(tokens, id, h, n);
  }

  // ------------------------------------------------------- the two searches

  /**
   * A replay handler between two queries: walking up to the root, searching breadth
   * first below `rootId`, or about to issue the bulk revocation.
   */
  datatype Walk =
    | Up(rootId: Id, parentId: Option<Id>, seen: set<Id>, depth: nat)
    | Down(rootId: Id, ids: set<Id>, frontier: set<Id>, depth: nat)
    | Bulk(rootId: Id, ids: set<Id>)

  function SearchBelow(rootId: Id): Walk { Down(rootId, {rootId}, {rootId}, 0) }

  function Children(tokens: Tokens, frontier: set<Id>): set<Id> {
    set id | id in tokens && tokens[id].parentId.Some? && tokens[id].parentId.value in frontier
  }

  /** One query of the walk, asked of the table as it is now. */
  function WalkStep(tokens: Tokens, w: Walk): Walk
    requires !w.Bulk?
  {
    match w
    case Up(rootId, parentId, seen, depth) =>
      if parentId.None? || depth >= MAX_CHAIN_DEPTH || parentId.value in seen then SearchBelow(rootId)
      else if parentId.value !in tokens then SearchBelow(parentId.value)
      else Up(parentId.value, tokens[parentId.value].parentId, seen + {parentId.value}, depth + 1)
    case Down(rootId, ids, frontier, depth) =>
      if frontier == {} || depth >= MAX_CHAIN_DEPTH then Bulk(rootId, ids)
      else
        var next := Children(tokens, frontier) - ids;
        Down(rootId, ids + next, next, depth + 1)
  }

  /** Where an up-walk of at most `n` steps ends on a chain without cycles. */
  ghost function Top(tokens: Tokens, id: Id, n: nat): Id
    decreases n
  {
    if n == 0 || IsTop(tokens, id) then id else Top(tokens, tokens[id].parentId.value, n - 1)
  }

  lemma {:induction false} TopIsAncestor(tokens: Tokens, id: Id, h: nat, n: nat)
    requires Anc(tokens, id, h).Some? && IsTop(tokens, Anc(tokens, id, h).value)
    ensures Some(Top(tokens, id, n)) == Anc(tokens, id, if h <= n then h else n)
    decreases n
  {
    if n > 0 && h > 0 {
      TopIsAncestor(tokens, tokens[id].parentId.value, h - 1, n - 1);
    }
  }

  /**
   * What a walk knows that started on table `start` from row `origin`, when the table has
   * since grown to `now`: it heads for the top of `origin`'s chain and searches below it.
   */
  ghost predicate WalkSound(start: Tokens, now: Tokens, origin: Id, w: Walk) {
    Extends(start, now) &&
    match w
    case Up(rootId, parentId, seen, depth) =>
      && depth <= MAX_CHAIN_DEPTH
      && Anc(start, origin, depth) == Some(rootId) && rootId in start && parentId == start[rootId].parentId
      && (forall id | id in seen :: Within(start, id, origin, depth))
    case Down(rootId, _, _, _) => rootId == Top(start, origin, MAX_CHAIN_DEPTH) && SearchSound(start, now, w)
    case Bulk(rootId, _) => rootId == Top(start, origin, MAX_CHAIN_DEPTH) && SearchSound(start, now, w)
  }

  /** A search holds every row of `start` down to its depth and only descendants of its root. */
  ghost predicate SearchSound(start: Tokens, now: Tokens, w: Walk)
    requires !w.Up?
  {
    var k := if w.Down? then w.depth else MAX_CHAIN_DEPTH;
    && Extends(start, now)
    && (forall id | id in w.ids :: Within(now, w.rootId, id, k))
    && (forall id | id in start && Within(start, w.rootId, id, k) :: id in w.ids)
    && (w.Down? ==> w.depth <= MAX_CHAIN_DEPTH && w.frontier <= w.ids && w.rootId in w.ids
                    && Processed(start, w.ids, w.frontier))
  }

  /** The children of every id already queried have been collected. */
  ghost predicate Processed(start: Tokens, ids: set<Id>, frontier: set<Id>) {
    forall id | id in start && start[id].parentId.Some? && start[id].parentId.value in ids - frontier :: id in ids
  }

  lemma WithinExtends(start: Tokens, now: Tokens, root: Id, id: Id, k: nat, k': nat)
    requires Extends(start, now) && k <= k' && Within(start, root, id, k)
    ensures Within(now, root, id, k')
  {
    var n: nat :| n <= k && Anc(start, id, n) == Some(root);
    AncExtends(start, now, id, n);
  }

  /** With nothing left to query the collected ids are closed, hence hold all descendants. */
  lemma {:induction false} ClosedHoldsAll(start: Tokens, ids: set<Id>, root: Id, id: Id, n: nat)
    requires root in ids && Processed(start, ids, {}) && Anc(start, id, n) == Some(root)
    ensures id in ids
    decreases n
  {
    if n > 0 { ClosedHoldsAll(start, ids, root, start[id].parentId.value, n - 1); }
  }

  /** The table may grow between two queries of a walk. */
  lemma WalkSoundLater(start: Tokens, now: Tokens, later: Tokens, origin: Id, w: Walk)
    requires WalkSound(start, now, origin, w) && Extends(now, later)
    ensures WalkSound(start, later, origin, w)
  {
    if !w.Up? {
      var k := if w.Down? then w.depth else MAX_CHAIN_DEPTH;
      forall id | id in w.ids ensures Within(later, w.rootId, id, k) {
        WithinExtends(now, later, w.rootId, id, k, k);
      }
    }
  }

  /** On a chain with a top, the next parent is one step closer and was not seen before. */
  lemma NextParent(start: Tokens, origin: Id, w: Walk, h: nat)
    requires w.Up? && WalkSound(start, start, origin, w)
    requires Anc(start, origin, h).Some? && IsTop(start, Anc(start, origin, h).value)
    ensures w.depth <= h
    ensures w.parentId.None? ==> w.depth == h
    ensures w.parentId.Some? ==>
              && w.parentId.value !in w.seen
              && w.depth + 1 <= h && Anc(start, origin, w.depth + 1) == Some(w.parentId.value)
  {
    TopIsUnique(start, origin, h, w.depth);
    if w.parentId.Some? {
      var p := w.parentId.value;
      AncCompose(start, origin, w.depth, 1);
      assert Anc(start, w.rootId, 1) == Anc(start, p, 0);
      TopIsUnique(start, origin, h, w.depth + 1);
      if p in w.seen {
        var i: nat :| i <= w.depth && Anc(start, origin, i) == Some(p);
        NoRepeat(start, origin, h, i, w.depth + 1);
      }
    }
  }

  lemma UpStepSound(start: Tokens, now: Tokens, origin: Id, w: Walk, h: nat)
    requires w.Up? && WalkSound(start, now, origin, w)
    requires Anc(start, origin, h).Some? && IsTop(start, Anc(start, origin, h).value)
    requires Anc(start, origin, h).value in now ==> Anc(start, origin, h).value in start
    ensures WalkSound(start, now, origin, WalkStep(now, w))
  {
    NextParent(start, origin, w, h);
    TopIsAncestor(start, origin, h, MAX_CHAIN_DEPTH);
    var w' := WalkStep(now, w);
    if w'.Up? {
      UpContinues(start, now, origin, w, h);
    } else {
      UpStops(start, now, origin, w, h);
      SearchStarts(start, now, w'.rootId);
    }
  }

  lemma UpStops(start: Tokens, now: Tokens, origin: Id, w: Walk, h: nat)
    requires w.Up? && WalkStep(now, w).Down? && Extends(start, now)
    requires Anc(start, origin, h).Some? && IsTop(start, Anc(start, origin, h).value)
    requires Anc(start, origin, h).value in now ==> Anc(start, origin, h).value in start
    requires Anc(start, origin, w.depth) == Some(w.rootId) && w.depth <= h && w.depth <= MAX_CHAIN_DEPTH
    requires if w.parentId.None? then w.depth == h
             else w.parentId.value !in w.seen && w.depth + 1 <= h
                  && Anc(start, origin, w.depth + 1) == Some(w.parentId.value)
    ensures Some(WalkStep(now, w).rootId) == Anc(start, origin, if h <= MAX_CHAIN_DEPTH then h else MAX_CHAIN_DEPTH)
  {
    if w.parentId.Some? && w.depth < MAX_CHAIN_DEPTH {
      assert IsTop(start, w.parentId.value);
      TopIsUnique(start, origin, h, w.depth + 1);
    }
  }

  lemma UpContinues(start: Tokens, now: Tokens, origin: Id, w: Walk, h: nat)
    requires w.Up? && WalkSound(start, now, origin, w) && WalkStep(now, w).Up?
    requires Anc(start, origin, h).Some? && IsTop(start, Anc(start, origin, h).value)
    requires Anc(start, origin, h).value in now ==> Anc(start, origin, h).value in start
    requires w.depth + 1 <= h && Anc(start, origin, w.depth + 1) == Some(w.parentId.value)
    ensures WalkSound(start, now, origin, WalkStep(now, w))
  {
    var p := w.parentId.value;
    AncCompose(start, origin, w.depth + 1, h - (w.depth + 1));
    assert p in start;
    forall id | id in w.seen + {p}
      ensures Within(start, id, origin, w.depth + 1)
    {
      if id in w.seen {
        var i: nat :| i <= w.depth && Anc(start, origin, i) == Some(id);
      }
    }
  }

  lemma SearchStarts(start: Tokens, now: Tokens, rootId: Id)
    requires Extends(start, now)
    ensures SearchSound(start, now, SearchBelow(rootId))
  {
    assert Anc(now, rootId, 0) == Some(rootId);
  }

  lemma DownStepSound(start: Tokens, now: Tokens, w: Walk)
    requires w.Down? && SearchSound(start, now, w)
    ensures SearchSound(start, now, WalkStep(now, w))
  {
    var w' := WalkStep(now, w);
    var root := w.rootId;
    if w'.Bulk? {
      forall id | id in w.ids ensures Within(now, root, id, MAX_CHAIN_DEPTH) {
        WithinExtends(now, now, root, id, w.depth, MAX_CHAIN_DEPTH);
      }
      if w.frontier == {} {
        forall id | id in start && Within(start, root, id, MAX_CHAIN_DEPTH) ensures id in w.ids {
          var n: nat :| n <= MAX_CHAIN_DEPTH && Anc(start, id, n) == Some(root);
          ClosedHoldsAll(start, w.ids, root, id, n);
        }
      }
    } else {
      forall id | id in w'.ids ensures Within(now, root, id, w.depth + 1) {
        if id in w.ids {
          WithinExtends(now, now, root, id, w.depth, w.depth + 1);
        } else {
          var p := now[id].parentId.value;
          var n: nat :| n <= w.depth && Anc(now, p, n) == Some(root);
          assert Anc(now, id, n + 1) == Some(root);
        }
      }
      forall id | id in start && Within(start, root, id, w.depth + 1) ensures id in w'.ids {
        var n: nat :| n <= w.depth + 1 && Anc(start, id, n) == Some(root);
        if n > 0 {
          var p := start[id].parentId.value;
          assert Anc(start, p, n - 1) == Some(root);
          if p in start {
            assert Within(start, root, p, w.depth);
          } else {
            assert n - 1 == 0;
          }
          assert p in w.ids;
        }
      }
    }
  }

  // ------------------------------------------- what one revocation achieves

  /** The table after an uninterrupted `revokeFrom(root)`. */
  ghost function RevokeReach(tokens: Tokens, root: Id, now: int): Tokens {
    map id | id in tokens ::
      if tokens[id].revokedAt.None? && Within(tokens, root, id, MAX_CHAIN_DEPTH)
      then tokens[id].(revokedAt := Some(now)) else tokens[id]
  }

  lemma SearchRevokesReach(tokens: Tokens, w: Walk, now: int)
    requires w.Bulk? && SearchSound(tokens, tokens, w)
    ensures RevokeAll(tokens, w.ids, now) == RevokeReach(tokens, w.rootId, now)
  {
  }

  /** Two rows with one top belong to one family; a code is the top of its family. */
  ghost predicate Descends(tokens: Tokens, root: Id, id: Id) {
    exists n: nat :: Anc(tokens, id, n) == Some(root)
  }

  /** A family is revoked as a whole, other families are left alone, old stamps are kept. */
  ghost predicate RevokesExactly(before: Tokens, after: Tokens, root: Id, now: int) {
    && after.Keys == before.Keys
    && forall id | id in before ::
         && (Descends(before, root, id) ==> after[id].revokedAt.Some?)
         && (!Descends(before, root, id) || before[id].revokedAt.Some? ==> after[id] == before[id])
         && after[id] == before[id].(revokedAt := after[id].revokedAt)
         && (after[id] != before[id] ==> after[id].revokedAt == Some(now))
  }

  /** Every live row of the family is in reach of a search from `top`. */
  ghost predicate InReach(tokens: Tokens, root: Id, top: Id) {
    forall id | Live(tokens, id) && Descends(tokens, root, id) :: Within(tokens, top, id, 200)
  }

  /** No live row of the family lies deeper than the searches go. */
  ghost predicate ShallowFamily(tokens: Tokens, root: Id) {
    forall id, n: nat | Live(tokens, id) && Anc(tokens, id, n) == Some(root) :: n <= 200
  }

  /** Where the up-walk of a replay ends: at the code, if that is near enough, else 200 rows up. */
  lemma ReplayTop(tokens: Tokens, root: Id, origin: Id, h: nat)
    requires root !in tokens && Anc(tokens, origin, h) == Some(root)
    ensures var top := Top(tokens, origin, MAX_CHAIN_DEPTH);
            && Some(top) == Anc(tokens, origin, if h <= 200 then h else 200)
            && (h <= 200 ==> top == root)
            && Descends(tokens, root, top)
  {
    TopIsAncestor(tokens, origin, h, MAX_CHAIN_DEPTH);
    var top := Top(tokens, origin, MAX_CHAIN_DEPTH);
    if h <= MAX_CHAIN_DEPTH {
      assert Anc(tokens, root, 0) == Some(root);
    } else {
      AncCompose(tokens, origin, MAX_CHAIN_DEPTH, h - MAX_CHAIN_DEPTH);
      assert Anc(tokens, top, h - MAX_CHAIN_DEPTH) == Some(root);
    }
  }

  /**
   * Replaying any row of a family, however deep, revokes exactly that family if and only if
   * all its live rows are within 200 generations of the row where the up-walk ends.
   */
  lemma ReplayRevokesFamilyIff(tokens: Tokens, root: Id, origin: Id, h: nat, now: int)
    requires root !in tokens && Anc(tokens, origin, h) == Some(root)
    ensures var top := Top(tokens, origin, MAX_CHAIN_DEPTH);
            RevokesExactly(tokens, RevokeReach(tokens, top, now), root, now) <==> InReach(tokens, root, top)
  {
    ReplayTop(tokens, root, origin, h);
    var top := Top(tokens, origin, MAX_CHAIN_DEPTH);
    forall id | id in tokens && Within(tokens, top, id, MAX_CHAIN_DEPTH) ensures Descends(tokens, root, id) {
      var m: nat :| m <= MAX_CHAIN_DEPTH && Anc(tokens, id, m) == Some(top);
      var n: nat :| Anc(tokens, top, n) == Some(root);
      AncCompose(tokens, id, m, n);
      assert Anc(tokens, id, m + n) == Some(root);
    }
    ReachIsExact(tokens, root, top, now);
  }

  lemma ReachIsExact(tokens: Tokens, root: Id, top: Id, now: int)
    requires forall id | id in tokens && Within(tokens, top, id, MAX_CHAIN_DEPTH) :: Descends(tokens, root, id)
    ensures RevokesExactly(tokens, RevokeReach(tokens, top, now), root, now) <==> InReach(tokens, root, top)
  {
    var after := RevokeReach(tokens, top, now);
    if id :| Live(tokens, id) && Descends(tokens, root, id) && !Within(tokens, top, id, MAX_CHAIN_DEPTH) {
      assert after[id].revokedAt.None?;
    }
  }

  /** From the code, or from at most 200 generations below it, the condition is on depth alone. */
  lemma NearReplayRevokesFamilyIff(tokens: Tokens, root: Id, origin: Id, h: nat, now: int)
    requires root !in tokens && Anc(tokens, origin, h) == Some(root) && h <= 200
    ensures Top(tokens, origin, MAX_CHAIN_DEPTH) == root
    ensures RevokesExactly(tokens, RevokeReach(tokens, Top(tokens, origin, MAX_CHAIN_DEPTH), now), root, now)
            <==> ShallowFamily(tokens, root)
  {
    ReplayTop(tokens, root, origin, h);
    ReplayRevokesFamilyIff(tokens, root, origin, h, now);
    forall id, m: nat, n: nat | Anc(tokens, id, m) == Some(root) && Anc(tokens, id, n) == Some(root) ensures m == n {
      TopIsUnique(tokens, id, m, n);
    }
  }

  /**
   * Replaying a refresh token deeper than 200 generations starts the search below the root:
   * a live row of the family that does not descend from that row keeps its access.
   */
  lemma DeepReplayMissesSiblings(tokens: Tokens, root: Id, origin: Id, h: nat, sibling: Id, now: int)
    requires root !in tokens && Anc(tokens, origin, h) == Some(root) && h > 200
    requires Live(tokens, sibling) && tokens[sibling].parentId == Some(root)
    requires Anc(tokens, origin, h - 1) != Some(sibling)
    ensures Live(RevokeReach(tokens, Top(tokens, origin, MAX_CHAIN_DEPTH), now), sibling)
  {
    TopIsAncestor(tokens, origin, h, MAX_CHAIN_DEPTH);
    var top := Top(tokens, origin, MAX_CHAIN_DEPTH);
    AncCompose(tokens, origin, MAX_CHAIN_DEPTH, h - MAX_CHAIN_DEPTH);
    assert Anc(tokens, sibling, 1) == Anc(tokens, root, 0);
    forall n: nat | Anc(tokens, sibling, n) == Some(top) ensures false {
      TopIsUnique(tokens, sibling, 1, n);
      if n == 0 {
        TopIsUnique(tokens, sibling, 1, h - MAX_CHAIN_DEPTH);
      } else {
        TopIsUnique(tokens, origin, h, MAX_CHAIN_DEPTH);
      }
    }
  }
}
