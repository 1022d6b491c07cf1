/** What the authorization server guarantees in every run, and what overlap can break. */
module OAuthTheorems {
  import opened OAuthStore
  import OAuthCode
  import opened OAuthService
  import opened OAuthRuns

  // ------------------------------------------------------ under any overlap

  /**
   * Every token that exists hangs below one consented, consumed code, carries that code's
   * grant, and its scopes were both requested and held when the code was granted.
   */
  lemma TokensComeFromConsent(steps: seq<Step>, t: Id)
    requires t in Exec(INIT, steps).tokens
    ensures var s := Exec(INIT, steps);
            exists c: Id, n: nat ::
              && c in s.codes && c !in s.tokens && n >= 1 && Anc(s.tokens, t, n) == Some(c)
              && s.tokens[t].grant == s.codes[c].grant
              && c in s.consents
              && OAuthCode.Capped(s.tokens[t].grant.scopes, s.consents[c].requested, s.consents[c].held)
              && OAuthCode.ParseScopes(Some(OAuthCode.Join(s.tokens[t].grant.scopes)))
                 == OAuthCode.Ok(s.tokens[t].grant.scopes)
  {
    var s := Exec(INIT, steps);
    Reachable(steps);
    ChainToRoot(s.tokens, s.lineage, s.codes.Keys, t);
    var c, n := s.lineage[t].root, s.lineage[t].generation;
    assert n != 0;
    OAuthCode.ScopeRoundTrip(s.codes[c].grant.scopes);
  }

  /** At most one access and one refresh token are ever minted directly from a code. */
  lemma OnePairPerCode(steps: seq<Step>, c: Id, t: Id, u: Id)
    requires var s := Exec(INIT, steps);
             && c in s.codes && t in s.tokens && u in s.tokens
             && s.tokens[t].parentId == Some(c) && s.tokens[u].parentId == Some(c)
    ensures var s := Exec(INIT, steps);
            s.codes[c].consumedAt.Some? && (s.tokens[t].kind == s.tokens[u].kind ==> t == u)
  {
    Reachable(steps);
  }

  /** A revoked token stays in the table, revoked, with its owner and scopes. */
  lemma RevocationIsForever(steps: seq<Step>, more: seq<Step>, t: Id)
    requires t in Exec(INIT, steps).tokens && Exec(INIT, steps).tokens[t].revokedAt.Some?
    ensures var later := Exec(Exec(INIT, steps), more);
            && t in later.tokens && later.tokens[t].revokedAt.Some?
            && later.tokens[t].grant == Exec(INIT, steps).tokens[t].grant
  {
    Reachable(steps);
    RunKeepsInv(Exec(INIT, steps), more);
  }

  /**
   * However many handlers overlap: when a replay handler issues its bulk revocation, every
   * row its family had when the replay was read is dead, down to 200 generations, rows of
   * other families are untouched, and stamps that were there are kept.
   */
  lemma ReplayKillsFamily(steps: seq<Step>, pid: Pid, now: int, c: Id, m: nat)
    requires var s := Exec(INIT, steps);
             && pid in s.handlers && s.handlers[pid].Walking? && s.handlers[pid].walk.Bulk? && c in s.codes
             && Anc(s.handlers[pid].start, s.handlers[pid].origin, m) == Some(c) && m <= 200
    ensures var s := Exec(INIT, steps);
            KillsFamily(s.handlers[pid].start, s.tokens, Apply(s, WalkOn(pid, now)).tokens, c)
  {
    Reachable(steps);
    WalkIsForFamily(Exec(INIT, steps), pid, c, m);
    BulkStep(Exec(INIT, steps), pid, now);
  }

  lemma BulkStep(s: State, pid: Pid, now: int)
    requires pid in s.handlers && s.handlers[pid].Walking? && s.handlers[pid].walk.Bulk?
    requires SearchSound(s.handlers[pid].start, s.tokens, s.handlers[pid].walk)
    ensures KillsFamily(s.handlers[pid].start, s.tokens, Apply(s, WalkOn(pid, now)).tokens, s.handlers[pid].walk.rootId)
  {
    BulkKills(s.handlers[pid].start, s.tokens, s.handlers[pid].walk, now);
    assert Apply(s, WalkOn(pid, now)).tokens == RevokeAll(s.tokens, s.handlers[pid].walk.ids, now);
  }

  /** From at most 200 generations below a code, the bulk revocation is for that code's family. */
  lemma WalkIsForFamily(s: State, pid: Pid, c: Id, m: nat)
    requires Inv(s) && pid in s.handlers && s.handlers[pid].Walking? && s.handlers[pid].walk.Bulk? && c in s.codes
    requires Anc(s.handlers[pid].start, s.handlers[pid].origin, m) == Some(c) && m <= 200
    ensures SearchSound(s.handlers[pid].start, s.tokens, s.handlers[pid].walk) && s.handlers[pid].walk.rootId == c
  {
    var h := s.handlers[pid];
    assert HandlerOk(s, h);
    CodesAreNoTokens(s.tokens, s.lineage, s.codes.Keys);
    TopIsAncestor(h.start, h.origin, m, MAX_CHAIN_DEPTH);
  }

  ghost predicate KillsFamily(start: Tokens, before: Tokens, after: Tokens, c: Id) {
    && (forall t | t in start && Within(start, c, t, 200) :: t in after && after[t].revokedAt.Some?)
    && after.Keys == before.Keys
    && (forall t | t in before && !Descends(before, c, t) :: after[t] == before[t])
    && (forall t | t in before && before[t].revokedAt.Some? :: after[t] == before[t])
  }

  lemma BulkKills(start: Tokens, before: Tokens, w: Walk, now: int)
    requires w.Bulk? && SearchSound(start, before, w)
    ensures KillsFamily(start, before, RevokeAll(before, w.ids, now), w.rootId)
  {
    forall t | t in w.ids ensures Descends(before, w.rootId, t) {
      assert Within(before, w.rootId, t, MAX_CHAIN_DEPTH);
    }
  }

  // --------------------------------------------------- who gets through

  /**
   * A handler gets to claim a code exactly when, at its read, the presented secret is the code's,
   * the code is unconsumed and unexpired, client and redirect are its own, and the verifier
   * hashes to its S256 challenge. What is refused changes nothing.
   */
  lemma ReadCodeClaimsIff(steps: seq<Step>, pid: Pid, c: Id, req: ExchangeRequest, now: int)
    ensures var s := Exec(INIT, steps);
            var s' := Apply(s, ReadCode(pid, c, req, now));
            && (s' != s && pid in s'.handlers && s'.handlers[pid].Claiming? <==>
                  && pid !in s.handlers && c in s.codes && req.code == Some(s.codes[c].codeHash.secret)
                  && s.codes[c].consumedAt.None? && now < s.codes[c].expiresAt
                  && req.clientId == Some(s.codes[c].grant.clientId) && req.redirectUri == Some(s.codes[c].redirectUri)
                  && s.codes[c].codeChallengeMethod == "S256"
                  && exists v :: req.verifier == Some(v) && Sha256(v) == s.codes[c].codeChallenge)
            && s'.codes == s.codes && s'.tokens == s.tokens
            && (s' != s ==> pid !in s.handlers && s'.handlers - {pid} == s.handlers
                            && (s'.handlers[pid] == Claiming(c, s.codes[c].grant)
                                || (s.codes[c].consumedAt.Some? && s'.handlers[pid].Walking?)))
  {
    var s := Exec(INIT, steps);
    var s' := Apply(s, ReadCode(pid, c, req, now));
    if s' != s { assert s'.handlers - {pid} == s.handlers; }
  }

  /**
   * A handler gets to rotate exactly when the presented secret is that of an unrevoked, unexpired
   * refresh token of its own client; a revoked one sends it after the family instead.
   */
  lemma ReadRefreshRotatesIff(steps: seq<Step>, pid: Pid, t: Id, req: RefreshRequest, now: int)
    ensures var s := Exec(INIT, steps);
            var s' := Apply(s, ReadRefresh(pid, t, req, now));
            && (s' != s && pid in s'.handlers && s'.handlers[pid].Rotating? <==>
                  && pid !in s.handlers && t in s.tokens && req.refreshToken == Some(s.tokens[t].tokenHash.secret)
                  && s.tokens[t].kind == REFRESH && s.tokens[t].revokedAt.None? && now < s.tokens[t].expiresAt
                  && req.clientId == Some(s.tokens[t].grant.clientId))
            && (s' != s && pid in s'.handlers && s'.handlers[pid].Walking? <==>
                  && pid !in s.handlers && t in s.tokens && req.refreshToken == Some(s.tokens[t].tokenHash.secret)
                  && s.tokens[t].kind == REFRESH && s.tokens[t].revokedAt.Some?)
            && s'.codes == s.codes && s'.tokens == s.tokens
  {
  }

  /** Disconnecting a client from a workspace revokes its unrevoked tokens there, and no other row. */
  lemma DisconnectRevokesExactly(s: State, workspaceId: string, clientId: string, now: int)
    ensures var s' := Apply(s, Disconnect(workspaceId, clientId, now));
            && s'.tokens.Keys == s.tokens.Keys && s'.codes == s.codes && s'.handlers == s.handlers
            && forall t | t in s.tokens :: s'.tokens[t] ==
                 if s.tokens[t].grant.workspaceId == workspaceId && s.tokens[t].grant.clientId == clientId
                    && s.tokens[t].revokedAt.None?
                 then s.tokens[t].(revokedAt := Some(now)) else s.tokens[t]
  {
  }

  // ------------------------------------------------ handlers one at a time

  predicate Begins(step: Step) { step.ReadCode? || step.ReadRefresh? }

  /** A handler starts only when no other is under way; handlers may still die anywhere. */
  ghost predicate Serial(s: State, steps: seq<Step>)
    decreases |steps|
  {
    steps == [] || ((Begins(steps[0]) ==> s.handlers == map[]) && Serial(Apply(s, steps[0]), steps[1..]))
  }

  // ----------------------------------------------- atomic handlers are runs

  /** All steps of `steps` continue the walk of `pid`. */
  predicate OnlyWalks(steps: seq<Step>, pid: Pid, now: int) {
    forall i :: 0 <= i < |steps| ==> steps[i] == WalkOn(pid, now)
  }

  function Remaining(w: Walk): nat {
    match w
    case Up(_, _, _, depth) => 2 * MAX_CHAIN_DEPTH + 3 + (if depth <= MAX_CHAIN_DEPTH then MAX_CHAIN_DEPTH - depth else 0)
    case Down(_, _, _, depth) => 1 + (if depth <= MAX_CHAIN_DEPTH then MAX_CHAIN_DEPTH - depth else 0)
    case Bulk(_, _) => 0
  }

  /** Left alone, a walk ends and has revoked what one uninterrupted search reaches. */
  lemma {:induction false} WalkFinishes(s: State, pid: Pid, now: int) returns (steps: seq<Step>)
    requires Inv(s) && pid in s.handlers && s.handlers[pid].Walking? && s.handlers[pid].start == s.tokens
    ensures OnlyWalks(steps, pid, now)
    ensures var root := Top(s.tokens, s.handlers[pid].origin, MAX_CHAIN_DEPTH);
            Exec(s, steps) == Without(s.(tokens := RevokeReach(s.tokens, root, now)), pid)
    decreases Remaining(s.handlers[pid].walk)
  {
    var h := s.handlers[pid];
    var step := WalkOn(pid, now);
    var s' := Apply(s, step);
    if h.walk.Bulk? {
      LastWalkStep(s, pid, now);
      assert Exec(s', []) == s';
      steps := [step];
    } else {
      StepKeepsInv(s, step);
      WalkGoesOn(s, pid, now);
      var rest := WalkFinishes(s', pid, now);
      steps := [step] + rest;
      First(s, step, rest);
    }
  }

  lemma WalkGoesOn(s: State, pid: Pid, now: int)
    requires pid in s.handlers && s.handlers[pid].Walking? && !s.handlers[pid].walk.Bulk?
    ensures var h := s.handlers[pid];
            var s' := Apply(s, WalkOn(pid, now));
            && s' == With(s, pid, h.(walk := WalkStep(s.tokens, h.walk))) && s'.handlers - {pid} == s.handlers - {pid}
            && Remaining(s'.handlers[pid].walk) < Remaining(h.walk)
  {
    StepsRemain(s.tokens, s.handlers[pid].walk);
  }

  lemma LastWalkStep(s: State, pid: Pid, now: int)
    requires Inv(s) && pid in s.handlers && s.handlers[pid].Walking? && s.handlers[pid].start == s.tokens
    requires s.handlers[pid].walk.Bulk?
    ensures var root := Top(s.tokens, s.handlers[pid].origin, MAX_CHAIN_DEPTH);
            Apply(s, WalkOn(pid, now)) == Without(s.(tokens := RevokeReach(s.tokens, root, now)), pid)
  {
    assert HandlerOk(s, s.handlers[pid]);
    SearchRevokesReach(s.tokens, s.handlers[pid].walk, now);
  }

  lemma StepsRemain(tokens: Tokens, w: Walk)
    requires !w.Bulk?
    ensures Remaining(WalkStep(tokens, w)) < Remaining(w)
  {
  }

  /** Steps that begin nothing are serial. */
  lemma {:induction false} WalksAreSerial(s: State, steps: seq<Step>, pid: Pid, now: int)
    requires OnlyWalks(steps, pid, now)
    ensures Serial(s, steps)
    decreases |steps|
  {
    if steps != [] { WalksAreSerial(Apply(s, steps[0]), steps[1..], pid, now); }
  }

  /** What the service does to the tables in one `exchangeCode` is a serial run of its queries. */
  lemma ExchangeIsARun(s: State, id: Id, req: ExchangeRequest, f: Fresh, now: int, codes': Codes, tokens': Tokens,
                       r: Result<TokenResponse>) returns (steps: seq<Step>)
    requires Inv(s) && s.handlers == map[] && IsFresh(f, s.codes, s.tokens)
    requires id in s.codes && req.code == Some(s.codes[id].codeHash.secret)
    requires ExchangeEffect(s.codes, s.tokens, codes', tokens', id, req, f, now, r)
    ensures Serial(s, steps)
    ensures Exec(s, steps).codes == codes' && Exec(s, steps).tokens == tokens' && Exec(s, steps).handlers == map[]
  {
    if s.codes[id].consumedAt.Some? {
      steps := CodeReplayIsARun(s, id, req, now);
    } else if CodeProblem(s.codes[id], req, now).Some? {
      steps := [];
    } else {
      steps := [ReadCode(0, id, req, now), Claim(0, now), MintPair(0, f, now)];
      ThreeSteps(s, steps);
      FirstExchange(s, id, req, 0, f, now);
    }
  }

  lemma CodeReplayIsARun(s: State, id: Id, req: ExchangeRequest, now: int) returns (steps: seq<Step>)
    requires Inv(s) && s.handlers == map[]
    requires id in s.codes && req.code == Some(s.codes[id].codeHash.secret) && s.codes[id].consumedAt.Some?
    ensures Serial(s, steps) && Exec(s, steps) == s.(tokens := RevokeReach(s.tokens, id, now))
  {
    var read := ReadCode(0, id, req, now);
    StartsWalk(s, read, SearchBelow(id), id);
    steps := ReadThenWalk(s, read, now);
    assert Top(s.tokens, id, MAX_CHAIN_DEPTH) == id;
  }

  lemma StartsWalk(s: State, read: Step, w: Walk, origin: Id)
    requires s.handlers == map[]
    requires (read.ReadCode? || read.ReadRefresh?) && Apply(s, read) == With(s, read.pid, Walking(w, s.tokens, origin))
    ensures read.pid in Apply(s, read).handlers && Apply(s, read).handlers == map[read.pid := Walking(w, s.tokens, origin)]
  {
  }

  /** A replay read followed by its walk is a serial run that ends with the revocation. */
  lemma ReadThenWalk(s: State, read: Step, now: int) returns (steps: seq<Step>)
    requires Inv(s) && s.handlers == map[] && (read.ReadCode? || read.ReadRefresh?)
    requires var s1 := Apply(s, read);
             && read.pid in s1.handlers && s1.handlers[read.pid].Walking? && s1.handlers[read.pid].start == s.tokens
             && s1 == With(s, read.pid, s1.handlers[read.pid])
    ensures Serial(s, steps)
    ensures var root := Top(s.tokens, Apply(s, read).handlers[read.pid].origin, MAX_CHAIN_DEPTH);
            Exec(s, steps) == s.(tokens := RevokeReach(s.tokens, root, now))
  {
    var s1 := Apply(s, read);
    StepKeepsInv(s, read);
    var walks := WalkFinishes(s1, read.pid, now);
    WalksAreSerial(s1, walks, read.pid, now);
    steps := [read] + walks;
    assert steps[1..] == walks;
    assert s1.handlers - {read.pid} == map[];
  }

  /** Read, claim and mint of an unclaimed code, as one effect. */
  lemma FirstExchange(s: State, id: Id, req: ExchangeRequest, p: Pid, f: Fresh, now: int)
    requires p !in s.handlers && IsFresh(f, s.codes, s.tokens)
    requires id in s.codes && req.code == Some(s.codes[id].codeHash.secret)
    requires s.codes[id].consumedAt.None? && CodeProblem(s.codes[id], req, now).None?
    ensures var claimed := Apply(Apply(s, ReadCode(p, id, req, now)), Claim(p, now));
            var minted := Apply(claimed, MintPair(p, f, now));
            && claimed.tokens == s.tokens && claimed.codes == s.codes[id := s.codes[id].(consumedAt := Some(now))]
            && claimed.handlers == s.handlers[p := Minting(id, s.codes[id].grant)]
            && minted.codes == claimed.codes && minted.tokens == Mint(s.tokens, s.codes[id].grant, id, f, now)
            && minted.handlers == s.handlers
  {
    var s1 := Apply(s, ReadCode(p, id, req, now));
    assert s1 == With(s, p, Claiming(id, s.codes[id].grant));
    var s2 := Apply(s1, Claim(p, now));
    Claimed(s1, p, now);
    assert s2.handlers - {p} == s.handlers;
  }

  lemma Claimed(s: State, p: Pid, now: int)
    requires p in s.handlers && s.handlers[p].Claiming? && s.handlers[p].codeId in s.codes
    requires s.codes[s.handlers[p].codeId].consumedAt.None?
    ensures var s' := Apply(s, Claim(p, now));
            var h := s.handlers[p];
            && s'.tokens == s.tokens && s'.handlers == s.handlers[p := Minting(h.codeId, h.grant)]
            && s'.codes == s.codes[h.codeId := s.codes[h.codeId].(consumedAt := Some(now))]
  {
  }

  lemma ThreeSteps(s: State, steps: seq<Step>)
    requires |steps| == 3 && !Begins(steps[1]) && !Begins(steps[2])
    ensures Exec(s, steps) == Apply(Apply(Apply(s, steps[0]), steps[1]), steps[2])
    ensures s.handlers == map[] ==> Serial(s, steps)
  {
    assert steps[1..][0] == steps[1] && steps[1..][1..] == steps[2..];
    assert steps[2..][0] == steps[2] && steps[2..][1..] == [];
    var s1 := Apply(s, steps[0]);
    var s2 := Apply(s1, steps[1]);
    assert Exec(s2, steps[2..]) == Exec(Apply(s2, steps[2]), []);
    assert Exec(s1, steps[1..]) == Exec(s2, steps[2..]);
    assert Serial(Apply(s2, steps[2]), []);
    assert Serial(s2, steps[2..]);
    assert Serial(s1, steps[1..]);
  }

  /** The same for one `refresh`. */
  lemma RefreshIsARun(s: State, id: Id, req: RefreshRequest, f: Fresh, now: int, tokens': Tokens,
                      r: Result<TokenResponse>) returns (steps: seq<Step>)
    requires Inv(s) && s.handlers == map[] && IsFresh(f, s.codes, s.tokens)
    requires req.refreshToken.Some? && Presents(s.tokens, id, req.refreshToken.value, REFRESH)
    requires RefreshEffect(s.tokens, tokens', id, req, f, now, r)
    ensures Serial(s, steps)
    ensures Exec(s, steps).codes == s.codes && Exec(s, steps).tokens == tokens' && Exec(s, steps).handlers == map[]
  {
    var read := ReadRefresh(0, id, req, now);
    if s.tokens[id].revokedAt.Some? {
      steps := RefreshReplayIsARun(s, id, req, now);
    } else if RefreshProblem(s.tokens[id], req, now).Some? {
      steps := [];
    } else {
      steps := [read, RevokePresented(0, now), MintPair(0, f, now)];
      ThreeSteps(s, steps);
      Rotation(s, id, req, 0, f, now);
    }
  }

  lemma RefreshReplayIsARun(s: State, id: Id, req: RefreshRequest, now: int) returns (steps: seq<Step>)
    requires Inv(s) && s.handlers == map[]
    requires req.refreshToken.Some? && Presents(s.tokens, id, req.refreshToken.value, REFRESH)
    requires s.tokens[id].revokedAt.Some?
    ensures Serial(s, steps) && ToppedChain(s.tokens, id)
    ensures Exec(s, steps) == s.(tokens := RevokeReach(s.tokens, Top(s.tokens, id, MAX_CHAIN_DEPTH), now))
  {
    ChainToRoot(s.tokens, s.lineage, s.codes.Keys, id);
    var read := ReadRefresh(0, id, req, now);
    StartsWalk(s, read, Up(id, s.tokens[id].parentId, {id}, 0), id);
    steps := ReadThenWalk(s, read, now);
  }

  /** Read, revoke and mint of a live refresh token, as one effect. */
  lemma Rotation(s: State, id: Id, req: RefreshRequest, p: Pid, f: Fresh, now: int)
    requires p !in s.handlers && IsFresh(f, s.codes, s.tokens)
    requires req.refreshToken.Some? && Presents(s.tokens, id, req.refreshToken.value, REFRESH)
    requires s.tokens[id].revokedAt.None? && RefreshProblem(s.tokens[id], req, now).None?
    ensures var revoked := Apply(Apply(s, ReadRefresh(p, id, req, now)), RevokePresented(p, now));
            var minted := Apply(revoked, MintPair(p, f, now));
            var row := s.tokens[id];
            && minted.codes == s.codes && minted.handlers == s.handlers
            && minted.tokens == Mint(s.tokens[id := row.(revokedAt := Some(now))], row.grant, id, f, now)
  {
    var s1 := Apply(s, ReadRefresh(p, id, req, now));
    assert s1 == With(s, p, Rotating(id, s.tokens[id].grant));
    var s2 := Apply(s1, RevokePresented(p, now));
    assert s2.handlers == s.handlers[p := Minting(id, s.tokens[id].grant)];
    assert s2.tokens.Keys == s.tokens.Keys && s2.codes == s.codes;
    assert s2.handlers - {p} == s.handlers;
  }

  // ------------------------------------------------- what overlap can break

  /**
   * The rotation writes without a guard: two handlers that both read a live refresh token
   * leave two live refresh tokens in its family.
   */
  lemma OverlappingRefreshesFork(s: State, id: Id, req: RefreshRequest, p: Pid, q: Pid, f: Fresh, g: Fresh, now: int)
    requires p != q && p !in s.handlers && q !in s.handlers
    requires IsFresh(f, s.codes, s.tokens) && IsFresh(g, s.codes, s.tokens)
    requires {f.accessId, f.refreshId} !! {g.accessId, g.refreshId}
    requires req.refreshToken.Some? && Presents(s.tokens, id, req.refreshToken.value, REFRESH)
    requires LiveRefresh(s.tokens, id) && RefreshProblem(s.tokens[id], req, now).None?
    ensures var read := Apply(Apply(s, ReadRefresh(p, id, req, now)), ReadRefresh(q, id, req, now));
            var revoked := Apply(Apply(read, RevokePresented(p, now)), RevokePresented(q, now));
            var minted := Apply(Apply(revoked, MintPair(p, f, now)), MintPair(q, g, now));
            && f.refreshId != g.refreshId
            && LiveRefresh(minted.tokens, f.refreshId) && LiveRefresh(minted.tokens, g.refreshId)
            && minted.tokens[f.refreshId].parentId == minted.tokens[g.refreshId].parentId == Some(id)
  {
    var grant := s.tokens[id].grant;
    var s1 := Apply(s, ReadRefresh(p, id, req, now));
    assert s1 == With(s, p, Rotating(id, grant));
    var s2 := Apply(s1, ReadRefresh(q, id, req, now));
    assert s2 == With(s1, q, Rotating(id, grant));
    BothMint(s2, id, grant, p, q, f, g, now);
  }

  lemma BothRevoke(s: State, id: Id, grant: Grant, p: Pid, q: Pid, now: int)
    requires p != q && p in s.handlers && q in s.handlers && id in s.tokens
    requires s.handlers[p] == s.handlers[q] == Rotating(id, grant)
    ensures var s2 := Apply(Apply(s, RevokePresented(p, now)), RevokePresented(q, now));
            && s2.tokens.Keys == s.tokens.Keys && s2.codes == s.codes
            && s2.handlers == s.handlers[p := Minting(id, grant)][q := Minting(id, grant)]
  {
    var s1 := Apply(s, RevokePresented(p, now));
    assert s1.tokens.Keys == s.tokens.Keys && s1.handlers == s.handlers[p := Minting(id, grant)];
  }

  /** Two handlers that are both about to rotate one token both get to mint below it. */
  lemma BothMint(s: State, id: Id, grant: Grant, p: Pid, q: Pid, f: Fresh, g: Fresh, now: int)
    requires p != q && p in s.handlers && q in s.handlers && id in s.tokens
    requires s.handlers[p] == s.handlers[q] == Rotating(id, grant)
    requires IsFresh(f, s.codes, s.tokens) && IsFresh(g, s.codes, s.tokens)
    requires {f.accessId, f.refreshId} !! {g.accessId, g.refreshId}
    ensures var revoked := Apply(Apply(s, RevokePresented(p, now)), RevokePresented(q, now));
            var minted := Apply(Apply(revoked, MintPair(p, f, now)), MintPair(q, g, now));
            minted.tokens == Mint(Mint(revoked.tokens, grant, id, f, now), grant, id, g, now)
  {
    var s2 := Apply(Apply(s, RevokePresented(p, now)), RevokePresented(q, now));
    BothRevoke(s, id, grant, p, q, now);
    var s3 := Apply(s2, MintPair(p, f, now));
    assert s3.tokens == Mint(s2.tokens, grant, id, f, now) && s3.codes == s.codes;
    assert IsFresh(g, s3.codes, s3.tokens);
  }

  /**
   * Claiming a code and minting from it are two writes: a replay that runs in between finds
   * nothing to revoke, and the pair minted afterwards lives.
   */
  lemma MintEscapesReplay(s: State, c: Id, req: ExchangeRequest, p: Pid, q: Pid, f: Fresh, now: int)
    requires Inv(s) && p != q && p !in s.handlers && q !in s.handlers && IsFresh(f, s.codes, s.tokens)
    requires c in s.codes && s.codes[c].consumedAt.None? && CodeProblem(s.codes[c], req, now).None?
    requires req.code == Some(s.codes[c].codeHash.secret)
    ensures var claimed := Apply(Apply(s, ReadCode(p, c, req, now)), Claim(p, now));
            var replayed := Apply(Apply(Apply(Apply(claimed, ReadCode(q, c, req, now)),
                                  WalkOn(q, now)), WalkOn(q, now)), WalkOn(q, now));
            var minted := Apply(replayed, MintPair(p, f, now));
            && replayed.handlers == s.handlers[p := Minting(c, s.codes[c].grant)]
            && LiveRefresh(minted.tokens, f.refreshId) && Live(minted.tokens, f.accessId)
            && minted.tokens[f.refreshId].parentId == Some(c)
  {
    FirstExchange(s, c, req, p, f, now);
    var s2 := Apply(Apply(s, ReadCode(p, c, req, now)), Claim(p, now));
    forall t | t in s.tokens ensures s.tokens[t].parentId != Some(c) {
    }
    assert s2.tokens == s.tokens && q !in s2.handlers && c in s2.codes && c !in s2.tokens;
    ReplayFindsNothing(s2, c, req, q, now);
  }

  /** A replay of a code without children walks down once and revokes nothing. */
  lemma ReplayFindsNothing(s: State, c: Id, req: ExchangeRequest, q: Pid, now: int)
    requires q !in s.handlers && c in s.codes && c !in s.tokens && s.codes[c].consumedAt.Some?
    requires req.code == Some(s.codes[c].codeHash.secret)
    requires forall t | t in s.tokens :: s.tokens[t].parentId != Some(c)
    ensures var replayed := Apply(Apply(Apply(Apply(s, ReadCode(q, c, req, now)),
                                  WalkOn(q, now)), WalkOn(q, now)), WalkOn(q, now));
            replayed == s
  {
    var s3 := Apply(s, ReadCode(q, c, req, now));
    assert s3 == With(s, q, Walking(SearchBelow(c), s.tokens, c));
    assert Children(s.tokens, {c}) == {};
    EmptySearch(s, q, c, now);
    assert RevokeAll(s.tokens, {c}, now) == s.tokens;
    assert s3.handlers - {q} == s.handlers;
  }

  lemma EmptySearch(s: State, q: Pid, c: Id, now: int)
    requires q !in s.handlers && Children(s.tokens, {c}) == {}
    ensures var s3 := With(s, q, Walking(SearchBelow(c), s.tokens, c));
            var s6 := Apply(Apply(Apply(s3, WalkOn(q, now)), WalkOn(q, now)), WalkOn(q, now));
            s6 == Without(s3.(tokens := RevokeAll(s.tokens, {c}, now)), q)
  {
    var s3 := With(s, q, Walking(SearchBelow(c), s.tokens, c));
    var w4 := WalkStep(s.tokens, SearchBelow(c));
    assert w4 == Down(c, {c}, {}, 1);
    var s4 := Apply(s3, WalkOn(q, now));
    assert s4 == With(s3, q, Walking(w4, s.tokens, c));
    var s5 := Apply(s4, WalkOn(q, now));
    assert s5 == With(s4, q, Walking(Bulk(c, {c}), s.tokens, c));
    assert s5.handlers - {q} == s3.handlers - {q};
  }
}
