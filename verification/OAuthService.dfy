/**
 * The token endpoint, one handler at a time
 * (backend/src/modules/mcp-oauth/mcp-oauth-token.service.ts).
 * Overlapping handlers are the subject of module OAuthRuns.
 */
module OAuthService {
  import opened OAuthStore
  import OAuthCode

  datatype Error =
    | InvalidRequest
    | UnknownCode | CodeReplayed | CodeExpired | WrongClient | WrongRedirect | WrongMethod | WrongVerifier
    | UnknownRefresh | RefreshRevoked | RefreshExpired

  datatype Result<T> = Ok(value: T) | Err(error: Error)

  datatype TokenResponse = TokenResponse(accessToken: string, refreshToken: string, expiresIn: int, scope: string)

  datatype AccessGrant = AccessGrant(tokenId: Id, grant: Grant, expiresAt: int)

  /** Body fields as `str` leaves them: absent and empty are the same. */
  datatype ExchangeRequest = ExchangeRequest(code: Option<string>, verifier: Option<string>,
                                             clientId: Option<string>, redirectUri: Option<string>)
  datatype RefreshRequest = RefreshRequest(refreshToken: Option<string>, clientId: Option<string>)

  /** BASE64URL(SHA256(code_verifier)), section 4.6 of RFC 7636. */
  function PkceS256Challenge(verifier: string): Digest { Sha256(verifier) }

  /** The checks made before a code is consumed. */
  function CodeProblem(code: CodeRow, req: ExchangeRequest, now: int): Option<Error> {
    if code.expiresAt <= now then Some(CodeExpired)
    else if Some(code.grant.clientId) != req.clientId then Some(WrongClient)
    else if Some(code.redirectUri) != req.redirectUri then Some(WrongRedirect)
    else if code.codeChallengeMethod != "S256" then Some(WrongMethod)
    else if req.verifier.None? || PkceS256Challenge(req.verifier.value) != code.codeChallenge then Some(WrongVerifier)
    else None
  }

  function RefreshProblem(row: TokenRow, req: RefreshRequest, now: int): Option<Error> {
    if row.expiresAt <= now then Some(RefreshExpired)
    else if Some(row.grant.clientId) != req.clientId then Some(WrongClient)
    else None
  }

  function ResponseFor(grant: Grant, f: Fresh): TokenResponse {
    TokenResponse(f.access, f.refresh, ACCESS_TTL_MS / 1000, OAuthCode.Join(grant.scopes))
  }

  predicate Presents(tokens: Tokens, id: Id, raw: string, kind: Kind) {
    id in tokens && tokens[id].tokenHash == Sha256(raw) && tokens[id].kind == kind
  }

  ghost predicate UniqueHashes(codes: Codes, tokens: Tokens) {
    && (forall a, b :: a in codes && b in codes && codes[a].codeHash == codes[b].codeHash ==> a == b)
    && (forall a, b :: a in tokens && b in tokens && tokens[a].tokenHash == tokens[b].tokenHash ==> a == b)
  }

  /** Everything an exchange of the code in row `id` does, by what the row said. */
  ghost predicate ExchangeEffect(codes: Codes, tokens: Tokens, codes': Codes, tokens': Tokens, id: Id,
                                 req: ExchangeRequest, f: Fresh, now: int, r: Result<TokenResponse>)
    requires id in codes
  {
    var code := codes[id];
    if code.consumedAt.Some? then
      codes' == codes && tokens' == RevokeReach(tokens, id, now) && r == Err(CodeReplayed)
    else if CodeProblem(code, req, now).Some? then
      codes' == codes && tokens' == tokens && r == Err(CodeProblem(code, req, now).value)
    else
      && codes' == codes[id := code.(consumedAt := Some(now))]
      && tokens' == Mint(tokens, code.grant, id, f, now)
      && r == Ok(ResponseFor(code.grant, f))
  }

  ghost predicate RefreshEffect(tokens: Tokens, tokens': Tokens, id: Id, req: RefreshRequest, f: Fresh, now: int,
                                r: Result<TokenResponse>)
    requires id in tokens
  {
    var row := tokens[id];
    if row.revokedAt.Some? then
      && r == Err(RefreshRevoked)
      && (exists root :: Descends(tokens, root, id) && tokens' == RevokeReach(tokens, root, now))
      && (ToppedChain(tokens, id) ==> tokens' == RevokeReach(tokens, Top(tokens, id, MAX_CHAIN_DEPTH), now))
    else if RefreshProblem(row, req, now).Some? then
      tokens' == tokens && r == Err(RefreshProblem(row, req, now).value)
    else
      && tokens' == Mint(tokens[id := row.(revokedAt := Some(now))], row.grant, id, f, now)
      && r == Ok(ResponseFor(row.grant, f))
  }

  /**
   * What the client holds is what the table holds: an access token of one hour and a refresh
   * token of thirty days, unrevoked, for this grant and below this parent.
   */
  ghost predicate HandsOut(tokens: Tokens, r: TokenResponse, f: Fresh, grant: Grant, parentId: Id, now: int) {
    && f.accessId in tokens && f.refreshId in tokens
    && tokens[f.accessId] == TokenRow(Sha256(r.accessToken), ACCESS, grant, now + 3_600_000, None, Some(parentId))
    && tokens[f.refreshId] == TokenRow(Sha256(r.refreshToken), REFRESH, grant, now + 2_592_000_000, None, Some(parentId))
    && r.expiresIn == 3_600 && r.scope == OAuthCode.Join(grant.scopes)
  }

  /** The parent chain of `id` ends. */
  ghost predicate ToppedChain(tokens: Tokens, id: Id) {
    exists h: nat :: Anc(tokens, id, h).Some? && IsTop(tokens, Anc(tokens, id, h).value)
  }

  class McpOAuthTokenService {
    var codes: Codes
    var tokens: Tokens

    ghost predicate Valid()
      reads this
    {
      UniqueHashes(codes, tokens)
    }

    constructor (codes: Codes, tokens: Tokens)
      requires UniqueHashes(codes, tokens)
      ensures Valid() && this.codes == codes && this.tokens == tokens
    {
      this.codes := codes;
      this.tokens := tokens;
    }

    /** A raw access token resolves exactly while its row is neither revoked nor expired. */
    method VerifyAccessToken(raw: string, now: int) returns (r: Option<AccessGrant>)
      requires Valid()
      ensures r.Some? <==> exists id :: id in tokens && tokens[id].tokenHash == Sha256(raw) && tokens[id].kind == ACCESS
                                        && tokens[id].revokedAt.None? && now < tokens[id].expiresAt
      ensures r.Some? ==>
                && r.value.tokenId in tokens && tokens[r.value.tokenId].tokenHash == Sha256(raw)
                && tokens[r.value.tokenId].kind == ACCESS && tokens[r.value.tokenId].revokedAt.None?
                && r.value.grant == tokens[r.value.tokenId].grant
                && now < r.value.expiresAt == tokens[r.value.tokenId].expiresAt
    {
      if id :| id in tokens && tokens[id].tokenHash == Sha256(raw) && tokens[id].kind == ACCESS {
        var row := tokens[id];
        if row.revokedAt.Some? || row.expiresAt <= now {
          return None;
        }
        return Some(AccessGrant(id, row.grant, row.expiresAt));
      }
      r := None;
    }

    method IssuePair(grant: Grant, parentId: Id, f: Fresh, now: int) returns (r: TokenResponse)
      modifies this
      ensures codes == old(codes) && tokens == Mint(old(tokens), grant, parentId, f, now)
      ensures r == ResponseFor(grant, f)
      ensures f.accessId != f.refreshId ==> HandsOut(tokens, r, f, grant, parentId, now)
      ensures forall id | id in old(tokens) && id != f.accessId && id != f.refreshId :: id in tokens && tokens[id] == old(tokens)[id]
    {
      tokens := tokens[f.accessId :=
        TokenRow(Sha256(f.access), ACCESS, grant, now + ACCESS_TTL_MS, None, Some(parentId))];
      tokens := tokens[f.refreshId :=
        TokenRow(Sha256(f.refresh), REFRESH, grant, now + REFRESH_TTL_MS, None, Some(parentId))];
      r := ResponseFor(grant, f);
    }

    /** Breadth first over `parentId`, then one bulk revocation. */
    method RevokeFrom(rootId: Id, now: int)
      modifies this
      ensures codes == old(codes) && tokens == RevokeReach(old(tokens), rootId, now)
    {
      var ids, frontier, depth := {rootId}, {rootId}, 0;
      SearchStarts(tokens, tokens, rootId);
      while frontier != {} && depth < MAX_CHAIN_DEPTH
        invariant SearchSound(tokens, tokens, Down(rootId, ids, frontier, depth))
        invariant tokens == old(tokens) && codes == old(codes)
        decreases MAX_CHAIN_DEPTH - depth
      {
        DownStepSound(tokens, tokens, Down(rootId, ids, frontier, depth));
        var children := set id | id in tokens && tokens[id].parentId.Some? && tokens[id].parentId.value in frontier;
        frontier := children - ids;
        ids := ids + frontier;
        depth := depth + 1;
      }
      DownStepSound(tokens, tokens, Down(rootId, ids, frontier, depth));
      SearchRevokesReach(tokens, Bulk(rootId, ids), now);
      tokens := map id | id in tokens ::
        if id in ids && tokens[id].revokedAt.None? then tokens[id].(revokedAt := Some(now)) else tokens[id];
    }

    /** Up to the root of the presented token's chain, then down again. */
    method RevokeFamily(tokenId: Id, now: int)
      requires tokenId in tokens
      modifies this
      ensures codes == old(codes)
      ensures exists root :: Descends(old(tokens), root, tokenId) && tokens == RevokeReach(old(tokens), root, now)
      ensures ToppedChain(old(tokens), tokenId) ==>
                tokens == RevokeReach(old(tokens), Top(old(tokens), tokenId, MAX_CHAIN_DEPTH), now)
    {
      var rootId, parentId, seen, depth := tokenId, tokens[tokenId].parentId, {tokenId}, 0;
      assert Anc(tokens, tokenId, 0) == Some(tokenId);
      while parentId.Some? && depth < MAX_CHAIN_DEPTH
        invariant tokens == old(tokens) && codes == old(codes)
        invariant WalkSound(tokens, tokens, tokenId, Up(rootId, parentId, seen, depth))
        decreases MAX_CHAIN_DEPTH - depth
      {
        ghost var w := Up(rootId, parentId, seen, depth);
        var p := parentId.value;
        ParentOf(tokens, tokenId, w);
        UpEnds(tokens, tokenId, w);
        if p in seen {
          break;
        }
        seen := seen + {p};
        if p !in tokens {
          rootId := p;
          break;
        }
        SeenGrows(tokens, tokenId, w);
        rootId, parentId, depth := p, tokens[p].parentId, depth + 1;
      }
      if parentId.None? || depth >= MAX_CHAIN_DEPTH {
        UpEnds(tokens, tokenId, Up(rootId, parentId, seen, depth));
      }
      assert Descends(tokens, rootId, tokenId);
      RevokeFrom(rootId, now);
    }

    /**
     * The second half of an exchange, on the tables as they are by then: the claim is gated on
     * the code still being unconsumed, and an exchange that lost it counts as a replay.
     */
    method ClaimAndMint(id: Id, grant: Grant, f: Fresh, now: int) returns (r: Result<TokenResponse>)
      requires id in codes
      modifies this
      ensures var code := old(codes)[id];
              if code.consumedAt.Some? then
                codes == old(codes) && tokens == RevokeReach(old(tokens), id, now) && r == Err(CodeReplayed)
              else
                codes == old(codes)[id := code.(consumedAt := Some(now))]
                && tokens == Mint(old(tokens), grant, id, f, now) && r == Ok(ResponseFor(grant, f))
    {
      var count := 0;
      if codes[id].consumedAt.None? {
        codes := codes[id := codes[id].(consumedAt := Some(now))];
        count := 1;
      }
      if count == 0 {
        RevokeFrom(id, now);
        return Err(CodeReplayed);
      }
      var response := IssuePair(grant, id, f, now);
      r := Ok(response);
    }

    /** A code is redeemed once; a second presentation revokes what was derived from it. */
    method ExchangeCode(req: ExchangeRequest, f: Fresh, now: int) returns (r: Result<TokenResponse>)
      requires Valid() && IsFresh(f, codes, tokens)
      modifies this
      ensures req.code.None? || req.verifier.None? ==> r == Err(InvalidRequest)
      ensures forall id | req.code.Some? && req.verifier.Some?
                          && id in old(codes) && old(codes)[id].codeHash == Sha256(req.code.value) ::
                ExchangeEffect(old(codes), old(tokens), codes, tokens, id, req, f, now, r)
      ensures req.code.Some? && req.verifier.Some?
              && (forall id | id in old(codes) :: old(codes)[id].codeHash != Sha256(req.code.value))
              ==> r == Err(UnknownCode)
      ensures r in {Err(InvalidRequest), Err(UnknownCode)} ==> codes == old(codes) && tokens == old(tokens)
      ensures r.Ok? <==> req.code.Some? && req.verifier.Some? && exists id ::
                           && id in old(codes)
                           && old(codes)[id].codeHash == Sha256(req.code.value) && old(codes)[id].consumedAt.None?
                           && now < old(codes)[id].expiresAt && req.clientId == Some(old(codes)[id].grant.clientId)
                           && req.redirectUri == Some(old(codes)[id].redirectUri)
                           && old(codes)[id].codeChallengeMethod == "S256"
                           && old(codes)[id].codeChallenge == Sha256(req.verifier.value)
      ensures r.Ok? ==> exists id ::
                          && id in old(codes) && old(codes)[id].codeHash == Sha256(req.code.value)
                          && codes == old(codes)[id := old(codes)[id].(consumedAt := Some(now))]
                          && HandsOut(tokens, r.value, f, old(codes)[id].grant, id, now)
      ensures r.Err? ==> codes == old(codes)
    {
      if req.code.None? || req.verifier.None? {
        return Err(InvalidRequest);
      }
      if id :| id in codes && codes[id].codeHash == Sha256(req.code.value) {
        var code := codes[id];
        assert forall k | k in codes && codes[k].codeHash == Sha256(req.code.value) :: k == id;
        if code.consumedAt.Some? {
          RevokeFrom(id, now);
          return Err(CodeReplayed);
        }
        var problem := CodeProblem(code, req, now);
        if problem.Some? {
          return Err(problem.value);
        }
        r := ClaimAndMint(id, code.grant, f, now);
        return;
      }
      r := Err(UnknownCode);
    }

    /** A refresh token rotates; a second presentation revokes its family. */
    method Refresh(req: RefreshRequest, f: Fresh, now: int) returns (r: Result<TokenResponse>)
      requires Valid() && IsFresh(f, codes, tokens)
      modifies this
      ensures codes == old(codes)
      ensures req.refreshToken.None? ==> r == Err(InvalidRequest)
      ensures forall id | req.refreshToken.Some? && Presents(old(tokens), id, req.refreshToken.value, REFRESH) ::
                RefreshEffect(old(tokens), tokens, id, req, f, now, r)
      ensures req.refreshToken.Some?
              && (forall id :: !Presents(old(tokens), id, req.refreshToken.value, REFRESH))
              ==> r == Err(UnknownRefresh)
      ensures r in {Err(InvalidRequest), Err(UnknownRefresh)} ==> tokens == old(tokens)
      ensures r.Ok? <==> req.refreshToken.Some? && exists id ::
                           && id in old(tokens)
                           && old(tokens)[id].tokenHash == Sha256(req.refreshToken.value) && old(tokens)[id].kind == REFRESH
                           && old(tokens)[id].revokedAt.None? && now < old(tokens)[id].expiresAt
                           && req.clientId == Some(old(tokens)[id].grant.clientId)
      ensures r.Ok? ==> exists id ::
                          && id in old(tokens) && old(tokens)[id].tokenHash == Sha256(req.refreshToken.value)
                          && id in tokens && tokens[id] == old(tokens)[id].(revokedAt := Some(now))
                          && HandsOut(tokens, r.value, f, old(tokens)[id].grant, id, now)
    {
      if req.refreshToken.None? {
        return Err(InvalidRequest);
      }
      if id :| id in tokens && tokens[id].tokenHash == Sha256(req.refreshToken.value) && tokens[id].kind == REFRESH {
        assert Presents(tokens, id, req.refreshToken.value, REFRESH);
        assert forall k | k in tokens && tokens[k].tokenHash == Sha256(req.refreshToken.value) :: k == id;
        var row := tokens[id];
        if row.revokedAt.Some? {
          RevokeFamily(id, now);
          return Err(RefreshRevoked);
        }
        var problem := RefreshProblem(row, req, now);
        if problem.Some? {
          return Err(problem.value);
        }
        tokens := tokens[id := row.(revokedAt := Some(now))];
        var response := IssuePair(row.grant, id, f, now);
        return Ok(response);
      }
      r := Err(UnknownRefresh);
    }
  }

  lemma ParentOf(tokens: Tokens, origin: Id, w: Walk)
    requires w.Up? && WalkSound(tokens, tokens, origin, w) && w.parentId.Some?
    ensures Anc(tokens, origin, w.depth + 1) == w.parentId
  {
    AncCompose(tokens, origin, w.depth, 1);
    assert Anc(tokens, w.rootId, 1) == Anc(tokens, w.parentId.value, 0);
  }

  lemma SeenGrows(tokens: Tokens, origin: Id, w: Walk)
    requires w.Up? && WalkSound(tokens, tokens, origin, w) && w.parentId.Some?
    ensures forall id | id in w.seen + {w.parentId.value} ::
              Within(tokens, id, origin, w.depth + 1)
  {
    ParentOf(tokens, origin, w);
    forall id | id in w.seen + {w.parentId.value}
      ensures Within(tokens, id, origin, w.depth + 1)
    {
      if id in w.seen {
        var i: nat :| i <= w.depth && Anc(tokens, origin, i) == Some(id);
      }
    }
  }

  /** On a chain that ends, the up-walk stops at `Top` and never because of a repeated row. */
  lemma UpEnds(tokens: Tokens, origin: Id, w: Walk)
    requires w.Up? && WalkSound(tokens, tokens, origin, w)
    ensures ToppedChain(tokens, origin) ==>
              && (w.parentId.None? || w.depth >= MAX_CHAIN_DEPTH ==> w.rootId == Top(tokens, origin, MAX_CHAIN_DEPTH))
              && (w.parentId.Some? ==> w.parentId.value !in w.seen)
              && (w.parentId.Some? && w.depth < MAX_CHAIN_DEPTH && w.parentId.value !in tokens ==>
                    w.parentId.value == Top(tokens, origin, MAX_CHAIN_DEPTH))
  {
    if ToppedChain(tokens, origin) {
      var h: nat :| Anc(tokens, origin, h).Some? && IsTop(tokens, Anc(tokens, origin, h).value);
      NextParent(tokens, origin, w, h);
      TopIsAncestor(tokens, origin, h, MAX_CHAIN_DEPTH);
      if w.parentId.Some? && w.parentId.value !in tokens {
        TopIsUnique(tokens, origin, h, w.depth + 1);
      }
    }
  }
}
