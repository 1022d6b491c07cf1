/**
 * Overlapping handlers of the authorization server, as a state machine whose steps are
 * single reads and writes of the two tables. A run is any sequence of steps; a step that
 * is not enabled changes nothing, a crashed handler just stops.
 *
 * `consents` and `lineage` are history: what was requested and held when a code was
 * granted, and the code and generation each token belongs to.
 */
module OAuthRuns {
  import opened OAuthStore
  import OAuthCode
  import opened OAuthService

  type Pid = nat

  datatype Consent = Consent(requested: seq<string>, held: set<string>)
  datatype Line = Line(root: Id, generation: nat)

  /** Where a handler stands between two queries. */
  datatype Handler =
    | Claiming(codeId: Id, grant: Grant)
    | Rotating(tokenId: Id, grant: Grant)
    | Minting(parentId: Id, grant: Grant)
    | Walking(walk: Walk, start: Tokens, origin: Id)

  datatype State = State(codes: Codes, tokens: Tokens, handlers: map<Pid, Handler>,
                         consents: map<Id, Consent>, lineage: map<Id, Line>)

  datatype Step =
    | GrantCode(codeId: Id, authorize: OAuthCode.AuthorizeRequest, userId: string,
                members: OAuthCode.Memberships, workspaceId: string, chosen: seq<string>, secret: string, now: int)
    | ReadCode(pid: Pid, codeId: Id, exchange: ExchangeRequest, now: int)
    | Claim(pid: Pid, now: int)
    | ReadRefresh(pid: Pid, tokenId: Id, refresh: RefreshRequest, now: int)
    | RevokePresented(pid: Pid, now: int)
    | MintPair(pid: Pid, drawn: Fresh, now: int)
    | WalkOn(pid: Pid, now: int)
    | Crash(pid: Pid)
    | Disconnect(workspaceId: string, clientId: string, now: int)

  ghost const INIT: State := State(map[], map[], map[], map[], map[])

  ghost function With(s: State, pid: Pid, h: Handler): State { s.(handlers := s.handlers[pid := h]) }

  ghost function Without(s: State, pid: Pid): State { s.(handlers := s.handlers - {pid}) }

  ghost function Apply(s: State, step: Step): State {
    match step
    case GrantCode(codeId, authorize, userId, members, workspaceId, chosen, secret, now) =>
      var row := OAuthCode.GrantRow(authorize, userId, members, workspaceId, chosen, secret, now);
      if codeId in s.codes || codeId in s.tokens || row.Err? then s
      else s.(codes := s.codes[codeId := row.value],
              consents := s.consents[codeId := Consent(authorize.requestedScopes,
                                                       OAuthCode.HeldScopes(members[workspaceId]))])
    case ReadCode(pid, codeId, exchange, now) =>
      if pid in s.handlers || codeId !in s.codes || exchange.code.None?
         || s.codes[codeId].codeHash != Sha256(exchange.code.value) then s
      else if s.codes[codeId].consumedAt.Some? then With(s, pid, Walking(SearchBelow(codeId), s.tokens, codeId))
      else if CodeProblem(s.codes[codeId], exchange, now).Some? then s
      else With(s, pid, Claiming(codeId, s.codes[codeId].grant))
    case Claim(pid, now) =>
      if pid !in s.handlers || !s.handlers[pid].Claiming? || s.handlers[pid].codeId !in s.codes then s
      else
        var c := s.handlers[pid].codeId;
        if s.codes[c].consumedAt.Some? then With(s, pid, Walking(SearchBelow(c), s.tokens, c))
        else With(s.(codes := s.codes[c := s.codes[c].(consumedAt := Some(now))]), pid,
                  Minting(c, s.handlers[pid].grant))
    case ReadRefresh(pid, tokenId, refresh, now) =>
      if pid in s.handlers || refresh.refreshToken.None?
         || !Presents(s.tokens, tokenId, refresh.refreshToken.value, REFRESH) then s
      else
        var row := s.tokens[tokenId];
        if row.revokedAt.Some? then
          With(s, pid, Walking(Up(tokenId, row.parentId, {tokenId}, 0), s.tokens, tokenId))
        else if RefreshProblem(row, refresh, now).Some? then s
        else With(s, pid, Rotating(tokenId, row.grant))
    case RevokePresented(pid, now) =>
      if pid !in s.handlers || !s.handlers[pid].Rotating? || s.handlers[pid].tokenId !in s.tokens then s
      else
        var t := s.handlers[pid].tokenId;
        With(s.(tokens := s.tokens[t := s.tokens[t].(revokedAt := Some(now))]), pid,
             Minting(t, s.handlers[pid].grant))
    case MintPair(pid, f, now) =>
      if pid !in s.handlers || !s.handlers[pid].Minting? || !IsFresh(f, s.codes, s.tokens) then s
      else
        var p := s.handlers[pid].parentId;
        var line := if p in s.lineage then Line(s.lineage[p].root, s.lineage[p].generation + 1) else Line(p, 1);
        Without(s.(tokens := Mint(s.tokens, s.handlers[pid].grant, p, f, now),
                   lineage := s.lineage[f.accessId := line][f.refreshId := line]), pid)
    case WalkOn(pid, now) =>
      if pid !in s.handlers || !s.handlers[pid].Walking? then s
      else
        var h := s.handlers[pid];
        if h.walk.Bulk? then Without(s.(tokens := RevokeAll(s.tokens, h.walk.ids, now)), pid)
        else With(s, pid, h.(walk := WalkStep(s.tokens, h.walk)))
    case Crash(pid) => Without(s, pid)
    case Disconnect(workspaceId, clientId, now) =>
      var ids := set id | id in s.tokens && s.tokens[id].grant.workspaceId == workspaceId
                          && s.tokens[id].grant.clientId == clientId;
      s.(tokens := RevokeAll(s.tokens, ids, now))
  }

  ghost function Exec(s: State, steps: seq<Step>): State
    decreases |steps|
  {
    if steps == [] then s else Exec(Apply(s, steps[0]), steps[1..])
  }

  lemma First(s: State, step: Step, rest: seq<Step>)
    ensures Exec(s, [step] + rest) == Exec(Apply(s, step), rest)
  {
    assert ([step] + rest)[1..] == rest;
  }

  // ------------------------------------------------------------- invariants

  /** The row hangs, through rows of the table, below the code its line names. */
  ghost predicate RootedAt(tokens: Tokens, lineage: map<Id, Line>, codes: set<Id>, t: Id)
    requires t in tokens
  {
    t in lineage && t !in codes && tokens[t].parentId.Some? && lineage[t].root in codes &&
    var p := tokens[t].parentId.value;
    if p in codes then lineage[t] == Line(p, 1)
    else p in tokens && p in lineage && lineage[t] == Line(lineage[p].root, lineage[p].generation + 1)
  }

  ghost predicate Rooted(tokens: Tokens, lineage: map<Id, Line>, codes: set<Id>) {
    forall t {:trigger RootedAt(tokens, lineage, codes, t)} | t in tokens :: RootedAt(tokens, lineage, codes, t)
  }

  ghost predicate TablesOk(s: State) {
    && s.codes.Keys !! s.tokens.Keys && s.lineage.Keys == s.tokens.Keys && s.consents.Keys == s.codes.Keys
    && Rooted(s.tokens, s.lineage, s.codes.Keys)
    && (forall t | t in s.tokens :: t in s.lineage && s.lineage[t].root in s.codes && s.lineage[t].root !in s.tokens
                                && s.tokens[t].grant == s.codes[s.lineage[t].root].grant)
    && (forall c | c in s.codes ::
          OAuthCode.Capped(s.codes[c].grant.scopes, s.consents[c].requested, s.consents[c].held))
  }

  ghost predicate ChildrenAreClaimed(s: State) {
    forall t, c | t in s.tokens && c in s.codes && s.tokens[t].parentId == Some(c) :: s.codes[c].consumedAt.Some?
  }

  ghost predicate OneOfAKind(s: State) {
    forall t, u, c | t in s.tokens && u in s.tokens && c in s.codes && s.tokens[t].parentId == Some(c)
                     && s.tokens[u].parentId == Some(c) && s.tokens[t].kind == s.tokens[u].kind :: t == u
  }

  /** Handler `p` is about to mint the first pair of code `c`. */
  ghost predicate MintsFirst(s: State, p: Pid, c: Id) {
    p in s.handlers && s.handlers[p].Minting? && s.handlers[p].parentId == c && c in s.codes
  }

  ghost predicate MinterIsFirst(s: State) {
    forall p, c | MintsFirst(s, p, c) ::
      s.codes[c].consumedAt.Some? && forall t | t in s.tokens :: s.tokens[t].parentId != Some(c)
  }

  ghost predicate MinterIsAlone(s: State) {
    forall p, q, c | MintsFirst(s, p, c) && MintsFirst(s, q, c) :: p == q
  }

  /** A code that was not claimed has no children, a claimed one has at most one pair. */
  ghost predicate PairsOk(s: State) {
    ChildrenAreClaimed(s) && OneOfAKind(s) && MinterIsFirst(s) && MinterIsAlone(s)
  }

  ghost predicate HandlerOk(s: State, h: Handler) {
    match h
    case Claiming(c, grant) => c in s.codes && grant == s.codes[c].grant
    case Rotating(t, grant) => t in s.tokens && grant == s.tokens[t].grant
    case Minting(p, grant) =>
      (p in s.codes && grant == s.codes[p].grant) || (p in s.tokens && grant == s.tokens[p].grant)
    case Walking(w, start, origin) =>
      && start.Keys <= s.tokens.Keys && Rooted(start, s.lineage, s.codes.Keys)
      && (origin in s.codes || origin in start) && (w.Up? ==> origin in start)
      && WalkSound(start, s.tokens, origin, w)
  }

  ghost predicate HandlersOk(s: State) {
    forall pid | pid in s.handlers :: HandlerOk(s, s.handlers[pid])
  }

  ghost predicate Inv(s: State) { TablesOk(s) && PairsOk(s) && HandlersOk(s) }

  /** Rows are never deleted, re-parented or brought back; grants and lines never change. */
  ghost predicate Grows(s: State, s': State) {
    && Extends(s.tokens, s'.tokens)
    && (forall c | c in s.codes :: c in s'.codes && s'.codes[c].grant == s.codes[c].grant)
    && (forall t | t in s.tokens :: s'.tokens[t].grant == s.tokens[t].grant && s'.tokens[t].kind == s.tokens[t].kind
                                    && (s.tokens[t].revokedAt.Some? ==> s'.tokens[t].revokedAt.Some?))
    && (forall t | t in s.lineage :: t in s'.lineage && s'.lineage[t] == s.lineage[t])
  }

  lemma CodesAreNoTokens(tokens: Tokens, lineage: map<Id, Line>, codes: set<Id>)
    requires Rooted(tokens, lineage, codes)
    ensures tokens.Keys !! codes
  {
    forall t | t in tokens ensures t !in codes { assert RootedAt(tokens, lineage, codes, t); }
  }

  lemma {:induction false} ChainToRoot(tokens: Tokens, lineage: map<Id, Line>, codes: set<Id>, t: Id)
    requires Rooted(tokens, lineage, codes) && t in tokens && t in lineage
    ensures Anc(tokens, t, lineage[t].generation) == Some(lineage[t].root)
    ensures lineage[t].root in codes && lineage[t].root !in tokens
    decreases lineage[t].generation
  {
    assert RootedAt(tokens, lineage, codes, t);
    CodesAreNoTokens(tokens, lineage, codes);
    var p := tokens[t].parentId.value;
    if p in codes {
      assert Anc(tokens, p, 0) == Some(p);
    } else {
      ChainToRoot(tokens, lineage, codes, p);
    }
  }

  // ---------------------------------------- steps by what they do to the tables

  ghost predicate TokensStamped(tokens: Tokens, tokens': Tokens) {
    && tokens'.Keys == tokens.Keys
    && (forall t | t in tokens :: tokens'[t] == tokens[t].(revokedAt := tokens'[t].revokedAt)
                                  && (tokens[t].revokedAt.Some? ==> tokens'[t].revokedAt.Some?))
  }

  ghost predicate CodesStamped(codes: Codes, codes': Codes) {
    && codes'.Keys == codes.Keys
    && (forall c | c in codes :: codes'[c] == codes[c].(consumedAt := codes'[c].consumedAt)
                                 && (codes[c].consumedAt.Some? ==> codes'[c].consumedAt.Some?))
  }

  /** Stamps may have been added to rows and codes, nothing else changed. */
  ghost predicate Stamps(s: State, s': State) {
    && s'.lineage == s.lineage && s'.consents == s.consents
    && TokensStamped(s.tokens, s'.tokens) && CodesStamped(s.codes, s'.codes)
  }

  /** One code row was added under a new id. */
  ghost predicate Consents(s: State, s': State, c: Id, row: CodeRow, consent: Consent) {
    && s'.lineage == s.lineage && s'.tokens == s.tokens && s'.handlers == s.handlers
    && c !in s.codes && c !in s.tokens && s'.codes == s.codes[c := row] && s'.consents == s.consents[c := consent]
    && OAuthCode.Capped(row.grant.scopes, consent.requested, consent.held)
  }

  /** A handler that was about to mint added its pair and finished. */
  ghost predicate Mints(s: State, s': State, pid: Pid, f: Fresh, now: int) {
    && pid in s.handlers && s.handlers[pid].Minting? && IsFresh(f, s.codes, s.tokens)
    && s'.codes == s.codes && s'.consents == s.consents && s'.handlers == s.handlers - {pid}
    && var p := s.handlers[pid].parentId;
    && s'.tokens == Mint(s.tokens, s.handlers[pid].grant, p, f, now)
    && var line := if p in s.lineage then Line(s.lineage[p].root, s.lineage[p].generation + 1) else Line(p, 1);
       s'.lineage == s.lineage[f.accessId := line][f.refreshId := line]
  }

  /** Every step but the two that insert rows only stamps. */
  lemma OthersStamp(s: State, step: Step)
    requires !step.GrantCode? && !step.MintPair?
    ensures Stamps(s, Apply(s, step))
  {
    if step.RevokePresented? {
      RevokerStamps(s, step);
    } else if step.WalkOn? || step.Disconnect? {
      BulkStamps(s, step);
    } else if step.Claim? {
      ClaimStamps(s, step);
    } else {
      ReadersOnlyRead(s, step);
    }
  }

  lemma ReadersOnlyRead(s: State, step: Step)
    requires step.ReadCode? || step.ReadRefresh? || step.Crash?
    ensures Apply(s, step) == s.(handlers := Apply(s, step).handlers)
  {
  }

  lemma ClaimStamps(s: State, step: Step)
    requires step.Claim?
    ensures Stamps(s, Apply(s, step))
  {
    if Apply(s, step).codes != s.codes {
      var c := s.handlers[step.pid].codeId;
      assert Apply(s, step).codes == s.codes[c := s.codes[c].(consumedAt := Some(step.now))];
    }
  }

  lemma RevokerStamps(s: State, step: Step)
    requires step.RevokePresented?
    ensures Stamps(s, Apply(s, step))
  {
  }

  lemma BulkStamps(s: State, step: Step)
    requires step.WalkOn? || step.Disconnect?
    ensures Stamps(s, Apply(s, step))
  {
    if Apply(s, step).tokens != s.tokens { BulkIsRevokeAll(s, step); }
  }

  lemma BulkIsRevokeAll(s: State, step: Step)
    requires (step.WalkOn? || step.Disconnect?) && Apply(s, step).tokens != s.tokens
    ensures Apply(s, step) == s.(tokens := Apply(s, step).tokens, handlers := Apply(s, step).handlers)
    ensures exists ids :: Apply(s, step).tokens == RevokeAll(s.tokens, ids, step.now)
  {
  }

  lemma GrantConsents(s: State, step: Step)
    requires step.GrantCode? && Apply(s, step) != s
    ensures Apply(s, step).codes.Keys == s.codes.Keys + {step.codeId}
    ensures Consents(s, Apply(s, step), step.codeId, Apply(s, step).codes[step.codeId],
                     Consent(step.authorize.requestedScopes, OAuthCode.HeldScopes(step.members[step.workspaceId])))
  {
    OAuthCode.GrantedRowIsCapped(step.authorize, step.userId, step.members, step.workspaceId, step.chosen,
                                 step.secret, step.now);
  }

  lemma StampsKeepTables(s: State, s': State)
    requires TablesOk(s) && Stamps(s, s')
    ensures TablesOk(s') && Grows(s, s')
  {
    StampsGrow(s, s');
    StampsKeepRooted(s, s');
    assert forall t | t in s.tokens :: s'.tokens[t].grant == s.tokens[t].grant;
    assert forall c | c in s.codes :: s'.codes[c].grant == s.codes[c].grant;
  }

  lemma StampsKeepRooted(s: State, s': State)
    requires TablesOk(s) && Stamps(s, s')
    ensures Rooted(s'.tokens, s'.lineage, s'.codes.Keys)
  {
    forall t | t in s'.tokens ensures RootedAt(s'.tokens, s'.lineage, s'.codes.Keys, t) {
      assert RootedAt(s.tokens, s.lineage, s.codes.Keys, t);
    }
  }

  lemma StampsGrow(s: State, s': State)
    requires Stamps(s, s')
    ensures Grows(s, s')
  {
  }

  lemma ConsentsKeepTables(s: State, s': State, c: Id, row: CodeRow, consent: Consent)
    requires TablesOk(s) && Consents(s, s', c, row, consent)
    ensures TablesOk(s') && Grows(s, s')
  {
    ConsentsKeepRooted(s, s', c, row, consent);
    assert Grows(s, s');
  }

  lemma ConsentsKeepRooted(s: State, s': State, c: Id, row: CodeRow, consent: Consent)
    requires TablesOk(s) && Consents(s, s', c, row, consent)
    ensures Rooted(s'.tokens, s'.lineage, s'.codes.Keys)
  {
    forall t | t in s'.tokens ensures RootedAt(s'.tokens, s'.lineage, s'.codes.Keys, t) {
      assert RootedAt(s.tokens, s.lineage, s.codes.Keys, t);
    }
  }

  lemma MintsKeepTables(s: State, s': State, pid: Pid, f: Fresh, now: int)
    requires TablesOk(s) && Mints(s, s', pid, f, now) && HandlerOk(s, s.handlers[pid])
    ensures TablesOk(s') && Grows(s, s')
  {
    MintsKeepKeys(s, s', pid, f, now);
    MintsKeepRooted(s, s', pid, f, now);
    MintsKeepGrants(s, s', pid, f, now);
    MintsGrow(s, s', pid, f, now);
  }

  lemma MintsKeepKeys(s: State, s': State, pid: Pid, f: Fresh, now: int)
    requires s.codes.Keys !! s.tokens.Keys && s.lineage.Keys == s.tokens.Keys && Mints(s, s', pid, f, now)
    ensures s'.codes.Keys !! s'.tokens.Keys && s'.lineage.Keys == s'.tokens.Keys
  {
  }

  lemma MintsKeepRooted(s: State, s': State, pid: Pid, f: Fresh, now: int)
    requires TablesOk(s) && Mints(s, s', pid, f, now) && HandlerOk(s, s.handlers[pid])
    ensures Rooted(s'.tokens, s'.lineage, s'.codes.Keys)
  {
    var p := s.handlers[pid].parentId;
    if p in s.tokens { assert RootedAt(s.tokens, s.lineage, s.codes.Keys, p); }
    forall t | t in s'.tokens ensures RootedAt(s'.tokens, s'.lineage, s'.codes.Keys, t) {
      if t in s.tokens {
        assert RootedAt(s.tokens, s.lineage, s.codes.Keys, t);
        assert s'.tokens[t] == s.tokens[t] && s'.lineage[t] == s.lineage[t];
      } else {
        assert s'.tokens[t].parentId == Some(p);
      }
    }
  }

  lemma MintsKeepGrants(s: State, s': State, pid: Pid, f: Fresh, now: int)
    requires TablesOk(s) && Mints(s, s', pid, f, now) && HandlerOk(s, s.handlers[pid])
    ensures forall t | t in s'.tokens :: t in s'.lineage && s'.lineage[t].root in s'.codes
                                         && s'.lineage[t].root !in s'.tokens
                                         && s'.tokens[t].grant == s'.codes[s'.lineage[t].root].grant
  {
  }

  lemma MintsGrow(s: State, s': State, pid: Pid, f: Fresh, now: int)
    requires s.lineage.Keys == s.tokens.Keys && Mints(s, s', pid, f, now)
    ensures Grows(s, s')
  {
  }

  lemma MintsKeepPairs(s: State, s': State, pid: Pid, f: Fresh, now: int)
    requires Inv(s) && Mints(s, s', pid, f, now)
    ensures PairsOk(s')
  {
    ChildrenAfterMint(s.tokens, s'.tokens, s.handlers[pid].grant, s.handlers[pid].parentId, f, now);
    MintsForAClaim(s, s', pid, f, now);
    MintsOneOfAKind(s, s', pid, f, now);
    MintsKeepFirst(s, s', pid, f, now);
    MintsKeepAlone(s, s', pid, f, now);
  }

  lemma MintsForAClaim(s: State, s': State, pid: Pid, f: Fresh, now: int)
    requires PairsOk(s) && Mints(s, s', pid, f, now)
    requires MintAdds(s.tokens, s'.tokens, s.handlers[pid].parentId, f)
    ensures ChildrenAreClaimed(s')
  {
    forall t, c | t in s'.tokens && c in s'.codes && s'.tokens[t].parentId == Some(c)
      ensures s'.codes[c].consumedAt.Some?
    {
      if t !in s.tokens { assert MintsFirst(s, pid, c); }
    }
  }

  lemma MintsKeepFirst(s: State, s': State, pid: Pid, f: Fresh, now: int)
    requires PairsOk(s) && Mints(s, s', pid, f, now)
    requires MintAdds(s.tokens, s'.tokens, s.handlers[pid].parentId, f)
    ensures MinterIsFirst(s')
  {
    forall q, c | MintsFirst(s', q, c)
      ensures s'.codes[c].consumedAt.Some? && forall t | t in s'.tokens :: s'.tokens[t].parentId != Some(c)
    {
      assert MintsFirst(s, q, c) && q != pid;
      assert s.handlers[pid].parentId == c ==> MintsFirst(s, pid, c);
    }
  }

  lemma MintsKeepAlone(s: State, s': State, pid: Pid, f: Fresh, now: int)
    requires MinterIsAlone(s) && Mints(s, s', pid, f, now)
    ensures MinterIsAlone(s')
  {
    forall q, r, c | MintsFirst(s', q, c) && MintsFirst(s', r, c) ensures q == r {
      assert MintsFirst(s, q, c) && MintsFirst(s, r, c);
    }
  }

  lemma MintsOneOfAKind(s: State, s': State, pid: Pid, f: Fresh, now: int)
    requires PairsOk(s) && Mints(s, s', pid, f, now)
    requires MintAdds(s.tokens, s'.tokens, s.handlers[pid].parentId, f)
    ensures OneOfAKind(s')
  {
    var p := s.handlers[pid].parentId;
    if p in s.codes { assert MintsFirst(s, pid, p); }
    forall t, u, c | t in s'.tokens && u in s'.tokens && c in s'.codes && s'.tokens[t].parentId == Some(c)
                     && s'.tokens[u].parentId == Some(c) && s'.tokens[t].kind == s'.tokens[u].kind
      ensures t == u
    {
      if c != p { assert t in s.tokens && u in s.tokens; }
    }
  }

  /** The rows are the old ones and one child of `p` of each kind. */
  ghost predicate MintAdds(tokens: Tokens, tokens': Tokens, p: Id, f: Fresh) {
    forall t | t in tokens' ::
      if t in tokens then tokens'[t] == tokens[t]
      else tokens'[t].parentId == Some(p) && ((t == f.accessId && tokens'[t].kind == ACCESS)
                                              || (t == f.refreshId && tokens'[t].kind == REFRESH))
  }

  lemma ChildrenAfterMint(tokens: Tokens, tokens': Tokens, grant: Grant, p: Id, f: Fresh, now: int)
    requires tokens' == Mint(tokens, grant, p, f, now) && f.accessId != f.refreshId
    requires f.accessId !in tokens && f.refreshId !in tokens
    ensures MintAdds(tokens, tokens', p, f)
  {
  }

  lemma ConsentsKeepPairs(s: State, s': State, c: Id, row: CodeRow, consent: Consent)
    requires Inv(s) && Consents(s, s', c, row, consent)
    ensures PairsOk(s')
  {
    forall t | t in s'.tokens ensures s'.tokens[t].parentId != Some(c) {
      assert RootedAt(s.tokens, s.lineage, s.codes.Keys, t);
    }
    forall q, d | MintsFirst(s', q, d) ensures MintsFirst(s, q, d) {
      assert HandlerOk(s, s.handlers[q]);
    }
  }

  /** A minter that just appeared claimed its code in this step; the others were there before. */
  lemma StampsMinters(s: State, step: Step, p: Pid, c: Id)
    requires !step.GrantCode? && !step.MintPair? && HandlersOk(s) && s.codes.Keys !! s.tokens.Keys
    requires MintsFirst(Apply(s, step), p, c)
    ensures MintsFirst(s, p, c) || (step.Claim? && step.pid == p && c in s.codes && s.codes[c].consumedAt.None?)
  {
    if p in s.handlers && Apply(s, step).handlers[p] == s.handlers[p] {
      assert HandlerOk(s, s.handlers[p]);
    } else {
      OnlyOwnHandlerMoves(s, step, p);
      MoverMintsFirst(s, step, c);
    }
  }

  lemma MoverMintsFirst(s: State, step: Step, c: Id)
    requires step.ReadCode? || step.ReadRefresh? || step.Claim? || step.RevokePresented? || step.WalkOn?
    requires HandlersOk(s) && s.codes.Keys !! s.tokens.Keys && MintsFirst(Apply(s, step), step.pid, c)
    ensures MintsFirst(s, step.pid, c) || (step.Claim? && c in s.codes && s.codes[c].consumedAt.None?)
  {
    if step.pid in s.handlers { assert HandlerOk(s, s.handlers[step.pid]); }
  }

  lemma ClaimConsumes(s: State, step: Step, c: Id)
    requires step.Claim? && MintsFirst(Apply(s, step), step.pid, c) && !MintsFirst(s, step.pid, c)
    ensures Apply(s, step).codes[c].consumedAt.Some?
  {
  }

  lemma StampsKeepPairs(s: State, step: Step)
    requires Inv(s) && Stamps(s, Apply(s, step)) && !step.MintPair? && !step.GrantCode?
    ensures PairsOk(Apply(s, step))
  {
    StampsKeepChildren(s, Apply(s, step));
    StampsKeepFirst(s, step);
    StampsKeepAlone(s, step);
  }

  lemma StampsKeepChildren(s: State, s': State)
    requires PairsOk(s) && Stamps(s, s')
    ensures ChildrenAreClaimed(s') && OneOfAKind(s')
  {
  }

  lemma StampsKeepFirst(s: State, step: Step)
    requires Inv(s) && Stamps(s, Apply(s, step)) && !step.MintPair? && !step.GrantCode?
    ensures MinterIsFirst(Apply(s, step))
  {
    var s' := Apply(s, step);
    forall p, c | MintsFirst(s', p, c)
      ensures s'.codes[c].consumedAt.Some? && forall t | t in s'.tokens :: s'.tokens[t].parentId != Some(c)
    {
      StampsMinters(s, step, p, c);
      if !MintsFirst(s, p, c) { ClaimConsumes(s, step, c); }
    }
  }

  lemma StampsKeepAlone(s: State, step: Step)
    requires HandlersOk(s) && s.codes.Keys !! s.tokens.Keys && MinterIsFirst(s) && MinterIsAlone(s)
    requires !step.MintPair? && !step.GrantCode?
    ensures MinterIsAlone(Apply(s, step))
  {
    var s' := Apply(s, step);
    forall p, q, c | MintsFirst(s', p, c) && MintsFirst(s', q, c) ensures p == q {
      StampsMinters(s, step, p, c);
      StampsMinters(s, step, q, c);
    }
  }

  lemma GrantKeepsTables(s: State, step: Step)
    requires TablesOk(s) && step.GrantCode? && Apply(s, step) != s
    ensures TablesOk(Apply(s, step)) && Grows(s, Apply(s, step))
  {
    GrantConsents(s, step);
    var consent := Consent(step.authorize.requestedScopes, OAuthCode.HeldScopes(step.members[step.workspaceId]));
    ConsentsKeepTables(s, Apply(s, step), step.codeId, Apply(s, step).codes[step.codeId], consent);
  }

  lemma MintKeepsTables(s: State, step: Step)
    requires TablesOk(s) && HandlersOk(s) && step.MintPair? && Apply(s, step) != s
    ensures TablesOk(Apply(s, step)) && Grows(s, Apply(s, step))
  {
    assert HandlerOk(s, s.handlers[step.pid]);
    MintsKeepTables(s, Apply(s, step), step.pid, step.drawn, step.now);
  }

  lemma StampKeepsTables(s: State, step: Step)
    requires TablesOk(s) && !step.GrantCode? && !step.MintPair?
    ensures TablesOk(Apply(s, step)) && Grows(s, Apply(s, step))
  {
    OthersStamp(s, step);
    StampsKeepTables(s, Apply(s, step));
  }

  lemma KeepsTables(s: State, step: Step)
    requires Inv(s)
    ensures TablesOk(Apply(s, step)) && Grows(s, Apply(s, step))
  {
    if Apply(s, step) == s {
    } else if step.GrantCode? {
      GrantKeepsTables(s, step);
    } else if step.MintPair? {
      MintKeepsTables(s, step);
    } else {
      StampKeepsTables(s, step);
    }
  }

  lemma GrantKeepsPairs(s: State, step: Step)
    requires Inv(s) && step.GrantCode? && Apply(s, step) != s
    ensures PairsOk(Apply(s, step))
  {
    GrantConsents(s, step);
    var s' := Apply(s, step);
    var consent := Consent(step.authorize.requestedScopes, OAuthCode.HeldScopes(step.members[step.workspaceId]));
    ConsentsKeepPairs(s, s', step.codeId, s'.codes[step.codeId], consent);
  }

  lemma KeepsPairs(s: State, step: Step)
    requires Inv(s)
    ensures PairsOk(Apply(s, step))
  {
    var s' := Apply(s, step);
    if s' == s {
    } else if step.GrantCode? {
      GrantKeepsPairs(s, step);
    } else if step.MintPair? {
      MintsKeepPairs(s, s', step.pid, step.drawn, step.now);
    } else {
      OthersStamp(s, step);
      StampsKeepPairs(s, step);
    }
  }

  lemma StepKeepsInv(s: State, step: Step)
    requires Inv(s)
    ensures Inv(Apply(s, step)) && Grows(s, Apply(s, step))
  {
    KeepsTables(s, step);
    KeepsPairs(s, step);
    KeepsHandlers(s, step);
  }

  /** A handler's knowledge survives whatever the other handlers write. */
  lemma HandlerOkLater(s: State, s': State, h: Handler)
    requires HandlerOk(s, h) && Grows(s, s') && TablesOk(s) && TablesOk(s')
    ensures HandlerOk(s', h)
  {
    if h.Walking? {
      WalkSoundLater(h.start, s.tokens, s'.tokens, h.origin, h.walk);
      CodesAreNoTokens(s'.tokens, s'.lineage, s'.codes.Keys);
      RootedLater(s, s', h.start);
    }
  }

  lemma RootedLater(s: State, s': State, start: Tokens)
    requires Grows(s, s') && start.Keys <= s.tokens.Keys && Rooted(start, s.lineage, s.codes.Keys)
    requires s'.tokens.Keys !! s'.codes.Keys
    ensures Rooted(start, s'.lineage, s'.codes.Keys)
  {
    forall t | t in start ensures RootedAt(start, s'.lineage, s'.codes.Keys, t) {
      assert RootedAt(start, s.lineage, s.codes.Keys, t);
      assert t in s'.tokens;
      if start[t].parentId.value !in s.codes { assert start[t].parentId.value in s'.tokens; }
    }
  }

  lemma WalkStarts(s: State, w: Walk, origin: Id)
    requires TablesOk(s)
    requires (origin in s.codes && w == SearchBelow(origin))
             || (origin in s.tokens && w == Up(origin, s.tokens[origin].parentId, {origin}, 0))
    ensures HandlerOk(s, Walking(w, s.tokens, origin))
  {
    if w.Down? {
      SearchStarts(s.tokens, s.tokens, origin);
    } else {
      assert Anc(s.tokens, origin, 0) == Some(origin);
    }
  }

  lemma WalkContinues(s: State, h: Handler)
    requires TablesOk(s) && h.Walking? && !h.walk.Bulk? && HandlerOk(s, h)
    ensures HandlerOk(s, h.(walk := WalkStep(s.tokens, h.walk)))
  {
    if h.walk.Up? {
      ChainToRoot(h.start, s.lineage, s.codes.Keys, h.origin);
      UpStepSound(h.start, s.tokens, h.origin, h.walk, s.lineage[h.origin].generation);
    } else {
      DownStepSound(h.start, s.tokens, h.walk);
    }
  }

  lemma KeepsHandlers(s: State, step: Step)
    requires Inv(s)
    ensures HandlersOk(Apply(s, step))
  {
    var s' := Apply(s, step);
    KeepsTables(s, step);
    forall pid | pid in s'.handlers ensures HandlerOk(s', s'.handlers[pid]) {
      if pid in s.handlers && s'.handlers[pid] == s.handlers[pid] {
        HandlerOkLater(s, s', s.handlers[pid]);
      } else {
        NewHandlerOk(s, step, pid);
      }
    }
  }

  /** A step moves at most its own handler. */
  predicate Moves(step: Step, pid: Pid) {
    match step
    case ReadCode(p, _, _, _) => p == pid
    case ReadRefresh(p, _, _, _) => p == pid
    case Claim(p, _) => p == pid
    case RevokePresented(p, _) => p == pid
    case WalkOn(p, _) => p == pid
    case _ => false
  }

  lemma OnlyOwnHandlerMoves(s: State, step: Step, pid: Pid)
    requires pid in Apply(s, step).handlers
    requires pid !in s.handlers || Apply(s, step).handlers[pid] != s.handlers[pid]
    ensures Moves(step, pid)
  {
    if step.GrantCode? || step.MintPair? {
      InsertersStartNone(s, step);
    } else if step.Disconnect? || step.Crash? {
      EndersStartNone(s, step);
    } else if step.WalkOn? {
      OneWalkerMoves(s, step);
    } else if step.ReadCode? || step.ReadRefresh? {
      OneReaderMoves(s, step);
    } else {
      OneHandlerMoves(s, step);
    }
  }

  lemma InsertersStartNone(s: State, step: Step)
    requires step.GrantCode? || step.MintPair?
    ensures Apply(s, step).handlers == s.handlers
            || (step.MintPair? && Apply(s, step).handlers == s.handlers - {step.pid})
  {
  }

  lemma EndersStartNone(s: State, step: Step)
    requires step.Disconnect? || step.Crash?
    ensures Apply(s, step).handlers == if step.Crash? then s.handlers - {step.pid} else s.handlers
  {
  }

  lemma OneHandlerMoves(s: State, step: Step)
    requires step.Claim? || step.RevokePresented?
    ensures Apply(s, step).handlers == s.handlers
            || (step.pid in Apply(s, step).handlers
                && Apply(s, step).handlers == s.handlers[step.pid := Apply(s, step).handlers[step.pid]])
  {
  }

  lemma OneReaderMoves(s: State, step: Step)
    requires step.ReadCode? || step.ReadRefresh?
    ensures Apply(s, step).handlers == s.handlers
            || (step.pid in Apply(s, step).handlers
                && Apply(s, step).handlers == s.handlers[step.pid := Apply(s, step).handlers[step.pid]])
  {
  }

  lemma OneWalkerMoves(s: State, step: Step)
    requires step.WalkOn?
    ensures Apply(s, step).handlers == s.handlers || Apply(s, step).handlers == s.handlers - {step.pid}
            || (step.pid in Apply(s, step).handlers
                && Apply(s, step).handlers == s.handlers[step.pid := Apply(s, step).handlers[step.pid]])
  {
  }

  lemma NewHandlerOk(s: State, step: Step, pid: Pid)
    requires Inv(s) && TablesOk(Apply(s, step)) && Grows(s, Apply(s, step))
    requires pid in Apply(s, step).handlers
    requires pid !in s.handlers || Apply(s, step).handlers[pid] != s.handlers[pid]
    ensures HandlerOk(Apply(s, step), Apply(s, step).handlers[pid])
  {
    OnlyOwnHandlerMoves(s, step, pid);
    if step.ReadCode? || step.ReadRefresh? {
      NewReaderOk(s, step);
    } else if step.Claim? {
      NewClaimerOk(s, step);
    } else if step.RevokePresented? {
      NewRevokerOk(s, step);
    } else {
      NewWalkerOk(s, step);
    }
  }

  lemma NewRevokerOk(s: State, step: Step)
    requires Inv(s) && step.RevokePresented? && Apply(s, step) != s
    ensures step.pid in Apply(s, step).handlers && HandlerOk(Apply(s, step), Apply(s, step).handlers[step.pid])
  {
    assert HandlerOk(s, s.handlers[step.pid]);
  }

  lemma NewReaderOk(s: State, step: Step)
    requires Inv(s) && (step.ReadCode? || step.ReadRefresh?) && Apply(s, step) != s
    ensures step.pid in Apply(s, step).handlers && HandlerOk(Apply(s, step), Apply(s, step).handlers[step.pid])
  {
    if step.ReadCode? {
      if s.codes[step.codeId].consumedAt.Some? { WalkStarts(s, SearchBelow(step.codeId), step.codeId); }
    } else {
      var t := step.tokenId;
      if s.tokens[t].revokedAt.Some? { WalkStarts(s, Up(t, s.tokens[t].parentId, {t}, 0), t); }
    }
  }

  lemma NewClaimerOk(s: State, step: Step)
    requires Inv(s) && step.Claim? && Apply(s, step) != s
    ensures step.pid in Apply(s, step).handlers && HandlerOk(Apply(s, step), Apply(s, step).handlers[step.pid])
  {
    assert HandlerOk(s, s.handlers[step.pid]);
    var c := s.handlers[step.pid].codeId;
    if s.codes[c].consumedAt.Some? { WalkStarts(s, SearchBelow(c), c); }
  }

  lemma NewWalkerOk(s: State, step: Step)
    requires Inv(s) && step.WalkOn? && step.pid in Apply(s, step).handlers && Apply(s, step) != s
    ensures HandlerOk(Apply(s, step), Apply(s, step).handlers[step.pid])
  {
    assert HandlerOk(s, s.handlers[step.pid]);
    WalkContinues(s, s.handlers[step.pid]);
  }

  lemma {:induction false} RunKeepsInv(s: State, steps: seq<Step>)
    requires Inv(s)
    ensures Inv(Exec(s, steps))
    ensures Grows(s, Exec(s, steps))
    decreases |steps|
  {
    if steps != [] {
      StepKeepsInv(s, steps[0]);
      RunKeepsInv(Apply(s, steps[0]), steps[1..]);
    }
  }

  lemma Reachable(steps: seq<Step>)
    ensures Inv(Exec(INIT, steps))
  {
    RunKeepsInv(INIT, steps);
  }
}
