/**
 * Whole families under any overlap: exactly when a family can have two live refresh tokens,
 * and exactly when a dead family stays dead
 * (backend/src/modules/mcp-oauth/mcp-oauth-token.service.ts:159-221, 283-328).
 */
module OAuthFamilies {
  import opened OAuthStore
  import OAuthCode
  import opened OAuthService
  import opened OAuthRuns
  import opened OAuthTheorems

  /** The code a row or a handler's parent belongs to. */
  ghost function RootOf(s: State, id: Id): Id { if id in s.lineage then s.lineage[id].root else id }

  /** In a reachable state the history says what the parent chains say. */
  lemma FamilyIsLineage(s: State, c: Id, t: Id)
    requires TablesOk(s) && c in s.codes && t in s.tokens
    ensures RootOf(s, t) == c <==> Descends(s.tokens, c, t)
  {
    ChainToRoot(s.tokens, s.lineage, s.codes.Keys, t);
    CodesAreNoTokens(s.tokens, s.lineage, s.codes.Keys);
    if n: nat :| Anc(s.tokens, t, n) == Some(c) {
      TopIsUnique(s.tokens, t, s.lineage[t].generation, n);
    }
  }

  ghost predicate LiveIn(s: State, u: Id, c: Id) { LiveRefresh(s.tokens, u) && RootOf(s, u) == c }

  ghost predicate MintsIn(s: State, p: Pid, c: Id) {
    p in s.handlers && s.handlers[p].Minting? && RootOf(s, s.handlers[p].parentId) == c
  }

  ghost predicate RotatesIn(s: State, p: Pid, c: Id) {
    p in s.handlers && s.handlers[p].Rotating? && RootOf(s, s.handlers[p].tokenId) == c
  }

  ghost predicate RootsClaimed(s: State) {
    && (forall t | t in s.tokens :: RootOf(s, t) in s.codes && s.codes[RootOf(s, t)].consumedAt.Some?)
    && (forall p, c | MintsIn(s, p, c) :: c in s.codes && s.codes[c].consumedAt.Some?)
    && (forall p | p in s.handlers && s.handlers[p].Rotating? ::
          s.handlers[p].tokenId in s.tokens && s.tokens[s.handlers[p].tokenId].kind == REFRESH)
  }

  ghost predicate OneLive(s: State) { forall t, u, c | LiveIn(s, t, c) && LiveIn(s, u, c) :: t == u }

  ghost predicate OneMinter(s: State) { forall p, q, c | MintsIn(s, p, c) && MintsIn(s, q, c) :: p == q }

  ghost predicate MinterHasRoom(s: State) { forall p, u, c | MintsIn(s, p, c) :: !LiveIn(s, u, c) }

  /** A family has one live refresh token, or one handler about to mint it, or neither. */
  ghost predicate Single(s: State) { RootsClaimed(s) && OneLive(s) && OneMinter(s) && MinterHasRoom(s) }

  /** Neither a live refresh token nor one about to be minted. */
  ghost predicate Empty(s: State, c: Id) { (forall u :: !LiveIn(s, u, c)) && (forall q :: !MintsIn(s, q, c)) }

  /** The rotation writes to a token that is still unrevoked, or into a family with nothing left. */
  ghost predicate Undisturbed(s: State, step: Step) {
    step.RevokePresented? && step.pid in s.handlers && s.handlers[step.pid].Rotating?
    && s.handlers[step.pid].tokenId in s.tokens ==>
      var t := s.handlers[step.pid].tokenId;
      s.tokens[t].revokedAt.None? || Empty(s, RootOf(s, t))
  }

  ghost predicate Guarded(s: State, steps: seq<Step>)
    decreases |steps|
  {
    steps == [] || (Undisturbed(s, steps[0]) && Guarded(Apply(s, steps[0]), steps[1..]))
  }

  // ------------------------------------------------- what a step can add

  /** Codes stay claimed, rows stay in their family and rotated rows are refresh tokens. */
  ghost predicate Continues(s: State, s': State) {
    && (forall c | c in s.codes && s.codes[c].consumedAt.Some? :: c in s'.codes && s'.codes[c].consumedAt.Some?)
    && (forall t | t in s'.tokens :: RootOf(s', t) in s'.codes && s'.codes[RootOf(s', t)].consumedAt.Some?)
    && (forall p | p in s'.handlers && s'.handlers[p].Rotating? ::
          s'.handlers[p].tokenId in s'.tokens && s'.tokens[s'.handlers[p].tokenId].kind == REFRESH)
  }

  /** Nobody starts to mint and no refresh token appears, but perhaps in family `c` handler `p` mints. */
  lemma MinterAdded(s: State, s': State, p: Pid, c: Id)
    requires Single(s) && Continues(s, s') && c in s'.codes && s'.codes[c].consumedAt.Some?
    requires forall u, d | LiveIn(s', u, d) :: LiveIn(s, u, d)
    requires forall q, d | MintsIn(s', q, d) :: MintsIn(s, q, d) || (q == p && d == c)
    requires forall u :: !LiveIn(s', u, c)
    requires forall q :: !MintsIn(s, q, c)
    ensures Single(s')
  {
  }

  lemma NothingAdded(s: State, s': State)
    requires Single(s) && Continues(s, s')
    requires forall u, d | LiveIn(s', u, d) :: LiveIn(s, u, d)
    requires forall q, d | MintsIn(s', q, d) :: MintsIn(s, q, d)
    ensures Single(s')
  {
  }

  lemma TokenAdded(s: State, s': State, p: Pid, c: Id, r: Id)
    requires Single(s) && Continues(s, s') && MintsIn(s, p, c)
    requires forall u, d | LiveIn(s', u, d) :: LiveIn(s, u, d) || (u == r && d == c)
    requires forall q, d | MintsIn(s', q, d) :: MintsIn(s, q, d) && q != p
    ensures Single(s')
  {
  }

  // ------------------------------------------------------- step by step

  /** Stamps add no token, and a minter only where a code was claimed or a token rotated. */
  lemma StampsAdd(s: State, step: Step)
    requires Inv(s) && !step.GrantCode? && !step.MintPair?
    ensures var s' := Apply(s, step);
            && (forall u, d | LiveIn(s', u, d) :: LiveIn(s, u, d))
            && (forall id :: RootOf(s', id) == RootOf(s, id))
            && s'.tokens.Keys == s.tokens.Keys
            && (forall c | c in s.codes && s.codes[c].consumedAt.Some? :: c in s'.codes && s'.codes[c].consumedAt.Some?)
  {
    OthersStamp(s, step);
    StampsAddNoToken(s, Apply(s, step));
  }

  lemma StampsAddNoToken(s: State, s': State)
    requires Stamps(s, s')
    ensures forall u, d | LiveIn(s', u, d) :: LiveIn(s, u, d)
  {
    forall u, d | LiveIn(s', u, d) ensures LiveIn(s, u, d) {
      assert s'.tokens[u] == s.tokens[u].(revokedAt := s'.tokens[u].revokedAt);
    }
  }

  lemma StampsContinue(s: State, step: Step)
    requires Inv(s) && RootsClaimed(s) && !step.GrantCode? && !step.MintPair?
    ensures Continues(s, Apply(s, step))
  {
    StampsAdd(s, step);
    OthersStamp(s, step);
    var s' := Apply(s, step);
    forall p | p in s'.handlers && s'.handlers[p].Rotating?
      ensures s'.handlers[p].tokenId in s'.tokens && s'.tokens[s'.handlers[p].tokenId].kind == REFRESH
    {
      RotatorsRead(s, step, p);
    }
  }

  lemma RotatorsRead(s: State, step: Step, p: Pid)
    requires p in Apply(s, step).handlers && Apply(s, step).handlers[p].Rotating?
    ensures var t := Apply(s, step).handlers[p].tokenId;
            (p in s.handlers && s.handlers[p] == Apply(s, step).handlers[p])
            || (step.ReadRefresh? && step.pid == p && t == step.tokenId && LiveRefresh(s.tokens, t))
  {
    if !(p in s.handlers && s.handlers[p] == Apply(s, step).handlers[p]) { OnlyOwnHandlerMoves(s, step, p); }
  }

  /** A handler starts to mint only by claiming a code or by rotating. */
  lemma MintersStart(s: State, step: Step, p: Pid)
    requires p in Apply(s, step).handlers && Apply(s, step).handlers[p].Minting?
    ensures || (p in s.handlers && s.handlers[p] == Apply(s, step).handlers[p])
            || (step.pid == p && (step.Claim? || step.RevokePresented?))
  {
    if !(p in s.handlers && s.handlers[p] == Apply(s, step).handlers[p]) { OnlyOwnHandlerMoves(s, step, p); }
  }

  lemma ClaimantStarts(s: State, step: Step)
    requires step.Claim? && step.pid in Apply(s, step).handlers && Apply(s, step).handlers[step.pid].Minting?
    requires step.pid !in s.handlers || s.handlers[step.pid] != Apply(s, step).handlers[step.pid]
    ensures step.pid in s.handlers && s.handlers[step.pid].Claiming?
    ensures var c := s.handlers[step.pid].codeId;
            && c in s.codes && s.codes[c].consumedAt.None? && Apply(s, step).handlers[step.pid].parentId == c
            && c in Apply(s, step).codes && Apply(s, step).codes[c].consumedAt.Some?
  {
  }

  lemma RotatorStarts(s: State, step: Step)
    requires step.RevokePresented? && step.pid in Apply(s, step).handlers && Apply(s, step).handlers[step.pid].Minting?
    requires step.pid !in s.handlers || s.handlers[step.pid] != Apply(s, step).handlers[step.pid]
    ensures step.pid in s.handlers && s.handlers[step.pid].Rotating?
    ensures var t := s.handlers[step.pid].tokenId;
            t in s.tokens && Apply(s, step).handlers[step.pid].parentId == t && !LiveRefresh(Apply(s, step).tokens, t)
  {
  }

  lemma QuietKeepsSingle(s: State, step: Step)
    requires Inv(s) && Single(s) && !step.GrantCode? && !step.MintPair? && !step.Claim? && !step.RevokePresented?
    ensures Single(Apply(s, step))
  {
    StampsAdd(s, step);
    StampsContinue(s, step);
    var s' := Apply(s, step);
    forall q, d | MintsIn(s', q, d) ensures MintsIn(s, q, d) {
      MintersStart(s, step, q);
    }
    NothingAdded(s, s');
  }

  lemma ClaimKeepsSingle(s: State, step: Step)
    requires Inv(s) && Single(s) && step.Claim?
    ensures Single(Apply(s, step))
  {
    StampsAdd(s, step);
    StampsContinue(s, step);
    var s' := Apply(s, step);
    var p := step.pid;
    forall q, d | MintsIn(s', q, d) ensures MintsIn(s, q, d) || q == p { MintersStart(s, step, q); }
    if p in s'.handlers && s'.handlers[p].Minting? && !(p in s.handlers && s.handlers[p] == s'.handlers[p]) {
      ClaimantStarts(s, step);
      var c := s.handlers[p].codeId;
      assert c !in s.lineage;
      forall u ensures !LiveIn(s', u, c) {
        assert LiveIn(s', u, c) ==> u in s.tokens;
      }
      MinterAdded(s, s', p, c);
    } else {
      NothingAdded(s, s');
    }
  }

  lemma RotationKeepsSingle(s: State, step: Step)
    requires Inv(s) && Single(s) && step.RevokePresented? && Undisturbed(s, step)
    ensures Single(Apply(s, step))
  {
    StampsAdd(s, step);
    StampsContinue(s, step);
    var s' := Apply(s, step);
    var p := step.pid;
    forall q, d | MintsIn(s', q, d) ensures MintsIn(s, q, d) || q == p { MintersStart(s, step, q); }
    if p in s'.handlers && s'.handlers[p].Minting? && !(p in s.handlers && s.handlers[p] == s'.handlers[p]) {
      RotatorStarts(s, step);
      var c := RootOf(s, s.handlers[p].tokenId);
      RotatorLeavesRoom(s, step, c);
      MinterAdded(s, s', p, c);
    } else {
      NothingAdded(s, s');
    }
  }

  lemma RotatorLeavesRoom(s: State, step: Step, c: Id)
    requires Single(s) && step.RevokePresented? && Undisturbed(s, step)
    requires step.pid in s.handlers && s.handlers[step.pid].Rotating?
    requires s.handlers[step.pid].tokenId in s.tokens && c == RootOf(s, s.handlers[step.pid].tokenId)
    requires !LiveRefresh(Apply(s, step).tokens, s.handlers[step.pid].tokenId)
    requires forall u, d | LiveIn(Apply(s, step), u, d) :: LiveIn(s, u, d)
    ensures (forall u :: !LiveIn(Apply(s, step), u, c)) && (forall q :: !MintsIn(s, q, c))
  {
    var t := s.handlers[step.pid].tokenId;
    if s.tokens[t].revokedAt.None? { assert LiveIn(s, t, c); }
    forall u ensures !LiveIn(Apply(s, step), u, c) {
      assert LiveIn(Apply(s, step), u, c) ==> LiveIn(s, u, c);
    }
  }

  lemma ConsentAdds(s: State, s': State, c: Id, row: CodeRow, consent: Consent)
    requires Single(s) && Consents(s, s', c, row, consent)
    ensures Single(s')
  {
    assert forall q, d | MintsIn(s', q, d) :: MintsIn(s, q, d);
    NothingAdded(s, s');
  }

  lemma ConsentKeepsSingle(s: State, step: Step)
    requires Inv(s) && Single(s) && step.GrantCode? && Apply(s, step) != s
    ensures Single(Apply(s, step))
  {
    GrantConsents(s, step);
    var consent := Consent(step.authorize.requestedScopes, OAuthCode.HeldScopes(step.members[step.workspaceId]));
    ConsentAdds(s, Apply(s, step), step.codeId, Apply(s, step).codes[step.codeId], consent);
  }

  /** What a mint does to the tables and the handlers. */
  ghost predicate MintsFor(s: State, s': State, p: Pid, f: Fresh, now: int, c: Id) {
    && Mints(s, s', p, f, now) && RootOf(s, s.handlers[p].parentId) == c
    && RootOf(s', f.accessId) == RootOf(s', f.refreshId) == c
    && (forall id | id !in {f.accessId, f.refreshId} :: RootOf(s', id) == RootOf(s, id))
  }

  lemma MintRoots(s: State, s': State, p: Pid, f: Fresh, now: int)
    requires Mints(s, s', p, f, now)
    ensures MintsFor(s, s', p, f, now, RootOf(s, s.handlers[p].parentId))
  {
  }

  lemma MintEffect(s: State, step: Step)
    requires step.MintPair? && Apply(s, step) != s
    ensures step.pid in s.handlers && s.handlers[step.pid].Minting?
    ensures MintsFor(s, Apply(s, step), step.pid, step.drawn, step.now, RootOf(s, s.handlers[step.pid].parentId))
  {
    MintRoots(s, Apply(s, step), step.pid, step.drawn, step.now);
  }

  /** Every row after a mint was there, unchanged, or is one of the pair. */
  lemma MintedRows(s: State, s': State, p: Pid, f: Fresh, now: int, c: Id, t: Id)
    requires MintsFor(s, s', p, f, now, c) && t in s'.tokens
    ensures || (t in s.tokens && s'.tokens[t] == s.tokens[t] && RootOf(s', t) == RootOf(s, t))
            || (t in {f.accessId, f.refreshId} && RootOf(s', t) == c && (t == f.accessId ==> s'.tokens[t].kind == ACCESS))
  {
    ChildrenAfterMint(s.tokens, s'.tokens, s.handlers[p].grant, s.handlers[p].parentId, f, now);
  }

  /** The handlers that are left stand where they stood, on rows and codes that were there. */
  lemma MintedHandlers(s: State, s': State, p: Pid, f: Fresh, now: int, c: Id, q: Pid)
    requires Inv(s) && MintsFor(s, s', p, f, now, c) && q in s'.handlers
    ensures q != p && q in s.handlers && s'.handlers[q] == s.handlers[q]
    ensures s.handlers[q].Minting? ==> RootOf(s', s.handlers[q].parentId) == RootOf(s, s.handlers[q].parentId)
    ensures s.handlers[q].Rotating? ==> RootOf(s', s.handlers[q].tokenId) == RootOf(s, s.handlers[q].tokenId)
                                        && s.handlers[q].tokenId in s.tokens
  {
    assert HandlerOk(s, s.handlers[q]);
  }

  lemma MintContinues(s: State, s': State, p: Pid, f: Fresh, now: int, c: Id)
    requires Inv(s) && RootsClaimed(s) && MintsFor(s, s', p, f, now, c)
    ensures Continues(s, s')
  {
    assert MintsIn(s, p, c);
    forall t | t in s'.tokens ensures RootOf(s', t) in s'.codes && s'.codes[RootOf(s', t)].consumedAt.Some? {
      MintedRows(s, s', p, f, now, c, t);
    }
    forall q | q in s'.handlers && s'.handlers[q].Rotating?
      ensures s'.handlers[q].tokenId in s'.tokens && s'.tokens[s'.handlers[q].tokenId].kind == REFRESH
    {
      MintedHandlers(s, s', p, f, now, c, q);
      MintedRows(s, s', p, f, now, c, s'.handlers[q].tokenId);
    }
  }

  lemma MintKeepsSingle(s: State, step: Step)
    requires Inv(s) && Single(s) && step.MintPair? && Apply(s, step) != s
    ensures Single(Apply(s, step))
  {
    MintEffect(s, step);
    var s', p, f := Apply(s, step), step.pid, step.drawn;
    var c := RootOf(s, s.handlers[p].parentId);
    MintContinues(s, s', p, f, step.now, c);
    assert MintsIn(s, p, c);
    forall u, d | LiveIn(s', u, d) ensures LiveIn(s, u, d) || (u == f.refreshId && d == c) {
      MintedRows(s, s', p, f, step.now, c, u);
    }
    forall q, d | MintsIn(s', q, d) ensures MintsIn(s, q, d) && q != p {
      MintedHandlers(s, s', p, f, step.now, c, q);
    }
    TokenAdded(s, s', p, c, f.refreshId);
  }

  lemma StepKeepsSingle(s: State, step: Step)
    requires Inv(s) && Single(s) && Undisturbed(s, step)
    ensures Single(Apply(s, step))
  {
    if Apply(s, step) == s {
    } else if step.GrantCode? {
      ConsentKeepsSingle(s, step);
    } else if step.MintPair? {
      MintKeepsSingle(s, step);
    } else if step.Claim? {
      ClaimKeepsSingle(s, step);
    } else if step.RevokePresented? {
      RotationKeepsSingle(s, step);
    } else {
      QuietKeepsSingle(s, step);
    }
  }

  lemma {:induction false} RunKeepsSingle(s: State, steps: seq<Step>)
    requires Inv(s) && Single(s) && Guarded(s, steps)
    ensures Inv(Exec(s, steps)) && Single(Exec(s, steps))
    decreases |steps|
  {
    if steps != [] {
      StepKeepsInv(s, steps[0]);
      StepKeepsSingle(s, steps[0]);
      RunKeepsSingle(Apply(s, steps[0]), steps[1..]);
    }
  }

  // ----------------------------------------------- one live refresh token

  /**
   * In every run, whatever overlaps and whoever dies, a family has at most one live refresh
   * token, as long as no rotation write hits a revoked token whose family has another live
   * one or a pair about to be minted.
   */
  lemma OneLiveRefresh(steps: seq<Step>, c: Id, t: Id, u: Id)
    requires Guarded(INIT, steps)
    requires var s := Exec(INIT, steps);
             && c in s.codes && LiveRefresh(s.tokens, t) && LiveRefresh(s.tokens, u)
             && Descends(s.tokens, c, t) && Descends(s.tokens, c, u)
    ensures t == u
  {
    var s := Exec(INIT, steps);
    RunKeepsSingle(INIT, steps);
    FamilyIsLineage(s, c, t);
    FamilyIsLineage(s, c, u);
    assert LiveIn(s, t, c) && LiveIn(s, u, c);
  }

  /** The guard that the rotation write lacks: the presented token is still unrevoked. */
  ghost predicate RotatesLive(s: State, steps: seq<Step>)
    decreases |steps|
  {
    steps == []
    || ((steps[0].RevokePresented? && steps[0].pid in s.handlers && s.handlers[steps[0].pid].Rotating? ==>
           Live(s.tokens, s.handlers[steps[0].pid].tokenId))
        && RotatesLive(Apply(s, steps[0]), steps[1..]))
  }

  lemma {:induction false} LiveRotationsAreGuarded(s: State, steps: seq<Step>)
    requires RotatesLive(s, steps)
    ensures Guarded(s, steps)
    decreases |steps|
  {
    if steps != [] { LiveRotationsAreGuarded(Apply(s, steps[0]), steps[1..]); }
  }

  /** With that guard in the write, one live refresh token per family would hold in every run. */
  lemma OneLiveWithTheGuard(steps: seq<Step>, c: Id, t: Id, u: Id)
    requires RotatesLive(INIT, steps)
    requires var s := Exec(INIT, steps);
             && c in s.codes && LiveRefresh(s.tokens, t) && LiveRefresh(s.tokens, u)
             && Descends(s.tokens, c, t) && Descends(s.tokens, c, u)
    ensures t == u
  {
    LiveRotationsAreGuarded(INIT, steps);
    OneLiveRefresh(steps, c, t, u);
  }

  // ---------------------------------------------- handlers one at a time

  ghost predicate Alone(s: State) { forall p, q | p in s.handlers && q in s.handlers :: p == q }

  /** Only the token that is being rotated may be live in its family. */
  ghost predicate RotatorHasRoom(s: State) { forall p, u, c | RotatesIn(s, p, c) && LiveIn(s, u, c) :: u == s.handlers[p].tokenId }

  ghost predicate SerialOk(s: State) { Single(s) && Alone(s) && RotatorHasRoom(s) }

  lemma SerialIsUndisturbed(s: State, step: Step)
    requires SerialOk(s)
    ensures Undisturbed(s, step)
  {
    if step.RevokePresented? && step.pid in s.handlers && s.handlers[step.pid].Rotating? {
      var p := step.pid;
      var t := s.handlers[p].tokenId;
      var c := RootOf(s, t);
      assert RotatesIn(s, p, c);
      if t in s.tokens && s.tokens[t].revokedAt.Some? {
        forall u ensures !LiveIn(s, u, c) {
        }
        forall q ensures !MintsIn(s, q, c) {
          assert q in s.handlers ==> q == p;
        }
      }
    }
  }

  lemma StaysAlone(s: State, step: Step)
    requires Alone(s) && (Begins(step) ==> s.handlers == map[])
    ensures Alone(Apply(s, step))
  {
  }

  lemma RotatorKeepsRoom(s: State, step: Step)
    requires Inv(s) && SerialOk(s) && !step.GrantCode? && !step.MintPair?
    ensures RotatorHasRoom(Apply(s, step))
  {
    StampsAdd(s, step);
    var s' := Apply(s, step);
    forall p, u, c | RotatesIn(s', p, c) && LiveIn(s', u, c) ensures u == s'.handlers[p].tokenId {
      RotatorsRead(s, step, p);
      assert LiveIn(s, u, c);
      if p in s.handlers && s.handlers[p] == s'.handlers[p] {
        assert RotatesIn(s, p, c);
      } else {
        assert LiveIn(s, s'.handlers[p].tokenId, c);
      }
    }
  }

  lemma SerialStep(s: State, step: Step)
    requires Inv(s) && SerialOk(s) && (Begins(step) ==> s.handlers == map[])
    ensures SerialOk(Apply(s, step))
  {
    var s' := Apply(s, step);
    SerialIsUndisturbed(s, step);
    StepKeepsSingle(s, step);
    StaysAlone(s, step);
    if s' == s {
    } else if step.GrantCode? {
      GrantConsents(s, step);
      assert forall p, c | RotatesIn(s', p, c) :: RotatesIn(s, p, c);
      assert forall u, c | LiveIn(s', u, c) :: LiveIn(s, u, c);
    } else if step.MintPair? {
      MintEffect(s, step);
      assert s'.handlers == map[];
    } else {
      RotatorKeepsRoom(s, step);
    }
  }

  lemma {:induction false} SerialRunsAreGuarded(s: State, steps: seq<Step>)
    requires Inv(s) && SerialOk(s) && Serial(s, steps)
    ensures Guarded(s, steps)
    decreases |steps|
  {
    if steps != [] {
      SerialIsUndisturbed(s, steps[0]);
      SerialStep(s, steps[0]);
      StepKeepsInv(s, steps[0]);
      SerialRunsAreGuarded(Apply(s, steps[0]), steps[1..]);
    }
  }

  /** One handler at a time, even dying half-way, is one way to keep to it. */
  lemma OneLiveWhenSerial(steps: seq<Step>, c: Id, t: Id, u: Id)
    requires Serial(INIT, steps)
    requires var s := Exec(INIT, steps);
             && c in s.codes && LiveRefresh(s.tokens, t) && LiveRefresh(s.tokens, u)
             && Descends(s.tokens, c, t) && Descends(s.tokens, c, u)
    ensures t == u
  {
    SerialRunsAreGuarded(INIT, steps);
    OneLiveRefresh(steps, c, t, u);
  }

  // ----------------------------------------------------------- the converse

  lemma {:induction false} AboveAll(ids: set<Id>) returns (n: Id)
    ensures forall id | id in ids :: id < n
    decreases |ids|
  {
    if ids == {} { return 0; }
    var id :| id in ids;
    var m := AboveAll(ids - {id});
    n := if m > id then m else id + 1;
    forall x | x in ids ensures x < n {
      assert x == id || x in ids - {id};
    }
  }

  /** There are always ids that were never drawn. */
  lemma Draws(s: State) returns (f: Fresh, g: Fresh)
    ensures IsFresh(f, s.codes, s.tokens) && IsFresh(g, s.codes, s.tokens)
    ensures {f.accessId, f.refreshId} !! {g.accessId, g.refreshId}
  {
    var n := AboveAll(s.codes.Keys + s.tokens.Keys);
    f, g := Fresh(n, n + 1, "", ""), Fresh(n + 2, n + 3, "", "");
  }

  lemma MintApplies(s: State, p: Pid, f: Fresh, now: int)
    requires p in s.handlers && s.handlers[p].Minting? && IsFresh(f, s.codes, s.tokens)
    ensures Mints(s, Apply(s, MintPair(p, f, now)), p, f, now)
  {
  }

  /** A handler that is about to mint mints a live pair in its family. */
  lemma MintIsLive(s: State, p: Pid, f: Fresh, now: int, c: Id)
    requires Inv(s) && MintsIn(s, p, c) && IsFresh(f, s.codes, s.tokens)
    ensures var s' := Apply(s, MintPair(p, f, now)); MintsFor(s, s', p, f, now, c) && LiveIn(s', f.refreshId, c)
  {
    MintApplies(s, p, f, now);
    MintRoots(s, Apply(s, MintPair(p, f, now)), p, f, now);
  }

  lemma MintKeepsLive(s: State, s': State, p: Pid, f: Fresh, now: int, c: Id, u: Id)
    requires MintsFor(s, s', p, f, now, c) && LiveIn(s, u, c)
    ensures LiveIn(s', u, c) && u != f.refreshId
  {
  }

  lemma MintKeepsMinter(s: State, s': State, p: Pid, f: Fresh, now: int, c: Id, q: Pid)
    requires Inv(s) && MintsFor(s, s', p, f, now, c) && MintsIn(s, q, c) && q != p
    ensures MintsIn(s', q, c)
  {
    assert HandlerOk(s, s.handlers[q]);
  }

  /** The rotation write makes its handler a minter and revokes no other token. */
  lemma RotationGoesOn(s: State, p: Pid, now: int, c: Id)
    requires Inv(s) && RotatesIn(s, p, c)
    ensures var s' := Apply(s, RevokePresented(p, now));
            && MintsIn(s', p, c) && s'.codes == s.codes
            && (forall u | LiveIn(s, u, c) && u != s.handlers[p].tokenId :: LiveIn(s', u, c))
            && (forall q | MintsIn(s, q, c) :: MintsIn(s', q, c) && q != p)
  {
    assert HandlerOk(s, s.handlers[p]);
    RotationWrites(s, p, now);
    var s' := Apply(s, RevokePresented(p, now));
    forall u | LiveIn(s, u, c) && u != s.handlers[p].tokenId ensures LiveIn(s', u, c) {
      assert s'.tokens[u] == s.tokens[u];
    }
    forall q | MintsIn(s, q, c) ensures MintsIn(s', q, c) && q != p {
      assert s'.handlers[q] == s.handlers[q];
    }
  }

  lemma RotationWrites(s: State, p: Pid, now: int)
    requires p in s.handlers && s.handlers[p].Rotating? && s.handlers[p].tokenId in s.tokens
    ensures var s' := Apply(s, RevokePresented(p, now));
            var h := s.handlers[p];
            && s'.codes == s.codes && s'.lineage == s.lineage
            && s'.tokens == s.tokens[h.tokenId := s.tokens[h.tokenId].(revokedAt := Some(now))]
            && s'.handlers == s.handlers[p := Minting(h.tokenId, h.grant)]
  {
  }

  ghost predicate TwoLive(s: State, c: Id) {
    exists t, u :: t != u && LiveRefresh(s.tokens, t) && LiveRefresh(s.tokens, u)
                   && Descends(s.tokens, c, t) && Descends(s.tokens, c, u)
  }

  lemma TwoLiveIn(s: State, c: Id, t: Id, u: Id)
    requires Inv(s) && c in s.codes && t != u && LiveIn(s, t, c) && LiveIn(s, u, c)
    ensures TwoLive(s, c)
  {
    FamilyIsLineage(s, c, t);
    FamilyIsLineage(s, c, u);
  }

  /** The mint of a handler that is about to, and the state that the rest of a run goes on from. */
  lemma Minted(s: State, p: Pid, c: Id, now: int) returns (f: Fresh, s': State)
    requires Inv(s) && MintsIn(s, p, c)
    ensures Inv(s') && MintsFor(s, s', p, f, now, c) && LiveIn(s', f.refreshId, c)
    ensures s' == Apply(s, MintPair(p, f, now))
  {
    var g;
    f, g := Draws(s);
    s' := Apply(s, MintPair(p, f, now));
    StepKeepsInv(s, MintPair(p, f, now));
    MintIsLive(s, p, f, now, c);
  }

  /** At most `n` mints from here leave two live refresh tokens. */
  ghost predicate Forks(s: State, c: Id, n: nat) {
    exists more :: |more| <= n && OnlyMints(more) && TwoLive(Exec(s, more), c)
  }

  lemma ForksAlready(s: State, c: Id)
    requires TwoLive(s, c)
    ensures Forks(s, c, 0)
  {
    assert OnlyMints([]) && TwoLive(Exec(s, []), c);
  }

  lemma MintFirst(mint: Step, rest: seq<Step>)
    requires mint.MintPair? && OnlyMints(rest)
    ensures OnlyMints([mint] + rest)
  {
  }

  lemma ForksAfter(s: State, mint: Step, c: Id, n: nat)
    requires mint.MintPair? && Forks(Apply(s, mint), c, n)
    ensures Forks(s, c, n + 1)
  {
    var rest :| |rest| <= n && OnlyMints(rest) && TwoLive(Exec(Apply(s, mint), rest), c);
    First(s, mint, rest);
    MintFirst(mint, rest);
  }

  lemma MintBesideLive(s: State, p: Pid, c: Id, u: Id, now: int)
    requires Inv(s) && c in s.codes && MintsIn(s, p, c) && LiveIn(s, u, c)
    ensures Forks(s, c, 1)
  {
    var f, s' := Minted(s, p, c, now);
    MintKeepsLive(s, s', p, f, now, c, u);
    TwoLiveIn(s', c, u, f.refreshId);
    ForksAlready(s', c);
    ForksAfter(s, MintPair(p, f, now), c, 0);
  }

  lemma TwoMint(s: State, p: Pid, q: Pid, c: Id, now: int)
    requires Inv(s) && c in s.codes && MintsIn(s, p, c) && MintsIn(s, q, c) && p != q
    ensures Forks(s, c, 2)
  {
    var f, s' := Minted(s, p, c, now);
    MintKeepsMinter(s, s', p, f, now, c, q);
    MintBesideLive(s', q, c, f.refreshId, now);
    ForksAfter(s, MintPair(p, f, now), c, 1);
  }

  lemma MintsFork(s: State, p: Pid, c: Id, t: Id, before: State, now: int)
    requires Inv(s) && c in s.codes && MintsIn(s, p, c)
    requires !Empty(before, c) && !LiveIn(before, t, c)
    requires forall u | LiveIn(before, u, c) && u != t :: LiveIn(s, u, c)
    requires forall q | MintsIn(before, q, c) :: MintsIn(s, q, c) && q != p
    ensures Forks(s, c, 2)
  {
    if u :| LiveIn(before, u, c) {
      MintBesideLive(s, p, c, u, now);
    } else {
      var q :| MintsIn(before, q, c);
      TwoMint(s, p, q, c, now);
    }
  }

  /**
   * The condition is exact: from any reachable state in which a rotation write is about to hit
   * a revoked token whose family is not empty, that write and the mints due after it leave
   * two live refresh tokens.
   */
  lemma DisturbedRotationForks(steps: seq<Step>, p: Pid, c: Id, now: int) returns (more: seq<Step>)
    requires var s := Exec(INIT, steps);
             c in s.codes && RotatesIn(s, p, c) && !Undisturbed(s, RevokePresented(p, now))
    ensures more != [] && more[0] == RevokePresented(p, now) && |more| <= 3 && OnlyMints(more[1..])
    ensures TwoLive(Exec(Exec(INIT, steps), more), c)
  {
    var s := Exec(INIT, steps);
    Reachable(steps);
    StepKeepsInv(s, RevokePresented(p, now));
    RotationGoesOn(s, p, now, c);
    var s' := Apply(s, RevokePresented(p, now));
    MintsFork(s', p, c, s.handlers[p].tokenId, s, now);
    var mints :| |mints| <= 2 && OnlyMints(mints) && TwoLive(Exec(s', mints), c);
    more := [RevokePresented(p, now)] + mints;
    First(s, more[0], mints);
  }

  predicate OnlyMints(steps: seq<Step>) { forall i :: 0 <= i < |steps| ==> steps[i].MintPair? }

  // ------------------------------------------------- when a replay is final

  ghost predicate FamilyDead(s: State, c: Id) {
    forall t | t in s.tokens && Descends(s.tokens, c, t) :: s.tokens[t].revokedAt.Some?
  }

  /** The handler has yet to mint below `c`. */
  ghost predicate WillMint(s: State, p: Pid, c: Id) {
    p in s.handlers
    && match s.handlers[p]
       case Minting(parent, _) => parent == c || (parent in s.tokens && Descends(s.tokens, c, parent))
       case Rotating(t, _) => t in s.tokens && Descends(s.tokens, c, t)
       case _ => false
  }

  lemma WillMintIsLineage(s: State, p: Pid, c: Id)
    requires Inv(s) && c in s.codes
    ensures WillMint(s, p, c) <==> MintsIn(s, p, c) || RotatesIn(s, p, c)
  {
    if p in s.handlers {
      assert HandlerOk(s, s.handlers[p]);
      if s.handlers[p].Minting? && s.handlers[p].parentId in s.tokens {
        FamilyIsLineage(s, c, s.handlers[p].parentId);
        CodesAreNoTokens(s.tokens, s.lineage, s.codes.Keys);
      } else if s.handlers[p].Rotating? {
        FamilyIsLineage(s, c, s.handlers[p].tokenId);
      }
    }
  }

  /** Nothing lives in the family and nobody is about to mint in it. */
  ghost predicate Over(s: State, c: Id) {
    && c in s.codes && s.codes[c].consumedAt.Some?
    && (forall t | t in s.tokens && RootOf(s, t) == c :: s.tokens[t].revokedAt.Some?)
    && (forall p :: !MintsIn(s, p, c) && !RotatesIn(s, p, c))
  }

  lemma StampKeepsOver(s: State, step: Step, c: Id)
    requires Inv(s) && Over(s, c) && !step.GrantCode? && !step.MintPair?
    ensures Over(Apply(s, step), c)
  {
    StampsAdd(s, step);
    StampKeepsDead(s, step, c);
    var s' := Apply(s, step);
    forall p ensures !MintsIn(s', p, c) && !RotatesIn(s', p, c) {
      if p in s'.handlers && s'.handlers[p].Minting? { OverStartsNoMinter(s, step, p, c); }
      if p in s'.handlers && s'.handlers[p].Rotating? { OverStartsNoRotator(s, step, p, c); }
    }
  }

  lemma StampKeepsDead(s: State, step: Step, c: Id)
    requires Inv(s) && Over(s, c) && !step.GrantCode? && !step.MintPair?
    ensures var s' := Apply(s, step); forall t | t in s'.tokens && RootOf(s', t) == c :: s'.tokens[t].revokedAt.Some?
  {
    OthersStamp(s, step);
    assert Apply(s, step).lineage == s.lineage;
  }

  lemma OverStartsNoRotator(s: State, step: Step, p: Pid, c: Id)
    requires Inv(s) && Over(s, c) && !step.GrantCode? && !step.MintPair?
    requires p in Apply(s, step).handlers && Apply(s, step).handlers[p].Rotating?
    ensures !RotatesIn(Apply(s, step), p, c)
  {
    StampsAdd(s, step);
    RotatorsRead(s, step, p);
    assert !RotatesIn(s, p, c);
  }

  lemma OverStartsNoMinter(s: State, step: Step, p: Pid, c: Id)
    requires Inv(s) && Over(s, c) && !step.GrantCode? && !step.MintPair?
    requires p in Apply(s, step).handlers && Apply(s, step).handlers[p].Minting?
    ensures !MintsIn(Apply(s, step), p, c)
  {
    StampsAdd(s, step);
    MintersStart(s, step, p);
    if p in s.handlers && s.handlers[p] == Apply(s, step).handlers[p] {
      assert !MintsIn(s, p, c);
    } else if step.Claim? {
      ClaimantStarts(s, step);
      assert s.handlers[p].codeId !in s.lineage;
    } else {
      RotatorStarts(s, step);
      assert !RotatesIn(s, p, c);
    }
  }

  lemma MintKeepsOver(s: State, step: Step, c: Id)
    requires Inv(s) && Over(s, c) && step.MintPair? && Apply(s, step) != s
    ensures Over(Apply(s, step), c)
  {
    MintEffect(s, step);
    var s', p, f := Apply(s, step), step.pid, step.drawn;
    var d := RootOf(s, s.handlers[p].parentId);
    assert !MintsIn(s, p, c) && MintsIn(s, p, d);
    forall t | t in s'.tokens && RootOf(s', t) == c ensures s'.tokens[t].revokedAt.Some? {
      MintedRows(s, s', p, f, step.now, d, t);
    }
    forall q ensures !MintsIn(s', q, c) && !RotatesIn(s', q, c) {
      assert !MintsIn(s, q, c) && !RotatesIn(s, q, c);
      if q in s'.handlers { MintedHandlers(s, s', p, f, step.now, d, q); }
    }
  }

  lemma ConsentKeepsOver(s: State, step: Step, c: Id)
    requires Inv(s) && Over(s, c) && step.GrantCode? && Apply(s, step) != s
    ensures Over(Apply(s, step), c)
  {
    GrantConsents(s, step);
    var s' := Apply(s, step);
    forall p ensures !MintsIn(s', p, c) && !RotatesIn(s', p, c) {
      assert !MintsIn(s, p, c) && !RotatesIn(s, p, c);
    }
  }

  lemma StepKeepsOver(s: State, step: Step, c: Id)
    requires Inv(s) && Over(s, c)
    ensures Over(Apply(s, step), c)
  {
    if Apply(s, step) == s {
    } else if step.GrantCode? {
      ConsentKeepsOver(s, step, c);
    } else if step.MintPair? {
      MintKeepsOver(s, step, c);
    } else {
      StampKeepsOver(s, step, c);
    }
  }

  lemma {:induction false} OverForGood(s: State, steps: seq<Step>, c: Id)
    requires Inv(s) && Over(s, c)
    ensures Over(Exec(s, steps), c)
    decreases |steps|
  {
    if steps != [] {
      StepKeepsInv(s, steps[0]);
      StepKeepsOver(s, steps[0], c);
      OverForGood(Apply(s, steps[0]), steps[1..], c);
    }
  }

  lemma OverIsDead(s: State, c: Id)
    requires Inv(s) && c in s.codes && s.codes[c].consumedAt.Some?
    ensures Over(s, c) <==> FamilyDead(s, c) && forall p :: !WillMint(s, p, c)
  {
    forall t | t in s.tokens ensures RootOf(s, t) == c <==> Descends(s.tokens, c, t) {
      FamilyIsLineage(s, c, t);
    }
    forall p ensures WillMint(s, p, c) <==> MintsIn(s, p, c) || RotatesIn(s, p, c) {
      WillMintIsLineage(s, p, c);
    }
  }

  lemma MinterRevives(s: State, p: Pid, c: Id) returns (more: seq<Step>)
    requires Inv(s) && c in s.codes && MintsIn(s, p, c)
    ensures !FamilyDead(Exec(s, more), c)
  {
    var f, s' := Minted(s, p, c, 0);
    FamilyIsLineage(s', c, f.refreshId);
    more := [MintPair(p, f, 0)] + [];
    First(s, MintPair(p, f, 0), []);
    assert Exec(s', []) == s';
  }

  lemma RotatorRevives(s: State, p: Pid, c: Id) returns (more: seq<Step>)
    requires Inv(s) && c in s.codes && RotatesIn(s, p, c)
    ensures !FamilyDead(Exec(s, more), c)
  {
    RotationGoesOn(s, p, 0, c);
    StepKeepsInv(s, RevokePresented(p, 0));
    var mint := MinterRevives(Apply(s, RevokePresented(p, 0)), p, c);
    more := [RevokePresented(p, 0)] + mint;
    First(s, RevokePresented(p, 0), mint);
  }

  lemma MintRevives(s: State, p: Pid, c: Id) returns (more: seq<Step>)
    requires Inv(s) && c in s.codes && WillMint(s, p, c)
    ensures !FamilyDead(Exec(s, more), c)
  {
    WillMintIsLineage(s, p, c);
    if MintsIn(s, p, c) {
      more := MinterRevives(s, p, c);
    } else {
      more := RotatorRevives(s, p, c);
    }
  }

  /**
   * When a revoked family is revoked for good: in every continuation it stays without a live
   * token if and only if no handler under way has yet to mint in it, be it the first pair of
   * the code or the next pair of a rotation.
   */
  lemma DeadForGoodIff(steps: seq<Step>, c: Id)
    requires var s := Exec(INIT, steps); c in s.codes && s.codes[c].consumedAt.Some? && FamilyDead(s, c)
    ensures var s := Exec(INIT, steps);
            (forall more: seq<Step> :: FamilyDead(Exec(s, more), c)) <==> (forall p :: !WillMint(s, p, c))
  {
    var s := Exec(INIT, steps);
    Reachable(steps);
    OverIsDead(s, c);
    if p :| WillMint(s, p, c) {
      var more := MintRevives(s, p, c);
      assert !FamilyDead(Exec(s, more), c);
    } else {
      forall more: seq<Step> ensures FamilyDead(Exec(s, more), c) {
        OverForGood(s, more, c);
        RunKeepsInv(s, more);
        OverIsDead(Exec(s, more), c);
      }
    }
  }
}
