/** The two walks stop after 200 levels: runs exist in which that is one level too few. */
module OAuthDepthBound {
  import opened OAuthStore
  import OAuthCode
  import opened OAuthService
  import opened OAuthRuns
  import opened OAuthTheorems

  lemma {:induction false} ExecConcat(s: State, a: seq<Step>, b: seq<Step>)
    ensures Exec(s, a + b) == Exec(Exec(s, a), b)
    ensures Serial(s, a) && Serial(Exec(s, a), b) ==> Serial(s, a + b)
    decreases |a|
  {
    if a == [] {
      assert a + b == b;
    } else {
      assert (a + b)[1..] == a[1..] + b;
      ExecConcat(Apply(s, a[0]), a[1..], b);
    }
  }

  const CLIENT := Grant("client", "workspace", "user", ["leads.read"], "resource")

  function Secret(n: nat): string { if n == 0 then "r" else "r" + Secret(n - 1) }

  function Draw(n: nat): Fresh
    requires n >= 1
  {
    Fresh(2 * n - 1, 2 * n, "a" + Secret(n), Secret(n))
  }

  /** One code, row 0, and one live refresh token, row 2n, `n` generations below it. */
  ghost predicate Tip(s: State, n: nat) {
    && s.handlers == map[] && s.codes.Keys == {0} && s.codes[0].consumedAt.Some?
    && (forall t | t in s.tokens :: 1 <= t <= 2 * n)
    && Presents(s.tokens, 2 * n, Secret(n), REFRESH) && s.tokens[2 * n].revokedAt.None?
    && s.tokens[2 * n].grant == CLIENT && s.tokens[2 * n].expiresAt == REFRESH_TTL_MS
    && 2 * n in s.lineage && s.lineage[2 * n] == Line(0, n)
  }

  /** A fresh code of the client, as row 0. */
  ghost predicate Consented(s: State) {
    && s.handlers == map[] && s.tokens == map[] && s.lineage == map[] && s.codes.Keys == {0}
    && s.codes[0] == CodeRow(Sha256("code"), CLIENT, "uri", Sha256("verifier"), "S256", OAuthCode.CODE_TTL_MS, None)
  }

  lemma FirstConsent() returns (grant: Step)
    ensures !Begins(grant) && Consented(Apply(INIT, grant))
  {
    var authorize := OAuthCode.AuthorizeRequest("client", "uri", ["leads.read"], "resource", Sha256("verifier"));
    var members := map["workspace" := ["leads.read"]];
    grant := GrantCode(0, authorize, "user", members, "workspace", ["leads.read"], "code", 0);
    OAuthCode.DistinctIsIdentity(["leads.read"]);
    assert "leads.read" in OAuthCode.MCP_ALL_SCOPES;
  }

  lemma FirstGeneration() returns (steps: seq<Step>)
    ensures Serial(INIT, steps) && Tip(Exec(INIT, steps), 1)
  {
    var grant := FirstConsent();
    var s := Apply(INIT, grant);
    var req := ExchangeRequest(Some("code"), Some("verifier"), Some("client"), Some("uri"));
    var rest := [ReadCode(0, 0, req, 0), Claim(0, 0), MintPair(0, Draw(1), 0)];
    FirstExchange(s, 0, req, 0, Draw(1), 0);
    ThreeSteps(s, rest);
    steps := [grant] + rest;
    assert steps[1..] == rest;
    MintedLine(Apply(Apply(s, rest[0]), rest[1]), 0, Draw(1), 0);
  }

  lemma MintedLine(s: State, pid: Pid, f: Fresh, now: int)
    requires pid in s.handlers && s.handlers[pid].Minting? && IsFresh(f, s.codes, s.tokens)
    ensures var p := s.handlers[pid].parentId;
            Apply(s, MintPair(pid, f, now)).lineage ==
              var line := if p in s.lineage then Line(s.lineage[p].root, s.lineage[p].generation + 1) else Line(p, 1);
              s.lineage[f.accessId := line][f.refreshId := line]
  {
  }

  lemma NextGeneration(s: State, n: nat) returns (steps: seq<Step>)
    requires n >= 1 && Tip(s, n)
    ensures Serial(s, steps) && Tip(Exec(s, steps), n + 1)
  {
    var id, f := 2 * n, Draw(n + 1);
    var req := RefreshRequest(Some(Secret(n)), Some("client"));
    steps := [ReadRefresh(0, id, req, 0), RevokePresented(0, 0), MintPair(0, f, 0)];
    assert IsFresh(f, s.codes, s.tokens);
    Rotation(s, id, req, 0, f, 0);
    ThreeSteps(s, steps);
    RotatingLine(s, n);
    MintedLine(Apply(Apply(s, steps[0]), steps[1]), 0, f, 0);
  }

  lemma RotatingLine(s: State, n: nat)
    requires n >= 1 && Tip(s, n)
    ensures var s2 := Apply(Apply(s, ReadRefresh(0, 2 * n, RefreshRequest(Some(Secret(n)), Some("client")), 0)),
                            RevokePresented(0, 0));
            && s2.lineage == s.lineage && s2.handlers == map[0 := Minting(2 * n, CLIENT)]
            && s2.tokens.Keys == s.tokens.Keys && s2.codes == s.codes
  {
    var s1 := Apply(s, ReadRefresh(0, 2 * n, RefreshRequest(Some(Secret(n)), Some("client")), 0));
    assert s1 == With(s, 0, Rotating(2 * n, CLIENT));
  }

  /** A client that keeps refreshing reaches every generation. */
  lemma {:induction false} LongFamily(n: nat) returns (steps: seq<Step>)
    requires n >= 1
    ensures Serial(INIT, steps) && Tip(Exec(INIT, steps), n)
    decreases n
  {
    if n == 1 {
      steps := FirstGeneration();
    } else {
      var before := LongFamily(n - 1);
      var more := NextGeneration(Exec(INIT, before), n - 1);
      ExecConcat(INIT, before, more);
      steps := before + more;
    }
  }

  /**
   * For every depth there is a serial run with one live refresh token that deep, and then a
   * replay of the code revokes its family exactly when the depth is at most 200.
   */
  lemma BoundIsExact(n: nat, now: int) returns (steps: seq<Step>, live: Id)
    requires n >= 1
    ensures Serial(INIT, steps)
    ensures var s := Exec(INIT, steps);
            && 0 in s.codes && LiveRefresh(s.tokens, live) && Anc(s.tokens, live, n) == Some(0)
            && (LiveRefresh(RevokeReach(s.tokens, 0, now), live) <==> n > 200)
  {
    steps := LongFamily(n);
    live := 2 * n;
    Reachable(steps);
    DeepTip(Exec(INIT, steps), n, now);
  }

  lemma DeepTip(s: State, n: nat, now: int)
    requires n >= 1 && Inv(s) && Tip(s, n)
    ensures LiveRefresh(s.tokens, 2 * n) && Anc(s.tokens, 2 * n, n) == Some(0)
    ensures LiveRefresh(RevokeReach(s.tokens, 0, now), 2 * n) <==> n > MAX_CHAIN_DEPTH
  {
    var live := 2 * n;
    ChainToRoot(s.tokens, s.lineage, s.codes.Keys, live);
    forall m: nat | Anc(s.tokens, live, m) == Some(0) ensures m == n {
      TopIsUnique(s.tokens, live, n, m);
    }
    if n <= MAX_CHAIN_DEPTH { assert Within(s.tokens, 0, live, MAX_CHAIN_DEPTH); }
  }
}
