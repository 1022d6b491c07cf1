/**
 * Scopes, consent and the minting of authorization codes
 * (backend/src/modules/mcp-oauth/mcp-oauth-code.service.ts).
 *
 * Memberships and role permissions are another service: a caller's active memberships
 * arrive as a map from workspace to the permissions its role resolves to there.
 */
module OAuthCode {
  import opened OAuthStore
  import opened Text

  const MCP_ALL_SCOPES: seq<string> := [
    "leads.read", "leads.write", "leads.manage", "contacts.read", "contacts.write",
    "campaigns.read", "campaigns.write", "campaigns.send", "reports.read", "tasks.read",
    "tasks.write", "automations.manage", "courses.manage", "settings.manage"]

  const CODE_TTL_MS: int := 5 * 60 * 1000

  datatype Error = NoScope | NotRequested | NotMember | NotHeld | UnknownScope
  datatype Result<T> = Ok(value: T) | Err(error: Error)

  // ---------------------------------------------------------- scope strings

  ghost predicate IsWord(s: string) { s != "" && forall i :: 0 <= i < |s| ==> !IsSpace(s[i]) }

  function WordLength(s: string): (n: nat)
    ensures n <= |s|
    ensures forall i :: 0 <= i < n ==> !IsSpace(s[i])
    ensures n < |s| ==> IsSpace(s[n])
  {
    if s == "" || IsSpace(s[0]) then 0 else 1 + WordLength(s[1..])
  }

  /** `value.split(/\s+/).filter(Boolean)` */
  function Words(s: string): seq<string>
    decreases |s|
  {
    if s == "" then []
    else if IsSpace(s[0]) then Words(s[1..])
    else [s[..WordLength(s)]] + Words(s[WordLength(s)..])
  }

  /** `words.join(' ')` */
  function Join(words: seq<string>): string {
    if words == [] then "" else if |words| == 1 then words[0] else words[0] + " " + Join(words[1..])
  }

  /** `[...new Set(xs)]`: the first occurrence of each, in order. */
  function Distinct(xs: seq<string>): (r: seq<string>)
    ensures forall x :: x in r <==> x in xs
    ensures NoDuplicates(r)
  {
    if xs == [] then []
    else
      var r := Distinct(xs[..|xs| - 1]);
      assert xs == xs[..|xs| - 1] + [xs[|xs| - 1]];
      if xs[|xs| - 1] in r then r else r + [xs[|xs| - 1]]
  }

  ghost predicate NoDuplicates(xs: seq<string>) {
    forall i, j :: 0 <= i < j < |xs| ==> xs[i] != xs[j]
  }

  lemma {:induction false} DistinctIsIdentity(xs: seq<string>)
    requires NoDuplicates(xs)
    ensures Distinct(xs) == xs
  {
    if xs != [] {
      var front := xs[..|xs| - 1];
      assert NoDuplicates(front);
      DistinctIsIdentity(front);
      assert xs[|xs| - 1] !in front;
      assert front + [xs[|xs| - 1]] == xs;
    }
  }

  lemma WordThenSpace(w: string, rest: string)
    requires IsWord(w) && (rest == "" || IsSpace(rest[0]))
    ensures WordLength(w + rest) == |w|
  {
    var s := w + rest;
    assert forall i | 0 <= i < |w| :: s[i] == w[i];
    assert rest != "" ==> s[|w|] == rest[0];
  }

  /** A word and what follows it come apart again. */
  lemma WordsOfFirst(w: string, rest: string)
    requires IsWord(w) && (rest == "" || IsSpace(rest[0]))
    ensures Words(w + rest) == [w] + Words(rest)
  {
    WordThenSpace(w, rest);
    var s := w + rest;
    assert s[0] == w[0] && !IsSpace(w[0]);
    assert s[..|w|] == w && s[|w|..] == rest;
  }

  lemma JoinMore(words: seq<string>)
    requires |words| > 1
    ensures Join(words) == words[0] + (" " + Join(words[1..]))
  {
    assert words[0] + " " + Join(words[1..]) == words[0] + (" " + Join(words[1..]));
  }

  lemma {:induction false} WordsOfJoin(words: seq<string>)
    requires forall w | w in words :: IsWord(w)
    ensures Words(Join(words)) == words
  {
    if |words| == 1 {
      assert words[0] in words;
      WordsOfFirst(words[0], "");
      assert words[0] + "" == words[0] && words == [words[0]];
    } else if |words| > 1 {
      assert words[0] in words && forall u | u in words[1..] :: u in words;
      WordsOfJoin(words[1..]);
      var rest := " " + Join(words[1..]);
      assert rest[1..] == Join(words[1..]) && Words(rest) == words[1..];
      WordsOfFirst(words[0], rest);
      JoinMore(words);
      assert words == [words[0]] + words[1..];
    }
  }

  /** Lower-case letters and dots are not white space. */
  ghost predicate IsPlain(s: string) {
    s != "" && forall i :: 0 <= i < |s| ==> 'a' <= s[i] <= 'z' || s[i] == '.'
  }

  lemma PlainIsWord(s: string)
    requires IsPlain(s)
    ensures IsWord(s)
  {
  }

  lemma VocabularyIsWords()
    ensures forall s | s in MCP_ALL_SCOPES :: IsWord(s)
  {
    forall s | s in MCP_ALL_SCOPES ensures IsWord(s) {
      VocabularyIsPlain(s);
      PlainIsWord(s);
    }
  }

  lemma VocabularyIsPlain(s: string)
    requires s in MCP_ALL_SCOPES
    ensures IsPlain(s)
  {
  }

  /** The `scope` parameter; absent or empty asks for the whole vocabulary. */
  function ParseScopes(raw: Option<string>): Result<seq<string>> {
    if raw.None? || raw.value == "" then Ok(MCP_ALL_SCOPES)
    else
      var scopes := Distinct(Words(raw.value));
      if exists s :: s in scopes && s !in MCP_ALL_SCOPES then Err(UnknownScope) else Ok(scopes)
  }

  /**
   * The scope string of a token response (`scopes.join(' ')`) names exactly the granted
   * scopes when it is presented as a request again.
   */
  lemma ScopeRoundTrip(scopes: seq<string>)
    requires scopes != [] && NoDuplicates(scopes)
    requires forall s | s in scopes :: s in MCP_ALL_SCOPES
    ensures ParseScopes(Some(Join(scopes))) == Ok(scopes)
  {
    VocabularyIsWords();
    WordsOfJoin(scopes);
    DistinctIsIdentity(scopes);
    assert scopes[0] in scopes;
    assert Join(scopes) != "";
  }

  /** Parsing accepts a text exactly when all its words are known, and keeps those words. */
  lemma ParseIsExact(raw: string)
    requires raw != ""
    ensures ParseScopes(Some(raw)).Ok? <==> forall w | w in Words(raw) :: w in MCP_ALL_SCOPES
    ensures ParseScopes(Some(raw)).Ok? ==>
              && NoDuplicates(ParseScopes(Some(raw)).value)
              && forall w :: w in ParseScopes(Some(raw)).value <==> w in Words(raw)
  {
    assert forall w :: w in Distinct(Words(raw)) <==> w in Words(raw);
  }

  /** Asking for nothing in particular, absent or empty, is asking for the whole vocabulary by name. */
  lemma NoScopeMeansAll()
    ensures ParseScopes(None) == ParseScopes(Some("")) == ParseScopes(Some(Join(MCP_ALL_SCOPES))) == Ok(MCP_ALL_SCOPES)
    ensures |MCP_ALL_SCOPES| == 14 && NoDuplicates(MCP_ALL_SCOPES)
  {
    ScopeRoundTrip(MCP_ALL_SCOPES);
  }

  // ------------------------------------------------------------ the consent

  datatype AuthorizeRequest = AuthorizeRequest(clientId: string, redirectUri: string, requestedScopes: seq<string>,
                                               resource: string, codeChallenge: Digest)

  /** Permissions a user's role resolves to, for each workspace of an active membership. */
  type Memberships = map<string, seq<string>>

  function HeldScopes(permissions: seq<string>): set<string> {
    set p | p in permissions && p in MCP_ALL_SCOPES
  }

  /** The decision and, when it is positive, the row that is stored. */
  function GrantRow(req: AuthorizeRequest, userId: string, members: Memberships, workspaceId: string,
                    chosen: seq<string>, secret: string, now: int): Result<CodeRow>
  {
    var scopes := Distinct(chosen);
    if scopes == [] then Err(NoScope)
    else if exists s :: s in scopes && s !in req.requestedScopes then Err(NotRequested)
    else if workspaceId !in members then Err(NotMember)
    else if exists s :: s in scopes && s !in HeldScopes(members[workspaceId]) then Err(NotHeld)
    else Ok(CodeRow(Sha256(secret), Grant(req.clientId, workspaceId, userId, scopes, req.resource),
                    req.redirectUri, req.codeChallenge, "S256", now + CODE_TTL_MS, None))
  }

  /** Consent cannot manufacture authority: what a stored code may carry. */
  ghost predicate Capped(scopes: seq<string>, requested: seq<string>, held: set<string>) {
    && scopes != [] && NoDuplicates(scopes)
    && forall s | s in scopes :: s in requested && s in held && s in MCP_ALL_SCOPES
  }

  datatype ConsentWorkspace = ConsentWorkspace(workspaceId: string, grantableScopes: seq<string>)

  function Filter(xs: seq<string>, keep: set<string>): (r: seq<string>)
    ensures forall x :: x in r <==> x in xs && x in keep
  {
    if xs == [] then []
    else (if xs[0] in keep then [xs[0]] else []) + Filter(xs[1..], keep)
  }

  /** What the consent screen lists, in order. */
  function Offered(req: AuthorizeRequest, members: Memberships, listed: seq<string>): seq<ConsentWorkspace> {
    if listed == [] then []
    else
      var id := listed[|listed| - 1];
      Offered(req, members, listed[..|listed| - 1])
      + (if id in members then [ConsentWorkspace(id, Filter(req.requestedScopes, HeldScopes(members[id])))] else [])
  }

  /** Nothing is offered but a workspace of the user and, there, exactly the requested scopes that are held. */
  lemma {:induction false} OfferIsExact(req: AuthorizeRequest, members: Memberships, listed: seq<string>)
    ensures forall w | w in Offered(req, members, listed) ::
              w.workspaceId in listed && w.workspaceId in members
              && forall s :: s in w.grantableScopes
                             <==> s in req.requestedScopes && s in members[w.workspaceId] && s in MCP_ALL_SCOPES
    ensures forall id | id in listed && id in members ::
              exists w :: w in Offered(req, members, listed) && w.workspaceId == id
    decreases |listed|
  {
    if listed != [] {
      var init, last := listed[..|listed| - 1], listed[|listed| - 1];
      assert listed == init + [last];
      OfferIsExact(req, members, init);
      forall id | id in listed && id in members
        ensures exists w :: w in Offered(req, members, listed) && w.workspaceId == id
      {
        if id in init {
          var w :| w in Offered(req, members, init) && w.workspaceId == id;
          assert w in Offered(req, members, listed);
        } else {
          assert ConsentWorkspace(id, Filter(req.requestedScopes, HeldScopes(members[id]))) in Offered(req, members, listed);
        }
      }
    }
  }

  /** A code is minted for no more than the screen offered for that workspace. */
  lemma GrantWithinOffer(req: AuthorizeRequest, userId: string, members: Memberships, listed: seq<string>,
                         workspaceId: string, chosen: seq<string>, secret: string, now: int)
    requires workspaceId in listed
    ensures GrantRow(req, userId, members, workspaceId, chosen, secret, now).Ok?
            <==> chosen != [] && exists w :: w in Offered(req, members, listed) && w.workspaceId == workspaceId
                                             && forall s | s in chosen :: s in w.grantableScopes
  {
    OfferIsExact(req, members, listed);
    assert forall s :: s in Distinct(chosen) <==> s in chosen;
    assert chosen != [] ==> chosen[0] in Distinct(chosen);
  }

  class McpOAuthCodeService {
    var codes: Codes

    constructor ()
      ensures codes == map[]
    {
      codes := map[];
    }

    /** Everything the consent screen offers; `listed` is the display list of memberships. */
    method ConsentData(req: AuthorizeRequest, members: Memberships, listed: seq<string>)
      returns (workspaces: seq<ConsentWorkspace>)
      ensures workspaces == Offered(req, members, listed)
    {
      workspaces := [];
      for i := 0 to |listed|
        invariant workspaces == Offered(req, members, listed[..i])
      {
        assert listed[..i + 1][..i] == listed[..i];
        if listed[i] in members {
          var held := HeldScopes(members[listed[i]]);
          workspaces := workspaces + [ConsentWorkspace(listed[i], Filter(req.requestedScopes, held))];
        }
      }
      assert listed[..|listed|] == listed;
    }

    /** Mint the code, or refuse and store nothing. */
    method GrantCode(req: AuthorizeRequest, userId: string, members: Memberships, workspaceId: string,
                     chosen: seq<string>, codeId: Id, secret: string, now: int) returns (r: Result<string>)
      requires codeId !in codes
      modifies this
      ensures r.Ok? <==> && chosen != []
                         && (forall s | s in chosen :: s in req.requestedScopes)
                         && workspaceId in members
                         && (forall s | s in chosen :: s in members[workspaceId] && s in MCP_ALL_SCOPES)
      ensures r.Err? ==> codes == old(codes)
      ensures r.Ok? ==>
                && r.value == secret && codes.Keys == old(codes.Keys) + {codeId}
                && (forall id | id in old(codes) :: codes[id] == old(codes)[id])
                && GrantRow(req, userId, members, workspaceId, chosen, secret, now) == Ok(codes[codeId])
    {
      var row := GrantRow(req, userId, members, workspaceId, chosen, secret, now);
      assert chosen != [] ==> chosen[0] in Distinct(chosen);
      if row.Err? {
        return Err(row.error);
      }
      codes := codes[codeId := row.value];
      r := Ok(secret);
    }
  }

  /** A stored code is unconsumed, bound to the consenting user, and capped three ways. */
  lemma GrantedRowIsCapped(req: AuthorizeRequest, userId: string, members: Memberships, workspaceId: string,
                           chosen: seq<string>, secret: string, now: int)
    requires GrantRow(req, userId, members, workspaceId, chosen, secret, now).Ok?
    ensures var row := GrantRow(req, userId, members, workspaceId, chosen, secret, now).value;
            && row.consumedAt.None? && row.expiresAt == now + 300_000 && row.codeHash == Sha256(secret)
            && row.redirectUri == req.redirectUri && row.codeChallenge == req.codeChallenge
            && row.codeChallengeMethod == "S256"
            && row.grant.userId == userId && row.grant.clientId == req.clientId
            && row.grant.workspaceId == workspaceId && row.grant.resource == req.resource
            && Capped(row.grant.scopes, req.requestedScopes, HeldScopes(members[workspaceId]))
            && (forall s :: s in row.grant.scopes <==> s in chosen)
            && forall s | s in chosen :: s in req.requestedScopes && s in members[workspaceId] && s in MCP_ALL_SCOPES
  {
    assert forall s :: s in Distinct(chosen) <==> s in chosen;
  }
}
