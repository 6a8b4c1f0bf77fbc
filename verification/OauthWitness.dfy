/** Two outcomes that a reader might think impossible, each at the end of a run that the service can take: a refresh
    refused for its `openid`, and a client's own token shown fields outside the consent. */
module OauthWitness {
  import opened Types
  import opened Database
  import opened Store
  import opened OauthProtocol
  import opened OauthMachine
  import opened OauthServe
  import OauthInterleaved

  /** The random strings of the run: the uuids of the user and the client, and the draws of four requests. */
  datatype Names = Names(user: string, client: string, consent: Draw, authorize: Draw, grant: Draw, refresh: Draw)

  function DrawSet(d: Draw): set<string> {
    {d.access, d.refresh}
  }

  /** No two of the strings are the same. */
  ghost predicate Distinct(n: Names) {
    && n.user != n.client
    && n.consent.access != n.consent.refresh && n.authorize.access != n.authorize.refresh
    && n.grant.access != n.grant.refresh && n.refresh.access != n.refresh.refresh
    && {n.user, n.client} !! DrawSet(n.consent) !! DrawSet(n.authorize) !! DrawSet(n.grant) !! DrawSet(n.refresh)
  }

  /** The run so far: nothing is in progress and only the given strings are used up. */
  ghost predicate Stands(s: Sys, w: World, used: set<string>) {
    Quiet(s) && s.world == w && s.used <= used
  }

  function TwoScopes(): seq<Scope> {
    [Openid, OfflineAccess]
  }

  /** The client asks for two scopes, both optional, and for ID tokens. */
  const PATCH := ClientPatch(None, None, Some([Profile, Email]), Some(true))

  /** A user signs up, a client is registered with one url, and sends the patch. */
  function Setup(n: Names, u: User, secret: string, url: string): seq<Action> {
    [Write(UserCreated(n.user, u)), Write(ClientCreated(n.client, secret, [url], n.user)),
     Write(ClientUpdated(n.client, PATCH, n.user))]
  }

  function SetupDb(n: Names, u: User, secret: string, url: string): Db {
    Db(map[n.user := u], map[n.client := Client(secret, [url], true, [], [Profile, Email])],
       map[Membership(n.user, n.client) := OWNER], map[], map[], map[])
  }

  /** One more write. */
  lemma WriteNext(p: Prims, before: seq<Action>, w: World, used: set<string>, st: Statement)
    requires Stands(Exec(p, true, INITIAL, before), w, used)
    requires (st.ClientUpdated? ==> PatchAccepted(st.patch)) && DrawnBy(st) !! used && Execute(w.db, st).Ok?
    ensures Stands(Exec(p, true, INITIAL, before + [Write(st)]), w.(db := Execute(w.db, st).value), used + DrawnBy(st))
  {
    hide Execute, DrawnBy, DeclareAfter;
    assert (before + [Write(st)])[..|before + [Write(st)]| - 1] == before;
  }

  lemma SetupRuns(p: Prims, n: Names, u: User, secret: string, url: string)
    requires n.user != n.client
    ensures Stands(Exec(p, true, INITIAL, Setup(n, u, secret, url)),
                   World(0, SetupDb(n, u, secret, url), map[], map[]), {n.user, n.client})
  {
    hide Exec, Stands;
    var a, b := UserCreated(n.user, u), ClientCreated(n.client, secret, [url], n.user);
    var c := ClientUpdated(n.client, PATCH, n.user);
    var w0 := World(0, EMPTY_DB, map[], map[]);
    StartStands(p);
    WriteNext(p, [], w0, {}, a);
    var w1 := w0.(db := Execute(w0.db, a).value);
    assert DrawnBy(a) == {n.user} && {} + DrawnBy(a) == {n.user};
    WriteNext(p, [] + [Write(a)], w1, {n.user}, b);
    var w2 := w1.(db := Execute(w1.db, b).value);
    assert {n.user} + DrawnBy(b) == {n.user, n.client};
    WriteNext(p, [] + [Write(a)] + [Write(b)], w2, {n.user, n.client}, c);
    assert {n.user, n.client} + DrawnBy(c) == {n.user, n.client};
    assert Setup(n, u, secret, url) == [] + [Write(a)] + [Write(b)] + [Write(c)];
    assert Execute(w2.db, c).value == SetupDb(n, u, secret, url);
  }

  lemma StartStands(p: Prims)
    ensures Stands(Exec(p, true, INITIAL, []), World(0, EMPTY_DB, map[], map[]), {})
  {
  }

  /** One more request, served in one go. */
  lemma ServeNext(p: Prims, before: seq<Action>, w: World, used: set<string>, r: Request, d: Draw)
    returns (acts: seq<Action>)
    requires Stands(Exec(p, true, INITIAL, before), w, used) && Accepted(r) && FreshDraw(used, d)
    ensures Stands(Exec(p, true, INITIAL, acts), Serve(p, w, r, d).0, used + DrawSet(d))
  {
    hide Serve;
    var s := Exec(p, true, INITIAL, before);
    var serve := ServeIsSerialRun(p, s, r, d);
    acts := before + serve;
    ExecJoin(p, true, INITIAL, before, serve);
    ServedIsDone(p, w, r, d);
  }

  /** The user consents to one of the two scopes. */
  function OneConsent(n: Names): Request {
    Consent(n.user, n.client, [Profile])
  }

  lemma Consented(p: Prims, w: World, n: Names)
    requires n.user in w.db.users && n.client in w.db.clients
    requires w.db.clients[n.client].scopes == [] && Profile in w.db.clients[n.client].optionalScopes
    ensures Serve(p, w, OneConsent(n), n.consent).0
         == w.(db := w.db.(consents := w.db.consents[ConsentKey(n.client, n.user) := [Profile]]))
  {
    hide Serve;
    ConsentIff(p, w, n.user, n.client, [Profile], n.consent);
  }

  /** The state both runs share: the setup and the consent. */
  function ConsentedWorld(n: Names, u: User, secret: string, url: string): World {
    var db := SetupDb(n, u, secret, url);
    World(0, db.(consents := map[ConsentKey(n.client, n.user) := [Profile]]), map[], map[])
  }

  lemma ConsentRuns(p: Prims, n: Names, u: User, secret: string, url: string) returns (acts: seq<Action>)
    requires Distinct(n)
    ensures Stands(Exec(p, true, INITIAL, acts), ConsentedWorld(n, u, secret, url),
        {n.user, n.client} + DrawSet(n.consent))
  {
    hide Serve, Exec, Stands, Setup;
    var w0 := World(0, SetupDb(n, u, secret, url), map[], map[]);
    SetupRuns(p, n, u, secret, url);
    acts := ServeNext(p, Setup(n, u, secret, url), w0, {n.user, n.client}, OneConsent(n), n.consent);
    Consented(p, w0, n);
  }

  /** The authorization that leads to a refresh row with `openid`. */
  function Authorization(n: Names, url: string, challenge: string, nonce: string): Request {
    Authorize(n.user, n.client, challenge, "plain", url, TwoScopes(), Some(nonce))
  }

  lemma Authorized(p: Prims, w: World, n: Names, url: string, challenge: string, nonce: string)
    requires n.client in w.db.clients && ConsentKey(n.client, n.user) in w.db.consents && nonce != ""
    requires url in w.db.clients[n.client].urls && w.db.clients[n.client].idTokenAllowed
    ensures var w' := Serve(p, w, Authorization(n, url, challenge, nonce), n.authorize).0;
      && w'.db == w.db && w'.now == w.now && Live(w'.codes, n.authorize.access, w.now)
      && w'.codes[n.authorize.access].value
         == AuthorizeCache(n.client, n.user, challenge, "plain", url, TwoScopes(), Some(nonce))
  {
    var r := Authorization(n, url, challenge, nonce);
    Unfold(p, w, r, AuthReadClient, n.authorize);
    Unfold(p, w, r, AuthReadConsent(w.db.clients[n.client]), n.authorize);
    Unfold(p, w, r, AuthStore, n.authorize);
  }

  lemma Redeemed(p: Prims, w: World, n: Names, challenge: string)
    requires Live(w.codes, n.authorize.access, w.now)
    requires var c := w.codes[n.authorize.access].value;
      && c.clientId == n.client && c.userUuid == n.user && c.scope == TwoScopes()
      && c.codeChallengeMethod == "plain" && c.codeChallenge == challenge
    requires n.user in w.db.users && n.client in w.db.clients && w.db.refreshTokens == map[]
    ensures var (w', t) := Serve(p, w, CodeGrant(Some(n.client), n.authorize.access, Some(challenge)), n.grant);
      && t.Done? && t.resp.Tokens? && t.resp.refreshToken == Some(n.grant.refresh)
      && w'.now == w.now && n.grant.refresh in w'.db.refreshTokens
      && w'.db.refreshTokens[n.grant.refresh]
         == RefreshToken(n.user, n.client, TwoScopes(), None, w.now + 2592000 * 1000)
  {
    hide Serve;
    CodeGrantIff(p, w, Some(n.client), n.authorize.access, Some(challenge), n.grant);
    CodeGrantLeaves(p, w, Some(n.client), n.authorize.access, Some(challenge), n.grant);
  }

  /** For every user row, client secret, url, challenge and nonce there is a serial run that ends with a refresh
      token delivered, stored, unexpired and the client's own, whose scope contains `openid`. Redeeming it fails as
      an invalid request, keeps the row, writes a second one beside it, and leaves a new access token alive for
      three hours. */
  lemma OpenidRefreshRefused(
      p: Prims, n: Names, u: User, secret: string, url: string, challenge: string, nonce: string)
    returns (acts: seq<Action>)
    requires Distinct(n) && 0 < |nonce| <= 255 && n.grant.refresh != ""
    ensures var s := Exec(p, true, INITIAL, acts);
      var w, token, d := s.world, n.grant.refresh, n.refresh;
      var r := RefreshGrant(Some(n.client), token);
      var (w', t) := Serve(p, w, r, d);
      && Quiet(s) && FreshDraw(s.used, d)
      && Redeemable(w, Some(n.client), token) && Openid in w.db.refreshTokens[token].scopes
      && t == Failed(r, InvalidRequest)
      && token in w'.db.refreshTokens && w'.db.refreshTokens[token] == w.db.refreshTokens[token]
      && d.refresh in w'.db.refreshTokens && d.refresh !in w.db.refreshTokens
      && Live(w'.tokens, d.access, w.now + 10800 * 1000)
  {
    hide Serve, Exec, Stands;
    var w1, used1 := ConsentedWorld(n, u, secret, url), {n.user, n.client} + DrawSet(n.consent);
    var acts1 := ConsentRuns(p, n, u, secret, url);
    var acts2 := ServeNext(p, acts1, w1, used1, Authorization(n, url, challenge, nonce), n.authorize);
    Authorized(p, w1, n, url, challenge, nonce);
    var w2 := Serve(p, w1, Authorization(n, url, challenge, nonce), n.authorize).0;
    var used2 := used1 + DrawSet(n.authorize);
    var redeem := CodeGrant(Some(n.client), n.authorize.access, Some(challenge));
    acts := ServeNext(p, acts2, w2, used2, redeem, n.grant);
    Redeemed(p, w2, n, challenge);
    FinalState(p, acts, Serve(p, w2, redeem, n.grant).0, used2 + DrawSet(n.grant), n);
  }

  lemma FinalState(p: Prims, acts: seq<Action>, w: World, used: set<string>, n: Names)
    requires Stands(Exec(p, true, INITIAL, acts), w, used) && FreshDraw(used, n.refresh)
    requires n.grant.refresh in w.db.refreshTokens && n.grant.refresh != "" && n.grant.refresh != n.refresh.refresh
    requires w.db.refreshTokens[n.grant.refresh]
          == RefreshToken(n.user, n.client, TwoScopes(), None, w.now + 2592000 * 1000)
    ensures var s := Exec(p, true, INITIAL, acts);
      var token, d := n.grant.refresh, n.refresh;
      var r := RefreshGrant(Some(n.client), token);
      var (w', t) := Serve(p, w, r, d);
      && s.world == w && Quiet(s) && FreshDraw(s.used, d)
      && Redeemable(w, Some(n.client), token) && Openid in w.db.refreshTokens[token].scopes
      && t == Failed(r, InvalidRequest)
      && token in w'.db.refreshTokens && w'.db.refreshTokens[token] == w.db.refreshTokens[token]
      && d.refresh in w'.db.refreshTokens && d.refresh !in w.db.refreshTokens
      && Live(w'.tokens, d.access, w.now + 10800 * 1000)
  {
    hide Serve, Exec;
    var scopes := TwoScopes();
    assert scopes[0] == Openid && scopes[1] == OfflineAccess;
    RefreshIff(p, true, acts, Some(n.client), n.grant.refresh, n.refresh);
    RefreshUnused(p, acts, n.refresh.refresh);
  }

  /** A string that was not drawn names no row. */
  lemma RefreshUnused(p: Prims, acts: seq<Action>, x: string)
    requires x !in Exec(p, true, INITIAL, acts).used
    ensures x !in Exec(p, true, INITIAL, acts).world.db.refreshTokens
  {
    hide Exec;
    OauthInterleaved.Reachable(p, true, acts);
  }

  // ---------------------------------------------------------------- a client's own token

  /** The client takes a token of its own for both scopes. */
  lemma TokenForClient(p: Prims, w: World, n: Names, key: string)
    requires n.client in w.db.clients && w.db.clients[n.client].optionalScopes == [Profile, Email]
    requires p.bcrypt(key, w.db.clients[n.client].secret)
    ensures Serve(p, w, ClientCredentials(n.client, Some(key), Some([Profile, Email])), n.grant).0
         == w.(tokens := w.tokens[n.grant.access := Timed(TokenCache(ToClient, None, n.client, [Profile, Email]),
                                                          w.now + 90 * 24 * 3600 * 1000)])
  {
    hide Serve;
    CredentialsIff(p, w, n.client, Some(key), Some([Profile, Email]), n.grant);
  }

  lemma ShownEmail(p: Prims, w: World, n: Names)
    requires Live(w.tokens, n.grant.access, w.now) && n.user != "" && n.user in w.db.users
    requires w.tokens[n.grant.access].value == TokenCache(ToClient, None, n.client, [Profile, Email])
    requires ConsentKey(n.client, n.user) in w.db.consents
    requires w.db.consents[ConsentKey(n.client, n.user)] == [Profile]
    ensures var t := Serve(p, w, Userinfo(n.grant.access, Some(n.user)), n.refresh).1;
      t.Done? && t.resp.Info? && t.resp.info.claims.email == Some(w.db.users[n.user].email)
  {
    hide Serve;
    UserinfoIff(p, w, n.grant.access, Some(n.user), n.refresh);
    assert [Profile, Email][0] == Profile && [Profile, Email][1] == Email;
  }

  /** For every user row, url, client secret and its hash there is a serial run that ends with the user's consent to the
      client covering the profile alone and with a token of the client's own, for which userinfo answers with the
      user's email. */
  lemma ClientSeesBeyondConsent(p: Prims, n: Names, u: User, key: string, secret: string, url: string)
    returns (acts: seq<Action>)
    requires Distinct(n) && n.user != "" && p.bcrypt(key, secret)
    ensures var s := Exec(p, true, INITIAL, acts);
      var w := s.world;
      var t := Serve(p, w, Userinfo(n.grant.access, Some(n.user)), n.refresh).1;
      && Quiet(s)
      && n.user in w.db.users && w.db.users[n.user] == u
      && ConsentKey(n.client, n.user) in w.db.consents && w.db.consents[ConsentKey(n.client, n.user)] == [Profile]
      && t.Done? && t.resp.Info? && t.resp.info.claims.email == Some(u.email)
      && InfoDiscloses(t.resp.info, Email)
  {
    hide Serve, Exec;
    var w1, used1 := ConsentedWorld(n, u, secret, url), {n.user, n.client} + DrawSet(n.consent);
    var acts1 := ConsentRuns(p, n, u, secret, url);
    var r := ClientCredentials(n.client, Some(key), Some([Profile, Email]));
    acts := ServeNext(p, acts1, w1, used1, r, n.grant);
    TokenForClient(p, w1, n, key);
    ShownEmail(p, Serve(p, w1, r, n.grant).0, n);
  }
}
