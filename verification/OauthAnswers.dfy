/** What the OAuth handlers answer, value by value: the claims they release, and which refusal each failed request gets
    and what it leaves behind. */
module OauthAnswers {
  import opened Types
  import opened Database
  import opened Store
  import opened OauthProtocol
  import opened OauthServe
  import OauthSerialTheorems
  import ScopeText

  // ---------------------------------------------------------------- released values

  /** The claim is released exactly if it may be, with the column's value. */
  predicate Released<T(==)>(claim: Option<T>, may: bool, column: T) {
    (claim.Some? <==> may) && (claim.Some? ==> claim.value == column)
  }

  /** Every claim is the column of the same name of the user's row, released by its scope. */
  predicate ShowsRow(c: Claims, uuid: string, u: User, scope: seq<Scope>) {
    && c.sub == uuid
    && Released(c.profile, Profile in scope, u.profile)
    && Released(c.picture, Profile in scope, u.picture)
    && Released(c.name, Profile in scope, u.name)
    && Released(c.email, Email in scope, u.email)
    && Released(c.studentId, StudentId in scope, u.studentId)
    && Released(c.phoneNumber, PhoneNumber in scope, u.phoneNumber)
  }

  /** An answer of userinfo gives the values of the user's row as it is at that moment, both flags included. */
  lemma UserinfoAnswer(p: Prims, w: World, token: string, sub: Option<string>, d: Draw)
    requires Serve(p, w, Userinfo(token, sub), d).1.Done?
    ensures token in w.tokens
    ensures var c := w.tokens[token].value;
      var user := if c.to == ToClient then sub else c.sub;
      var t := Serve(p, w, Userinfo(token, sub), d).1;
      && user.Some? && user.value in w.db.users && t.resp.Info?
      && var u := w.db.users[user.value];
      && ShowsRow(t.resp.info.claims, user.value, u, c.scope)
      && Released(t.resp.info.isStudentIdVerified, StudentId in c.scope, u.isIdVerified)
      && Released(t.resp.info.isPhoneNumberVerified, PhoneNumber in c.scope, u.isPhoneNumberVerified)
  {
    hide Serve, ShowsRow, Released;
    UserinfoIff(p, w, token, sub, d);
    var c := w.tokens[token].value;
    InfoShowsRow(w.db.users[AskedFor(c, sub).value], AskedFor(c, sub).value, c.scope);
  }

  lemma InfoShowsRow(u: User, uuid: string, scope: seq<Scope>)
    ensures var i := UserInfoFor(u, uuid, scope);
      && ShowsRow(i.claims, uuid, u, scope)
      && Released(i.isStudentIdVerified, StudentId in scope, u.isIdVerified)
      && Released(i.isPhoneNumberVerified, PhoneNumber in scope, u.isPhoneNumberVerified)
  {
  }

  /** The ID token shows the row, names the client and the nonce, and its scope text reads back as the scope list. */
  predicate Describes(id: IdToken, u: User, uuid: string, client: string, nonce: Option<string>, scope: seq<Scope>) {
    && ShowsRow(id.claims, uuid, u, scope)
    && id.aud == client && id.nonce == nonce
    && (scope != [] ==> ScopeText.Parse(id.scope, ScopeText.SCOPE_LIST) == Some(scope))
  }

  lemma IdTokenDescribes(u: User, uuid: string, client: string, nonce: Option<string>, scope: seq<Scope>)
    ensures Describes(IdTokenFor(u, uuid, client, nonce, scope), u, uuid, client, nonce, scope)
  {
    hide ScopeText.Parse, ScopeText.Print;
    ScopeText.Listed();
    ScopeText.ParseOfPrint(scope, ScopeText.SCOPE_LIST);
  }

  /** The answer of a code grant has an ID token exactly if `openid` was granted; it gives the values of the user's row
      as it is at that moment, and the client, nonce and scope stored with the code. */
  lemma CodeGrantAnswer(p: Prims, w: World, client: Option<string>, code: string, verifier: Option<string>, d: Draw)
    requires Serve(p, w, CodeGrant(client, code, verifier), d).1.Done?
    ensures code in w.codes
    ensures var c := w.codes[code].value;
      var t := Serve(p, w, CodeGrant(client, code, verifier), d).1;
      && t.resp.Tokens?
      && (t.resp.idToken.Some? <==> Openid in c.scope)
      && (t.resp.idToken.Some? ==>
            && c.userUuid in w.db.users
            && Describes(t.resp.idToken.value, w.db.users[c.userUuid], c.userUuid, c.clientId, c.nonce, c.scope))
  {
    hide Serve, IdTokenFor, Describes;
    CodeGrantLeaves(p, w, client, code, verifier, d);
    var c := w.codes[code].value;
    if Openid in c.scope {
      IdTokenDescribes(w.db.users[c.userUuid], c.userUuid, c.clientId, c.nonce, c.scope);
    }
  }

  // ---------------------------------------------------------------- refusals

  /** Why a consent is refused: the first of these that applies. */
  function WhyNotConsented(w: World, user: string, client: string, scope: seq<Scope>): Option<Failure> {
    if client !in w.db.clients then Some(NotFound)
    else
      var c := w.db.clients[client];
      if exists s :: s in scope && s !in c.scopes && s !in c.optionalScopes then Some(InvalidScope)
      else if exists s :: s in c.scopes && s !in scope then Some(InvalidScope)
      else if user !in w.db.users then Some(Internal)
      else None
  }

  lemma ConsentRefused(p: Prims, w: World, user: string, client: string, scope: seq<Scope>, d: Draw)
    ensures var r := Consent(user, client, scope);
      var (w', t) := Serve(p, w, r, d);
      match WhyNotConsented(w, user, client, scope)
      case Some(e) => t == Failed(r, e) && w' == w
      case None => t.Done?
  {
    ConsentIff(p, w, user, client, scope, d);
    var r := Consent(user, client, scope);
    Unfold(p, w, r, ConsentReadClient, d);
    Unfold(p, w, r, ConsentUpsert, d);
  }

  /** Why an authorization is refused: the first of these that applies. */
  function WhyNotAuthorized(w: World, r: Request): Option<Failure>
    requires r.Authorize?
  {
    if r.clientId !in w.db.clients then Some(UnauthorizedClient)
    else if ConsentKey(r.clientId, r.user) !in w.db.consents then Some(InvalidGrant)
    else if exists s :: s in r.scope && s !in w.db.consents[ConsentKey(r.clientId, r.user)] && IsClientScope(s) then
      Some(InvalidScope)
    else if r.redirectUri !in w.db.clients[r.clientId].urls then Some(AccessDenied)
    else if Openid !in r.scope then None
    else if !w.db.clients[r.clientId].idTokenAllowed then Some(InvalidScope)
    else if r.nonce.None? || r.nonce == Some("") then Some(InvalidRequest)
    else None
  }

  lemma AuthorizeRefused(p: Prims, w: World, r: Request, d: Draw)
    requires r.Authorize?
    ensures var (w', t) := Serve(p, w, r, d);
      match WhyNotAuthorized(w, r)
      case Some(e) => t == Failed(r, e) && w' == w
      case None => t.Done?
  {
    Unfold(p, w, r, AuthReadClient, d);
    if r.clientId in w.db.clients {
      Unfold(p, w, r, AuthReadConsent(w.db.clients[r.clientId]), d);
      Unfold(p, w, r, AuthStore, d);
    }
  }

  /** Why a code grant is refused at its checks; the hash of an absent verifier throws. */
  function WhyNotRedeemed(p: Prims, c: AuthorizeCache, client: Option<string>, verifier: Option<string>)
    : Option<Failure>
  {
    if client != Some(c.clientId) then Some(InvalidClient)
    else if c.codeChallengeMethod == "S256" then
      match verifier
      case None => Some(Internal)
      case Some(v) => if p.sha256(v) == c.codeChallenge then None else Some(InvalidGrant)
    else if c.codeChallengeMethod == "plain" && verifier != Some(c.codeChallenge) then Some(InvalidGrant)
    else None
  }

  /** The access token of a code grant, stored for three hours. */
  function WithAccess(w: World, c: AuthorizeCache, d: Draw): Cache<TokenCache> {
    w.tokens[d.access := Timed(TokenCache(ToUser, Some(c.userUuid), c.clientId, c.scope), w.now + 10800 * 1000)]
  }

  /** What a refused code grant gets and leaves. An unknown code changes nothing; a failed check costs the code and
      nothing else; a user or client that is gone by then costs the code, and the access token stays in the cache. */
  lemma CodeGrantRefused(p: Prims, w: World, client: Option<string>, code: string, verifier: Option<string>, d: Draw)
    requires d.refresh !in w.db.refreshTokens
    ensures var r := CodeGrant(client, code, verifier);
      var (w', t) := Serve(p, w, r, d);
      if !Live(w.codes, code, w.now) then t == Failed(r, InvalidGrant) && w' == w
      else
        var c := w.codes[code].value;
        match WhyNotRedeemed(p, c, client, verifier)
        case Some(e) => t == Failed(r, e) && w' == w.(codes := w.codes - {code})
        case None =>
          t.Done?
          || (&& t == Failed(r, if OfflineAccess in c.scope then Internal else Forbidden)
              && w' == w.(codes := w.codes - {code}, tokens := WithAccess(w, c, d)))
  {
    hide IdTokenFor, VerifierError;
    var r := CodeGrant(client, code, verifier);
    Unfold(p, w, r, CodeGet, d);
    if Live(w.codes, code, w.now) {
      var c := w.codes[code].value;
      Unfold(p, w, r, CodeDel(c), d);
      ChecksAgree(p, c, client, verifier);
      if WhyNotRedeemed(p, c, client, verifier).None? {
        CodeTailRefused(p, w.(codes := w.codes - {code}), r, c, d);
      }
    }
  }

  lemma ChecksAgree(p: Prims, c: AuthorizeCache, client: Option<string>, verifier: Option<string>)
    ensures client == Some(c.clientId) ==> WhyNotRedeemed(p, c, client, verifier) == VerifierError(p, c, verifier)
  {
  }

  lemma CodeTailRefused(p: Prims, w: World, r: Request, c: AuthorizeCache, d: Draw)
    requires r.CodeGrant? && d.refresh !in w.db.refreshTokens
    ensures var (w', t) := Finish(p, w, Running(r, CodeSetToken(c)), d);
      || t.Done?
      || (&& t == Failed(r, if OfflineAccess in c.scope then Internal else Forbidden)
          && w' == w.(tokens := WithAccess(w, c, d)))
  {
    hide IdTokenFor;
    Unfold(p, w, r, CodeSetToken(c), d);
    var o := Step(p, w, r, CodeSetToken(c), d);
    if OfflineAccess in c.scope {
      Unfold(p, o.world, r, o.task.pc, d);
      var o2 := Step(p, o.world, r, o.task.pc, d);
      if o2.task.Running? {
        Unfold(p, o2.world, r, o2.task.pc, d);
      }
    } else if Openid in c.scope {
      Unfold(p, o.world, r, o.task.pc, d);
    }
  }

  /** Why a refresh is refused before it writes anything. */
  lemma RefreshRefusedBecause(p: Prims, w: World, client: Option<string>, token: string, d: Draw)
    requires !Redeemable(w, client, token)
    ensures var r := RefreshGrant(client, token);
      Serve(p, w, r, d) == (w, Failed(r, if token == "" || token !in w.db.refreshTokens then InvalidRequest
                                         else InvalidGrant))
  {
    hide RefreshAfterRow, CreateRefreshToken;
    var r := RefreshGrant(client, token);
    Unfold(p, w, r, RefFind, d);
    if token in w.db.refreshTokens {
      Unfold(p, w, r, RefCheck(w.db.refreshTokens[token]), d);
    }
  }

  /** When the clock passes the row's end between the two checks, the row goes and the grant is refused as invalid;
      when the row has gone as well, as an invalid request. */
  lemma ExpiredBetweenChecks(p: Prims, w: World, client: Option<string>, token: string, row: RefreshToken, d: Draw)
    requires row.expiresAt < w.now
    ensures var r := RefreshGrant(client, token);
      Finish(p, w, Running(r, RefCheck(row)), d) ==
        if token in w.db.refreshTokens then
          (w.(db := w.db.(refreshTokens := w.db.refreshTokens - {token})), Failed(r, InvalidGrant))
        else (w, Failed(r, InvalidRequest))
  {
    var r := RefreshGrant(client, token);
    Unfold(p, w, r, RefCheck(row), d);
    Unfold(p, w, r, RefDropExpired, d);
  }

  /** Were there ever a row with a nonce, its refresh would answer with an ID token that carries the nonce, and a user
      who is gone would refuse it. */
  lemma RefreshWithNonce(p: Prims, w: World, client: Option<string>, token: string, d: Draw)
    requires Redeemable(w, client, token) && d.refresh !in w.db.refreshTokens
    requires var row := w.db.refreshTokens[token];
      && Openid in row.scopes && OfflineAccess !in row.scopes && !Falsy(row.nonce)
    ensures var r := RefreshGrant(client, token);
      var (w', t) := Serve(p, w, r, d);
      var row := w.db.refreshTokens[token];
      if row.userUuid !in w.db.users then t == Failed(r, Forbidden)
      else
        && t.Done? && t.resp.Tokens? && t.resp.accessToken == d.access && t.resp.scope == row.scopes
        && t.resp.idToken.Some?
        && Describes(t.resp.idToken.value, w.db.users[row.userUuid], row.userUuid, row.clientUuid, row.nonce,
                     row.scopes)
        && w'.db.refreshTokens == w.db.refreshTokens - {token}
  {
    hide IdTokenFor, Describes;
    var r, row := RefreshGrant(client, token), w.db.refreshTokens[token];
    Unfold(p, w, r, RefFind, d);
    Unfold(p, w, r, RefCheck(row), d);
    Unfold(p, w, r, RefSetToken(row), d);
    var o := Step(p, w, r, RefSetToken(row), d);
    Unfold(p, o.world, r, RefReadUser(row, d.access, None), d);
    if row.userUuid in w.db.users {
      var id := IdTokenFor(w.db.users[row.userUuid], row.userUuid, row.clientUuid, row.nonce, row.scopes);
      Unfold(p, o.world, r, RefDelete(row, d.access, None, Some(id)), d);
      IdTokenDescribes(w.db.users[row.userUuid], row.userUuid, row.clientUuid, row.nonce, row.scopes);
    }
  }

  /** Why a client gets no token of its own; a missing secret or scope throws. */
  function WhyNoClientToken(p: Prims, w: World, client: string, secret: Option<string>, scope: Option<seq<Scope>>)
    : Option<Failure>
  {
    if client !in w.db.clients then Some(NotFound)
    else
      var c := w.db.clients[client];
      if secret.None? then Some(Internal)
      else if !p.bcrypt(secret.value, c.secret) then Some(InvalidClient)
      else if scope.None? then Some(Internal)
      else if exists s :: s in scope.value && s !in c.scopes && s !in c.optionalScopes then Some(InvalidScope)
      else None
  }

  lemma CredentialsRefused(
      p: Prims, w: World, client: string, secret: Option<string>, scope: Option<seq<Scope>>, d: Draw)
    ensures var r := ClientCredentials(client, secret, scope);
      var (w', t) := Serve(p, w, r, d);
      match WhyNoClientToken(p, w, client, secret, scope)
      case Some(e) => t == Failed(r, e) && w' == w
      case None => t.Done?
  {
    var r := ClientCredentials(client, secret, scope);
    Unfold(p, w, r, CredReadClient, d);
    if scope.Some? {
      Unfold(p, w, r, CredStore(scope.value), d);
    }
  }

  /** A token of the client's own, once answered, is good at userinfo for ninety days and no longer. */
  lemma ClientTokenServes(
      p: Prims, w: World, client: string, secret: Option<string>, scope: Option<seq<Scope>>, d: Draw, later: nat)
    requires Serve(p, w, ClientCredentials(client, secret, scope), d).1.Done? && w.now <= later
    ensures var (w', t) := Serve(p, w, ClientCredentials(client, secret, scope), d);
      && t.resp.Tokens? && scope == Some(t.resp.scope)
      && Get(w'.tokens, t.resp.accessToken, later)
         == (if later <= w.now + t.resp.expiresIn * 1000 then Some(TokenCache(ToClient, None, client, t.resp.scope))
             else None)
  {
    hide Serve;
    CredentialsIff(p, w, client, secret, scope, d);
  }

  /** Why userinfo refuses. */
  function WhyNoInfo(w: World, token: string, sub: Option<string>): Option<Failure> {
    if !Live(w.tokens, token, w.now) then Some(CacheNotFound)
    else
      var c := w.tokens[token].value;
      var user := if c.to == ToClient then sub else c.sub;
      if user.None? || user == Some("") then Some(Unauthorized)
      else if c.to == ToClient && ConsentKey(c.clientId, user.value) !in w.db.consents then Some(InvalidGrant)
      else if c.to == ToClient
              && exists s :: s in w.db.consents[ConsentKey(c.clientId, user.value)] && s !in c.scope then
        Some(Unauthorized)
      else if user.value !in w.db.users then Some(Forbidden)
      else None
  }

  lemma UserinfoRefused(p: Prims, w: World, token: string, sub: Option<string>, d: Draw)
    ensures var r := Userinfo(token, sub);
      var (w', t) := Serve(p, w, r, d);
      match WhyNoInfo(w, token, sub)
      case Some(e) => t == Failed(r, e) && w' == w
      case None => t.Done?
  {
    hide UserInfoFor;
    var r := Userinfo(token, sub);
    Unfold(p, w, r, InfoGet, d);
    if Live(w.tokens, token, w.now) {
      var c := w.tokens[token].value;
      if !Falsy(AskedFor(c, sub)) {
        var user := AskedFor(c, sub).value;
        Unfold(p, w, r, InfoReadUser(c, user), d);
        if c.to == ToClient {
          Unfold(p, w, r, InfoReadConsent(c, user), d);
        }
      }
    }
  }

  lemma RevokeRefused(p: Prims, w: World, token: string, hint: Option<Hint>, d: Draw)
    ensures var r := Revoke(token, hint);
      var t := Serve(p, w, r, d).1;
      && (hint.None? ==> t == Failed(r, BadRequest))
      && (hint == Some(RefreshTokenHint) && token !in w.db.refreshTokens ==> t == Failed(r, InvalidRequest))
  {
    Unfold(p, w, Revoke(token, hint), RevokeAny, d);
  }

  // ---------------------------------------------------------------- what a later step may still look at

  /** The steps that read the cache; every later one goes by what was read. */
  predicate ReadsCache(pc: Pc) {
    pc.CodeGet? || pc.InfoGet?
  }

  /** Whatever other requests do to codes and access tokens between two steps, a request that has read its own goes on
      with what it read: its next state, its answer and the tables it leaves are the same. */
  lemma CacheNotReread(
      p: Prims, w: World, codes: Cache<AuthorizeCache>, tokens: Cache<TokenCache>, r: Request, pc: Pc, d: Draw)
    requires !ReadsCache(pc)
    ensures var w2 := w.(codes := codes, tokens := tokens);
      var o, o2 := Step(p, w, r, pc, d), Step(p, w2, r, pc, d);
      o2.task == o.task && o2.event == o.event && o2.world.db == o.world.db
  {
    hide CodeStep, RefreshStep, ConsentStep, AuthorizeStep, CredentialsStep, RevokeStep, UserinfoStep;
    match r
    case Consent(_, _, _) => ConsentNotReread(p, w, codes, tokens, r, pc, d);
    case Authorize(_, _, _, _, _, _, _) => AuthorizeNotReread(p, w, codes, tokens, r, pc, d);
    case CodeGrant(_, _, _) => CodeNotReread(p, w, codes, tokens, r, pc, d);
    case RefreshGrant(_, _) => RefreshNotReread(w, codes, tokens, r, pc, d);
    case ClientCredentials(_, _, _) => CredentialsNotReread(p, w, codes, tokens, r, pc, d);
    case Revoke(_, _) => RevokeNotReread(p, w, codes, tokens, r, pc, d);
    case Userinfo(_, _) => UserinfoNotReread(p, w, codes, tokens, r, pc, d);
  }

  lemma ConsentNotReread(
      p: Prims, w: World, codes: Cache<AuthorizeCache>, tokens: Cache<TokenCache>, r: Request, pc: Pc, d: Draw)
    requires r.Consent?
    ensures var w2 := w.(codes := codes, tokens := tokens);
      var o, o2 := ConsentStep(w, r, pc), ConsentStep(w2, r, pc);
      o2.task == o.task && o2.event == o.event && o2.world.db == o.world.db
  {
    hide UpsertConsent;
  }

  lemma AuthorizeNotReread(
      p: Prims, w: World, codes: Cache<AuthorizeCache>, tokens: Cache<TokenCache>, r: Request, pc: Pc, d: Draw)
    requires r.Authorize?
    ensures var w2 := w.(codes := codes, tokens := tokens);
      var o, o2 := AuthorizeStep(w, r, pc, d), AuthorizeStep(w2, r, pc, d);
      o2.task == o.task && o2.event == o.event && o2.world.db == o.world.db
  {
    hide FindConsent, Set;
  }

  lemma CredentialsNotReread(
      p: Prims, w: World, codes: Cache<AuthorizeCache>, tokens: Cache<TokenCache>, r: Request, pc: Pc, d: Draw)
    requires r.ClientCredentials?
    ensures var w2 := w.(codes := codes, tokens := tokens);
      var o, o2 := CredentialsStep(p, w, r, pc, d), CredentialsStep(p, w2, r, pc, d);
      o2.task == o.task && o2.event == o.event && o2.world.db == o.world.db
  {
    hide Set;
  }

  lemma RevokeNotReread(
      p: Prims, w: World, codes: Cache<AuthorizeCache>, tokens: Cache<TokenCache>, r: Request, pc: Pc, d: Draw)
    requires r.Revoke?
    ensures var w2 := w.(codes := codes, tokens := tokens);
      var o, o2 := RevokeStep(w, r, pc), RevokeStep(w2, r, pc);
      o2.task == o.task && o2.event == o.event && o2.world.db == o.world.db
  {
    hide Del, DeleteRefreshToken;
  }

  lemma UserinfoNotReread(
      p: Prims, w: World, codes: Cache<AuthorizeCache>, tokens: Cache<TokenCache>, r: Request, pc: Pc, d: Draw)
    requires r.Userinfo? && !pc.InfoGet?
    ensures var w2 := w.(codes := codes, tokens := tokens);
      var o, o2 := UserinfoStep(w, r, pc), UserinfoStep(w2, r, pc);
      o2.task == o.task && o2.event == o.event && o2.world.db == o.world.db
  {
    hide UserInfoFor, FindConsent;
  }

  lemma CodeNotReread(
      p: Prims, w: World, codes: Cache<AuthorizeCache>, tokens: Cache<TokenCache>, r: Request, pc: Pc, d: Draw)
    requires r.CodeGrant? && !pc.CodeGet?
    ensures var w2 := w.(codes := codes, tokens := tokens);
      var o, o2 := CodeStep(p, w, r, pc, d), CodeStep(p, w2, r, pc, d);
      o2.task == o.task && o2.event == o.event && o2.world.db == o.world.db
  {
    hide IdTokenFor, VerifierError, CodeTokens, CreateRefreshToken, Set, Del;
  }

  lemma RefreshNotReread(w: World, codes: Cache<AuthorizeCache>, tokens: Cache<TokenCache>, r: Request, pc: Pc, d: Draw)
    requires r.RefreshGrant?
    ensures var w2 := w.(codes := codes, tokens := tokens);
      var o, o2 := RefreshStep(w, r, pc, d), RefreshStep(w2, r, pc, d);
      o2.task == o.task && o2.event == o.event && o2.world.db == o.world.db
  {
    hide IdTokenFor, RefreshTokens, CreateRefreshToken, FindRefreshToken, DeleteRefreshToken, Set;
  }

  /** An authorization goes by the client row it read first, whatever clients are updated before it reads the
      consent. */
  lemma ClientNotReread(p: Prims, w: World, clients: map<string, Client>, r: Request, pc: Pc, d: Draw)
    requires r.Authorize? && !pc.AuthReadClient?
    ensures Step(p, w.(db := w.db.(clients := clients)), r, pc, d).task == Step(p, w, r, pc, d).task
  {
    hide Set;
  }

  /** A consent that passed its checks goes by them, as long as the client is still there. */
  lemma ConsentChecksStand(p: Prims, w: World, clients: map<string, Client>, r: Request, d: Draw)
    requires r.Consent? && (r.clientId in clients <==> r.clientId in w.db.clients)
    ensures Step(p, w.(db := w.db.(clients := clients)), r, ConsentUpsert, d).task
         == Step(p, w, r, ConsentUpsert, d).task
  {
  }

  /** A refresh goes by the row it found, until it deletes it. */
  lemma RowNotReread(p: Prims, w: World, rows: map<string, RefreshToken>, r: Request, pc: Pc, d: Draw)
    requires r.RefreshGrant? && (pc.RefCheck? || pc.RefSetToken? || pc.RefReadUser?)
    ensures Step(p, w.(db := w.db.(refreshTokens := rows)), r, pc, d).task == Step(p, w, r, pc, d).task
  {
    hide IdTokenFor, RefreshTokens, CreateRefreshToken, FindRefreshToken, DeleteRefreshToken, Set;
  }
}
