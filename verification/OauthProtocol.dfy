/** The OAuth handlers, each cut at its awaits: a step runs one awaited read or write and the code up to
    the next one. The interleaved layer schedules single steps; the serial layer runs a request through. */
module OauthProtocol {
  import opened Types
  import opened Database
  import opened Store
  import ScopeText

  // ---------------------------------------------------------------- requests and responses

  datatype Hint = AccessTokenHint | RefreshTokenHint

  /** `None` stands for a parameter that was not sent. A missing refresh token is the empty string. */
  datatype Request =
    | Consent(user: string, clientId: string, scope: seq<Scope>)
    | Authorize(user: string, clientId: string, codeChallenge: string, codeChallengeMethod: string,
                redirectUri: string, scope: seq<Scope>, nonce: Option<string>)
    | CodeGrant(client: Option<string>, code: string, codeVerifier: Option<string>)
    | RefreshGrant(client: Option<string>, refreshToken: string)
    | ClientCredentials(clientId: string, clientSecret: Option<string>, credScope: Option<seq<Scope>>)
    | Revoke(token: string, hint: Option<Hint>)
    | Userinfo(token: string, sub: Option<string>)

  /** What the request objects let through: known scopes only, at least one of them, client scopes only for a consent;
      one of the two code challenge methods; a nonce of at most 255 characters. */
  predicate Accepted(r: Request) {
    match r
    case Consent(_, _, scope) => AllClientScopes(scope) && scope != []
    case Authorize(_, _, _, m, _, scope, nonce) =>
      (m == "plain" || m == "S256") && scope != [] && (nonce.Some? ==> |nonce.value| <= 255)
    case ClientCredentials(_, _, scope) => scope != Some([])
    case _ => true
  }

  /** The consents let through are exactly what the request's scope text can say. */
  lemma ConsentIsParsed(user: string, clientId: string, scope: seq<Scope>)
    ensures Accepted(Consent(user, clientId, scope)) <==>
              exists text :: ScopeText.Parse(text, ScopeText.CLIENT_SCOPE_LIST) == Some(scope)
  {
    ScopeText.Listed();
    if AllClientScopes(scope) {
      ScopeText.ParseOfPrint(scope, ScopeText.CLIENT_SCOPE_LIST);
    }
    forall text | ScopeText.Parse(text, ScopeText.CLIENT_SCOPE_LIST) == Some(scope)
      ensures AllClientScopes(scope) && scope != []
    {
      ScopeText.PrintOfParse(text, ScopeText.CLIENT_SCOPE_LIST);
    }
  }

  /** Some scope text of a request for a code or a token says the list. */
  ghost predicate Sayable(scope: seq<Scope>) {
    exists text :: ScopeText.Parse(text, ScopeText.SCOPE_LIST) == Some(scope)
  }

  /** The scope lists let through for an authorization or a client's own token are exactly those that a scope text can
      say. */
  lemma AuthorizationIsParsed(r: Request)
    ensures r.Authorize? && Accepted(r) ==> Sayable(r.scope)
    ensures r.Authorize? && Sayable(r.scope) ==>
              (Accepted(r) <==>
                 r.codeChallengeMethod in {"plain", "S256"} && (r.nonce.Some? ==> |r.nonce.value| <= 255))
    ensures r.ClientCredentials? && r.credScope.Some? ==> (Accepted(r) <==> Sayable(r.credScope.value))
  {
    forall scope ensures Sayable(scope) <==> scope != [] {
      SayableIff(scope);
    }
  }

  lemma SayableIff(scope: seq<Scope>)
    ensures Sayable(scope) <==> scope != []
  {
    ScopeText.Listed();
    ScopeText.ParseOfPrint(scope, ScopeText.SCOPE_LIST);
    forall text | ScopeText.Parse(text, ScopeText.SCOPE_LIST) == Some(scope) ensures scope != [] {
      ScopeText.PrintOfParse(text, ScopeText.SCOPE_LIST);
    }
  }

  /** A released claim is `Some`; `undefined` is `None`; a nullable column is itself optional. */
  datatype Claims = Claims(
    sub: string, profile: Option<Option<string>>, picture: Option<Option<string>>, name: Option<string>,
    email: Option<string>, studentId: Option<string>, phoneNumber: Option<string>)

  datatype IdToken = IdToken(aud: string, nonce: Option<string>, scope: string, claims: Claims)

  datatype UserInfo = UserInfo(
    claims: Claims, isStudentIdVerified: Option<bool>, isPhoneNumberVerified: Option<bool>)

  datatype Response =
    | Empty
    | Redirect(code: string)
    | Tokens(accessToken: string, expiresIn: nat, refreshToken: Option<string>,
             refreshTokenExpiresIn: Option<nat>, idToken: Option<IdToken>, scope: seq<Scope>)
    | Info(info: UserInfo)

  // ---------------------------------------------------------------- what is released

  /** The `scope.includes(..) ? .. : undefined` ladder of the two ID tokens. */
  function IdTokenFor(u: User, uuid: string, aud: string, nonce: Option<string>, scope: seq<Scope>): IdToken {
    IdToken(aud, nonce, ScopeText.Print(scope),
      Claims(
        uuid,
        if Profile in scope then Some(u.profile) else None,
        if Profile in scope then Some(u.picture) else None,
        if Profile in scope then Some(u.name) else None,
        if Email in scope then Some(u.email) else None,
        if StudentId in scope then Some(u.studentId) else None,
        if PhoneNumber in scope then Some(u.phoneNumber) else None))
  }

  /** The ladder of the userinfo answer. */
  function UserInfoFor(u: User, uuid: string, scope: seq<Scope>): UserInfo {
    UserInfo(
      Claims(
        uuid,
        if Profile in scope then Some(u.profile) else None,
        if Profile in scope then Some(u.picture) else None,
        if Profile in scope then Some(u.name) else None,
        if Email in scope then Some(u.email) else None,
        if StudentId in scope then Some(u.studentId) else None,
        if PhoneNumber in scope then Some(u.phoneNumber) else None),
      if StudentId in scope then Some(u.isIdVerified) else None,
      if PhoneNumber in scope then Some(u.isPhoneNumberVerified) else None)
  }

  /** The scopes whose fields a set of claims gives away. */
  predicate Discloses(c: Claims, s: Scope) {
    match s
    case Profile => c.profile.Some? || c.picture.Some? || c.name.Some?
    case Email => c.email.Some?
    case StudentId => c.studentId.Some?
    case PhoneNumber => c.phoneNumber.Some?
    case _ => false
  }

  /** The two flags of a userinfo answer count as part of the scope they describe. */
  predicate InfoDiscloses(i: UserInfo, s: Scope) {
    || Discloses(i.claims, s)
    || (s == StudentId && i.isStudentIdVerified.Some?)
    || (s == PhoneNumber && i.isPhoneNumberVerified.Some?)
  }

  /** Two user rows a reader of the given scopes cannot tell apart. */
  predicate AlikeFor(u: User, v: User, scope: seq<Scope>) {
    && (Profile in scope ==> u.profile == v.profile && u.picture == v.picture && u.name == v.name)
    && (Email in scope ==> u.email == v.email)
    && (StudentId in scope ==> u.studentId == v.studentId && u.isIdVerified == v.isIdVerified)
    && (PhoneNumber in scope ==> u.phoneNumber == v.phoneNumber && u.isPhoneNumberVerified == v.isPhoneNumberVerified)
  }

  // ---------------------------------------------------------------- the world a step reads and writes

  datatype World = World(now: nat, db: Db, codes: Cache<AuthorizeCache>, tokens: Cache<TokenCache>)

  const CODE_TTL := 10 * 60
  const ACCESS_TTL := 3 * 60 * 60
  const CLIENT_ACCESS_TTL := 3 * 30 * 24 * 60 * 60
  /** The literal that token answers report; the stored lifetime is `MAX_REFRESH_TOKEN_AGE`. */
  const REFRESH_EXPIRES_IN := 3 * 30 * 24 * 60 * 60

  /** The awaited operation a request stands before, with the local variables that are still needed. */
  datatype Pc =
    | ConsentReadClient | ConsentUpsert
    | AuthReadClient | AuthReadConsent(client: Client) | AuthStore
    | CodeGet | CodeDel(cache: AuthorizeCache) | CodeSetToken(cache: AuthorizeCache)
    | CodeCreateRow(cache: AuthorizeCache, access: string)
    | CodeReadUser(cache: AuthorizeCache, access: string, refresh: Option<string>)
    | RefFind | RefCheck(row: RefreshToken) | RefDropExpired | RefSetToken(row: RefreshToken)
    | RefCreateRow(row: RefreshToken, access: string)
    | RefReadUser(row: RefreshToken, access: string, refresh: Option<string>)
    | RefDelete(row: RefreshToken, access: string, refresh: Option<string>, idToken: Option<IdToken>)
    | CredReadClient | CredStore(scope: seq<Scope>)
    | RevokeAny
    | InfoGet | InfoReadConsent(token: TokenCache, user: string) | InfoReadUser(token: TokenCache, user: string)

  datatype Task =
    | Running(req: Request, pc: Pc)
    | Done(req: Request, resp: Response)
    | Failed(req: Request, error: Failure)

  /** Where a token comes from. */
  datatype Origin = FromCode(code: string) | FromRefresh(token: string)

  /** What a step did that history remembers. */
  datatype Event =
    | Nothing
    | Consented(user: string, client: string, scopes: seq<Scope>)
    | Authorized(code: string, user: string, client: string, scopes: seq<Scope>, nonce: Option<string>,
                 challenge: string, challengeMethod: string)
    | Minted(token: string, user: string, client: string, scopes: seq<Scope>, origin: Origin)
    | MintedForClient(token: string, scopes: seq<Scope>)

  datatype Outcome = Outcome(world: World, task: Task, event: Event)

  /** The opaque tokens one request may draw: a code or access token, and a refresh token. */
  datatype Draw = Draw(access: string, refresh: string)

  function First(r: Request): Pc {
    match r
    case Consent(_, _, _) => ConsentReadClient
    case Authorize(_, _, _, _, _, _, _) => AuthReadClient
    case CodeGrant(_, _, _) => CodeGet
    case RefreshGrant(_, _) => RefFind
    case ClientCredentials(_, _, _) => CredReadClient
    case Revoke(_, _) => RevokeAny
    case Userinfo(_, _) => InfoGet
  }

  /** Awaits left at most; every step brings a request closer to its answer. */
  function Rank(pc: Pc): nat {
    match pc
    case ConsentReadClient => 2
    case AuthReadClient => 3
    case AuthReadConsent(_) => 2
    case CodeGet => 5
    case CodeDel(_) => 4
    case CodeSetToken(_) => 3
    case CodeCreateRow(_, _) => 2
    case RefFind => 6
    case RefCheck(_) => 5
    case RefSetToken(_) => 4
    case RefCreateRow(_, _) => 3
    case RefReadUser(_, _, _) => 2
    case CredReadClient => 2
    case InfoGet => 3
    case InfoReadConsent(_, _) => 2
    case _ => 1
  }

  // ---------------------------------------------------------------- the steps

  function Stop(w: World, r: Request, e: Failure): Outcome {
    Outcome(w, Failed(r, e), Nothing)
  }

  function Go(w: World, r: Request, pc: Pc): Outcome {
    Outcome(w, Running(r, pc), Nothing)
  }

  function ConsentStep(w: World, r: Request, pc: Pc): Outcome
    requires r.Consent?
  {
    match pc
    case ConsentReadClient =>
      if r.clientId !in w.db.clients then Stop(w, r, NotFound)
      else
        var c := w.db.clients[r.clientId];
        if exists s :: s in r.scope && s !in c.scopes + c.optionalScopes then Stop(w, r, InvalidScope)
        else if exists s :: s in c.scopes && s !in r.scope then Stop(w, r, InvalidScope)
        else Go(w, r, ConsentUpsert)
    case ConsentUpsert =>
      (match UpsertConsent(w.db, r.user, r.clientId, r.scope)
       case Err(e) => Stop(w, r, e)
       case Ok(db) => Outcome(w.(db := db), Done(r, Empty), Consented(r.user, r.clientId, r.scope)))
    case _ => Stop(w, r, Internal)
  }

  function AuthorizeStep(w: World, r: Request, pc: Pc, d: Draw): Outcome
    requires r.Authorize?
  {
    match pc
    case AuthReadClient =>
      if r.clientId !in w.db.clients then Stop(w, r, UnauthorizedClient)
      else Go(w, r, AuthReadConsent(w.db.clients[r.clientId]))
    case AuthReadConsent(client) =>
      (match FindConsent(w.db, r.user, r.clientId)
       case Err(e) => Stop(w, r, e)
       case Ok(consent) =>
         if exists s :: s in r.scope && s !in consent && !IsTokenScope(s) then Stop(w, r, InvalidScope)
         else if r.redirectUri !in client.urls then Stop(w, r, AccessDenied)
         else if Openid in r.scope && !client.idTokenAllowed then Stop(w, r, InvalidScope)
         else if Openid in r.scope && Falsy(r.nonce) then Stop(w, r, InvalidRequest)
         else Go(w, r, AuthStore))
    case AuthStore =>
      var cache := AuthorizeCache(r.clientId, r.user, r.codeChallenge, r.codeChallengeMethod,
                                  r.redirectUri, r.scope, r.nonce);
      Outcome(w.(codes := Set(w.codes, d.access, cache, CODE_TTL, w.now)),
              Done(r, Redirect(d.access)),
              Authorized(d.access, r.user, r.clientId, r.scope, r.nonce, r.codeChallenge, r.codeChallengeMethod))
    case _ => Stop(w, r, Internal)
  }

  /** The proof of possession of section 4.6 of RFC 7636. Hashing an absent verifier throws. */
  function VerifierError(p: Prims, cache: AuthorizeCache, verifier: Option<string>): Option<Failure> {
    if cache.codeChallengeMethod == "S256" then
      if verifier.None? then Some(Internal)
      else if p.sha256(verifier.value) != cache.codeChallenge then Some(InvalidGrant)
      else None
    else if cache.codeChallengeMethod == "plain" then
      if verifier != Some(cache.codeChallenge) then Some(InvalidGrant) else None
    else None
  }

  function CodeTokens(cache: AuthorizeCache, access: string, refresh: Option<string>,
        idToken: Option<IdToken>): Response {
    Tokens(access, ACCESS_TTL, refresh, Some(REFRESH_EXPIRES_IN), idToken, cache.scope)
  }

  function CodeAfterRow(w: World, r: Request, cache: AuthorizeCache, access: string, refresh: Option<string>): Outcome {
    if Openid in cache.scope then Go(w, r, CodeReadUser(cache, access, refresh))
    else Outcome(w, Done(r, CodeTokens(cache, access, refresh, None)), Nothing)
  }

  function CodeStep(p: Prims, w: World, r: Request, pc: Pc, d: Draw): Outcome
    requires r.CodeGrant?
  {
    match pc
    case CodeGet =>
      (match Get(w.codes, r.code, w.now)
       case None => Stop(w, r, InvalidGrant)
       case Some(cache) => Go(w, r, CodeDel(cache)))
    case CodeDel(cache) =>
      var w' := w.(codes := Del(w.codes, r.code, w.now));
      if r.client != Some(cache.clientId) then Stop(w', r, InvalidClient)
      else
        (match VerifierError(p, cache, r.codeVerifier)
         case Some(e) => Stop(w', r, e)
         case None => Go(w', r, CodeSetToken(cache)))
    case CodeSetToken(cache) =>
      var token := TokenCache(ToUser, Some(cache.userUuid), cache.clientId, cache.scope);
      var w' := w.(tokens := Set(w.tokens, d.access, token, ACCESS_TTL, w.now));
      var next := if OfflineAccess in cache.scope then Go(w', r, CodeCreateRow(cache, d.access))
                  else CodeAfterRow(w', r, cache, d.access, None);
      next.(event := Minted(d.access, cache.userUuid, cache.clientId, cache.scope, FromCode(r.code)))
    case CodeCreateRow(cache, access) =>
      (match CreateRefreshToken(w.db, d.refresh, cache.scope, cache.userUuid, cache.clientId, None, w.now)
       case Err(e) => Stop(w, r, e)
       case Ok(db) =>
         CodeAfterRow(w.(db := db), r, cache, access, Some(d.refresh))
           .(event := Minted(d.refresh, cache.userUuid, cache.clientId, cache.scope, FromCode(r.code))))
    case CodeReadUser(cache, access, refresh) =>
      if cache.userUuid !in w.db.users then Stop(w, r, Forbidden)
      else
        var id := IdTokenFor(w.db.users[cache.userUuid], cache.userUuid, cache.clientId, cache.nonce, cache.scope);
        Outcome(w, Done(r, CodeTokens(cache, access, refresh, Some(id))), Nothing)
    case _ => Stop(w, r, Internal)
  }

  function RefreshTokens(row: RefreshToken, access: string, refresh: Option<string>,
        idToken: Option<IdToken>): Response {
    Tokens(access, ACCESS_TTL, refresh, Some(REFRESH_EXPIRES_IN), idToken, row.scopes)
  }

  /** The check for `openid` comes after the new rows are written and before the old one is deleted. */
  function RefreshAfterRow(w: World, r: Request, row: RefreshToken, access: string, refresh: Option<string>): Outcome {
    if Openid !in row.scopes then Go(w, r, RefDelete(row, access, refresh, None))
    else if Falsy(row.nonce) then Stop(w, r, InvalidRequest)
    else Go(w, r, RefReadUser(row, access, refresh))
  }

  function RefreshStep(w: World, r: Request, pc: Pc, d: Draw): Outcome
    requires r.RefreshGrant?
  {
    match pc
    case RefFind =>
      if r.refreshToken == "" then Stop(w, r, InvalidRequest)
      else
        (match FindRefreshToken(w.db, r.refreshToken, w.now)
         case Err(e) => Stop(w, r, e)
         case Ok(row) => Go(w, r, RefCheck(row)))
    case RefCheck(row) =>
      if row.expiresAt < w.now then Go(w, r, RefDropExpired)
      else if r.client != Some(row.clientUuid) then Stop(w, r, InvalidGrant)
      else Go(w, r, RefSetToken(row))
    case RefDropExpired =>
      (match DeleteRefreshToken(w.db, r.refreshToken)
       case Err(e) => Stop(w, r, e)
       case Ok(db) => Stop(w.(db := db), r, InvalidGrant))
    case RefSetToken(row) =>
      var token := TokenCache(ToUser, Some(row.userUuid), row.clientUuid, row.scopes);
      var w' := w.(tokens := Set(w.tokens, d.access, token, ACCESS_TTL, w.now));
      var next := if OfflineAccess in row.scopes then Go(w', r, RefCreateRow(row, d.access))
                  else RefreshAfterRow(w', r, row, d.access, None);
      next.(event := Minted(d.access, row.userUuid, row.clientUuid, row.scopes, FromRefresh(r.refreshToken)))
    case RefCreateRow(row, access) =>
      (match CreateRefreshToken(w.db, d.refresh, row.scopes, row.userUuid, row.clientUuid, None, w.now)
       case Err(e) => Stop(w, r, e)
       case Ok(db) =>
         RefreshAfterRow(w.(db := db), r, row, access, Some(d.refresh))
           .(event := Minted(d.refresh, row.userUuid, row.clientUuid, row.scopes, FromRefresh(r.refreshToken))))
    case RefReadUser(row, access, refresh) =>
      if row.userUuid !in w.db.users then Stop(w, r, Forbidden)
      else
        var id := IdTokenFor(w.db.users[row.userUuid], row.userUuid, row.clientUuid, row.nonce, row.scopes);
        Go(w, r, RefDelete(row, access, refresh, Some(id)))
    case RefDelete(row, access, refresh, idToken) =>
      (match DeleteRefreshToken(w.db, r.refreshToken)
       case Err(e) => Stop(w, r, e)
       case Ok(db) => Outcome(w.(db := db), Done(r, RefreshTokens(row, access, refresh, idToken)), Nothing))
    case _ => Stop(w, r, Internal)
  }

  function CredentialsStep(p: Prims, w: World, r: Request, pc: Pc, d: Draw): Outcome
    requires r.ClientCredentials?
  {
    match pc
    case CredReadClient =>
      if r.clientId !in w.db.clients then Stop(w, r, NotFound)
      else
        var c := w.db.clients[r.clientId];
        if r.clientSecret.None? then Stop(w, r, Internal)
        else if !p.bcrypt(r.clientSecret.value, c.secret) then Stop(w, r, InvalidClient)
        else if r.credScope.None? then Stop(w, r, Internal)
        else if exists s :: s in r.credScope.value && s !in c.scopes && s !in c.optionalScopes then
          Stop(w, r, InvalidScope)
        else Go(w, r, CredStore(r.credScope.value))
    case CredStore(scope) =>
      var token := TokenCache(ToClient, None, r.clientId, scope);
      Outcome(w.(tokens := Set(w.tokens, d.access, token, CLIENT_ACCESS_TTL, w.now)),
              Done(r, Tokens(d.access, CLIENT_ACCESS_TTL, None, None, None, scope)),
              MintedForClient(d.access, scope))
    case _ => Stop(w, r, Internal)
  }

  function RevokeStep(w: World, r: Request, pc: Pc): Outcome
    requires r.Revoke?
  {
    match (pc, r.hint)
    case (RevokeAny, Some(AccessTokenHint)) =>
      Outcome(w.(tokens := Del(w.tokens, r.token, w.now)), Done(r, Empty), Nothing)
    case (RevokeAny, Some(RefreshTokenHint)) =>
      (match DeleteRefreshToken(w.db, r.token)
       case Err(e) => Stop(w, r, e)
       case Ok(db) => Outcome(w.(db := db), Done(r, Empty), Nothing))
    case (RevokeAny, None) => Stop(w, r, BadRequest)
    case _ => Stop(w, r, Internal)
  }

  function UserinfoStep(w: World, r: Request, pc: Pc): Outcome
    requires r.Userinfo?
  {
    match pc
    case InfoGet =>
      (match Get(w.tokens, r.token, w.now)
       case None => Stop(w, r, CacheNotFound)
       case Some(token) =>
         if token.to == ToClient then
           if Falsy(r.sub) then Stop(w, r, Unauthorized) else Go(w, r, InfoReadConsent(token, r.sub.value))
         else if Falsy(token.sub) then Stop(w, r, Unauthorized)
         else Go(w, r, InfoReadUser(token, token.sub.value)))
    case InfoReadConsent(token, user) =>
      (match FindConsent(w.db, user, token.clientId)
       case Err(e) => Stop(w, r, e)
       case Ok(consent) =>
         if exists s :: s in consent && s !in token.scope then Stop(w, r, Unauthorized)
         else Go(w, r, InfoReadUser(token, user)))
    case InfoReadUser(token, user) =>
      if user !in w.db.users then Stop(w, r, Forbidden)
      else Outcome(w, Done(r, Info(UserInfoFor(w.db.users[user], user, token.scope))), Nothing)
    case _ => Stop(w, r, Internal)
  }

  function Step(p: Prims, w: World, r: Request, pc: Pc, d: Draw): (o: Outcome)
    ensures o.task.req == r
    ensures o.task.Running? ==> Rank(o.task.pc) < Rank(pc)
  {
    match r
    case Consent(_, _, _) => ConsentStep(w, r, pc)
    case Authorize(_, _, _, _, _, _, _) => AuthorizeStep(w, r, pc, d)
    case CodeGrant(_, _, _) => CodeStep(p, w, r, pc, d)
    case RefreshGrant(_, _) => RefreshStep(w, r, pc, d)
    case ClientCredentials(_, _, _) => CredentialsStep(p, w, r, pc, d)
    case Revoke(_, _) => RevokeStep(w, r, pc)
    case Userinfo(_, _) => UserinfoStep(w, r, pc)
  }

  /** A request run through without interruption: its answer and the world it leaves. */
  function Finish(p: Prims, w: World, t: Task, d: Draw): (World, Task)
    decreases if t.Running? then Rank(t.pc) else 0
  {
    if !t.Running? then (w, t)
    else
      var o := Step(p, w, t.req, t.pc, d);
      Finish(p, o.world, o.task, d)
  }

  /** One step taken off a request being finished. */
  lemma Unfold(p: Prims, w: World, r: Request, pc: Pc, d: Draw)
    ensures Finish(p, w, Running(r, pc), d) == Finish(p, Step(p, w, r, pc, d).world, Step(p, w, r, pc, d).task, d)
  {
  }

  /** A whole request, from its first await. */
  function Serve(p: Prims, w: World, r: Request, d: Draw): (World, Task) {
    Finish(p, w, Running(r, First(r)), d)
  }
}
