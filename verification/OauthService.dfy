/** The OAuth service as objects: handlers that update the cache and the tables in place. Each is proved to
    leave the world, and give the answer, that running its steps one after the other computes. */
module OauthService {
  import opened Types
  import opened Database
  import opened Prefixes
  import opened Prisma
  import opened Store
  import P = OauthProtocol
  import opened OauthProtocol

  // ---------------------------------------------------------------- the repository

  class OauthRepository {
    const prisma: PrismaService

    constructor (prisma: PrismaService)
      ensures this.prisma == prisma
    {
      this.prisma := prisma;
    }

    method FindRefreshTokenByToken(token: string, now: nat) returns (r: Result<RefreshToken>)
      ensures r == FindRefreshToken(prisma.State(), token, now)
    {
      if token !in prisma.refreshTokens {
        return Err(InvalidRequest);
      }
      var refreshToken := prisma.refreshTokens[token];
      if refreshToken.expiresAt < now {
        return Err(InvalidGrant);
      }
      return Ok(refreshToken);
    }

    /** The nonce parameter is optional and defaults to absent. */
    method CreateRefreshToken(
        token: string, scopes: seq<Scope>, userUuid: string, clientUuid: string, nonce: Option<string>, now: nat)
        returns (r: Result<()>)
      modifies prisma`refreshTokens
      ensures Wrote(old(prisma.State()),
                Database.CreateRefreshToken(old(prisma.State()), token, scopes, userUuid, clientUuid, nonce, now),
                prisma.State(), r)
    {
      if token in prisma.refreshTokens || userUuid !in prisma.users || clientUuid !in prisma.clients {
        return Err(Internal);
      }
      prisma.refreshTokens := prisma.refreshTokens[
        token := RefreshToken(userUuid, clientUuid, scopes, nonce, now + MAX_REFRESH_TOKEN_AGE * 1000)];
      return Ok(());
    }

    method DeleteRefreshTokenByToken(token: string) returns (r: Result<()>)
      modifies prisma`refreshTokens
      ensures Wrote(old(prisma.State()), DeleteRefreshToken(old(prisma.State()), token), prisma.State(), r)
    {
      if token !in prisma.refreshTokens {
        return Err(InvalidRequest);
      }
      prisma.refreshTokens := prisma.refreshTokens - {token};
      return Ok(());
    }

    method FindConsent(userUuid: string, clientUuid: string) returns (r: Result<seq<Scope>>)
      ensures r == Database.FindConsent(prisma.State(), userUuid, clientUuid)
    {
      var key := ConsentKey(clientUuid, userUuid);
      if key !in prisma.consents {
        return Err(InvalidGrant);
      }
      return Ok(prisma.consents[key]);
    }

    method UpsertConsent(userUuid: string, clientUuid: string, scopes: seq<Scope>) returns (r: Result<()>)
      modifies prisma`consents
      ensures Wrote(old(prisma.State()), Database.UpsertConsent(old(prisma.State()), userUuid, clientUuid, scopes),
                prisma.State(), r)
    {
      if userUuid !in prisma.users || clientUuid !in prisma.clients {
        return Err(Internal);
      }
      prisma.consents := prisma.consents[ConsentKey(clientUuid, userUuid) := scopes];
      return Ok(());
    }
  }

  // ---------------------------------------------------------------- the cache as the protocol sees it

  function AsCodes(m: Cache<CacheValue>): Cache<AuthorizeCache> {
    map k | k in m && m[k].value.Code? :: Timed(m[k].value.code, m[k].expiresAt)
  }

  function AsTokens(m: Cache<CacheValue>): Cache<TokenCache> {
    map k | k in m && m[k].value.Token? :: Timed(m[k].value.token, m[k].expiresAt)
  }

  ghost predicate AllCodes(m: Cache<CacheValue>) {
    forall k :: k in m ==> m[k].value.Code?
  }

  ghost predicate AllTokens(m: Cache<CacheValue>) {
    forall k :: k in m ==> m[k].value.Token?
  }

  lemma AsCodesSet(m: Cache<CacheValue>, key: string, c: AuthorizeCache, ttl: nat, now: nat)
    requires AllCodes(m)
    ensures AllCodes(Set(m, key, Code(c), ttl, now))
    ensures AsCodes(Set(m, key, Code(c), ttl, now)) == Set(AsCodes(m), key, c, ttl, now)
  {
  }

  lemma AsCodesDel(m: Cache<CacheValue>, key: string, now: nat)
    requires AllCodes(m)
    ensures AllCodes(Del(m, key, now)) && AsCodes(Del(m, key, now)) == Del(AsCodes(m), key, now)
  {
  }

  lemma AsTokensSet(m: Cache<CacheValue>, key: string, c: TokenCache, ttl: nat, now: nat)
    requires AllTokens(m)
    ensures AllTokens(Set(m, key, Token(c), ttl, now))
    ensures AsTokens(Set(m, key, Token(c), ttl, now)) == Set(AsTokens(m), key, c, ttl, now)
  {
  }

  lemma AsTokensDel(m: Cache<CacheValue>, key: string, now: nat)
    requires AllTokens(m)
    ensures AllTokens(Del(m, key, now)) && AsTokens(Del(m, key, now)) == Del(AsTokens(m), key, now)
  {
  }


  /** What a served request returns or throws. */
  function Answer(t: Task): Result<Response> {
    match t
    case Done(_, resp) => Ok(resp)
    case Failed(_, e) => Err(e)
    case Running(_, _) => Err(Internal)
  }

  /** A whole request served in one go: the world it leaves and what it answers. */
  function Served(p: Prims, w: World, r: P.Request, d: Draw): (World, Result<Response>) {
    var (w', t) := Serve(p, w, r, d);
    (w', Answer(t))
  }

  /** A served request returns what its handler answers and throws what its handler refuses with. */
  lemma ServedAnswers(p: Prims, w: World, r: P.Request, d: Draw)
    ensures Served(p, w, r, d).0 == Serve(p, w, r, d).0
    ensures forall resp :: Served(p, w, r, d).1 == Ok(resp) <==> Serve(p, w, r, d).1 == Done(r, resp)
    ensures forall e :: Served(p, w, r, d).1 == Err(e) <==> Serve(p, w, r, d).1 == Failed(r, e)
  {
    hide Step;
    Answered(p, w, Running(r, First(r)), d);
  }

  lemma {:induction false} Answered(p: Prims, w: World, t: Task, d: Draw)
    ensures !Finish(p, w, t, d).1.Running? && Finish(p, w, t, d).1.req == t.req
    decreases if t.Running? then Rank(t.pc) else 0
  {
    hide Step;
    if t.Running? {
      var o := Step(p, w, t.req, t.pc, d);
      Answered(p, o.world, o.task, d);
    }
  }

  // ---------------------------------------------------------------- the service

  class OauthService {
    const redisService: RedisService
    const prisma: PrismaService
    const oauthRepository: OauthRepository

    constructor (redisService: RedisService, prisma: PrismaService)
      ensures this.redisService == redisService && this.prisma == prisma
      ensures oauthRepository.prisma == prisma && fresh(oauthRepository)
      ensures redisService.data == map[] ==> Valid()
    {
      this.redisService := redisService;
      this.prisma := prisma;
      this.oauthRepository := new OauthRepository(prisma);
      new;
      SliceOfEmpty<CacheValue>(CODE_PREFIX);
      SliceOfEmpty<CacheValue>(TOKEN_PREFIX);
    }

    /** The two prefixes hold what this service put there. */
    ghost predicate Valid()
      reads this, redisService
    {
      && oauthRepository.prisma == prisma
      && AllCodes(Slice(redisService.data, CODE_PREFIX))
      && AllTokens(Slice(redisService.data, TOKEN_PREFIX))
    }

    ghost function View(now: nat): World
      reads this, redisService, prisma
    {
      World(now, prisma.State(),
            AsCodes(Slice(redisService.data, CODE_PREFIX)), AsTokens(Slice(redisService.data, TOKEN_PREFIX)))
    }

    method GetCode(code: string, now: nat) returns (r: Option<AuthorizeCache>)
      requires Valid()
      ensures r == Get(View(now).codes, code, now)
    {
      hide Slice;
      var value := redisService.GetOrThrow(code, CODE_PREFIX, now);
      if value.Err? {
        return None;
      }
      return Some(value.value.code);
    }

    method SetCode(code: string, cache: AuthorizeCache, ttl: nat, now: nat)
      requires Valid()
      modifies redisService
      ensures Valid()
      ensures LeavesOthers(old(redisService.data), redisService.data, OAUTH_PREFIXES)
      ensures View(now) == old(View(now)).(codes := Set(old(View(now)).codes, code, cache, ttl, now))
    {
      hide Slice;
      AsCodesSet(Slice(redisService.data, CODE_PREFIX), code, cache, ttl, now);
      redisService.SetValue(code, Code(cache), CODE_PREFIX, ttl, now);
      Narrow(old(redisService.data), redisService.data, CODE_PREFIX, OAUTH_PREFIXES);
    }

    method DelCode(code: string, now: nat)
      requires Valid()
      modifies redisService
      ensures Valid()
      ensures LeavesOthers(old(redisService.data), redisService.data, OAUTH_PREFIXES)
      ensures View(now) == old(View(now)).(codes := Del(old(View(now)).codes, code, now))
    {
      hide Slice;
      AsCodesDel(Slice(redisService.data, CODE_PREFIX), code, now);
      redisService.DelValue(code, CODE_PREFIX, now);
      Narrow(old(redisService.data), redisService.data, CODE_PREFIX, OAUTH_PREFIXES);
    }

    method GetToken(token: string, now: nat) returns (r: Option<TokenCache>)
      requires Valid()
      ensures r == Get(View(now).tokens, token, now)
    {
      hide Slice;
      var value := redisService.GetOrThrow(token, TOKEN_PREFIX, now);
      if value.Err? {
        return None;
      }
      return Some(value.value.token);
    }

    method SetToken(token: string, cache: TokenCache, ttl: nat, now: nat)
      requires Valid()
      modifies redisService
      ensures Valid()
      ensures LeavesOthers(old(redisService.data), redisService.data, OAUTH_PREFIXES)
      ensures View(now) == old(View(now)).(tokens := Set(old(View(now)).tokens, token, cache, ttl, now))
    {
      hide Slice;
      AsTokensSet(Slice(redisService.data, TOKEN_PREFIX), token, cache, ttl, now);
      redisService.SetValue(token, Token(cache), TOKEN_PREFIX, ttl, now);
      Narrow(old(redisService.data), redisService.data, TOKEN_PREFIX, OAUTH_PREFIXES);
    }

    method DelToken(token: string, now: nat)
      requires Valid()
      modifies redisService
      ensures Valid()
      ensures LeavesOthers(old(redisService.data), redisService.data, OAUTH_PREFIXES)
      ensures View(now) == old(View(now)).(tokens := Del(old(View(now)).tokens, token, now))
    {
      hide Slice;
      AsTokensDel(Slice(redisService.data, TOKEN_PREFIX), token, now);
      redisService.DelValue(token, TOKEN_PREFIX, now);
      Narrow(old(redisService.data), redisService.data, TOKEN_PREFIX, OAUTH_PREFIXES);
    }

    // ------------------------------------------------------------ what other services answer

    method GetClientByUuid(uuid: string) returns (r: Result<Client>)
      ensures r == if uuid in prisma.State().clients then Ok(prisma.State().clients[uuid]) else Err(NotFound)
    {
      if uuid !in prisma.clients {
        return Err(NotFound);
      }
      return Ok(prisma.clients[uuid]);
    }

    method FindUserByUuid(uuid: string) returns (r: Result<User>)
      ensures r == if uuid in prisma.State().users then Ok(prisma.State().users[uuid]) else Err(Forbidden)
    {
      if uuid !in prisma.users {
        return Err(Forbidden);
      }
      return Ok(prisma.users[uuid]);
    }

    // ------------------------------------------------------------ the handlers

    method Consent(p: Prims, now: nat, user: string, clientId: string, scope: seq<Scope>, ghost d: Draw)
        returns (r: Result<Response>)
      requires Valid()
      modifies prisma
      ensures Valid()
      ensures (View(now), r) == Served(p, old(View(now)), P.Consent(user, clientId, scope), d)
    {
      ghost var req := P.Consent(user, clientId, scope);
      ghost var w := View(now);
      Unfold(p, w, req, ConsentReadClient, d);
      var found := GetClientByUuid(clientId);
      if found.Err? {
        return Err(found.error);
      }
      var client := found.value;
      var allowedScopes := client.scopes + client.optionalScopes;
      for i := 0 to |scope|
        invariant forall j :: 0 <= j < i ==> scope[j] in allowedScopes
      {
        if scope[i] !in allowedScopes {
          return Err(InvalidScope);
        }
      }
      for i := 0 to |client.scopes|
        invariant forall j :: 0 <= j < i ==> client.scopes[j] in scope
      {
        if client.scopes[i] !in scope {
          return Err(InvalidScope);
        }
      }
      Unfold(p, w, req, P.ConsentUpsert, d);
      var upserted := oauthRepository.UpsertConsent(user, clientId, scope);
      if upserted.Err? {
        return Err(upserted.error);
      }
      return Ok(Empty);
    }

    method Authorize(
        p: Prims, now: nat, user: string, clientId: string, codeChallenge: string, codeChallengeMethod: string,
        redirectUri: string, scope: seq<Scope>, nonce: Option<string>, d: Draw)
        returns (r: Result<Response>)
      requires Valid()
      modifies redisService
      ensures Valid()
      ensures LeavesOthers(old(redisService.data), redisService.data, OAUTH_PREFIXES)
      ensures (View(now), r) == Served(p, old(View(now)),
                P.Authorize(user, clientId, codeChallenge, codeChallengeMethod, redirectUri, scope, nonce), d)
    {
      hide Valid, View, IsTokenScope, Falsy, LeavesOthers;
      LeavesOthersSelf(redisService.data, OAUTH_PREFIXES);
      ghost var req := P.Authorize(user, clientId, codeChallenge, codeChallengeMethod, redirectUri, scope, nonce);
      ghost var w := View(now);
      ViewNow(now);
      Unfold(p, w, req, AuthReadClient, d);
      var found := GetClientByUuid(clientId);
      if found.Err? {
        return Err(UnauthorizedClient);
      }
      var client := found.value;
      Unfold(p, w, req, AuthReadConsent(client), d);
      var consent := FindOwnConsent(user, clientId);
      if consent.Err? {
        return Err(consent.error);
      }
      var refused := CheckAuthorization(client, consent.value, redirectUri, scope, nonce);
      if refused.Some? {
        return Err(refused.value);
      }
      Unfold(p, w, req, AuthStore, d);
      var code := d.access;
      SetCode(code, AuthorizeCache(clientId, user, codeChallenge, codeChallengeMethod, redirectUri, scope, nonce),
              CODE_TTL, now);
      return Ok(Redirect(code));
    }

    /** The checks between reading the consent and storing the code, in their order. */
    method CheckAuthorization(
        client: Client, consent: seq<Scope>, redirectUri: string, scope: seq<Scope>, nonce: Option<string>)
        returns (e: Option<Failure>)
      ensures e == if exists s :: s in scope && s !in consent && !IsTokenScope(s) then Some(InvalidScope)
                   else if redirectUri !in client.urls then Some(AccessDenied)
                   else if Openid in scope && !client.idTokenAllowed then Some(InvalidScope)
                   else if Openid in scope && Falsy(nonce) then Some(InvalidRequest)
                   else None
    {
      for i := 0 to |scope|
        invariant forall j :: 0 <= j < i ==> scope[j] in consent || IsTokenScope(scope[j])
      {
        if scope[i] !in consent && !IsTokenScope(scope[i]) {
          return Some(InvalidScope);
        }
      }
      if redirectUri !in client.urls {
        return Some(AccessDenied);
      }
      if Openid in scope {
        if !client.idTokenAllowed {
          return Some(InvalidScope);
        }
        if Falsy(nonce) {
          return Some(InvalidRequest);
        }
      }
      return None;
    }

    method FindOwnConsent(user: string, clientId: string) returns (r: Result<seq<Scope>>)
      requires Valid()
      ensures r == Database.FindConsent(prisma.State(), user, clientId)
    {
      r := oauthRepository.FindConsent(user, clientId);
    }

    /** Stores a user's access token under a fresh name. */
    method IssueAccessToken(accessToken: string, sub: string, clientId: string, scope: seq<Scope>, now: nat)
      requires Valid()
      modifies redisService
      ensures Valid()
      ensures LeavesOthers(old(redisService.data), redisService.data, OAUTH_PREFIXES)
      ensures View(now) == old(View(now)).(tokens :=
                Set(old(View(now)).tokens, accessToken, TokenCache(ToUser, Some(sub), clientId, scope), ACCESS_TTL,
                    now))
    {
      SetToken(accessToken, TokenCache(ToUser, Some(sub), clientId, scope), ACCESS_TTL, now);
    }

    method StoreRefreshToken(token: string, scope: seq<Scope>, user: string, clientId: string, now: nat)
        returns (r: Result<()>)
      requires Valid()
      modifies prisma
      ensures Valid()
      ensures match CreateRefreshToken(old(View(now)).db, token, scope, user, clientId, None, now)
              case Ok(db) => r == Ok(()) && View(now) == old(View(now)).(db := db)
              case Err(e) => r == Err(e) && View(now) == old(View(now))
    {
      hide Slice, AsCodes, AsTokens;
      r := oauthRepository.CreateRefreshToken(token, scope, user, clientId, None, now);
    }

    method DropRefreshToken(token: string, now: nat) returns (r: Result<()>)
      requires Valid()
      modifies prisma
      ensures Valid()
      ensures match DeleteRefreshToken(old(View(now)).db, token)
              case Ok(db) => r == Ok(()) && View(now) == old(View(now)).(db := db)
              case Err(e) => r == Err(e) && View(now) == old(View(now))
    {
      hide Slice, AsCodes, AsTokens;
      r := oauthRepository.DeleteRefreshTokenByToken(token);
    }

    method ReadUser(uuid: string, now: nat) returns (r: Result<User>)
      ensures r == if uuid in View(now).db.users then Ok(View(now).db.users[uuid]) else Err(Forbidden)
    {
      r := FindUserByUuid(uuid);
    }

    method ReadRow(token: string, now: nat) returns (r: Result<RefreshToken>)
      requires Valid()
      ensures r == FindRefreshToken(View(now).db, token, now)
    {
      r := oauthRepository.FindRefreshTokenByToken(token, now);
    }

    method CodeGrant(
        p: Prims, now: nat, clientId: Option<string>, code: string, codeVerifier: Option<string>, d: Draw)
        returns (r: Result<Response>)
      requires Valid()
      modifies redisService, prisma
      ensures Valid()
      ensures LeavesOthers(old(redisService.data), redisService.data, OAUTH_PREFIXES)
      ensures (View(now), r) == Served(p, old(View(now)), P.CodeGrant(clientId, code, codeVerifier), d)
    {
      hide Valid, View, IdTokenFor, VerifierError, LeavesOthers;
      LeavesOthersSelf(redisService.data, OAUTH_PREFIXES);
      ghost var req := P.CodeGrant(clientId, code, codeVerifier);
      Unfold(p, View(now), req, CodeGet, d);
      ViewNow(now);
      var cached := GetCode(code, now);
      if cached.None? {
        return Err(InvalidGrant);
      }
      var cache := cached.value;
      Unfold(p, View(now), req, P.CodeDel(cache), d);
      DelCode(code, now);
      ghost var data := redisService.data;
      if clientId != Some(cache.clientId) {
        return Err(InvalidClient);
      }
      var refused := CheckVerifier(p, cache, codeVerifier);
      if refused.Some? {
        return Err(refused.value);
      }
      r := AnswerCode(p, now, req, cache, d);
      LeavesOthersTwice(old(redisService.data), data, redisService.data, OAUTH_PREFIXES);
    }

    /** The branches on the challenge method. */
    method CheckVerifier(p: Prims, cache: AuthorizeCache, codeVerifier: Option<string>) returns (e: Option<Failure>)
      ensures e == VerifierError(p, cache, codeVerifier)
    {
      e := None;
      if cache.codeChallengeMethod == "S256" {
        if codeVerifier.None? {
          return Some(Internal);
        }
        var hash := p.sha256(codeVerifier.value);
        if hash != cache.codeChallenge {
          return Some(InvalidGrant);
        }
      } else if cache.codeChallengeMethod == "plain" {
        if codeVerifier != Some(cache.codeChallenge) {
          return Some(InvalidGrant);
        }
      }
    }

    lemma ViewNow(now: nat)
      ensures View(now).now == now && View(now).db == prisma.State()
    {
    }

    /** The second half of the code grant, after the checks. */
    method AnswerCode(p: Prims, now: nat, ghost req: P.Request, cache: AuthorizeCache, d: Draw)
        returns (r: Result<Response>)
      requires Valid() && req.CodeGrant?
      modifies redisService, prisma
      ensures Valid()
      ensures LeavesOthers(old(redisService.data), redisService.data, OAUTH_PREFIXES)
      ensures var (w, t) := Finish(p, old(View(now)), Running(req, P.CodeSetToken(cache)), d);
              (View(now), r) == (w, Answer(t))
    {
      hide Valid, View, CodeAfterRow, LeavesOthers;
      ViewNow(now);
      Unfold(p, View(now), req, P.CodeSetToken(cache), d);
      var accessToken := d.access;
      IssueAccessToken(accessToken, cache.userUuid, cache.clientId, cache.scope, now);
      var refreshToken := None;
      if OfflineAccess in cache.scope {
        Unfold(p, View(now), req, P.CodeCreateRow(cache, accessToken), d);
        refreshToken := Some(d.refresh);
        var stored := StoreRefreshToken(d.refresh, cache.scope, cache.userUuid, cache.clientId, now);
        if stored.Err? {
          return Err(stored.error);
        }
      }
      r := AnswerWithTokens(p, now, req, cache, accessToken, refreshToken, d);
    }

    /** The end of the code grant, after the tokens are stored. */
    method AnswerWithTokens(
        p: Prims, now: nat, ghost req: P.Request, cache: AuthorizeCache, accessToken: string,
        refreshToken: Option<string>, ghost d: Draw)
        returns (r: Result<Response>)
      requires Valid() && req.CodeGrant?
      ensures var o := CodeAfterRow(View(now), req, cache, accessToken, refreshToken);
              var (w, t) := Finish(p, o.world, o.task, d);
              (View(now), r) == (w, Answer(t))
    {
      hide Valid, View, IdTokenFor;
      ViewNow(now);
      var idToken := None;
      if Openid in cache.scope {
        Unfold(p, View(now), req, P.CodeReadUser(cache, accessToken, refreshToken), d);
        var user := ReadUser(cache.userUuid, now);
        if user.Err? {
          return Err(user.error);
        }
        idToken := Some(IdTokenFor(user.value, cache.userUuid, cache.clientId, cache.nonce, cache.scope));
      }
      return Ok(Tokens(accessToken, 3 * 60 * 60, refreshToken, Some(3 * 30 * 24 * 60 * 60), idToken, cache.scope));
    }

    method RefreshTokenGrant(p: Prims, now: nat, clientId: Option<string>, refreshToken: string, d: Draw)
        returns (r: Result<Response>)
      requires Valid()
      modifies redisService, prisma
      ensures Valid()
      ensures LeavesOthers(old(redisService.data), redisService.data, OAUTH_PREFIXES)
      ensures (View(now), r) == Served(p, old(View(now)), P.RefreshGrant(clientId, refreshToken), d)
    {
      hide Valid, View, IdTokenFor, LeavesOthers;
      LeavesOthersSelf(redisService.data, OAUTH_PREFIXES);
      var req := P.RefreshGrant(clientId, refreshToken);
      ViewNow(now);
      Unfold(p, View(now), req, RefFind, d);
      if refreshToken == "" {
        return Err(InvalidRequest);
      }
      var found := ReadRow(refreshToken, now);
      if found.Err? {
        return Err(found.error);
      }
      var refreshTokenData := found.value;
      Unfold(p, View(now), req, RefCheck(refreshTokenData), d);
      if refreshTokenData.expiresAt < now {
        // The row was unexpired when it was found, and in a request served in one go the clock stands still.
        assert false;
      }
      if clientId != Some(refreshTokenData.clientUuid) {
        return Err(InvalidGrant);
      }
      r := AnswerRefresh(p, now, req, refreshTokenData, d);
    }

    /** The second half of the refresh grant, after the checks. */
    method AnswerRefresh(p: Prims, now: nat, req: P.Request, row: RefreshToken, d: Draw)
        returns (r: Result<Response>)
      requires Valid() && req.RefreshGrant?
      modifies redisService, prisma
      ensures Valid()
      ensures LeavesOthers(old(redisService.data), redisService.data, OAUTH_PREFIXES)
      ensures var (w, t) := Finish(p, old(View(now)), Running(req, P.RefSetToken(row)), d);
              (View(now), r) == (w, Answer(t))
    {
      hide Valid, View, IdTokenFor, RefreshAfterRow, LeavesOthers;
      ViewNow(now);
      Unfold(p, View(now), req, P.RefSetToken(row), d);
      var accessToken := d.access;
      IssueAccessToken(accessToken, row.userUuid, row.clientUuid, row.scopes, now);
      var newRefreshToken := None;
      if OfflineAccess in row.scopes {
        Unfold(p, View(now), req, P.RefCreateRow(row, accessToken), d);
        newRefreshToken := Some(d.refresh);
        var stored := StoreRefreshToken(d.refresh, row.scopes, row.userUuid, row.clientUuid, now);
        if stored.Err? {
          return Err(stored.error);
        }
      }
      r := ReplaceRefreshToken(p, now, req, row, accessToken, newRefreshToken, d);
    }

    /** The end of the refresh grant, after the new tokens are stored. */
    method ReplaceRefreshToken(
        p: Prims, now: nat, req: P.Request, row: RefreshToken, accessToken: string, newRefreshToken: Option<string>,
        ghost d: Draw)
        returns (r: Result<Response>)
      requires Valid() && req.RefreshGrant?
      modifies prisma
      ensures Valid()
      ensures var o := RefreshAfterRow(old(View(now)), req, row, accessToken, newRefreshToken);
              var (w, t) := Finish(p, o.world, o.task, d);
              (View(now), r) == (w, Answer(t))
    {
      hide Valid, View, IdTokenFor;
      ViewNow(now);
      var idToken := None;
      if Openid in row.scopes {
        if Falsy(row.nonce) {
          return Err(InvalidRequest);
        }
        Unfold(p, View(now), req, P.RefReadUser(row, accessToken, newRefreshToken), d);
        var user := ReadUser(row.userUuid, now);
        if user.Err? {
          return Err(user.error);
        }
        idToken := Some(IdTokenFor(user.value, row.userUuid, row.clientUuid, row.nonce, row.scopes));
      }
      Unfold(p, View(now), req, P.RefDelete(row, accessToken, newRefreshToken, idToken), d);
      var deleted := DropRefreshToken(req.refreshToken, now);
      if deleted.Err? {
        return Err(deleted.error);
      }
      return Ok(Tokens(accessToken, 3 * 60 * 60, newRefreshToken, Some(3 * 30 * 24 * 60 * 60), idToken, row.scopes));
    }

    method ClientCredentialsGrant(
        p: Prims, now: nat, clientId: string, clientSecret: Option<string>, scope: Option<seq<Scope>>, d: Draw)
        returns (r: Result<Response>)
      requires Valid()
      modifies redisService
      ensures Valid()
      ensures LeavesOthers(old(redisService.data), redisService.data, OAUTH_PREFIXES)
      ensures (View(now), r) == Served(p, old(View(now)), P.ClientCredentials(clientId, clientSecret, scope), d)
    {
      hide Valid;
      ghost var req := P.ClientCredentials(clientId, clientSecret, scope);
      ghost var w := View(now);
      Unfold(p, w, req, CredReadClient, d);
      var found := GetClientByUuid(clientId);
      if found.Err? {
        return Err(found.error);
      }
      var client := found.value;
      if clientSecret.None? {
        return Err(Internal);
      }
      if !p.bcrypt(clientSecret.value, client.secret) {
        return Err(InvalidClient);
      }
      if scope.None? {
        return Err(Internal);
      }
      for i := 0 to |scope.value|
        invariant forall j :: 0 <= j < i ==> scope.value[j] in client.scopes || scope.value[j] in client.optionalScopes
      {
        if scope.value[i] !in client.scopes && scope.value[i] !in client.optionalScopes {
          return Err(InvalidScope);
        }
      }
      Unfold(p, w, req, CredStore(scope.value), d);
      SetToken(d.access, TokenCache(ToClient, None, clientId, scope.value), CLIENT_ACCESS_TTL, now);
      return Ok(Tokens(d.access, 3 * 30 * 24 * 60 * 60, None, None, None, scope.value));
    }

    method Revoke(p: Prims, now: nat, token: string, tokenTypeHint: Option<Hint>, ghost d: Draw)
        returns (r: Result<Response>)
      requires Valid()
      modifies redisService, prisma
      ensures Valid()
      ensures LeavesOthers(old(redisService.data), redisService.data, OAUTH_PREFIXES)
      ensures (View(now), r) == Served(p, old(View(now)), P.Revoke(token, tokenTypeHint), d)
    {
      hide Valid, View, LeavesOthers;
      LeavesOthersSelf(redisService.data, OAUTH_PREFIXES);
      ghost var req := P.Revoke(token, tokenTypeHint);
      ViewNow(now);
      Unfold(p, View(now), req, RevokeAny, d);
      if tokenTypeHint == Some(AccessTokenHint) {
        DelToken(token, now);
        return Ok(Empty);
      } else if tokenTypeHint == Some(RefreshTokenHint) {
        var deleted := DropRefreshToken(token, now);
        if deleted.Err? {
          return Err(deleted.error);
        }
        return Ok(Empty);
      } else {
        return Err(BadRequest);
      }
    }

    method Userinfo(p: Prims, now: nat, token: string, userUuid: Option<string>, ghost d: Draw)
        returns (r: Result<Response>)
      requires Valid()
      ensures (View(now), r) == Served(p, old(View(now)), P.Userinfo(token, userUuid), d)
    {
      hide Valid, View, FindConsent;
      ghost var req := P.Userinfo(token, userUuid);
      ViewNow(now);
      Unfold(p, View(now), req, InfoGet, d);
      var cached := GetToken(token, now);
      if cached.None? {
        return Err(CacheNotFound);
      }
      var tokenData := cached.value;
      if tokenData.to == ToClient {
        if Falsy(userUuid) {
          return Err(Unauthorized);
        }
        r := AnswerClient(p, now, req, tokenData, userUuid.value, d);
      } else {
        if Falsy(tokenData.sub) {
          return Err(Unauthorized);
        }
        r := AnswerInfo(p, now, req, tokenData, tokenData.sub.value, d);
      }
    }

    /** What a client's own token needs of the user asked for: a consent, and none of it outside the token's scope. */
    method AnswerClient(
        p: Prims, now: nat, ghost req: P.Request, tokenData: TokenCache, userUuid: string, ghost d: Draw)
        returns (r: Result<Response>)
      requires Valid() && req.Userinfo?
      ensures var (w, t) := Finish(p, View(now), Running(req, InfoReadConsent(tokenData, userUuid)), d);
              (View(now), r) == (w, Answer(t))
    {
      hide Valid, View, Finish, Database.FindConsent;
      ViewNow(now);
      ConsentRead(p, View(now), req, tokenData, userUuid, d);
      var consent := FindOwnConsent(userUuid, tokenData.clientId);
      if consent.Err? {
        return Err(consent.error);
      }
      var covered := Covers(tokenData.scope, consent.value);
      if !covered {
        return Err(Unauthorized);
      }
      r := AnswerInfo(p, now, req, tokenData, userUuid, d);
    }

    /** The loop over the consent's scopes. */
    method Covers(scope: seq<Scope>, consent: seq<Scope>) returns (covered: bool)
      ensures covered <==> forall s :: s in consent ==> s in scope
    {
      for i := 0 to |consent|
        invariant forall j :: 0 <= j < i ==> consent[j] in scope
      {
        if consent[i] !in scope {
          return false;
        }
      }
      return true;
    }

    /** The step that reads the consent, taken off a request being finished. */
    lemma ConsentRead(p: Prims, w: World, r: P.Request, token: TokenCache, user: string, d: Draw)
      requires r.Userinfo?
      ensures Finish(p, w, Running(r, InfoReadConsent(token, user)), d) ==
              match Database.FindConsent(w.db, user, token.clientId)
              case Err(e) => (w, Failed(r, e))
              case Ok(consent) =>
                if forall s :: s in consent ==> s in token.scope then
                  Finish(p, w, Running(r, InfoReadUser(token, user)), d)
                else (w, Failed(r, Unauthorized))
    {
      hide Database.FindConsent, UserInfoFor;
      Unfold(p, w, r, InfoReadConsent(token, user), d);
    }

    /** The end of userinfo, once it is known which user to read. */
    method AnswerInfo(p: Prims, now: nat, ghost req: P.Request, tokenData: TokenCache, userUuid: string, ghost d: Draw)
        returns (r: Result<Response>)
      requires req.Userinfo?
      ensures var (w, t) := Finish(p, View(now), Running(req, InfoReadUser(tokenData, userUuid)), d);
              (View(now), r) == (w, Answer(t))
    {
      hide UserInfoFor;
      Unfold(p, View(now), req, InfoReadUser(tokenData, userUuid), d);
      var user := ReadUser(userUuid, now);
      if user.Err? {
        return Err(user.error);
      }
      return Ok(Info(UserInfoFor(user.value, userUuid, tokenData.scope)));
    }
  }
}
