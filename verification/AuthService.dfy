/** The login service as an object over the cache and the tables. */
module AuthService {
  import opened Types
  import opened Database
  import opened Prefixes
  import opened Prisma
  import opened Store
  import opened Sessions


  function AsSessions(m: Cache<CacheValue>): Cache<string> {
    map k | k in m && m[k].value.Session? :: Timed(m[k].value.userUuid, m[k].expiresAt)
  }

  ghost predicate AllSessions(m: Cache<CacheValue>) {
    forall k :: k in m ==> m[k].value.Session?
  }

  lemma AsSessionsSet(m: Cache<CacheValue>, key: string, uuid: string, ttl: nat, now: nat)
    requires AllSessions(m)
    ensures AllSessions(Set(m, key, CacheValue.Session(uuid), ttl, now))
    ensures AsSessions(Set(m, key, CacheValue.Session(uuid), ttl, now)) == Set(AsSessions(m), key, uuid, ttl, now)
  {
  }

  lemma AsSessionsDel(m: Cache<CacheValue>, key: string, now: nat)
    requires AllSessions(m)
    ensures AllSessions(Del(m, key, now)) && AsSessions(Del(m, key, now)) == Del(AsSessions(m), key, now)
  {
  }

  class AuthRepository {
    const prisma: PrismaService

    constructor (prisma: PrismaService)
      ensures this.prisma == prisma
    {
      this.prisma := prisma;
    }

    method FindUserByUuid(uuid: string) returns (r: Result<User>)
      ensures r == if uuid in prisma.users then Ok(prisma.users[uuid]) else Err(Unauthorized)
    {
      if uuid !in prisma.users {
        return Err(Unauthorized);
      }
      return Ok(prisma.users[uuid]);
    }

    /** The uuid and the password of the account with the email; the column is unique. */
    method FindUserByEmail(email: string) returns (r: Result<(string, string)>)
      requires Referential(prisma.State())
      ensures r == match UserByEmail(prisma.State(), email)
                   case Some(u) => Ok((u, prisma.users[u].password))
                   case None => Err(Unauthorized)
    {
      if u :| u in prisma.users && prisma.users[u].email == email {
        return Ok((u, prisma.users[u].password));
      }
      return Err(Unauthorized);
    }

    /** The user of the authenticator. */
    method FindAuthenticator(id: string) returns (r: Result<string>)
      ensures r == if id in prisma.authenticators then Ok(prisma.authenticators[id]) else Err(Unauthorized)
    {
      if id !in prisma.authenticators {
        return Err(Unauthorized);
      }
      return Ok(prisma.authenticators[id]);
    }
  }

  class AuthService {
    const redisService: RedisService
    const prisma: PrismaService
    const authRepository: AuthRepository
    const refreshTokenExpireTime: nat

    constructor (redisService: RedisService, prisma: PrismaService, refreshTokenExpireTime: nat)
      ensures this.redisService == redisService && this.prisma == prisma && authRepository.prisma == prisma
      ensures this.refreshTokenExpireTime == refreshTokenExpireTime
      ensures redisService.data == map[] ==> Valid()
    {
      this.redisService := redisService;
      this.prisma := prisma;
      this.authRepository := new AuthRepository(prisma);
      this.refreshTokenExpireTime := refreshTokenExpireTime;
      new;
      SliceOfEmpty<CacheValue>(REFRESH_TOKEN_PREFIX);
      SliceOfEmpty<CacheValue>(PASSKEY_PREFIX);
    }

    ghost predicate Valid()
      reads redisService
    {
      && authRepository.prisma == prisma
      && AllSessions(Slice(redisService.data, REFRESH_TOKEN_PREFIX))
      && AllTexts(Slice(redisService.data, PASSKEY_PREFIX))
    }

    /** The state as the specification sees it. */
    ghost function View(now: nat): World
      reads redisService, prisma
    {
      World(now, prisma.State(), AsSessions(Slice(redisService.data, REFRESH_TOKEN_PREFIX)),
            AsTexts(Slice(redisService.data, PASSKEY_PREFIX)))
    }

    method SetSession(token: string, uuid: string, now: nat)
      requires Valid()
      modifies redisService
      ensures Valid()
      ensures LeavesOthers(old(redisService.data), redisService.data, AUTH_PREFIXES)
      ensures View(now)
           == old(View(now).(sessions := Set(View(now).sessions, token, uuid, refreshTokenExpireTime, now)))
    {
      hide Slice, AsSessions, AllSessions, AsTexts, AllTexts;
      AsSessionsSet(Slice(redisService.data, REFRESH_TOKEN_PREFIX), token, uuid, refreshTokenExpireTime, now);
      redisService.SetValue(token, CacheValue.Session(uuid), REFRESH_TOKEN_PREFIX, refreshTokenExpireTime, now);
      Narrow(old(redisService.data), redisService.data, REFRESH_TOKEN_PREFIX, AUTH_PREFIXES);
    }

    method GetSession(token: string, now: nat) returns (r: Option<string>)
      requires Valid()
      ensures r == Get(View(now).sessions, token, now)
    {
      hide Slice;
      var value := redisService.GetOrThrow(token, REFRESH_TOKEN_PREFIX, now);
      if value.Err? {
        return None;
      }
      return Some(value.value.userUuid);
    }

    method Logout(token: string, now: nat)
      requires Valid()
      modifies redisService
      ensures Valid()
      ensures LeavesOthers(old(redisService.data), redisService.data, AUTH_PREFIXES)
      ensures View(now) == Sessions.Logout(old(View(now)), token)
    {
      hide Slice, AsSessions, AllSessions, AsTexts, AllTexts;
      AsSessionsDel(Slice(redisService.data, REFRESH_TOKEN_PREFIX), token, now);
      redisService.DelValue(token, REFRESH_TOKEN_PREFIX, now);
      Narrow(old(redisService.data), redisService.data, REFRESH_TOKEN_PREFIX, AUTH_PREFIXES);
    }

    /** The user the access token is signed for. */
    method IssueTokens(uuid: string, token: string, now: nat) returns (r: Result<string>)
      requires Valid()
      modifies redisService
      ensures Valid()
      ensures LeavesOthers(old(redisService.data), redisService.data, AUTH_PREFIXES)
      ensures Reply(View(now), r) == Sessions.IssueTokens(old(View(now)), uuid, token, refreshTokenExpireTime)
    {
      SetSession(token, uuid, now);
      return Ok(uuid);
    }

    method Login(p: Prims, email: string, password: string, token: string, now: nat) returns (r: Result<string>)
      requires Valid() && Referential(prisma.State())
      modifies redisService
      ensures Valid()
      ensures LeavesOthers(old(redisService.data), redisService.data, AUTH_PREFIXES)
      ensures Reply(View(now), r) == Sessions.Login(p, old(View(now)), email, password, token, refreshTokenExpireTime)
    {
      hide Slice, AsSessions, AllSessions, AsTexts, AllTexts, Referential, UserByEmail, Set;
      var user := authRepository.FindUserByEmail(email);
      if user.Err? {
        return Err(user.error);
      }
      if !p.bcrypt(password, user.value.1) {
        return Err(Unauthorized);
      }
      r := IssueTokens(user.value.0, token, now);
    }

    method Refresh(token: string, newToken: string, now: nat) returns (r: Result<string>)
      requires Valid()
      modifies redisService
      ensures Valid()
      ensures LeavesOthers(old(redisService.data), redisService.data, AUTH_PREFIXES)
      ensures Reply(View(now), r) == Sessions.Refresh(old(View(now)), token, newToken, refreshTokenExpireTime)
    {
      hide Slice, AsSessions, AllSessions, AsTexts, AllTexts, Set, Del, Get;
      if token == "" {
        return Err(Unauthorized);
      }
      var cachedUser := GetSession(token, now);
      if cachedUser.None? {
        return Err(Unauthorized);
      }
      var user := authRepository.FindUserByUuid(cachedUser.value);
      if user.Err? {
        return Err(user.error);
      }
      Logout(token, now);
      SetSession(newToken, cachedUser.value, now);
      return Ok(cachedUser.value);
    }

    method AuthenticateOptions(key: string, challenge: string, now: nat)
      requires Valid()
      modifies redisService
      ensures Valid()
      ensures LeavesOthers(old(redisService.data), redisService.data, AUTH_PREFIXES)
      ensures View(now) == Sessions.AuthenticateOptions(old(View(now)), key, challenge)
    {
      hide Slice, AsSessions, AllSessions, AsTexts, AllTexts;
      AsTextsSet(Slice(redisService.data, PASSKEY_PREFIX), key, challenge, 10 * 60, now);
      redisService.SetValue(key, Text(challenge), PASSKEY_PREFIX, 10 * 60, now);
      Narrow(old(redisService.data), redisService.data, PASSKEY_PREFIX, AUTH_PREFIXES);
    }

    /** The challenge under the key, as `getOrThrow` gives it. */
    method GetChallenge(key: string, now: nat) returns (r: Option<string>)
      requires Valid()
      ensures r == match Get(View(now).challenges, key, now)
                   case Some(challenge) => if challenge == "" then None else Some(challenge)
                   case None => None
    {
      hide Slice;
      var value := redisService.GetOrThrow(key, PASSKEY_PREFIX, now);
      if value.Err? {
        return None;
      }
      return Some(value.value.text);
    }

    method DelChallenge(key: string, now: nat)
      requires Valid()
      modifies redisService
      ensures Valid()
      ensures LeavesOthers(old(redisService.data), redisService.data, AUTH_PREFIXES)
      ensures View(now) == old(View(now).(challenges := Del(View(now).challenges, key, now)))
    {
      hide Slice, AsSessions, AllSessions, AsTexts, AllTexts;
      AsTextsDel(Slice(redisService.data, PASSKEY_PREFIX), key, now);
      redisService.DelValue(key, PASSKEY_PREFIX, now);
      Narrow(old(redisService.data), redisService.data, PASSKEY_PREFIX, AUTH_PREFIXES);
    }

    method VerifyAuthentication(key: string, id: string, verified: Option<bool>, token: string, now: nat)
        returns (r: Result<string>)
      requires Valid()
      modifies redisService
      ensures Valid()
      ensures LeavesOthers(old(redisService.data), redisService.data, AUTH_PREFIXES)
      ensures Reply(View(now), r)
              == Sessions.VerifyAuthentication(old(View(now)), key, id, verified, token, refreshTokenExpireTime)
    {
      hide Slice, AsSessions, AllSessions, AsTexts, AllTexts, Set, Del, Get;
      var expectedChallenge := GetChallenge(key, now);
      if expectedChallenge.None? {
        return Err(CacheNotFound);
      }
      DelChallenge(key, now);
      var authenticator := authRepository.FindAuthenticator(id);
      if authenticator.Err? {
        return Err(authenticator.error);
      }
      if verified.None? {
        return Err(Internal);
      }
      if !verified.value {
        return Err(Unauthorized);
      }
      r := IssueTokens(authenticator.value, token, now);
    }
  }
}
