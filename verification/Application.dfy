/** All services on the one cache and the one database they share. */
module Application {
  import opened Types
  import opened Database
  import opened Prisma
  import opened Prefixes
  import opened Store
  import P = OauthProtocol
  import O = OauthService
  import S = Sessions
  import A = AuthService
  import V = Verification
  import U = UserService
  import M = ClientMembership
  import C = ClientService
  import K = OauthMachine
  import OauthServe

  // ---------------------------------------------------------------- foreign keys through every request

  lemma UpsertKeeps(db: Db, user: string, client: string, scopes: seq<Scope>)
    requires Referential(db) && UpsertConsent(db, user, client, scopes).Ok?
    ensures Referential(UpsertConsent(db, user, client, scopes).value)
  {
  }

  lemma CreateRowKeeps(db: Db, token: string, scopes: seq<Scope>, user: string, client: string, now: nat)
    requires Referential(db) && CreateRefreshToken(db, token, scopes, user, client, None, now).Ok?
    ensures Referential(CreateRefreshToken(db, token, scopes, user, client, None, now).value)
  {
  }

  lemma DeleteRowKeeps(db: Db, token: string)
    requires Referential(db) && DeleteRefreshToken(db, token).Ok?
    ensures Referential(DeleteRefreshToken(db, token).value)
  {
  }

  lemma CodeStepKeeps(p: Prims, w: P.World, r: P.Request, pc: P.Pc, d: P.Draw)
    requires r.CodeGrant? && Referential(w.db)
    ensures Referential(P.CodeStep(p, w, r, pc, d).world.db)
  {
    hide Referential, P.IdTokenFor, P.VerifierError, P.CodeTokens, CreateRefreshToken;
    if pc.CodeCreateRow? {
      var c := pc.cache;
      if CreateRefreshToken(w.db, d.refresh, c.scope, c.userUuid, c.clientId, None, w.now).Ok? {
        CreateRowKeeps(w.db, d.refresh, c.scope, c.userUuid, c.clientId, w.now);
      }
    }
  }

  lemma RefreshStepKeeps(w: P.World, r: P.Request, pc: P.Pc, d: P.Draw)
    requires r.RefreshGrant? && Referential(w.db)
    ensures Referential(P.RefreshStep(w, r, pc, d).world.db)
  {
    hide Referential, P.IdTokenFor, P.RefreshTokens, CreateRefreshToken, DeleteRefreshToken;
    if pc.RefCreateRow? {
      var row := pc.row;
      if CreateRefreshToken(w.db, d.refresh, row.scopes, row.userUuid, row.clientUuid, None, w.now).Ok? {
        CreateRowKeeps(w.db, d.refresh, row.scopes, row.userUuid, row.clientUuid, w.now);
      }
    }
    if DeleteRefreshToken(w.db, r.refreshToken).Ok? {
      DeleteRowKeeps(w.db, r.refreshToken);
    }
  }

  lemma StepKeeps(p: Prims, w: P.World, r: P.Request, pc: P.Pc, d: P.Draw)
    requires Referential(w.db)
    ensures Referential(P.Step(p, w, r, pc, d).world.db)
  {
    hide Referential, P.CodeStep, P.RefreshStep, P.UserInfoFor, UpsertConsent, DeleteRefreshToken;
    match r
    case CodeGrant(_, _, _) => CodeStepKeeps(p, w, r, pc, d);
    case RefreshGrant(_, _) => RefreshStepKeeps(w, r, pc, d);
    case Consent(user, client, scope) =>
      if UpsertConsent(w.db, user, client, scope).Ok? {
        UpsertKeeps(w.db, user, client, scope);
      }
    case Revoke(token, _) =>
      if DeleteRefreshToken(w.db, token).Ok? {
        DeleteRowKeeps(w.db, token);
      }
    case _ =>
  }

  lemma {:induction false} FinishKeeps(p: Prims, w: P.World, t: P.Task, d: P.Draw)
    requires Referential(w.db)
    ensures Referential(P.Finish(p, w, t, d).0.db)
    decreases if t.Running? then P.Rank(t.pc) else 0
  {
    hide Referential, P.Step;
    if t.Running? {
      var o := P.Step(p, w, t.req, t.pc, d);
      StepKeeps(p, w, t.req, t.pc, d);
      FinishKeeps(p, o.world, o.task, d);
    }
  }

  lemma RegisterKeeps(p: Prims, s: V.Desk, uuid: string, salt: string, r: V.Registration)
    requires Referential(s.db) && V.Register(p, s, uuid, salt, r).Ok?
    ensures Referential(V.Register(p, s, uuid, salt, r).value.db)
  {
    StatementKeepsReferential(s.db, UserCreated(uuid, V.NewUser(p, salt, r)));
    hide Referential, V.CheckRegistration, V.NewUser, CreateUser;
  }

  lemma RowUpdateKeeps(db: Db, uuid: string, u: User)
    requires Referential(db) && uuid in db.users && u.email == db.users[uuid].email
    ensures Referential(db.(users := db.users[uuid := u]))
  {
    StatementKeepsReferential(db, UserUpdated(uuid, u));
  }

  /** The requests to the verification and user services. */
  predicate IsVerifyRequest(a: V.Act) {
    a.SendEmail? || a.SendPhone? || a.Validate? || a.Ask? || a.SignUp? || a.VerifyId? || a.VerifyPhone?
  }

  lemma VerifyKeeps(p: Prims, s: V.Desk, a: V.Act)
    requires IsVerifyRequest(a) && V.InRange(a) && Referential(s.db) && V.Outcome(p, s, a).Ok?
    ensures Referential(V.Outcome(p, s, a).value.db)
  {
    hide Referential, V.Register, V.Stored;
    match a
    case SignUp(uuid, salt, r) => RegisterKeeps(p, s, uuid, salt, r);
    case VerifyId(uuid, name, registry) =>
      if uuid in s.db.users && registry.Some? {
        RowUpdateKeeps(s.db, uuid, s.db.users[uuid].(name := name, studentId := registry.value, isIdVerified := true));
      }
    case VerifyPhone(uuid, phone, _) =>
      if uuid in s.db.users {
        RowUpdateKeeps(s.db, uuid, s.db.users[uuid].(phoneNumber := phone, isPhoneNumberVerified := true));
      }
    case _ =>
  }

  /** Who registers can log in with the email in lower case and the password of the registration, as long as the account
      is unchanged and a password compares with its own hash. */
  lemma RegisteredCanLogin(
      p: Prims, s: V.Desk, uuid: string, salt: string, r: V.Registration, w: S.World, token: string, ttl: nat)
    requires V.Register(p, s, uuid, salt, r).Ok? && uuid !in s.db.users
    requires Referential(w.db) && uuid in w.db.users
    requires w.db.users[uuid] == V.Register(p, s, uuid, salt, r).value.db.users[uuid]
    ensures p.bcrypt(r.password, p.hash(r.password, salt)) <==>
              S.Login(p, w, p.lower(r.email), r.password, token, ttl).result == Ok(uuid)
  {
    hide V.CheckRegistration, EmailTaken;
    V.RegisterIff(p, s, uuid, salt, r);
    assert UserByEmail(w.db, p.lower(r.email)) == Some(uuid);
  }

  /** The requests to the login service. */
  predicate IsLoginRequest(a: S.Act) {
    !a.Write? && !a.Tick?
  }

  /** The requests to the client service, and the deletion of an account. */
  predicate IsClientRequest(a: M.Act) {
    !a.OtherStatement? && !a.OtherTables?
  }

  lemma ClientKeeps(p: Prims, db: Db, a: M.Act)
    requires IsClientRequest(a) && Referential(db) && M.Outcome(p, db, a).Ok?
    ensures Referential(M.Outcome(p, db, a).value)
  {
    hide Referential, UpdateClient, RemoveMember, CreateClient, AddMember, SetRole, TransferOwnership, DeleteUser,
      UserByEmail;
    match a
    case RegisterClient(uuid, secret, urls, user) =>
      StatementKeepsReferential(db, ClientCreated(uuid, secret, urls, user));
    case AddMemberAct(_, client, email) =>
      if UserByEmail(db, email).Some? {
        StatementKeepsReferential(db, MemberAdded(client, UserByEmail(db, email).value));
      }
    case RemoveMemberAct(_, client, user) => StatementKeepsReferential(db, MemberRemoved(client, user));
    case SetRoleAct(caller, client, user, role) =>
      StatementKeepsReferential(db, OwnershipTransferred(client, caller, user));
      StatementKeepsReferential(db, RoleSet(client, user, role));
    case UpdateClientAct(caller, client, patch) => StatementKeepsReferential(db, ClientUpdated(client, patch, caller));
    case DeleteAccountAct(user, _) => StatementKeepsReferential(db, UserDeleted(user));
  }

  // ---------------------------------------------------------------- the services together

  class Application {
    const redisService: RedisService
    const prisma: PrismaService
    const jwtService: U.JwtService
    const oauthService: O.OauthService
    const authService: A.AuthService
    const verifyService: U.VerifyService
    const userService: U.UserService
    const clientService: C.ClientService

    /** Every service starts in order on an empty cache and an empty database. */
    constructor (refreshTokenExpireTime: nat)
      ensures Valid() && fresh(redisService) && fresh(prisma) && fresh(jwtService)
      ensures forall now :: oauthService.View(now) == P.World(now, EMPTY_DB, map[], map[])
      ensures prisma.State() == EMPTY_DB && authService.refreshTokenExpireTime == refreshTokenExpireTime
    {
      var redis := new RedisService();
      var db := new PrismaService();
      var jwt := new U.JwtService();
      var verify := new U.VerifyService(redis, jwt, db);
      redisService, prisma, jwtService, verifyService := redis, db, jwt, verify;
      oauthService := new O.OauthService(redis, db);
      authService := new A.AuthService(redis, db, refreshTokenExpireTime);
      userService := new U.UserService(verify);
      clientService := new C.ClientService(db);
      new;
      hide Slice, AllTexts, O.AllCodes, O.AllTokens, O.AsCodes, O.AsTokens, A.AllSessions;
      ViewOfEmpty(oauthService);
    }

    static lemma ViewOfEmpty(o: O.OauthService)
      requires o.redisService.data == map[] && o.prisma.State() == EMPTY_DB
      ensures forall now :: o.View(now) == P.World(now, EMPTY_DB, map[], map[])
    {
      SliceOfEmpty<CacheValue>(CODE_PREFIX);
      SliceOfEmpty<CacheValue>(TOKEN_PREFIX);
    }

    ghost predicate Shared() {
      && oauthService.redisService == redisService && oauthService.prisma == prisma
      && authService.redisService == redisService && authService.prisma == prisma
      && verifyService.redisService == redisService && verifyService.prisma == prisma
      && verifyService.jwtService == jwtService && userService.verifyService == verifyService
      && clientService.prisma == prisma
    }

    ghost predicate Valid()
      reads this, redisService, prisma, oauthService, oauthService.redisService, authService.redisService,
            verifyService, verifyService.redisService, userService.verifyService, userService.verifyService.redisService
    {
      && Shared()
      && oauthService.Valid() && authService.Valid() && userService.Valid() && clientService.Valid()
      && Referential(prisma.State())
    }

    /** An OAuth request: the OAuth state changes as specified, and nothing else but the tables. */
    method Oauth(p: Prims, now: nat, r: P.Request, d: P.Draw) returns (resp: Result<P.Response>)
      requires Valid()
      modifies redisService, prisma
      ensures Valid()
      ensures (oauthService.View(now), resp) == O.Served(p, old(oauthService.View(now)), r, d)
      ensures authService.View(now) == old(authService.View(now)).(db := prisma.State())
      ensures verifyService.View(now, []) == old(verifyService.View(now, [])).(db := prisma.State())
    {
      hide Slice, Referential, A.AllSessions, AllTexts, O.AllCodes, O.AllTokens, P.Finish, P.First, LeavesOthers;
      FinishKeeps(p, oauthService.View(now), P.Running(r, P.First(r)), d);
      match r {
        case Consent(user, client, scope) => resp := oauthService.Consent(p, now, user, client, scope, d);
        case Authorize(user, client, challenge, m, uri, scope, nonce) =>
          resp := oauthService.Authorize(p, now, user, client, challenge, m, uri, scope, nonce, d);
        case CodeGrant(client, code, verifier) => resp := oauthService.CodeGrant(p, now, client, code, verifier, d);
        case RefreshGrant(client, token) => resp := oauthService.RefreshTokenGrant(p, now, client, token, d);
        case ClientCredentials(client, secret, scope) =>
          resp := oauthService.ClientCredentialsGrant(p, now, client, secret, scope, d);
        case Revoke(token, hint) => resp := oauthService.Revoke(p, now, token, hint, d);
        case Userinfo(token, sub) => resp := oauthService.Userinfo(p, now, token, sub, d);
      }
      SparedByOauth(old(redisService.data), redisService.data);
    }

    lemma SparedByOauth(before: Cache<CacheValue>, after: Cache<CacheValue>)
      requires before == after || LeavesOthers(before, after, OAUTH_PREFIXES)
      ensures Slice(after, REFRESH_TOKEN_PREFIX) == Slice(before, REFRESH_TOKEN_PREFIX)
      ensures Slice(after, PASSKEY_PREFIX) == Slice(before, PASSKEY_PREFIX)
      ensures Slice(after, EMAIL_PREFIX) == Slice(before, EMAIL_PREFIX)
      ensures Slice(after, PHONE_PREFIX) == Slice(before, PHONE_PREFIX)
    {
      hide Slice;
      if before != after {
        Spared(before, after, OAUTH_PREFIXES);
        DifferentPrefixes();
      }
    }

    lemma DifferentPrefixes()
      ensures OAUTH_PREFIXES !! AUTH_PREFIXES && OAUTH_PREFIXES !! VERIFY_PREFIXES && AUTH_PREFIXES !! VERIFY_PREFIXES
    {
      assert forall p :: p in OAUTH_PREFIXES ==> p[0] == 'c' || p[0] == 't';
      assert forall p :: p in AUTH_PREFIXES ==> p[0] == 'r' || p[0] == 'p';
      assert forall p :: p in VERIFY_PREFIXES ==> p[0] == 'E' || p[0] == 'P';
    }

    /** A request to the login service: the sessions and challenges change as specified, and nothing else. */
    method Login(p: Prims, now: nat, a: S.Act) returns (resp: Result<string>)
      requires Valid() && IsLoginRequest(a)
      modifies redisService
      ensures Valid()
      ensures S.Reply(authService.View(now), resp)
              == S.Answer(p, authService.refreshTokenExpireTime, old(authService.View(now)), a)
      ensures oauthService.View(now) == old(oauthService.View(now))
      ensures verifyService.View(now, []) == old(verifyService.View(now, []))
    {
      hide Slice, Referential, A.AllSessions, AllTexts, O.AllCodes, O.AllTokens, LeavesOthers;
      match a {
        case PasswordLogin(email, password, token) => resp := authService.Login(p, email, password, token, now);
        case AskChallenge(key, challenge) =>
          authService.AuthenticateOptions(key, challenge, now);
          resp := Ok("");
        case PasskeyLogin(key, id, verified, token) =>
          resp := authService.VerifyAuthentication(key, id, verified, token, now);
        case EndSession(token) =>
          authService.Logout(token, now);
          resp := Ok("");
        case Renew(token, newToken) => resp := authService.Refresh(token, newToken, now);
      }
      SparedByLogin(old(redisService.data), redisService.data);
    }

    lemma SparedByLogin(before: Cache<CacheValue>, after: Cache<CacheValue>)
      requires before == after || LeavesOthers(before, after, AUTH_PREFIXES)
      ensures Slice(after, CODE_PREFIX) == Slice(before, CODE_PREFIX)
      ensures Slice(after, TOKEN_PREFIX) == Slice(before, TOKEN_PREFIX)
      ensures Slice(after, EMAIL_PREFIX) == Slice(before, EMAIL_PREFIX)
      ensures Slice(after, PHONE_PREFIX) == Slice(before, PHONE_PREFIX)
    {
      hide Slice;
      if before != after {
        Spared(before, after, AUTH_PREFIXES);
        DifferentPrefixes();
      }
    }

    /** A request to the verification or user service: codes, tokens and user rows change as specified, and nothing
        else. */
    method Verify(p: Prims, now: nat, a: V.Act) returns (resp: Result<()>)
      requires Valid() && IsVerifyRequest(a) && V.InRange(a)
      modifies redisService, prisma, jwtService
      ensures Valid()
      ensures U.Did(old(verifyService.View(now, [])), V.Outcome(p, old(verifyService.View(now, [])), a),
                verifyService.View(now, []), resp)
      ensures oauthService.View(now) == old(oauthService.View(now)).(db := prisma.State())
      ensures authService.View(now) == old(authService.View(now)).(db := prisma.State())
    {
      hide Slice, Referential, A.AllSessions, AllTexts, O.AllCodes, O.AllTokens, LeavesOthers;
      hide V.Register, V.ValidateCode, V.SendEmailCode, V.SendPhoneCode;
      hide V.VerifyStudentId, V.VerifyOwnStudentId, V.VerifyPhoneNumber;
      ghost var before := verifyService.View(now, []);
      if V.Outcome(p, before, a).Ok? {
        VerifyKeeps(p, before, a);
      }
      match a {
        case SendEmail(email, n, delivered) => resp := verifyService.SendEmailCode(p, now, email, n, delivered, []);
        case SendPhone(phone, n, delivered) => resp := verifyService.SendPhoneCode(p, now, phone, n, delivered, []);
        case Validate(subject, code, hint, token, expiresAt) =>
          resp := verifyService.ValidateCode(p, now, subject, code, hint, token, expiresAt, []);
        case Ask(registry, token, expiresAt) =>
          resp := verifyService.VerifyStudentId(now, registry, token, expiresAt, []);
        case SignUp(uuid, salt, r) => resp := userService.Register(p, now, uuid, salt, r, []);
        case VerifyId(uuid, name, registry) => resp := userService.VerifyStudentId(now, uuid, name, registry, []);
        case VerifyPhone(uuid, phone, code) => resp := userService.VerifyPhoneNumber(now, uuid, phone, code, []);
      }
      SparedByVerify(old(redisService.data), redisService.data);
    }

    lemma SparedByVerify(before: Cache<CacheValue>, after: Cache<CacheValue>)
      requires before == after || LeavesOthers(before, after, VERIFY_PREFIXES)
      ensures Slice(after, CODE_PREFIX) == Slice(before, CODE_PREFIX)
      ensures Slice(after, TOKEN_PREFIX) == Slice(before, TOKEN_PREFIX)
      ensures Slice(after, REFRESH_TOKEN_PREFIX) == Slice(before, REFRESH_TOKEN_PREFIX)
      ensures Slice(after, PASSKEY_PREFIX) == Slice(before, PASSKEY_PREFIX)
    {
      hide Slice;
      if before != after {
        Spared(before, after, VERIFY_PREFIXES);
        DifferentPrefixes();
      }
    }

    /** A request to the client service, or the deletion of an account: the tables change as specified, and the cache
        not at all. */
    method Manage(p: Prims, a: M.Act) returns (resp: Result<()>)
      requires Valid() && IsClientRequest(a)
      modifies prisma
      ensures Valid()
      ensures Wrote(old(prisma.State()), M.Outcome(p, old(prisma.State()), a), prisma.State(), resp)
      ensures forall now :: oauthService.View(now) == old(oauthService.View(now)).(db := prisma.State())
    {
      hide Referential, M.Outcome, NothingOf;
      ghost var before := prisma.State();
      if M.Outcome(p, before, a).Ok? {
        ClientKeeps(p, before, a);
      }
      match a {
        case RegisterClient(uuid, secret, urls, user) =>
          resp := clientService.RegisterClient(p, uuid, secret, urls, user);
        case AddMemberAct(caller, client, email) => resp := clientService.AddMember(p, caller, client, email);
        case RemoveMemberAct(caller, client, user) => resp := clientService.RemoveMember(p, caller, client, user);
        case SetRoleAct(caller, client, user, role) => resp := clientService.SetRole(p, caller, client, user, role);
        case UpdateClientAct(caller, client, patch) => resp := clientService.UpdateClient(p, caller, client, patch);
        case DeleteAccountAct(user, password) =>
          resp := userService.DeleteUser(p, user, password);
          DeletionOutcome(p, before, user, password);
      }
    }

    lemma DeletionOutcome(p: Prims, db: Db, user: string, password: string)
      ensures M.Outcome(p, db, M.DeleteAccountAct(user, password))
           == if user in db.users && p.bcrypt(password, db.users[user].password) then DeleteUser(db, user)
              else Err(Forbidden)
    {
    }

    /** A request to any of the services. */
    method Handle(p: Prims, now: nat, c: Call)
      requires Valid() && WellFormed(c)
      modifies redisService, prisma, jwtService
      ensures Valid()
      ensures OauthMoves(p, old(oauthService.View(now)), c, oauthService.View(now))
    {
      hide Valid, OauthMoves, O.Served;
      ghost var before := oauthService.View(now);
      SameTables(now);
      match c {
        case OauthCall(r, d) =>
          var resp := Oauth(p, now, r, d);
          ServedMoves(p, before, r, d, oauthService.View(now), resp);
        case LoginCall(a) =>
          var _ := Login(p, now, a);
          StillMoves(p, before, c);
        case VerifyCall(a) =>
          ghost var desk := verifyService.View(now, []);
          var resp := Verify(p, now, a);
          SameTables(now);
          VerifyMoves(p, before, desk, a, verifyService.View(now, []), resp);
        case ClientCall(a) =>
          var resp := Manage(p, a);
          SameTables(now);
          ManageMoves(p, before, a, prisma.State(), resp);
      }
    }

    lemma ViewLater(now: nat, later: nat)
      ensures oauthService.View(later) == oauthService.View(now).(now := later)
    {
    }

    lemma SameTables(now: nat)
      requires Valid()
      ensures oauthService.View(now).db == prisma.State() && verifyService.View(now, []).db == prisma.State()
      ensures oauthService.View(now).now == now
    {
    }
  }

  // ---------------------------------------------------------------- any run of requests

  datatype Call =
    | OauthCall(request: P.Request, draw: P.Draw)
    | LoginCall(login: S.Act)
    | VerifyCall(verify: V.Act)
    | ClientCall(manage: M.Act)

  predicate WellFormed(c: Call) {
    && (c.LoginCall? ==> IsLoginRequest(c.login))
    && (c.VerifyCall? ==> IsVerifyRequest(c.verify) && V.InRange(c.verify))
    && (c.ClientCall? ==> IsClientRequest(c.manage))
  }

  /** The random strings of a call that the OAuth service can come across. */
  function Draws(c: Call): set<string> {
    match c
    case OauthCall(_, d) => {d.access, d.refresh}
    case LoginCall(_) => {}
    case VerifyCall(a) => if a.SignUp? then {a.uuid} else {}
    case ClientCall(a) => if a.RegisterClient? then {a.uuid} else {}
  }

  /** A statement that the call may send to the tables. */
  predicate Issues(c: Call, st: Statement) {
    && K.DrawnBy(st) <= Draws(c)
    && (st.ClientUpdated? ==> c.ClientCall? && c.manage.UpdateClientAct? && c.manage.patch == st.patch)
  }

  /** What a call does to the state of the OAuth service: an OAuth request is served, any other call leaves it alone but
      for one statement at most. */
  ghost predicate OauthMoves(p: Prims, before: P.World, c: Call, after: P.World) {
    match c
    case OauthCall(r, d) => after == P.Serve(p, before, r, d).0
    case _ =>
      || after == before
      || exists st ::
           Issues(c, st) && Execute(before.db, st).Ok? && after == before.(db := Execute(before.db, st).value)
  }

  lemma StillMoves(p: Prims, w: P.World, c: Call)
    requires !c.OauthCall?
    ensures OauthMoves(p, w, c, w)
  {
  }

  lemma ServedMoves(p: Prims, w: P.World, r: P.Request, d: P.Draw, after: P.World, resp: Result<P.Response>)
    requires (after, resp) == O.Served(p, w, r, d)
    ensures OauthMoves(p, w, OauthCall(r, d), after)
  {
  }

  /** A request to the verification or user service writes by at most one statement. */
  lemma VerifyMoves(
      p: Prims, w: P.World, s: V.Desk, a: V.Act, s': V.Desk, resp: Result<()>)
    requires IsVerifyRequest(a) && V.InRange(a) && s.db == w.db && U.Did(s, V.Outcome(p, s, a), s', resp)
    ensures OauthMoves(p, w, VerifyCall(a), w.(db := s'.db))
  {
    if V.Outcome(p, s, a).Ok? {
      hide V.CheckRegistration, V.NewUser, V.Stored, CreateUser, OauthMoves;
      match a
      case SignUp(uuid, salt, r) => OneStatement(p, w, VerifyCall(a), UserCreated(uuid, V.NewUser(p, salt, r)));
      case VerifyId(uuid, name, registry) =>
        OneStatement(p, w, VerifyCall(a),
          UserUpdated(uuid, s.db.users[uuid].(name := name, studentId := registry.value, isIdVerified := true)));
      case VerifyPhone(uuid, phone, _) =>
        OneStatement(p, w, VerifyCall(a),
          UserUpdated(uuid, s.db.users[uuid].(phoneNumber := phone, isPhoneNumberVerified := true)));
      case _ => StillMoves(p, w, VerifyCall(a));
    }
  }

  lemma OneStatement(p: Prims, w: P.World, c: Call, st: Statement)
    requires !c.OauthCall? && Issues(c, st) && Execute(w.db, st).Ok?
    ensures OauthMoves(p, w, c, w.(db := Execute(w.db, st).value))
  {
    hide Execute;
  }

  /** A request to the client service writes by at most one statement. */
  lemma ManageMoves(p: Prims, w: P.World, a: M.Act, db: Db, resp: Result<()>)
    requires IsClientRequest(a) && Wrote(w.db, M.Outcome(p, w.db, a), db, resp)
    ensures OauthMoves(p, w, ClientCall(a), w.(db := db))
  {
    var c := ClientCall(a);
    if M.Outcome(p, w.db, a).Ok? {
      hide UpdateClient, RemoveMember, CreateClient, AddMember, SetRole, TransferOwnership, DeleteUser, UserByEmail,
        OauthMoves;
      match a
      case RegisterClient(uuid, secret, urls, user) => OneStatement(p, w, c, ClientCreated(uuid, secret, urls, user));
      case AddMemberAct(_, client, email) => OneStatement(p, w, c, MemberAdded(client, UserByEmail(w.db, email).value));
      case RemoveMemberAct(_, client, user) => OneStatement(p, w, c, MemberRemoved(client, user));
      case SetRoleAct(caller, client, user, role) =>
        if role == OWNER {
          OneStatement(p, w, c, OwnershipTransferred(client, caller, user));
        } else {
          OneStatement(p, w, c, RoleSet(client, user, role));
        }
      case UpdateClientAct(caller, client, patch) => OneStatement(p, w, c, ClientUpdated(client, patch, caller));
      case DeleteAccountAct(user, _) => OneStatement(p, w, c, UserDeleted(user));
    }
  }

  /** Any requests to any of the services, one after the other: no service ever finds the cache or the tables out of
      order because of another. */
  method Serve(app: Application, p: Prims, calls: seq<(nat, Call)>)
    requires app.Valid()
    requires forall i :: 0 <= i < |calls| ==> WellFormed(calls[i].1)
    modifies app.redisService, app.prisma, app.jwtService
    ensures app.Valid()
  {
    for i := 0 to |calls|
      invariant app.Valid()
    {
      app.Handle(p, calls[i].0, calls[i].1);
    }
  }

  // ---------------------------------------------------------------- a run of the serial machine

  /** The calls come with a clock that does not go back, with random strings that were not drawn before, and with what
      the request objects let through. */
  ghost predicate Orderly(calls: seq<(nat, Call)>, now: nat, used: set<string>)
    decreases |calls|
  {
    calls == [] ||
    var c := calls[0].1;
    && now <= calls[0].0 && WellFormed(c) && Draws(c) !! used
    && (c.OauthCall? ==> P.Accepted(c.request) && c.draw.access != c.draw.refresh)
    && (c.ClientCall? && c.manage.UpdateClientAct? ==> PatchAccepted(c.manage.patch))
    && Orderly(calls[1..], calls[0].0, used + Draws(c))
  }

  /** When the last call was made. */
  function EndOf(calls: seq<(nat, Call)>, now: nat): nat {
    if calls == [] then now else calls[|calls| - 1].0
  }

  /** The machine at rest, with these strings used up at most. */
  ghost predicate Rests(s: K.Sys, w: P.World, used: set<string>) {
    K.Quiet(s) && s.world == w && s.used <= used
  }

  lemma TickRests(p: Prims, s: K.Sys, w: P.World, used: set<string>, now: nat)
    requires Rests(s, w, used) && w.now <= now
    ensures Rests(K.Next(p, true, s, K.Tick(now - w.now)), w.(now := now), used)
  {
  }

  lemma WriteRests(p: Prims, s: K.Sys, w: P.World, used: set<string>, c: Call, st: Statement)
    requires Rests(s, w, used) && Issues(c, st) && Draws(c) !! used && Execute(w.db, st).Ok?
    requires c.ClientCall? && c.manage.UpdateClientAct? ==> PatchAccepted(c.manage.patch)
    ensures Rests(K.Next(p, true, s, K.Write(st)), w.(db := Execute(w.db, st).value), used + Draws(c))
  {
    hide Execute, K.DeclareAfter, PatchAccepted;
  }

  lemma ServeRests(p: Prims, s: K.Sys, w: P.World, used: set<string>, r: P.Request, d: P.Draw)
    returns (acts: seq<K.Action>)
    requires Rests(s, w, used) && P.Accepted(r) && d.access != d.refresh && {d.access, d.refresh} !! used
    ensures Rests(K.Exec(p, true, s, acts), P.Serve(p, w, r, d).0, used + {d.access, d.refresh})
  {
    hide P.Serve, K.Exec;
    acts := OauthServe.ServeIsSerialRun(p, s, r, d);
    OauthServe.ServedIsDone(p, w, r, d);
  }

  /** Whatever a call does to the state of the OAuth service, the serial machine can do. */
  lemma CallRests(p: Prims, s: K.Sys, w: P.World, used: set<string>, now: nat, c: Call, w': P.World)
    returns (acts: seq<K.Action>)
    requires Rests(s, w, used) && w.now <= now && Draws(c) !! used
    requires c.OauthCall? ==> P.Accepted(c.request) && c.draw.access != c.draw.refresh
    requires c.ClientCall? && c.manage.UpdateClientAct? ==> PatchAccepted(c.manage.patch)
    requires OauthMoves(p, w.(now := now), c, w')
    ensures Rests(K.Exec(p, true, s, acts), w', used + Draws(c))
  {
    hide P.Serve, K.Exec, K.Next, Execute, PatchAccepted, Rests, P.Accepted;
    var tick := K.Tick(now - w.now);
    var s1, w1 := K.Next(p, true, s, tick), w.(now := now);
    TickRests(p, s, w, used, now);
    OauthServe.ExecOne(p, true, s, tick);
    if c.OauthCall? {
      var rest := ServeRests(p, s1, w1, used, c.request, c.draw);
      acts := [tick] + rest;
      K.ExecJoin(p, true, s, [tick], rest);
    } else if w' == w1 {
      acts := [tick];
      RestsMore(s1, w1, used, Draws(c));
    } else {
      var st :| Issues(c, st) && Execute(w1.db, st).Ok? && w' == w1.(db := Execute(w1.db, st).value);
      WriteRests(p, s1, w1, used, c, st);
      acts := [tick] + [K.Write(st)];
      K.ExecJoin(p, true, s, [tick], [K.Write(st)]);
      OauthServe.ExecOne(p, true, s1, K.Write(st));
    }
  }

  lemma RestsMore(s: K.Sys, w: P.World, used: set<string>, more: set<string>)
    requires Rests(s, w, used)
    ensures Rests(s, w, used + more)
  {
  }

  /** Any orderly calls to any of the services: what the OAuth service then finds in the cache and the tables is the
      world of a run of the serial machine, so every theorem about those runs speaks of it. */
  method ServeAsRun(
      app: Application, p: Prims, calls: seq<(nat, Call)>, now: nat, ghost s: K.Sys, ghost used: set<string>)
    returns (ghost run: seq<K.Action>)
    requires app.Valid() && Rests(s, app.oauthService.View(now), used) && Orderly(calls, now, used)
    modifies app.redisService, app.prisma, app.jwtService
    ensures app.Valid()
    ensures K.Exec(p, true, s, run).world == app.oauthService.View(EndOf(calls, now))
    ensures K.Quiet(K.Exec(p, true, s, run))
  {
    run := [];
    var at := now;
    ghost var drawn := used;
    assert K.Exec(p, true, s, run) == s;
    for i := 0 to |calls|
      invariant app.Valid() && at == EndOf(calls[..i], now)
      invariant Rests(K.Exec(p, true, s, run), app.oauthService.View(at), drawn)
      invariant Orderly(calls[i..], at, drawn)
    {
      hide K.Exec, OauthMoves, PatchAccepted, P.Accepted;
      var next, c := calls[i].0, calls[i].1;
      assert calls[i..][0] == calls[i] && calls[i..][1..] == calls[i + 1..];
      ghost var w := app.oauthService.View(at);
      app.ViewLater(at, next);
      app.Handle(p, next, c);
      ghost var acts := CallRests(p, K.Exec(p, true, s, run), w, drawn, next, c, app.oauthService.View(next));
      K.ExecJoin(p, true, s, run, acts);
      run, drawn := run + acts, drawn + Draws(c);
      at := next;
      assert calls[..i + 1][|calls[..i + 1]| - 1] == calls[i];
    }
    assert calls[..|calls|] == calls;
  }

  /** The same from the start of the service. */
  method Start(p: Prims, refreshTokenExpireTime: nat, calls: seq<(nat, Call)>)
    returns (app: Application, ghost run: seq<K.Action>)
    requires Orderly(calls, 0, {})
    ensures app.Valid()
    ensures K.Exec(p, true, K.INITIAL, run).world == app.oauthService.View(EndOf(calls, 0))
  {
    app := new Application(refreshTokenExpireTime);
    run := ServeAsRun(app, p, calls, 0, K.INITIAL, {});
  }
}
