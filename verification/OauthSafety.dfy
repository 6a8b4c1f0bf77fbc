/** The interleaved layer: what holds after any interleaving of steps, clock ticks and writes. */
module OauthSafety {
  import opened Types
  import opened Database
  import opened Store
  import opened OauthProtocol
  import opened OauthMachine
  import opened OauthInvariants

  /** One step of one request: what it assumes. */
  ghost predicate Ready(p: Prims, w: World, h: History, used: set<string>, r: Request, pc: Pc, d: Draw) {
    && HistoryInv(h) && WorldInv(w, h) && UsedInv(w, h, used)
    && RunningOk(p, h, r, pc)
    && Accepted(r)
    && Drawn(pc, d) !! used
  }

  /** ... and what it leaves behind. */
  ghost predicate Kept(p: Prims, w: World, h: History, used: set<string>, pc: Pc, d: Draw, o: Outcome) {
    var h' := Record(h, w.now, o.event);
    && EventOk(h, o.event)
    && WorldInv(o.world, h')
    && UsedInv(o.world, h', used + Drawn(pc, d))
    && TaskOk(p, h', o.task)
  }

  // ---------------------------------------------------------------- reading what is stored

  lemma ClientRow(w: World, h: History, uuid: string)
    requires WorldInv(w, h) && uuid in w.db.clients
    ensures ClientOk(h, uuid, w.db.clients[uuid])
  {
  }

  lemma ConsentRow(w: World, h: History, user: string, client: string)
    requires WorldInv(w, h) && FindConsent(w.db, user, client).Ok?
    ensures ConsentOk(h, ConsentKey(client, user), FindConsent(w.db, user, client).value)
  {
  }

  lemma CodeEntry(w: World, h: History, code: string)
    requires WorldInv(w, h) && Get(w.codes, code, w.now).Some?
    ensures CodeMatches(h, code, Get(w.codes, code, w.now).value)
  {
  }

  lemma TokenEntry(w: World, h: History, token: string)
    requires WorldInv(w, h) && Get(w.tokens, token, w.now).Some?
    ensures TokenMatches(h, token, Get(w.tokens, token, w.now).value)
  {
  }

  lemma RefreshRow(w: World, h: History, token: string)
    requires WorldInv(w, h) && token in w.db.refreshTokens
    ensures RowMatches(h, token, w.db.refreshTokens[token])
  {
  }

  lemma AuthFact(h: History, code: string)
    requires HistoryInv(h) && code in h.auths
    ensures AuthOk(h, h.auths[code])
  {
  }

  // ---------------------------------------------------------------- the writes the handlers make

  /** A world in order, with every random string accounted for. */
  ghost predicate Sound(w: World, h: History, used: set<string>) {
    WorldInv(w, h) && UsedInv(w, h, used)
  }

  lemma SoundGrows(w: World, h: History, used: set<string>, e: Event, drawn: set<string>)
    requires HistoryInv(h) && EventOk(h, e) && Sound(w, h, used)
    requires e.Authorized? ==> e.code in drawn
    requires e.Minted? ==> e.token in drawn
    requires e.MintedForClient? ==> e.token in drawn
    ensures Sound(w, Record(h, w.now, e), used + drawn)
  {
    RecordGrows(h, w.now, e);
    WorldGrows(w, h, Record(h, w.now, e));
  }

  lemma UpsertSound(w: World, h: History, used: set<string>, user: string, client: string, scopes: seq<Scope>)
    requires Sound(w, h, used) && UpsertConsent(w.db, user, client, scopes).Ok?
    requires ConsentOk(h, ConsentKey(client, user), scopes)
    ensures Sound(w.(db := UpsertConsent(w.db, user, client, scopes).value), h, used)
  {
  }

  lemma SetCodeSound(w: World, h: History, used: set<string>, code: string, cache: AuthorizeCache, ttl: nat)
    requires Sound(w, h, used) && CodeMatches(h, code, cache) && code in used
    ensures Sound(w.(codes := Set(w.codes, code, cache, ttl, w.now)), h, used)
  {
  }

  lemma DelCodeSound(w: World, h: History, used: set<string>, code: string)
    requires Sound(w, h, used)
    ensures Sound(w.(codes := Del(w.codes, code, w.now)), h, used)
  {
  }

  lemma SetTokenSound(w: World, h: History, used: set<string>, token: string, cache: TokenCache, ttl: nat)
    requires Sound(w, h, used) && TokenMatches(h, token, cache) && token in used
    ensures Sound(w.(tokens := Set(w.tokens, token, cache, ttl, w.now)), h, used)
  {
  }

  lemma DelTokenSound(w: World, h: History, used: set<string>, token: string)
    requires Sound(w, h, used)
    ensures Sound(w.(tokens := Del(w.tokens, token, w.now)), h, used)
  {
  }

  lemma CreateRowSound(
      w: World, h: History, used: set<string>, token: string, scopes: seq<Scope>, user: string, client: string)
    requires Sound(w, h, used) && token in used && GrantFits(h, token, user, client, scopes)
    requires CreateRefreshToken(w.db, token, scopes, user, client, None, w.now).Ok?
    ensures Sound(w.(db := CreateRefreshToken(w.db, token, scopes, user, client, None, w.now).value), h, used)
  {
  }

  lemma DeleteRowSound(w: World, h: History, used: set<string>, token: string)
    requires Sound(w, h, used) && DeleteRefreshToken(w.db, token).Ok?
    ensures Sound(w.(db := DeleteRefreshToken(w.db, token).value), h, used)
  {
  }

  lemma FreshFact(w: World, h: History, used: set<string>, x: string)
    requires UsedInv(w, h, used) && x !in used
    ensures x !in h.auths && x !in h.grants && x !in h.clientGrants
  {
  }

  // ---------------------------------------------------------------- the steps, handler by handler

  lemma ConsentKeeps(p: Prims, w: World, h: History, used: set<string>, r: Request, pc: Pc, d: Draw)
    requires r.Consent? && Ready(p, w, h, used, r, pc, d)
    ensures Kept(p, w, h, used, pc, d, ConsentStep(w, r, pc))
  {
    hide HistoryInv, WorldInv, UsedInv;
    var o := ConsentStep(w, r, pc);
    var h', used' := Record(h, w.now, o.event), used + Drawn(pc, d);
    SoundGrows(w, h, used, o.event, Drawn(pc, d));
    if pc.ConsentReadClient? && o.task.Running? {
      ClientRow(w, h, r.clientId);
      var c := w.db.clients[r.clientId];
      forall s | s in r.scope ensures IsClientScope(s) && Declaration(r.clientId, s) in h.declared {
        assert s in c.scopes + c.optionalScopes;
      }
    } else if pc.ConsentUpsert? && o.task.Done? {
      UpsertSound(w, h', used', r.user, r.clientId, r.scope);
    }
  }

  lemma AuthorizeKeeps(p: Prims, w: World, h: History, used: set<string>, r: Request, pc: Pc, d: Draw)
    requires r.Authorize? && Ready(p, w, h, used, r, pc, d)
    ensures Kept(p, w, h, used, pc, d, AuthorizeStep(w, r, pc, d))
  {
    hide HistoryInv, WorldInv, UsedInv;
    var o := AuthorizeStep(w, r, pc, d);
    var h', used' := Record(h, w.now, o.event), used + Drawn(pc, d);
    if pc.AuthStore? {
      FreshFact(w, h, used, d.access);
    }
    SoundGrows(w, h, used, o.event, Drawn(pc, d));
    if pc.AuthReadClient? && o.task.Running? {
      ClientRow(w, h, r.clientId);
    } else if pc.AuthReadConsent? && o.task.Running? {
      ConsentRow(w, h, r.user, r.clientId);
    } else if pc.AuthStore? {
      SetCodeSound(w, h', used', d.access, o.world.codes[d.access].value, CODE_TTL);
    }
  }

  lemma CodeReadKeeps(p: Prims, w: World, h: History, used: set<string>, r: Request, pc: Pc, d: Draw)
    requires r.CodeGrant? && Ready(p, w, h, used, r, pc, d)
    requires !pc.CodeSetToken? && !pc.CodeCreateRow?
    ensures Kept(p, w, h, used, pc, d, CodeStep(p, w, r, pc, d))
  {
    hide HistoryInv, WorldInv, UsedInv, CodeAnswerOk, IdTokenFor;
    var o := CodeStep(p, w, r, pc, d);
    var h', used' := Record(h, w.now, o.event), used + Drawn(pc, d);
    SoundGrows(w, h, used, o.event, Drawn(pc, d));
    if pc.CodeGet? && o.task.Running? {
      CodeEntry(w, h, r.code);
    } else if pc.CodeDel? {
      DelCodeSound(w, h', used', r.code);
    } else if pc.CodeReadUser? && o.task.Done? {
      CodeAnswerWithId(p, h, r, pc.cache, w.db.users[pc.cache.userUuid], pc.access, pc.refresh);
    }
  }

  lemma CodeSetTokenKeeps(p: Prims, w: World, h: History, used: set<string>, r: Request, pc: Pc, d: Draw)
    requires r.CodeGrant? && pc.CodeSetToken? && Ready(p, w, h, used, r, pc, d)
    ensures Kept(p, w, h, used, pc, d, CodeStep(p, w, r, pc, d))
  {
    hide HistoryInv, WorldInv, UsedInv, CodeAnswerOk, VerifierError;
    var o := CodeStep(p, w, r, pc, d);
    var h', used' := Record(h, w.now, o.event), used + Drawn(pc, d);
    FreshFact(w, h, used, d.access);
    SoundGrows(w, h, used, o.event, Drawn(pc, d));
    SetTokenSound(w, h', used', d.access, o.world.tokens[d.access].value, ACCESS_TTL);
    if o.task.Done? {
      CodeAnswerWithoutId(p, h, r, pc.cache, d.access, None);
    }
  }

  lemma CodeCreateRowKeeps(p: Prims, w: World, h: History, used: set<string>, r: Request, pc: Pc, d: Draw)
    requires r.CodeGrant? && pc.CodeCreateRow? && Ready(p, w, h, used, r, pc, d)
    ensures Kept(p, w, h, used, pc, d, CodeStep(p, w, r, pc, d))
  {
    hide HistoryInv, WorldInv, UsedInv, CodeAnswerOk, VerifierError, CreateRefreshToken;
    var o := CodeStep(p, w, r, pc, d);
    var h', used' := Record(h, w.now, o.event), used + Drawn(pc, d);
    FreshFact(w, h, used, d.refresh);
    SoundGrows(w, h, used, o.event, Drawn(pc, d));
    if o.event.Minted? {
      CreateRowSound(w, h', used', d.refresh, pc.cache.scope, pc.cache.userUuid, pc.cache.clientId);
      if o.task.Done? {
        CodeAnswerWithoutId(p, h, r, pc.cache, pc.access, Some(d.refresh));
      }
    }
  }

  lemma CodeAnswerWithoutId(p: Prims, h: History, r: Request, cache: AuthorizeCache, access: string,
        refresh: Option<string>)
    requires r.CodeGrant? && HistoryInv(h) && CodeChecked(p, h, r, cache) && Openid !in cache.scope
    ensures CodeAnswerOk(p, h.auths[r.code], r.codeVerifier, CodeTokens(cache, access, refresh, None))
  {
    hide HistoryInv;
    AuthFact(h, r.code);
  }

  lemma CodeAnswerWithId(
      p: Prims, h: History, r: Request, cache: AuthorizeCache, u: User, access: string, refresh: Option<string>)
    requires r.CodeGrant? && HistoryInv(h) && CodeChecked(p, h, r, cache) && Openid in cache.scope
    ensures CodeAnswerOk(p, h.auths[r.code], r.codeVerifier,
              CodeTokens(cache, access, refresh,
                Some(IdTokenFor(u, cache.userUuid, cache.clientId, cache.nonce, cache.scope))))
  {
    hide HistoryInv;
    AuthFact(h, r.code);
  }

  lemma RefreshReadKeeps(p: Prims, w: World, h: History, used: set<string>, r: Request, pc: Pc, d: Draw)
    requires r.RefreshGrant? && Ready(p, w, h, used, r, pc, d)
    requires !pc.RefSetToken? && !pc.RefCreateRow?
    ensures Kept(p, w, h, used, pc, d, RefreshStep(w, r, pc, d))
  {
    hide HistoryInv, WorldInv, UsedInv, IdTokenFor;
    var o := RefreshStep(w, r, pc, d);
    SoundGrows(w, h, used, o.event, Drawn(pc, d));
    if pc.RefFind? && o.task.Running? {
      RefreshRow(w, h, r.refreshToken);
    } else if (pc.RefDropExpired? || pc.RefDelete?) && r.refreshToken in w.db.refreshTokens {
      DeleteRowSound(w, h, used + Drawn(pc, d), r.refreshToken);
    }
  }

  lemma RefreshSetTokenKeeps(p: Prims, w: World, h: History, used: set<string>, r: Request, pc: Pc, d: Draw)
    requires r.RefreshGrant? && pc.RefSetToken? && Ready(p, w, h, used, r, pc, d)
    ensures Kept(p, w, h, used, pc, d, RefreshStep(w, r, pc, d))
  {
    hide HistoryInv, WorldInv, UsedInv, IdTokenFor;
    var o := RefreshStep(w, r, pc, d);
    FreshFact(w, h, used, d.access);
    SoundGrows(w, h, used, o.event, Drawn(pc, d));
    var token := o.world.tokens[d.access].value;
    SetTokenSound(w, Record(h, w.now, o.event), used + Drawn(pc, d), d.access, token, ACCESS_TTL);
  }

  lemma RefreshCreateRowKeeps(p: Prims, w: World, h: History, used: set<string>, r: Request, pc: Pc, d: Draw)
    requires r.RefreshGrant? && pc.RefCreateRow? && Ready(p, w, h, used, r, pc, d)
    ensures Kept(p, w, h, used, pc, d, RefreshStep(w, r, pc, d))
  {
    hide HistoryInv, WorldInv, UsedInv, IdTokenFor, CreateRefreshToken;
    var o := RefreshStep(w, r, pc, d);
    FreshFact(w, h, used, d.refresh);
    SoundGrows(w, h, used, o.event, Drawn(pc, d));
    if o.event.Minted? {
      CreateRowSound(w, Record(h, w.now, o.event), used + Drawn(pc, d), d.refresh, pc.row.scopes, pc.row.userUuid,
        pc.row.clientUuid);
    }
  }

  lemma CredentialsKeeps(p: Prims, w: World, h: History, used: set<string>, r: Request, pc: Pc, d: Draw)
    requires r.ClientCredentials? && Ready(p, w, h, used, r, pc, d)
    ensures Kept(p, w, h, used, pc, d, CredentialsStep(p, w, r, pc, d))
  {
    hide HistoryInv, WorldInv, UsedInv;
    var o := CredentialsStep(p, w, r, pc, d);
    if pc.CredStore? {
      FreshFact(w, h, used, d.access);
    }
    SoundGrows(w, h, used, o.event, Drawn(pc, d));
    if pc.CredReadClient? && o.task.Running? {
      ClientRow(w, h, r.clientId);
    } else if pc.CredStore? {
      SetTokenSound(w, Record(h, w.now, o.event), used + Drawn(pc, d), d.access, o.world.tokens[d.access].value,
        CLIENT_ACCESS_TTL);
    }
  }

  lemma RevokeKeeps(p: Prims, w: World, h: History, used: set<string>, r: Request, pc: Pc, d: Draw)
    requires r.Revoke? && Ready(p, w, h, used, r, pc, d)
    ensures Kept(p, w, h, used, pc, d, RevokeStep(w, r, pc))
  {
    hide HistoryInv, WorldInv, UsedInv, Del, DeleteRefreshToken;
    var used' := used + Drawn(pc, d);
    SoundGrows(w, h, used, Nothing, Drawn(pc, d));
    DelTokenSound(w, h, used', r.token);
    if DeleteRefreshToken(w.db, r.token).Ok? {
      DeleteRowSound(w, h, used', r.token);
    }
  }

  lemma UserinfoKeeps(p: Prims, w: World, h: History, used: set<string>, r: Request, pc: Pc, d: Draw)
    requires r.Userinfo? && Ready(p, w, h, used, r, pc, d)
    ensures Kept(p, w, h, used, pc, d, UserinfoStep(w, r, pc))
  {
    hide HistoryInv, WorldInv, UsedInv;
    var o := UserinfoStep(w, r, pc);
    SoundGrows(w, h, used, o.event, Drawn(pc, d));
    if pc.InfoGet? && o.task.Running? {
      TokenEntry(w, h, r.token);
    }
  }

  lemma StepKeeps(p: Prims, w: World, h: History, used: set<string>, r: Request, pc: Pc, d: Draw)
    requires Ready(p, w, h, used, r, pc, d)
    ensures Kept(p, w, h, used, pc, d, Step(p, w, r, pc, d))
  {
    hide Ready, Kept;
    match r
    case Consent(_, _, _) => ConsentKeeps(p, w, h, used, r, pc, d);
    case Authorize(_, _, _, _, _, _, _) => AuthorizeKeeps(p, w, h, used, r, pc, d);
    case CodeGrant(_, _, _) =>
      if pc.CodeSetToken? { CodeSetTokenKeeps(p, w, h, used, r, pc, d); }
      else if pc.CodeCreateRow? { CodeCreateRowKeeps(p, w, h, used, r, pc, d); }
      else { CodeReadKeeps(p, w, h, used, r, pc, d); }
    case RefreshGrant(_, _) =>
      if pc.RefSetToken? { RefreshSetTokenKeeps(p, w, h, used, r, pc, d); }
      else if pc.RefCreateRow? { RefreshCreateRowKeeps(p, w, h, used, r, pc, d); }
      else { RefreshReadKeeps(p, w, h, used, r, pc, d); }
    case ClientCredentials(_, _, _) => CredentialsKeeps(p, w, h, used, r, pc, d);
    case Revoke(_, _) => RevokeKeeps(p, w, h, used, r, pc, d);
    case Userinfo(_, _) => UserinfoKeeps(p, w, h, used, r, pc, d);
  }

  lemma UserStatementSound(s: Sys, st: Statement)
    requires Sound(s.world, s.history, s.used)
    requires st.UserCreated? || st.UserUpdated? || st.UserDeleted? || st.AuthenticatorSaved? || st.AuthenticatorDeleted?
    requires Execute(s.world.db, st).Ok?
    ensures Sound(s.world.(db := Execute(s.world.db, st).value), s.history, s.used + DrawnBy(st))
  {
    StatementKeepsReferential(s.world.db, st);
    hide Referential, TokenMatches, CodeMatches, RowMatches, ConsentOk, ClientOk, EmailTaken;
  }

  lemma MembersOnly(db: Db, st: Statement)
    requires st.MemberAdded? || st.RoleSet? || st.OwnershipTransferred? || st.MemberRemoved?
    requires Execute(db, st).Ok?
    ensures Execute(db, st).value == db.(members := Execute(db, st).value.members)
  {
  }

  /** Nothing but the foreign keys speaks of memberships. */
  lemma MembersAlone(w: World, h: History, used: set<string>, members: map<Membership, Role>)
    requires Sound(w, h, used) && Referential(w.db.(members := members))
    ensures Sound(w.(db := w.db.(members := members)), h, used)
  {
    hide Referential, TokenMatches, CodeMatches, RowMatches, ConsentOk, ClientOk;
  }

  lemma MemberStatementSound(s: Sys, st: Statement)
    requires Sound(s.world, s.history, s.used)
    requires st.MemberAdded? || st.RoleSet? || st.OwnershipTransferred? || st.MemberRemoved?
    requires Execute(s.world.db, st).Ok?
    ensures Sound(s.world.(db := Execute(s.world.db, st).value), s.history, s.used + DrawnBy(st))
  {
    StatementKeepsReferential(s.world.db, st);
    MembersOnly(s.world.db, st);
    assert s.used + DrawnBy(st) == s.used;
    hide Sound, Execute;
    MembersAlone(s.world, s.history, s.used, Execute(s.world.db, st).value.members);
  }

  lemma ClientsOnly(h: History, db: Db, st: Statement)
    requires st.ClientCreated? || st.SecretUpdated?
    requires Execute(db, st).Ok? && forall c :: c in db.clients ==> ClientOk(h, c, db.clients[c])
    ensures var db' := Execute(db, st).value;
      && db' == db.(clients := db'.clients, members := db'.members)
      && db'.clients.Keys == db.clients.Keys + DrawnBy(st)
      && forall c :: c in db'.clients ==> ClientOk(h, c, db'.clients[c])
  {
    assert st.SecretUpdated? ==> ClientOk(h, st.uuid, db.clients[st.uuid]);
  }

  lemma ClientStatementSound(s: Sys, st: Statement)
    requires Sound(s.world, s.history, s.used)
    requires st.ClientCreated? || st.SecretUpdated?
    requires Execute(s.world.db, st).Ok?
    ensures Sound(s.world.(db := Execute(s.world.db, st).value), s.history, s.used + DrawnBy(st))
  {
    StatementKeepsReferential(s.world.db, st);
    ClientsOnly(s.history, s.world.db, st);
    hide Referential, TokenMatches, CodeMatches, RowMatches, ConsentOk, ClientOk, Execute;
  }

  lemma PatchSound(s: Sys, st: Statement)
    requires HistoryInv(s.history) && Sound(s.world, s.history, s.used)
    requires st.ClientUpdated? && PatchAccepted(st.patch)
    requires Execute(s.world.db, st).Ok?
    ensures Sound(RunStatement(s, st).world, RunStatement(s, st).history, s.used)
    ensures HistoryInv(RunStatement(s, st).history) && Grows(s.history, RunStatement(s, st).history)
  {
    hide HistoryInv, Declare, CodeMatches, RowMatches, ConsentOk, TokenMatches;
    var h, db := s.history, Execute(s.world.db, st).value;
    StatementKeepsReferential(s.world.db, st);
    var c := db.clients[st.uuid];
    assert ClientOk(h, st.uuid, s.world.db.clients[st.uuid]);
    assert AllClientScopes(c.scopes) && AllClientScopes(c.optionalScopes);
    DeclareKeeps(h, st.uuid, c);
    WorldGrows(s.world, h, Declare(h, st.uuid, c));
    DeclareUsed(h, st.uuid, c);
  }

  lemma DeclareUsed(h: History, uuid: string, c: Client)
    ensures var h' := Declare(h, uuid, c);
            h'.auths == h.auths && h'.grants == h.grants && h'.clientGrants == h.clientGrants
  {
  }

  lemma GrowsReflexive(h: History)
    ensures Grows(h, h)
  {
  }

  lemma StatementKeeps(s: Sys, st: Statement)
    requires HistoryInv(s.history) && Sound(s.world, s.history, s.used)
    requires st.ClientUpdated? ==> PatchAccepted(st.patch)
    ensures var s' := RunStatement(s, st);
            && HistoryInv(s'.history) && Grows(s.history, s'.history)
            && Sound(s'.world, s'.history, s'.used)
  {
    hide HistoryInv, Sound, Grows, Execute, Declare;
    GrowsReflexive(s.history);
    if Execute(s.world.db, st).Ok? {
      if st.ClientUpdated? {
        PatchSound(s, st);
        assert s.used + {} == s.used;
      } else if st.ClientCreated? || st.SecretUpdated? {
        ClientStatementSound(s, st);
      } else if st.MemberAdded? || st.RoleSet? || st.OwnershipTransferred? || st.MemberRemoved? {
        MemberStatementSound(s, st);
      } else {
        UserStatementSound(s, st);
      }
    }
  }

  lemma InitialInv(p: Prims)
    ensures Inv(p, INITIAL)
  {
  }

  /** Requests in flight were let through by the request transforms. */
  ghost predicate AllAccepted(s: Sys) {
    forall i :: 0 <= i < |s.tasks| ==> Accepted(s.tasks[i].req)
  }

  lemma NextKeeps(p: Prims, serial: bool, s: Sys, a: Action)
    requires Inv(p, s) && AllAccepted(s)
    ensures Inv(p, Next(p, serial, s, a)) && AllAccepted(Next(p, serial, s, a))
    ensures Grows(s.history, Next(p, serial, s, a).history)
    ensures s.used <= Next(p, serial, s, a).used
  {
    if Enabled(serial, s, a) {
      match a
      case Arrive(r) =>
      case Tick(_) =>
      case Run(i, d) => RunKeeps(p, s, i, d);
      case Write(st) =>
        StatementKeeps(s, st);
        TasksGrow(p, s.history, RunStatement(s, st).history, s.tasks);
    }
  }

  lemma RunKeeps(p: Prims, s: Sys, i: nat, d: Draw)
    requires Inv(p, s) && AllAccepted(s)
    requires i < |s.tasks| && s.tasks[i].Running? && Drawn(s.tasks[i].pc, d) !! s.used
    ensures Inv(p, RunTask(p, s, i, d)) && AllAccepted(RunTask(p, s, i, d))
    ensures Grows(s.history, RunTask(p, s, i, d).history)
  {
    hide Step, HistoryInv, WorldInv, UsedInv, TaskOk, EventOk, Record, Grows;
    var t := s.tasks[i];
    var o := Step(p, s.world, t.req, t.pc, d);
    assert RunningOk(p, s.history, t.req, t.pc) by {
      RunningOkOf(p, s.history, t);
    }
    StepKeeps(p, s.world, s.history, s.used, t.req, t.pc, d);
    RecordGrows(s.history, s.world.now, o.event);
    RecordKeeps(s.history, s.world.now, o.event);
    TasksGrow(p, s.history, Record(s.history, s.world.now, o.event), s.tasks);
  }

  lemma RunningOkOf(p: Prims, h: History, t: Task)
    requires t.Running? && TaskOk(p, h, t)
    ensures RunningOk(p, h, t.req, t.pc)
  {
  }
}
