/** Theorems about every run of the OAuth handlers under every interleaving. Each takes the scheduling
    mode as a parameter, so each holds for serial runs as well. */
module OauthInterleaved {
  import opened Types
  import opened Database
  import opened Store
  import opened OauthProtocol
  import opened OauthMachine
  import opened OauthInvariants
  import opened OauthSafety

  /** Every reachable state is in order. */
  lemma {:induction false} Reachable(p: Prims, serial: bool, acts: seq<Action>)
    ensures Inv(p, Exec(p, serial, INITIAL, acts)) && AllAccepted(Exec(p, serial, INITIAL, acts))
  {
    hide Inv, Next;
    if acts == [] {
      InitialInv(p);
    } else {
      var k := |acts| - 1;
      Reachable(p, serial, acts[..k]);
      NextKeeps(p, serial, Exec(p, serial, INITIAL, acts[..k]), acts[k]);
    }
  }

  // ---------------------------------------------------------------- lineage

  /** The whole story of a token: the authorization at its root granted exactly this user, client and scope
      list; every refresh token redeemed on the way carries the same grant and the same chain up to it; and
      every user field in the scope was agreed to by that user for that client before the authorization,
      and declared by the client before it was agreed to. */
  ghost predicate Traced(h: History, token: string, user: string, client: string, scopes: seq<Scope>) {
    && GrantFits(h, token, user, client, scopes)
    && var g := h.grants[token];
    && g.root in h.auths
    && var a := h.auths[g.root];
    && a.user == user && a.client == client && a.scopes == scopes
    && (forall i :: 0 <= i < |g.path| ==>
          g.path[i] in h.grants && h.grants[g.path[i]] == Grant(user, client, scopes, g.root, g.path[..i]))
    && (forall s :: s in scopes && !IsTokenScope(s) ==>
          && Agreement(user, client, s) in h.consented
          && Declaration(client, s) in h.declared
          && h.declared[Declaration(client, s)] < h.consented[Agreement(user, client, s)] < a.moment)
  }

  lemma GrantTraced(h: History, token: string)
    requires HistoryInv(h) && token in h.grants
    ensures Traced(h, token, h.grants[token].user, h.grants[token].client, h.grants[token].scopes)
  {
    var g := h.grants[token];
    assert GrantOk(h, g);
    var a := h.auths[g.root];
    assert AuthOk(h, a);
    forall s | s in g.scopes && !IsTokenScope(s)
      ensures Agreement(g.user, g.client, s) in h.consented
      ensures Declaration(g.client, s) in h.declared
      ensures h.declared[Declaration(g.client, s)] < h.consented[Agreement(g.user, g.client, s)] < a.moment
    {
      assert ConsentedBefore(h, g.user, g.client, s, a.moment);
      assert AgreementOk(h, Agreement(g.user, g.client, s));
    }
  }

  /** Every user access token and every refresh token stored in any reachable state is traced to its
      authorization, through rotation chains of any length and whatever clients, users and memberships
      were written in between. */
  lemma Lineage(p: Prims, serial: bool, acts: seq<Action>)
    ensures var s := Exec(p, serial, INITIAL, acts);
      && (forall t :: t in s.world.tokens && s.world.tokens[t].value.to == ToUser ==>
            var c := s.world.tokens[t].value;
            c.sub.Some? && Traced(s.history, t, c.sub.value, c.clientId, c.scope))
      && (forall t :: t in s.world.db.refreshTokens ==>
            var row := s.world.db.refreshTokens[t];
            Traced(s.history, t, row.userUuid, row.clientUuid, row.scopes))
  {
    hide Traced;
    Reachable(p, serial, acts);
    var s := Exec(p, serial, INITIAL, acts);
    forall t | t in s.world.tokens && s.world.tokens[t].value.to == ToUser
      ensures var c := s.world.tokens[t].value;
              c.sub.Some? && Traced(s.history, t, c.sub.value, c.clientId, c.scope)
    {
      assert TokenMatches(s.history, t, s.world.tokens[t].value);
      GrantTraced(s.history, t);
    }
    forall t | t in s.world.db.refreshTokens
      ensures var row := s.world.db.refreshTokens[t];
              Traced(s.history, t, row.userUuid, row.clientUuid, row.scopes)
    {
      assert RowMatches(s.history, t, s.world.db.refreshTokens[t]);
      GrantTraced(s.history, t);
    }
  }

  // ---------------------------------------------------------------- one winner for each refresh token

  /** The refresh token that a successfully answered request took out of service. */
  function Won(t: Task): Option<string> {
    match t
    case Done(RefreshGrant(_, token), _) => Some(token)
    case Done(Revoke(token, hint), _) => if hint == Some(RefreshTokenHint) then Some(token) else None
    case _ => None
  }

  ghost predicate OnceInv(s: Sys) {
    && (forall i :: 0 <= i < |s.tasks| && Won(s.tasks[i]).Some? ==>
          Won(s.tasks[i]).value in s.used && Won(s.tasks[i]).value !in s.world.db.refreshTokens)
    && (forall i, j :: 0 <= i < j < |s.tasks| && Won(s.tasks[i]).Some? ==> Won(s.tasks[i]) != Won(s.tasks[j]))
  }

  /** The rows after a step: one less for a winner, and nothing new except the token just drawn. */
  ghost predicate RowsAfter(w: World, pc: Pc, d: Draw, o: Outcome) {
    && (Won(o.task).Some? ==> Won(o.task).value in w.db.refreshTokens && Won(o.task).value !in o.world.db.refreshTokens)
    && o.world.db.refreshTokens.Keys <= w.db.refreshTokens.Keys + Drawn(pc, d)
  }

  lemma RefreshRows(w: World, r: Request, pc: Pc, d: Draw)
    requires r.RefreshGrant?
    ensures RowsAfter(w, pc, d, RefreshStep(w, r, pc, d))
  {
    hide RefreshStep;
    if pc.RefDelete? || pc.RefDropExpired? {
      RefreshDrops(w, r, pc, d);
    } else if pc.RefCreateRow? {
      RefreshAddsRow(w, r, pc, d);
    } else {
      RefreshLeavesTables(w, r, pc, d);
    }
  }

  lemma RefreshDrops(w: World, r: Request, pc: Pc, d: Draw)
    requires r.RefreshGrant? && (pc.RefDelete? || pc.RefDropExpired?)
    ensures var o := RefreshStep(w, r, pc, d);
      && (o.task.Done? ==> r.refreshToken in w.db.refreshTokens && r.refreshToken !in o.world.db.refreshTokens)
      && (Won(o.task).Some? ==> o.task.Done? && Won(o.task).value == r.refreshToken)
      && o.world.db.refreshTokens.Keys <= w.db.refreshTokens.Keys
  {
    hide RefreshTokens;
  }

  lemma RefreshAddsRow(w: World, r: Request, pc: Pc, d: Draw)
    requires r.RefreshGrant? && pc.RefCreateRow?
    ensures var o := RefreshStep(w, r, pc, d);
      Won(o.task).None? && o.world.db.refreshTokens.Keys <= w.db.refreshTokens.Keys + {d.refresh}
  {
  }

  lemma RefreshLeavesTables(w: World, r: Request, pc: Pc, d: Draw)
    requires r.RefreshGrant? && !pc.RefDelete? && !pc.RefDropExpired? && !pc.RefCreateRow?
    ensures var o := RefreshStep(w, r, pc, d); Won(o.task).None? && o.world.db == w.db
  {
    hide IdTokenFor, FindRefreshToken, Set;
  }

  lemma CodeRows(p: Prims, w: World, r: Request, pc: Pc, d: Draw)
    requires r.CodeGrant?
    ensures RowsAfter(w, pc, d, CodeStep(p, w, r, pc, d))
  {
    StepAnswersRequest(p, w, r, pc, d);
    hide CodeStep, CreateRefreshToken;
    if pc.CodeCreateRow? {
      CodeAddsRow(p, w, r, pc, d);
    } else {
      CodeLeavesTables(p, w, r, pc, d);
    }
  }

  lemma CodeAddsRow(p: Prims, w: World, r: Request, pc: Pc, d: Draw)
    requires r.CodeGrant? && pc.CodeCreateRow?
    ensures CodeStep(p, w, r, pc, d).world.db.refreshTokens.Keys <= w.db.refreshTokens.Keys + {d.refresh}
  {
    hide CodeTokens;
  }

  lemma CodeLeavesTables(p: Prims, w: World, r: Request, pc: Pc, d: Draw)
    requires r.CodeGrant? && !pc.CodeCreateRow?
    ensures CodeStep(p, w, r, pc, d).world.db == w.db
  {
    hide IdTokenFor, VerifierError, CodeTokens, Get, Set, Del, CreateRefreshToken;
  }

  lemma RevokeRows(w: World, r: Request, pc: Pc, d: Draw)
    requires r.Revoke?
    ensures RowsAfter(w, pc, d, RevokeStep(w, r, pc))
  {
  }

  lemma WinnerDeletes(p: Prims, w: World, r: Request, pc: Pc, d: Draw)
    ensures RowsAfter(w, pc, d, Step(p, w, r, pc, d))
  {
    match r
    case CodeGrant(_, _, _) =>
      hide RowsAfter, CodeStep;
      CodeRows(p, w, r, pc, d);
    case RefreshGrant(_, _) =>
      hide RowsAfter, RefreshStep;
      RefreshRows(w, r, pc, d);
    case Revoke(_, _) =>
      hide RowsAfter, RevokeStep;
      RevokeRows(w, r, pc, d);
    case Consent(_, _, _) => OtherRows(p, w, r, pc, d);
    case Authorize(_, _, _, _, _, _, _) => OtherRows(p, w, r, pc, d);
    case ClientCredentials(_, _, _) => OtherRows(p, w, r, pc, d);
    case Userinfo(_, _) => OtherRows(p, w, r, pc, d);
  }

  lemma OtherRows(p: Prims, w: World, r: Request, pc: Pc, d: Draw)
    requires r.Consent? || r.Authorize? || r.ClientCredentials? || r.Userinfo?
    ensures Step(p, w, r, pc, d).world.db.refreshTokens == w.db.refreshTokens
    ensures RowsAfter(w, pc, d, Step(p, w, r, pc, d))
  {
    hide ConsentStep, AuthorizeStep, CredentialsStep, UserinfoStep;
    StepAnswersRequest(p, w, r, pc, d);
    match r
    case Consent(_, _, _) => ConsentRows(w, r, pc);
    case Authorize(_, _, _, _, _, _, _) => AuthorizeRows(w, r, pc, d);
    case ClientCredentials(_, _, _) => CredentialsRows(p, w, r, pc, d);
    case Userinfo(_, _) => UserinfoRows(w, r, pc);
  }

  lemma StepAnswersRequest(p: Prims, w: World, r: Request, pc: Pc, d: Draw)
    requires !r.RefreshGrant? && !r.Revoke?
    ensures Won(Step(p, w, r, pc, d).task).None?
  {
    hide ConsentStep, AuthorizeStep, CodeStep, CredentialsStep, UserinfoStep;
  }

  lemma ConsentRows(w: World, r: Request, pc: Pc)
    requires r.Consent?
    ensures ConsentStep(w, r, pc).world.db.refreshTokens == w.db.refreshTokens
  {
  }

  lemma AuthorizeRows(w: World, r: Request, pc: Pc, d: Draw)
    requires r.Authorize?
    ensures AuthorizeStep(w, r, pc, d).world.db == w.db
  {
    hide FindConsent, Set;
  }

  lemma CredentialsRows(p: Prims, w: World, r: Request, pc: Pc, d: Draw)
    requires r.ClientCredentials?
    ensures CredentialsStep(p, w, r, pc, d).world.db == w.db
  {
    hide Set;
  }

  lemma UserinfoRows(w: World, r: Request, pc: Pc)
    requires r.Userinfo?
    ensures UserinfoStep(w, r, pc).world == w
  {
    hide UserInfoFor, FindConsent, Get;
  }

  lemma StatementRows(db: Db, st: Statement)
    ensures After(db, st).refreshTokens.Keys <= db.refreshTokens.Keys
  {
  }

  lemma OnceRun(p: Prims, s: Sys, i: nat, d: Draw)
    requires OnceInv(s) && s.world.db.refreshTokens.Keys <= s.used
    requires i < |s.tasks| && s.tasks[i].Running? && Drawn(s.tasks[i].pc, d) !! s.used
    ensures OnceInv(RunTask(p, s, i, d))
  {
    hide Step, Record;
    var t := s.tasks[i];
    var o := Step(p, s.world, t.req, t.pc, d);
    WinnerDeletes(p, s.world, t.req, t.pc, d);
    var s' := RunTask(p, s, i, d);
    forall j | 0 <= j < |s'.tasks| && Won(s'.tasks[j]).Some?
      ensures Won(s'.tasks[j]).value in s'.used && Won(s'.tasks[j]).value !in s'.world.db.refreshTokens
    {
      if j != i {
        assert s'.tasks[j] == s.tasks[j];
      }
    }
  }

  lemma OnceNext(p: Prims, serial: bool, s: Sys, a: Action)
    requires OnceInv(s) && s.world.db.refreshTokens.Keys <= s.used
    ensures OnceInv(Next(p, serial, s, a))
  {
    if Enabled(serial, s, a) {
      match a
      case Run(i, d) => OnceRun(p, s, i, d);
      case Write(st) => OnceWrite(s, st);
      case Arrive(r) => assert Won(Running(r, First(r))).None?;
      case Tick(_) =>
    }
  }

  lemma OnceWrite(s: Sys, st: Statement)
    requires OnceInv(s)
    ensures OnceInv(RunStatement(s, st))
  {
    StatementRows(s.world.db, st);
    hide Execute;
  }

  lemma {:induction false} OnceReachable(p: Prims, serial: bool, acts: seq<Action>)
    ensures OnceInv(Exec(p, serial, INITIAL, acts))
  {
    if acts != [] {
      hide HistoryInv, WorldInv, TaskOk, OnceInv, Next;
      var k := |acts| - 1;
      OnceReachable(p, serial, acts[..k]);
      Reachable(p, serial, acts[..k]);
      OnceNext(p, serial, Exec(p, serial, INITIAL, acts[..k]), acts[k]);
    }
  }

  /** Of all refresh grants and revocations ever answered successfully, no two were for the same refresh
      token, under every interleaving of all requests at their awaits. */
  lemma OneWinner(p: Prims, serial: bool, acts: seq<Action>, i: nat, j: nat)
    requires i < |Exec(p, serial, INITIAL, acts).tasks| && j < |Exec(p, serial, INITIAL, acts).tasks|
    requires Won(Exec(p, serial, INITIAL, acts).tasks[i]).Some?
    requires Won(Exec(p, serial, INITIAL, acts).tasks[i]) == Won(Exec(p, serial, INITIAL, acts).tasks[j])
    ensures i == j
  {
    OnceReachable(p, serial, acts);
  }

  // ---------------------------------------------------------------- disclosure

  /** The user had agreed to show the scope's fields to the client. */
  ghost predicate Agreed(h: History, user: string, client: string, s: Scope) {
    && Agreement(user, client, s) in h.consented
    && Declaration(client, s) in h.declared
    && h.declared[Declaration(client, s)] < h.consented[Agreement(user, client, s)]
  }

  /** The claims show only fields of scopes that the user agreed to show the client before the moment. */
  ghost predicate ShowsAgreed(h: History, c: Claims, client: string, moment: nat) {
    forall s :: Discloses(c, s) ==>
      Agreed(h, c.sub, client, s) && h.consented[Agreement(c.sub, client, s)] < moment
  }

  /** The answer of a code grant: its ID token goes to the client the code was issued to. */
  ghost predicate CodeDisclosure(h: History, client: Option<string>, code: string, idToken: Option<IdToken>) {
    idToken.Some? ==>
      && client == Some(idToken.value.aud) && code in h.auths
      && ShowsAgreed(h, idToken.value.claims, idToken.value.aud, h.auths[code].moment)
  }

  /** A userinfo answer: agreed fields for a user's token, the token's scope for a client's own. */
  ghost predicate InfoDisclosure(h: History, token: string, info: UserInfo) {
    if token in h.grants then
      && var g := h.grants[token];
      && info.claims.sub == g.user && g.root in h.auths
      && forall s :: InfoDiscloses(info, s) ==>
           Agreed(h, g.user, g.client, s) && h.consented[Agreement(g.user, g.client, s)] < h.auths[g.root].moment
    else
      && token in h.clientGrants
      && forall s :: InfoDiscloses(info, s) ==> s in h.clientGrants[token] && IsClientScope(s)
  }

  lemma CodeDiscloses(p: Prims, h: History, r: Request, resp: Response)
    requires HistoryInv(h) && r.CodeGrant? && DoneOk(p, h, r, resp)
    ensures resp.Tokens? && CodeDisclosure(h, r.client, r.code, resp.idToken)
  {
    hide HistoryInv;
    if resp.idToken.Some? {
      var id := resp.idToken.value;
      forall s | Discloses(id.claims, s)
        ensures Agreed(h, id.claims.sub, id.aud, s)
                && h.consented[Agreement(id.claims.sub, id.aud, s)] < h.auths[r.code].moment
      {
        ScopeAgreed(h, r.code, s);
      }
    }
  }

  lemma UserinfoDiscloses(p: Prims, h: History, r: Request, resp: Response)
    requires HistoryInv(h) && r.Userinfo? && DoneOk(p, h, r, resp)
    ensures resp.Info? && InfoDisclosure(h, r.token, resp.info)
  {
    var info := resp.info;
    if r.token in h.grants {
      GrantTraced(h, r.token);
      assert r.token !in h.clientGrants;
    } else {
      assert AllClientScopes(h.clientGrants[r.token]);
    }
  }

  /** Every ID token ever returned and every userinfo answer ever given for a user token shows a client only
      fields of scopes that this very user agreed to for this very client before the authorization behind
      the token. For a client's own token the bound is the token's scope. */
  lemma Disclosure(p: Prims, serial: bool, acts: seq<Action>, i: nat)
    requires i < |Exec(p, serial, INITIAL, acts).tasks| && Exec(p, serial, INITIAL, acts).tasks[i].Done?
    ensures var h := Exec(p, serial, INITIAL, acts).history;
      match Exec(p, serial, INITIAL, acts).tasks[i]
      case Done(CodeGrant(client, code, _), resp) => resp.Tokens? && CodeDisclosure(h, client, code, resp.idToken)
      case Done(RefreshGrant(_, _), resp) => resp.Tokens? && resp.idToken.None?
      case Done(ClientCredentials(_, _, _), resp) => resp.Tokens? && resp.idToken.None?
      case Done(Userinfo(token, _), resp) => resp.Info? && InfoDisclosure(h, token, resp.info)
      case Done(_, resp) => resp.Empty? || resp.Redirect?
  {
    hide CodeDisclosure, InfoDisclosure, HistoryInv, CodeAnswerOk, InfoAnswerOk, BornOfCode, BornOfRefresh;
    Reachable(p, serial, acts);
    var h := Exec(p, serial, INITIAL, acts).history;
    match Exec(p, serial, INITIAL, acts).tasks[i]
    case Done(r, resp) =>
      assert DoneOk(p, h, r, resp);
      if r.CodeGrant? {
        CodeDiscloses(p, h, r, resp);
      } else if r.Userinfo? {
        UserinfoDiscloses(p, h, r, resp);
      }
  }

  lemma ScopeAgreed(h: History, code: string, s: Scope)
    requires HistoryInv(h) && code in h.auths && s in h.auths[code].scopes && !IsTokenScope(s)
    ensures var a := h.auths[code];
            Agreed(h, a.user, a.client, s) && h.consented[Agreement(a.user, a.client, s)] < a.moment
  {
    var a := h.auths[code];
    assert AuthOk(h, a);
    assert ConsentedBefore(h, a.user, a.client, s, a.moment);
    assert AgreementOk(h, Agreement(a.user, a.client, s));
  }

  // ---------------------------------------------------------------- scopes that stay apart

  /** Client scopes, optional scopes and consents stay within the client scope list through every history of
      updates; so every client's own token is free of `openid` and `offline_access`; and a stored code with
      `openid` carries a non-empty nonce and a client that had been allowed ID tokens before. */
  lemma ScopesApart(p: Prims, serial: bool, acts: seq<Action>)
    ensures var s := Exec(p, serial, INITIAL, acts);
      && (forall c :: c in s.world.db.clients ==>
            AllClientScopes(s.world.db.clients[c].scopes) && AllClientScopes(s.world.db.clients[c].optionalScopes))
      && (forall k :: k in s.world.db.consents ==> AllClientScopes(s.world.db.consents[k]))
      && (forall t :: t in s.world.tokens && s.world.tokens[t].value.to == ToClient ==>
            AllClientScopes(s.world.tokens[t].value.scope))
      && (forall i :: 0 <= i < |s.tasks| && s.tasks[i].Done? && s.tasks[i].req.ClientCredentials? ==>
            s.tasks[i].resp.Tokens? && AllClientScopes(s.tasks[i].resp.scope))
      && (forall c :: c in s.world.codes && Openid in s.world.codes[c].value.scope ==>
            var cache := s.world.codes[c].value;
            && !Falsy(cache.nonce)
            && c in s.history.auths && cache.clientId in s.history.idAllowed
            && s.history.idAllowed[cache.clientId] < s.history.auths[c].moment)
  {
    Reachable(p, serial, acts);
    var s := Exec(p, serial, INITIAL, acts);
    forall c | c in s.world.db.clients
      ensures AllClientScopes(s.world.db.clients[c].scopes) && AllClientScopes(s.world.db.clients[c].optionalScopes)
    {
      assert ClientOk(s.history, c, s.world.db.clients[c]);
    }
    forall k | k in s.world.db.consents ensures AllClientScopes(s.world.db.consents[k]) {
      assert ConsentOk(s.history, k, s.world.db.consents[k]);
    }
    forall t | t in s.world.tokens && s.world.tokens[t].value.to == ToClient
      ensures AllClientScopes(s.world.tokens[t].value.scope)
    {
      assert TokenMatches(s.history, t, s.world.tokens[t].value);
    }
    forall i | 0 <= i < |s.tasks| && s.tasks[i].Done? && s.tasks[i].req.ClientCredentials?
      ensures s.tasks[i].resp.Tokens? && AllClientScopes(s.tasks[i].resp.scope)
    {
      assert DoneOk(p, s.history, s.tasks[i].req, s.tasks[i].resp);
    }
    forall c | c in s.world.codes && Openid in s.world.codes[c].value.scope
      ensures var cache := s.world.codes[c].value;
              && !Falsy(cache.nonce)
              && c in s.history.auths && cache.clientId in s.history.idAllowed
              && s.history.idAllowed[cache.clientId] < s.history.auths[c].moment
    {
      assert CodeMatches(s.history, c, s.world.codes[c].value);
      AuthFact(s.history, c);
    }
  }

  /** Every code grant ever answered was for the client the code was issued to, with a verifier that fits the
      challenge stored at authorize time; it gives an ID token exactly when `openid` was granted, and that
      token repeats the nonce of the authorization request. */
  lemma CodeAnswers(p: Prims, serial: bool, acts: seq<Action>, i: nat)
    requires i < |Exec(p, serial, INITIAL, acts).tasks|
    requires Exec(p, serial, INITIAL, acts).tasks[i].Done? && Exec(p, serial, INITIAL, acts).tasks[i].req.CodeGrant?
    ensures var s := Exec(p, serial, INITIAL, acts);
      var r, resp := s.tasks[i].req, s.tasks[i].resp;
      && r.code in s.history.auths
      && var a := s.history.auths[r.code];
      && r.client == Some(a.client)
      && r.codeVerifier.Some?
      && (|| (a.challengeMethod == "S256" && p.sha256(r.codeVerifier.value) == a.challenge)
          || (a.challengeMethod == "plain" && r.codeVerifier.value == a.challenge))
      && resp.Tokens? && resp.scope == a.scopes
      && (resp.idToken.Some? <==> Openid in a.scopes)
      && (resp.idToken.Some? ==> resp.idToken.value.nonce == a.nonce && !Falsy(a.nonce))
  {
    Reachable(p, serial, acts);
    var s := Exec(p, serial, INITIAL, acts);
    assert DoneOk(p, s.history, s.tasks[i].req, s.tasks[i].resp);
    AuthFact(s.history, s.tasks[i].req.code);
  }

  // ---------------------------------------------------------------- deleted users

  /** The request was answered with data of the user. */
  predicate Shows(t: Task, user: string) {
    match t
    case Done(_, Tokens(_, _, _, _, Some(id), _)) => id.claims.sub == user
    case Done(_, Info(info)) => info.claims.sub == user
    case _ => false
  }

  /** The uuid is spent, and whatever shows the user was answered in the past. */
  ghost predicate Gone(s: Sys, user: string, past: seq<Task>) {
    && user in s.used && user !in s.world.db.users
    && |past| <= |s.tasks|
    && forall i :: 0 <= i < |s.tasks| && Shows(s.tasks[i], user) ==> i < |past| && s.tasks[i] == past[i]
  }

  lemma StepShows(p: Prims, w: World, h: History, r: Request, pc: Pc, d: Draw, user: string)
    requires RunningOk(p, h, r, pc) && user !in w.db.users
    ensures !Shows(Step(p, w, r, pc, d).task, user) && user !in Step(p, w, r, pc, d).world.db.users
  {
    hide Shows, CodeStep, RefreshStep, UserinfoStep;
    match r
    case CodeGrant(_, _, _) => CodeShows(p, w, r, pc, d, user);
    case RefreshGrant(_, _) => RefreshShows(p, w, h, r, pc, d, user);
    case Userinfo(_, _) => UserinfoShows(w, r, pc, user);
    case _ => OtherShows(p, w, r, pc, d, user);
  }

  lemma CodeShows(p: Prims, w: World, r: Request, pc: Pc, d: Draw, user: string)
    requires r.CodeGrant? && user !in w.db.users
    ensures !Shows(CodeStep(p, w, r, pc, d).task, user) && user !in CodeStep(p, w, r, pc, d).world.db.users
  {
    hide IdTokenFor, VerifierError;
    IdTokenSub();
  }

  lemma RefreshShows(p: Prims, w: World, h: History, r: Request, pc: Pc, d: Draw, user: string)
    requires r.RefreshGrant? && RunningOk(p, h, r, pc) && user !in w.db.users
    ensures !Shows(RefreshStep(w, r, pc, d).task, user) && user !in RefreshStep(w, r, pc, d).world.db.users
  {
    hide IdTokenFor, FindRefreshToken, Set;
    if !pc.RefCreateRow? {
      hide CreateRefreshToken;
    } else {
      hide DeleteRefreshToken;
    }
  }

  lemma UserinfoShows(w: World, r: Request, pc: Pc, user: string)
    requires r.Userinfo? && user !in w.db.users
    ensures !Shows(UserinfoStep(w, r, pc).task, user) && user !in UserinfoStep(w, r, pc).world.db.users
  {
  }

  /** The other handlers answer without claims and leave the users alone. */
  lemma OtherShows(p: Prims, w: World, r: Request, pc: Pc, d: Draw, user: string)
    requires !r.CodeGrant? && !r.RefreshGrant? && !r.Userinfo? && user !in w.db.users
    ensures !Shows(Step(p, w, r, pc, d).task, user) && user !in Step(p, w, r, pc, d).world.db.users
  {
    if r.Consent? {
      hide AuthorizeStep, CredentialsStep, RevokeStep;
    } else if r.Authorize? {
      hide ConsentStep, CredentialsStep, RevokeStep;
    } else {
      hide ConsentStep, AuthorizeStep;
    }
  }

  lemma IdTokenSub()
    ensures forall u, aud, nonce, scope, x :: IdTokenFor(u, x, aud, nonce, scope).claims.sub == x
  {
  }

  lemma StatementUsers(db: Db, st: Statement, user: string)
    requires user !in db.users && user !in DrawnBy(st)
    ensures user !in After(db, st).users
  {
  }

  lemma GoneNext(p: Prims, serial: bool, s: Sys, a: Action, user: string, past: seq<Task>)
    requires Inv(p, s) && Gone(s, user, past)
    ensures Gone(Next(p, serial, s, a), user, past)
  {
    hide HistoryInv, WorldInv, UsedInv, Step, Record, Execute;
    if Enabled(serial, s, a) {
      match a
      case Run(i, d) =>
        assert TaskOk(p, s.history, s.tasks[i]);
        StepShows(p, s.world, s.history, s.tasks[i].req, s.tasks[i].pc, d, user);
      case Write(st) => StatementUsers(s.world.db, st, user);
      case _ =>
    }
  }

  lemma {:induction false} GoneExec(p: Prims, serial: bool, s: Sys, acts: seq<Action>, user: string, past: seq<Task>)
    requires Inv(p, s) && AllAccepted(s) && Gone(s, user, past)
    ensures var s' := Exec(p, serial, s, acts); Inv(p, s') && AllAccepted(s') && Gone(s', user, past)
  {
    hide Inv, AllAccepted, Gone, Next;
    if acts != [] {
      var k := |acts| - 1;
      GoneExec(p, serial, s, acts[..k], user, past);
      NextKeeps(p, serial, Exec(p, serial, s, acts[..k]), acts[k]);
      GoneNext(p, serial, Exec(p, serial, s, acts[..k]), acts[k], user, past);
    }
  }

  /** Once a user record is deleted, no state reached afterwards holds the user or any membership, consent,
      refresh token or authenticator of the user, and the only answers with an ID token or userinfo about the user
      are those already given before: neither requests in progress at the deletion nor later ones add any. Codes and
      access tokens may linger in the cache. */
  lemma DeletionIsFinal(p: Prims, serial: bool, before: seq<Action>, user: string, after: seq<Action>)
    requires user in Exec(p, serial, INITIAL, before).world.db.users
    requires serial ==> Quiet(Exec(p, serial, INITIAL, before))
    ensures var s := Exec(p, serial, INITIAL, before);
      var s' := Exec(p, serial, INITIAL, before + [Write(UserDeleted(user))] + after);
      && NothingOf(s'.world.db, user)
      && forall i :: 0 <= i < |s'.tasks| && Shows(s'.tasks[i], user) ==> i < |s.tasks| && s'.tasks[i] == s.tasks[i]
  {
    hide Inv, AllAccepted, Exec, Shows;
    var del := [Write(UserDeleted(user))];
    var s := Exec(p, serial, INITIAL, before);
    Reachable(p, serial, before);
    Reachable(p, serial, before + del);
    DeletionGone(p, serial, before, user);
    var s1 := Exec(p, serial, INITIAL, before + del);
    GoneExec(p, serial, s1, after, user, s.tasks);
    ExecJoin(p, serial, INITIAL, before + del, after);
    GoneNothing(p, Exec(p, serial, s1, after), user, s.tasks);
  }

  lemma DeletionGone(p: Prims, serial: bool, before: seq<Action>, user: string)
    requires user in Exec(p, serial, INITIAL, before).world.db.users && Inv(p, Exec(p, serial, INITIAL, before))
    requires serial ==> Quiet(Exec(p, serial, INITIAL, before))
    ensures Gone(Exec(p, serial, INITIAL, before + [Write(UserDeleted(user))]), user,
        Exec(p, serial, INITIAL, before).tasks)
  {
    hide Inv, Gone, Next;
    var del := [Write(UserDeleted(user))];
    assert (before + del)[..|before + del| - 1] == before;
    GoneNow(p, serial, Exec(p, serial, INITIAL, before), user);
  }

  lemma GoneNow(p: Prims, serial: bool, s: Sys, user: string)
    requires user in s.world.db.users && Inv(p, s) && (serial ==> Quiet(s))
    ensures Gone(Next(p, serial, s, Write(UserDeleted(user))), user, s.tasks)
  {
    hide HistoryInv, WorldInv, TaskOk, Shows;
  }

  lemma GoneNothing(p: Prims, s: Sys, user: string, past: seq<Task>)
    requires Inv(p, s) && Gone(s, user, past)
    ensures NothingOf(s.world.db, user)
  {
    NothingOfMissing(s.world.db, user);
  }

  // ---------------------------------------------------------------- dead access tokens

  /** The request asks for the user behind the token and has not yet been told there is none. */
  predicate Asks(t: Task, token: string) {
    t.req.Userinfo? && t.req.token == token && (t.Done? || (t.Running? && !t.pc.InfoGet?))
  }

  /** The token was drawn and cannot be read, and no request from index `n` on has got anywhere with it. */
  ghost predicate Dead(s: Sys, token: string, n: nat) {
    && token in s.used && !Live(s.world.tokens, token, s.world.now)
    && n <= |s.tasks|
    && forall i :: n <= i < |s.tasks| ==> !Asks(s.tasks[i], token)
  }

  lemma CodeAddsToken(p: Prims, w: World, r: Request, pc: Pc, d: Draw)
    requires r.CodeGrant?
    ensures var w' := CodeStep(p, w, r, pc, d).world;
      && w'.now == w.now
      && forall t :: t !in Drawn(pc, d) && t in w'.tokens ==> t in w.tokens && w'.tokens[t] == w.tokens[t]
  {
    hide IdTokenFor, VerifierError, CodeTokens, CreateRefreshToken, Get, Del;
  }

  lemma RefreshAddsToken(w: World, r: Request, pc: Pc, d: Draw)
    requires r.RefreshGrant?
    ensures var w' := RefreshStep(w, r, pc, d).world;
      && w'.now == w.now
      && forall t :: t !in Drawn(pc, d) && t in w'.tokens ==> t in w.tokens && w'.tokens[t] == w.tokens[t]
  {
    hide IdTokenFor, RefreshTokens, CreateRefreshToken, FindRefreshToken, DeleteRefreshToken;
  }

  lemma AuthorizeTokens(w: World, r: Request, pc: Pc, d: Draw)
    requires r.Authorize?
    ensures AuthorizeStep(w, r, pc, d).world.tokens == w.tokens && AuthorizeStep(w, r, pc, d).world.now == w.now
  {
    hide FindConsent, Set;
  }

  lemma OthersAddToken(p: Prims, w: World, r: Request, pc: Pc, d: Draw)
    requires !r.CodeGrant? && !r.RefreshGrant?
    ensures var w' := Step(p, w, r, pc, d).world;
      && w'.now == w.now
      && forall t :: t !in Drawn(pc, d) && t in w'.tokens ==> t in w.tokens && w'.tokens[t] == w.tokens[t]
  {
    hide UserInfoFor, FindConsent, UpsertConsent, DeleteRefreshToken, AuthorizeStep, UserinfoStep;
    if r.Authorize? {
      AuthorizeTokens(w, r, pc, d);
    } else if r.Userinfo? {
      UserinfoRows(w, r, pc);
    } else if r.Consent? {
      hide CredentialsStep, RevokeStep;
    } else if r.Revoke? {
      hide CredentialsStep, ConsentStep;
    } else {
      hide RevokeStep, ConsentStep;
    }
  }

  /** A step puts no token into the cache but one it draws. */
  lemma StepTokens(p: Prims, w: World, r: Request, pc: Pc, d: Draw, token: string)
    requires !Live(w.tokens, token, w.now) && token !in Drawn(pc, d)
    ensures var w' := Step(p, w, r, pc, d).world; !Live(w'.tokens, token, w'.now)
  {
    hide CodeStep, RefreshStep;
    if r.CodeGrant? {
      CodeAddsToken(p, w, r, pc, d);
    } else if r.RefreshGrant? {
      RefreshAddsToken(w, r, pc, d);
    } else {
      OthersAddToken(p, w, r, pc, d);
      hide Step;
    }
  }

  /** A request that looks a dead token up is told so. */
  lemma DeadLookup(p: Prims, w: World, r: Request, pc: Pc, d: Draw, token: string)
    requires !Live(w.tokens, token, w.now) && !Asks(Running(r, pc), token)
    ensures !Asks(Step(p, w, r, pc, d).task, token)
  {
    if !(r.Userinfo? && r.token == token) {
      hide Step;
    }
  }

  lemma DeadNext(p: Prims, serial: bool, s: Sys, a: Action, token: string, n: nat)
    requires Dead(s, token, n)
    ensures Dead(Next(p, serial, s, a), token, n)
  {
    hide Step, Record, Execute;
    if Enabled(serial, s, a) {
      match a
      case Run(i, d) =>
        StepTokens(p, s.world, s.tasks[i].req, s.tasks[i].pc, d, token);
        if n <= i {
          DeadLookup(p, s.world, s.tasks[i].req, s.tasks[i].pc, d, token);
        }
      case _ =>
    }
  }

  lemma {:induction false} DeadExec(p: Prims, serial: bool, s: Sys, acts: seq<Action>, token: string, n: nat)
    requires Dead(s, token, n)
    ensures Dead(Exec(p, serial, s, acts), token, n)
  {
    hide Dead, Next;
    if acts != [] {
      DeadExec(p, serial, s, acts[..|acts| - 1], token, n);
      DeadNext(p, serial, Exec(p, serial, s, acts[..|acts| - 1]), acts[|acts| - 1], token, n);
    }
  }

  /** Once a token that was drawn cannot be read, because it was revoked or has expired, no continuation reads it
      again, and no userinfo request that arrives later is answered with it. */
  lemma DeadTokensStayDead(p: Prims, serial: bool, before: seq<Action>, token: string, after: seq<Action>)
    requires var s := Exec(p, serial, INITIAL, before);
      token in s.used && !Live(s.world.tokens, token, s.world.now)
    ensures var s := Exec(p, serial, INITIAL, before);
      var s' := Exec(p, serial, INITIAL, before + after);
      && !Live(s'.world.tokens, token, s'.world.now)
      && forall i :: |s.tasks| <= i < |s'.tasks| && s'.tasks[i].Done? && s'.tasks[i].req.Userinfo? ==>
           s'.tasks[i].req.token != token
  {
    hide Exec;
    var s := Exec(p, serial, INITIAL, before);
    DeadExec(p, serial, s, after, token, |s.tasks|);
    ExecJoin(p, serial, INITIAL, before, after);
  }
}
