/** What every single step of every interleaving keeps. */
module OauthInvariants {
  import opened Types
  import opened Database
  import opened OauthProtocol
  import opened OauthMachine

  // ---------------------------------------------------------------- the history is in order

  ghost predicate AgreementOk(h: History, k: Agreement) {
    k in h.consented ==>
      && IsClientScope(k.scope)
      && h.consented[k] < h.moment
      && Declaration(k.client, k.scope) in h.declared
      && h.declared[Declaration(k.client, k.scope)] < h.consented[k]
  }

  ghost predicate ConsentedBefore(h: History, user: string, client: string, s: Scope, moment: nat) {
    && Agreement(user, client, s) in h.consented
    && h.consented[Agreement(user, client, s)] < moment
  }

  ghost predicate AuthOk(h: History, a: Auth) {
    && a.moment < h.moment
    && (forall s :: s in a.scopes ==> IsTokenScope(s) || ConsentedBefore(h, a.user, a.client, s, a.moment))
    && (Openid in a.scopes ==> !Falsy(a.nonce) && a.client in h.idAllowed && h.idAllowed[a.client] < a.moment)
    && (a.challengeMethod == "plain" || a.challengeMethod == "S256")
  }

  /** The grant agrees with the authorization at its root, and so does every refresh token on the way. */
  ghost predicate GrantOk(h: History, g: Grant) {
    && g.root in h.auths
    && h.auths[g.root].user == g.user
    && h.auths[g.root].client == g.client
    && h.auths[g.root].scopes == g.scopes
    && forall i :: 0 <= i < |g.path| ==>
         g.path[i] in h.grants && h.grants[g.path[i]] == g.(path := g.path[..i])
  }

  ghost predicate HistoryInv(h: History) {
    && (forall d :: d in h.declared ==> h.declared[d] < h.moment)
    && (forall c :: c in h.idAllowed ==> h.idAllowed[c] < h.moment)
    && (forall k :: k in h.consented ==> AgreementOk(h, k))
    && (forall c :: c in h.auths ==> AuthOk(h, h.auths[c]))
    && (forall t :: t in h.grants ==> GrantOk(h, h.grants[t]))
    && (forall t :: t in h.clientGrants ==> AllClientScopes(h.clientGrants[t]) && t !in h.grants)
  }

  /** History only grows. */
  ghost predicate Grows(h: History, h': History) {
    && h.moment <= h'.moment
    && Extends(h.declared, h'.declared)
    && Extends(h.idAllowed, h'.idAllowed)
    && Extends(h.consented, h'.consented)
    && Extends(h.auths, h'.auths)
    && Extends(h.grants, h'.grants)
    && Extends(h.clientGrants, h'.clientGrants)
  }

  // ---------------------------------------------------------------- stored data agrees with history

  ghost predicate CodeMatches(h: History, code: string, c: AuthorizeCache) {
    && code in h.auths
    && var a := h.auths[code];
       && a.user == c.userUuid && a.client == c.clientId && a.scopes == c.scope && a.nonce == c.nonce
       && a.challenge == c.codeChallenge && a.challengeMethod == c.codeChallengeMethod
  }

  ghost predicate GrantFits(h: History, token: string, user: string, client: string, scopes: seq<Scope>) {
    && token in h.grants
    && h.grants[token].user == user && h.grants[token].client == client && h.grants[token].scopes == scopes
  }

  ghost predicate TokenMatches(h: History, token: string, c: TokenCache) {
    if c.to == ToUser then c.sub.Some? && GrantFits(h, token, c.sub.value, c.clientId, c.scope)
    else token in h.clientGrants && h.clientGrants[token] == c.scope
  }

  /** Stored rows never carry a nonce: neither writer passes one. */
  ghost predicate RowMatches(h: History, token: string, row: RefreshToken) {
    && GrantFits(h, token, row.userUuid, row.clientUuid, row.scopes)
    && row.nonce.None?
  }

  ghost predicate ClientOk(h: History, uuid: string, c: Client) {
    && (forall s :: s in c.scopes || s in c.optionalScopes ==>
          IsClientScope(s) && Declaration(uuid, s) in h.declared)
    && (c.idTokenAllowed ==> uuid in h.idAllowed)
  }

  ghost predicate ConsentOk(h: History, k: ConsentKey, scopes: seq<Scope>) {
    forall s :: s in scopes ==> IsClientScope(s) && Agreement(k.userUuid, k.clientUuid, s) in h.consented
  }

  ghost predicate WorldInv(w: World, h: History) {
    && Referential(w.db)
    && (forall c :: c in w.db.clients ==> ClientOk(h, c, w.db.clients[c]))
    && (forall k :: k in w.db.consents ==> ConsentOk(h, k, w.db.consents[k]))
    && (forall t :: t in w.db.refreshTokens ==> RowMatches(h, t, w.db.refreshTokens[t]))
    && (forall c :: c in w.codes ==> CodeMatches(h, c, w.codes[c].value))
    && (forall t :: t in w.tokens ==> TokenMatches(h, t, w.tokens[t].value))
  }

  /** Whatever was ever drawn at random is remembered as used. */
  ghost predicate UsedInv(w: World, h: History, used: set<string>) {
    && w.db.users.Keys <= used && w.db.clients.Keys <= used && w.db.refreshTokens.Keys <= used
    && w.codes.Keys <= used && w.tokens.Keys <= used
    && h.auths.Keys <= used && h.grants.Keys <= used && h.clientGrants.Keys <= used
  }

  // ---------------------------------------------------------------- what a request in flight may rely on

  ghost predicate ScopesConsented(h: History, user: string, client: string, scopes: seq<Scope>) {
    forall s :: s in scopes ==> IsTokenScope(s) || Agreement(user, client, s) in h.consented
  }

  ghost predicate CodeChecked(p: Prims, h: History, r: Request, c: AuthorizeCache)
    requires r.CodeGrant?
  {
    CodeMatches(h, r.code, c) && r.client == Some(c.clientId) && VerifierError(p, c, r.codeVerifier).None?
  }

  /** A refresh token, if there is one, that begins a chain at the code. */
  ghost predicate BornOfCode(h: History, code: string, token: Option<string>) {
    token.Some? ==> token.value in h.grants && h.grants[token.value].root == code && h.grants[token.value].path == []
  }

  /** A refresh token, if there is one, that continues the chain of its parent. */
  ghost predicate BornOfRefresh(h: History, parent: string, token: Option<string>) {
    token.Some? ==>
      && parent in h.grants && token.value in h.grants
      && h.grants[token.value] == h.grants[parent].(path := h.grants[parent].path + [parent])
  }

  ghost predicate RunningOk(p: Prims, h: History, r: Request, pc: Pc) {
    match r
    case Consent(_, client, scope) =>
      pc.ConsentUpsert? ==> forall s :: s in scope ==> IsClientScope(s) && Declaration(client, s) in h.declared
    case Authorize(user, client, _, m, _, scope, nonce) =>
      && (m == "plain" || m == "S256")
      && (pc.AuthReadConsent? && pc.client.idTokenAllowed ==> client in h.idAllowed)
      && (pc.AuthStore? ==>
            && ScopesConsented(h, user, client, scope)
            && (Openid in scope ==> !Falsy(nonce) && client in h.idAllowed))
    case CodeGrant(_, code, _) =>
      && (pc.CodeDel? ==> CodeMatches(h, code, pc.cache))
      && (pc.CodeSetToken? || pc.CodeCreateRow? || pc.CodeReadUser? ==> CodeChecked(p, h, r, pc.cache))
      && (pc.CodeReadUser? ==> Openid in pc.cache.scope && BornOfCode(h, code, pc.refresh))
      && (pc.CodeCreateRow? || pc.CodeReadUser? ==> BornOfCode(h, code, Some(pc.access)))
    case RefreshGrant(_, token) =>
      && (pc.RefCheck? || pc.RefSetToken? || pc.RefCreateRow? ==> RowMatches(h, token, pc.row))
      && (pc.RefDelete? ==>
            && RowMatches(h, token, pc.row) && Openid !in pc.row.scopes && pc.idToken.None?
            && BornOfRefresh(h, token, pc.refresh))
      && (pc.RefCreateRow? || pc.RefDelete? ==> BornOfRefresh(h, token, Some(pc.access)))
      && !pc.RefReadUser?
    case ClientCredentials(_, _, _) =>
      pc.CredStore? ==> AllClientScopes(pc.scope)
    case Revoke(_, _) => true
    case Userinfo(token, _) =>
      && (pc.InfoReadConsent? ==> pc.token.to == ToClient && TokenMatches(h, token, pc.token))
      && (pc.InfoReadUser? ==>
            && TokenMatches(h, token, pc.token)
            && (pc.token.to == ToUser ==> pc.token.sub == Some(pc.user)))
  }

  /** A set of claims gives away only what the scopes cover. */
  ghost predicate Within(c: Claims, scopes: seq<Scope>) {
    forall s :: Discloses(c, s) ==> s in scopes
  }

  ghost predicate InfoWithin(i: UserInfo, scopes: seq<Scope>) {
    forall s :: InfoDiscloses(i, s) ==> s in scopes
  }

  /** An answered code grant: the verifier fits the challenge of the authorization, the scope is the granted
      one, and the ID token names its user, client and nonce and stays within its scopes. */
  ghost predicate CodeAnswerOk(p: Prims, a: Auth, verifier: Option<string>, resp: Response) {
    && verifier.Some?
    && (if a.challengeMethod == "S256" then p.sha256(verifier.value) == a.challenge else verifier.value == a.challenge)
    && resp.Tokens?
    && resp.scope == a.scopes
    && (resp.idToken.Some? <==> Openid in a.scopes)
    && (resp.idToken.Some? ==>
          var id := resp.idToken.value;
          && id.claims.sub == a.user && id.aud == a.client
          && id.nonce == a.nonce && !Falsy(id.nonce)
          && Within(id.claims, a.scopes))
  }

  /** An answered userinfo request stays within the scopes of its token, and for a user token is about the
      user of the grant. */
  ghost predicate InfoAnswerOk(h: History, token: string, resp: Response) {
    && resp.Info?
    && (|| (token in h.grants && resp.info.claims.sub == h.grants[token].user
            && InfoWithin(resp.info, h.grants[token].scopes))
        || (token in h.clientGrants && InfoWithin(resp.info, h.clientGrants[token])))
  }

  ghost predicate DoneOk(p: Prims, h: History, r: Request, resp: Response) {
    match r
    case CodeGrant(client, code, verifier) =>
      && code in h.auths
      && client == Some(h.auths[code].client)
      && CodeAnswerOk(p, h.auths[code], verifier, resp)
      && BornOfCode(h, code, resp.refreshToken) && BornOfCode(h, code, Some(resp.accessToken))
    case RefreshGrant(_, token) =>
      && token in h.grants
      && resp.Tokens? && resp.idToken.None? && Openid !in resp.scope && resp.scope == h.grants[token].scopes
      && BornOfRefresh(h, token, resp.refreshToken) && BornOfRefresh(h, token, Some(resp.accessToken))
    case ClientCredentials(_, _, _) =>
      && resp.Tokens? && AllClientScopes(resp.scope) && resp.idToken.None? && resp.refreshToken.None?
      && resp.accessToken in h.clientGrants && h.clientGrants[resp.accessToken] == resp.scope
    case Userinfo(token, _) => InfoAnswerOk(h, token, resp)
    case Authorize(_, _, _, _, _, _, _) => resp.Redirect? && resp.code in h.auths
    case _ => resp.Empty?
  }

  ghost predicate TaskOk(p: Prims, h: History, t: Task) {
    match t
    case Running(r, pc) => RunningOk(p, h, r, pc)
    case Done(r, resp) => DoneOk(p, h, r, resp)
    case Failed(_, _) => true
  }

  ghost predicate Inv(p: Prims, s: Sys) {
    && HistoryInv(s.history)
    && WorldInv(s.world, s.history)
    && UsedInv(s.world, s.history, s.used)
    && forall i :: 0 <= i < |s.tasks| ==> TaskOk(p, s.history, s.tasks[i])
  }

  // ---------------------------------------------------------------- growing history keeps what was said

  lemma WorldGrows(w: World, h: History, h': History)
    requires WorldInv(w, h) && Grows(h, h')
    ensures WorldInv(w, h')
  {
  }

  lemma TaskGrows(p: Prims, h: History, h': History, t: Task)
    requires TaskOk(p, h, t) && Grows(h, h')
    ensures TaskOk(p, h', t)
  {
  }

  lemma TasksGrow(p: Prims, h: History, h': History, tasks: seq<Task>)
    requires Grows(h, h')
    requires forall i :: 0 <= i < |tasks| ==> TaskOk(p, h, tasks[i])
    ensures forall i :: 0 <= i < |tasks| ==> TaskOk(p, h', tasks[i])
  {
    forall i | 0 <= i < |tasks| ensures TaskOk(p, h', tasks[i]) {
      TaskGrows(p, h, h', tasks[i]);
    }
  }

  // ---------------------------------------------------------------- events keep the history in order

  /** When an event may be recorded. */
  ghost predicate EventOk(h: History, e: Event) {
    match e
    case Nothing => true
    case Consented(_, client, scopes) =>
      forall s :: s in scopes ==> IsClientScope(s) && Declaration(client, s) in h.declared
    case Authorized(code, user, client, scopes, nonce, _, m) =>
      && code !in h.auths
      && ScopesConsented(h, user, client, scopes)
      && (Openid in scopes ==> !Falsy(nonce) && client in h.idAllowed)
      && (m == "plain" || m == "S256")
    case Minted(token, user, client, scopes, origin) =>
      && token !in h.grants && token !in h.clientGrants
      && (match origin
          case FromCode(code) =>
            && code in h.auths && h.auths[code].user == user
            && h.auths[code].client == client && h.auths[code].scopes == scopes
          case FromRefresh(parent) => GrantFits(h, parent, user, client, scopes))
    case MintedForClient(token, scopes) => token !in h.clientGrants && token !in h.grants && AllClientScopes(scopes)
  }

  lemma GrantFromOk(h: History, user: string, client: string, scopes: seq<Scope>, origin: Origin)
    requires HistoryInv(h)
    requires match origin
             case FromCode(code) =>
               && code in h.auths && h.auths[code].user == user
            && h.auths[code].client == client && h.auths[code].scopes == scopes
             case FromRefresh(parent) => GrantFits(h, parent, user, client, scopes)
    ensures GrantOk(h, GrantFrom(h, user, client, scopes, origin))
  {
    if origin.FromRefresh? {
      var parent := h.grants[origin.token];
      var g := GrantFrom(h, user, client, scopes, origin);
      assert GrantOk(h, parent);
      forall i | 0 <= i < |g.path|
        ensures g.path[i] in h.grants && h.grants[g.path[i]] == g.(path := g.path[..i])
      {
        if i < |parent.path| {
          assert g.path[..i] == parent.path[..i];
        } else {
          assert g.path[..i] == parent.path;
        }
      }
    }
  }

  lemma AuthGrows(h: History, h': History, a: Auth)
    requires AuthOk(h, a) && Grows(h, h')
    ensures AuthOk(h', a)
  {
  }

  lemma GrantGrows(h: History, h': History, g: Grant)
    requires GrantOk(h, g) && Grows(h, h')
    ensures GrantOk(h', g)
  {
  }

  lemma RecordGrows(h: History, now: nat, e: Event)
    requires HistoryInv(h) && EventOk(h, e)
    ensures Grows(h, Record(h, now, e))
  {
  }

  /** Recording a consent, an authorization or a token keeps the order of events: consents after
      declarations, authorizations after consents, tokens after their parents. */
  lemma RecordKeeps(h: History, now: nat, e: Event)
    requires HistoryInv(h) && EventOk(h, e)
    ensures HistoryInv(Record(h, now, e))
  {
    var h' := Record(h, now, e);
    RecordGrows(h, now, e);
    if e.Minted? {
      GrantFromOk(h, e.user, e.client, e.scopes, e.origin);
    }
    forall k | k in h'.consented ensures AgreementOk(h', k) {
      assert k in h.consented ==> AgreementOk(h, k);
    }
    forall c | c in h'.auths ensures AuthOk(h', h'.auths[c]) {
      if c in h.auths {
        AuthGrows(h, h', h.auths[c]);
      } else {
        NewAuthOk(h, now, e);
      }
    }
    forall t | t in h'.grants ensures GrantOk(h', h'.grants[t]) {
      GrantGrows(h, h', h'.grants[t]);
    }
  }

  lemma NewAuthOk(h: History, now: nat, e: Event)
    requires HistoryInv(h) && EventOk(h, e) && e.Authorized?
    ensures AuthOk(Record(h, now, e), Record(h, now, e).auths[e.code])
  {
    var h' := Record(h, now, e);
    var a := h'.auths[e.code];
    forall s | s in a.scopes ensures IsTokenScope(s) || ConsentedBefore(h', a.user, a.client, s, a.moment) {
      assert Agreement(a.user, a.client, s) in h.consented ==> AgreementOk(h, Agreement(a.user, a.client, s));
    }
  }

  lemma DeclareGrows(h: History, uuid: string, c: Client)
    requires HistoryInv(h)
    ensures Grows(h, Declare(h, uuid, c))
    ensures Declare(h, uuid, c).consented == h.consented && Declare(h, uuid, c).auths == h.auths
    ensures Declare(h, uuid, c).grants == h.grants && Declare(h, uuid, c).clientGrants == h.clientGrants
    ensures var h' := Declare(h, uuid, c); forall d :: d in h'.declared ==> h'.declared[d] < h'.moment
    ensures var h' := Declare(h, uuid, c); forall x :: x in h'.idAllowed ==> h'.idAllowed[x] < h'.moment
  {
    hide AuthOk, GrantOk, AgreementOk;
  }

  lemma DeclareKeeps(h: History, uuid: string, c: Client)
    requires HistoryInv(h)
    ensures HistoryInv(Declare(h, uuid, c)) && Grows(h, Declare(h, uuid, c))
    ensures AllClientScopes(c.scopes) && AllClientScopes(c.optionalScopes) ==> ClientOk(Declare(h, uuid, c), uuid, c)
  {
    var h' := Declare(h, uuid, c);
    DeclareGrows(h, uuid, c);
    if AllClientScopes(c.scopes) && AllClientScopes(c.optionalScopes) {
      DeclaredOk(h, uuid, c);
    }
    hide Declare, AuthOk, GrantOk;
    forall k | k in h'.consented ensures AgreementOk(h', k) {
      assert AgreementOk(h, k);
    }
    forall a | a in h'.auths ensures AuthOk(h', h'.auths[a]) {
      AuthGrows(h, h', h.auths[a]);
    }
    forall t | t in h'.grants ensures GrantOk(h', h'.grants[t]) {
      GrantGrows(h, h', h.grants[t]);
    }
  }

  lemma DeclaredOk(h: History, uuid: string, c: Client)
    requires AllClientScopes(c.scopes) && AllClientScopes(c.optionalScopes)
    ensures ClientOk(Declare(h, uuid, c), uuid, c)
  {
  }
}
