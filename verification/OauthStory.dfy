/** The laws of whole runs, read off the requests and their answers alone, under every interleaving. */
module OauthStory {
  import opened Types
  import opened Database
  import opened OauthProtocol
  import opened OauthMachine
  import opened OauthInvariants
  import opened OauthSafety
  import opened OauthInterleaved

  // ---------------------------------------------------------------- what the history says, some answered request said

  /** The request asked for exactly this authorization. */
  predicate AskedThat(a: Auth, r: Request) {
    && r.Authorize? && r.user == a.user && r.clientId == a.client && r.scope == a.scopes && r.nonce == a.nonce
    && r.codeChallenge == a.challenge && r.codeChallengeMethod == a.challengeMethod
  }

  /** An authorize request answered with the code. */
  predicate GaveCode(t: Task, code: string) {
    t.Done? && t.req.Authorize? && t.resp == Redirect(code)
  }

  /** A consent request of the user for the client, answered, that names the scope. */
  predicate GaveConsent(t: Task, user: string, client: string, s: Scope) {
    t.Done? && t.req.Consent? && t.req.user == user && t.req.clientId == client && s in t.req.scope
  }

  ghost predicate SomeGaveCode(tasks: seq<Task>, code: string) {
    exists i :: 0 <= i < |tasks| && GaveCode(tasks[i], code)
  }

  ghost predicate SomeGaveConsent(tasks: seq<Task>, k: Agreement) {
    exists i :: 0 <= i < |tasks| && GaveConsent(tasks[i], k.user, k.client, k.scope)
  }

  ghost predicate Anchored(s: Sys) {
    && (forall i, c :: 0 <= i < |s.tasks| && GaveCode(s.tasks[i], c) ==>
          c in s.history.auths && AskedThat(s.history.auths[c], s.tasks[i].req))
    && (forall c :: c in s.history.auths ==> SomeGaveCode(s.tasks, c))
    && (forall k :: k in s.history.consented ==> SomeGaveConsent(s.tasks, k))
  }

  /** The events of a step say what its request asked, and come with its answer. */
  lemma StepSays(p: Prims, w: World, r: Request, pc: Pc, d: Draw)
    ensures var o := Step(p, w, r, pc, d);
      && o.task.req == r
      && (r.Authorize? && o.task.Done? <==> o.event.Authorized?)
      && (o.event.Authorized? ==>
            var e := o.event;
            && GaveCode(o.task, e.code)
            && e.user == r.user && e.client == r.clientId && e.scopes == r.scope && e.nonce == r.nonce
            && e.challenge == r.codeChallenge && e.challengeMethod == r.codeChallengeMethod)
      && (o.event.Consented? ==>
            r.Consent? && o.task.Done? && o.event.user == r.user && o.event.client == r.clientId
            && o.event.scopes == r.scope)
  {
    match r
    case Consent(_, _, _) => hide AuthorizeStep, CodeStep, RefreshStep, CredentialsStep, RevokeStep, UserinfoStep;
    case Authorize(_, _, _, _, _, _, _) => hide ConsentStep, CodeStep, RefreshStep, CredentialsStep, RevokeStep;
    case CodeGrant(_, _, _) =>
      hide CodeStep;
      CodeSays(p, w, r, pc, d);
    case RefreshGrant(_, _) =>
      hide RefreshStep;
      RefreshSays(w, r, pc, d);
    case ClientCredentials(_, _, _) => hide ConsentStep, AuthorizeStep, CodeStep, RefreshStep, RevokeStep;
    case Revoke(_, _) => hide ConsentStep, AuthorizeStep, CodeStep, RefreshStep, CredentialsStep;
    case Userinfo(_, _) => hide ConsentStep, AuthorizeStep, CodeStep, RefreshStep, UserInfoFor;
  }

  lemma CodeSays(p: Prims, w: World, r: Request, pc: Pc, d: Draw)
    requires r.CodeGrant?
    ensures !CodeStep(p, w, r, pc, d).event.Authorized? && !CodeStep(p, w, r, pc, d).event.Consented?
  {
    hide IdTokenFor, CodeTokens, VerifierError, CreateRefreshToken;
  }

  lemma RefreshSays(w: World, r: Request, pc: Pc, d: Draw)
    requires r.RefreshGrant?
    ensures !RefreshStep(w, r, pc, d).event.Authorized? && !RefreshStep(w, r, pc, d).event.Consented?
  {
    hide IdTokenFor, RefreshTokens, CreateRefreshToken, FindRefreshToken, DeleteRefreshToken;
  }

  /** What an event adds to the two parts of history. */
  lemma RecordAdds(h: History, now: nat, e: Event)
    ensures var h' := Record(h, now, e);
      && (!e.Authorized? ==> h'.auths == h.auths)
      && (e.Authorized? ==>
            && h'.auths.Keys == h.auths.Keys + {e.code}
            && h'.auths[e.code]
               == Auth(e.user, e.client, e.scopes, e.nonce, e.challenge, e.challengeMethod, now, h.moment))
      && (forall k :: k in h'.consented ==>
            k in h.consented
            || (e.Consented? && k.user == e.user && k.client == e.client && k.scope in e.scopes))
  {
  }

  /** Answered requests stay answered while one running request takes a step. */
  lemma SomeStay(tasks: seq<Task>, i: nat, t: Task)
    requires i < |tasks| && tasks[i].Running?
    ensures forall c :: SomeGaveCode(tasks, c) || GaveCode(t, c) ==> SomeGaveCode(tasks[i := t], c)
    ensures forall k: Agreement :: SomeGaveConsent(tasks, k) || GaveConsent(t, k.user, k.client, k.scope) ==>
              SomeGaveConsent(tasks[i := t], k)
  {
    var tasks' := tasks[i := t];
    assert tasks'[i] == t;
    forall c | SomeGaveCode(tasks, c) || GaveCode(t, c) ensures SomeGaveCode(tasks', c) {
      if !GaveCode(t, c) {
        var j :| 0 <= j < |tasks| && GaveCode(tasks[j], c);
        assert GaveCode(tasks'[j], c);
      }
    }
    forall k: Agreement | SomeGaveConsent(tasks, k) || GaveConsent(t, k.user, k.client, k.scope)
      ensures SomeGaveConsent(tasks', k)
    {
      if !GaveConsent(t, k.user, k.client, k.scope) {
        var j :| 0 <= j < |tasks| && GaveConsent(tasks[j], k.user, k.client, k.scope);
        assert GaveConsent(tasks'[j], k.user, k.client, k.scope);
      }
    }
  }

  lemma RunAnchored(p: Prims, s: Sys, i: nat, d: Draw)
    requires Anchored(s) && i < |s.tasks| && s.tasks[i].Running?
    requires Extends(s.history.auths, RunTask(p, s, i, d).history.auths)
    ensures Anchored(RunTask(p, s, i, d))
  {
    hide Step, Record, GaveConsent, SomeGaveCode, SomeGaveConsent;
    var t := s.tasks[i];
    var o := Step(p, s.world, t.req, t.pc, d);
    var s' := RunTask(p, s, i, d);
    StepSays(p, s.world, t.req, t.pc, d);
    RecordAdds(s.history, s.world.now, o.event);
    SomeStay(s.tasks, i, o.task);
    forall j, c | 0 <= j < |s'.tasks| && GaveCode(s'.tasks[j], c)
      ensures c in s'.history.auths && AskedThat(s'.history.auths[c], s'.tasks[j].req)
    {
      if j != i {
        assert GaveCode(s.tasks[j], c);
      }
    }
    forall k | k in s'.history.consented ensures SomeGaveConsent(s'.tasks, k) {
      ConsentGiven(o.task, o.event, k);
    }
  }

  lemma ConsentGiven(t: Task, e: Event, k: Agreement)
    ensures e.Consented? && t.Done? && t.req.Consent? && e.user == t.req.user && e.client == t.req.clientId
            && e.scopes == t.req.scope && k.user == e.user && k.client == e.client && k.scope in e.scopes ==>
              GaveConsent(t, k.user, k.client, k.scope)
  {
  }

  /** Arrivals, time and other writes answer nothing. */
  lemma CalmAnchored(s: Sys, s': Sys)
    requires Anchored(s)
    requires |s.tasks| <= |s'.tasks| && s'.tasks[..|s.tasks|] == s.tasks
    requires forall i :: |s.tasks| <= i < |s'.tasks| ==> s'.tasks[i].Running?
    requires s'.history.auths == s.history.auths && s'.history.consented == s.history.consented
    ensures Anchored(s')
  {
    assert forall i :: 0 <= i < |s.tasks| ==> s'.tasks[i] == s.tasks[i];
    forall c | c in s'.history.auths ensures SomeGaveCode(s'.tasks, c) {
      var j :| 0 <= j < |s.tasks| && GaveCode(s.tasks[j], c);
      assert GaveCode(s'.tasks[j], c);
    }
    forall k | k in s'.history.consented ensures SomeGaveConsent(s'.tasks, k) {
      var j :| 0 <= j < |s.tasks| && GaveConsent(s.tasks[j], k.user, k.client, k.scope);
      assert GaveConsent(s'.tasks[j], k.user, k.client, k.scope);
    }
  }

  lemma WriteHistory(s: Sys, st: Statement)
    ensures var s' := RunStatement(s, st);
      && s'.tasks == s.tasks && s'.history.auths == s.history.auths && s'.history.consented == s.history.consented
  {
    hide Execute, FirstTimes;
  }

  lemma NextAnchored(p: Prims, serial: bool, s: Sys, a: Action)
    requires Anchored(s) && Extends(s.history.auths, Next(p, serial, s, a).history.auths)
    ensures Anchored(Next(p, serial, s, a))
  {
    hide Anchored, RunTask, RunStatement;
    if Enabled(serial, s, a) {
      match a
      case Run(i, d) => RunAnchored(p, s, i, d);
      case Write(st) =>
        WriteHistory(s, st);
        CalmAnchored(s, RunStatement(s, st));
      case _ => CalmAnchored(s, Next(p, serial, s, a));
    }
  }

  lemma {:induction false} AnchoredReachable(p: Prims, serial: bool, acts: seq<Action>)
    ensures Anchored(Exec(p, serial, INITIAL, acts))
  {
    if acts != [] {
      hide Inv, AllAccepted, Anchored, Next;
      var front, a := acts[..|acts| - 1], acts[|acts| - 1];
      var s := Exec(p, serial, INITIAL, front);
      AnchoredReachable(p, serial, front);
      Reachable(p, serial, front);
      NextKeeps(p, serial, s, a);
      NextAnchored(p, serial, s, a);
    }
  }

  // ---------------------------------------------------------------- declarations

  /** The client's row has the scope, in one list or the other. */
  predicate HasScope(db: Db, client: string, s: Scope) {
    client in db.clients && (s in db.clients[client].scopes || s in db.clients[client].optionalScopes)
  }

  lemma WriteDeclares(s: Sys, st: Statement)
    ensures var s' := RunStatement(s, st);
      && (forall k :: k in s'.history.declared ==> k in s.history.declared || HasScope(s'.world.db, k.client, k.scope))
      && (forall c :: c in s'.history.idAllowed ==>
            c in s.history.idAllowed || (c in s'.world.db.clients && s'.world.db.clients[c].idTokenAllowed))
  {
    hide Execute;
  }

  lemma StepDeclares(p: Prims, s: Sys, i: nat, d: Draw)
    requires i < |s.tasks| && s.tasks[i].Running?
    ensures RunTask(p, s, i, d).history.declared == s.history.declared
    ensures RunTask(p, s, i, d).history.idAllowed == s.history.idAllowed
  {
    hide Step, Record;
    var o := Step(p, s.world, s.tasks[i].req, s.tasks[i].pc, d);
    RecordDeclaresNothing(s.history, s.world.now, o.event);
  }

  lemma RecordDeclaresNothing(h: History, now: nat, e: Event)
    ensures Record(h, now, e).declared == h.declared && Record(h, now, e).idAllowed == h.idAllowed
  {
    hide FirstTimes, GrantFrom;
  }

  lemma NextDeclares(p: Prims, serial: bool, s: Sys, a: Action)
    ensures var s' := Next(p, serial, s, a);
      && (forall k :: k in s'.history.declared ==> k in s.history.declared || HasScope(s'.world.db, k.client, k.scope))
      && (forall c :: c in s'.history.idAllowed ==>
            c in s.history.idAllowed || (c in s'.world.db.clients && s'.world.db.clients[c].idTokenAllowed))
  {
    hide RunTask, RunStatement, HasScope;
    if Enabled(serial, s, a) {
      match a
      case Run(i, d) => StepDeclares(p, s, i, d);
      case Write(st) => WriteDeclares(s, st);
      case _ =>
    }
  }

  /** What the history says was declared was in the client's row at some point of the run. */
  lemma {:induction false} DeclaredWasStored(p: Prims, serial: bool, acts: seq<Action>, k: Declaration) returns (i: nat)
    requires k in Exec(p, serial, INITIAL, acts).history.declared
    ensures i <= |acts| && HasScope(Exec(p, serial, INITIAL, acts[..i]).world.db, k.client, k.scope)
    decreases |acts|
  {
    hide Next, HasScope;
    assert acts != [];
    var front := acts[..|acts| - 1];
    if k in Exec(p, serial, INITIAL, front).history.declared {
      i := DeclaredWasStored(p, serial, front, k);
      assert front[..i] == acts[..i];
    } else {
      NextDeclares(p, serial, Exec(p, serial, INITIAL, front), acts[|acts| - 1]);
      i := |acts|;
      assert acts[..i] == acts;
    }
  }

  /** A client that the history says was allowed ID tokens had the permission in its row at some point of the run. */
  lemma {:induction false} AllowedWasStored(p: Prims, serial: bool, acts: seq<Action>, c: string) returns (i: nat)
    requires c in Exec(p, serial, INITIAL, acts).history.idAllowed
    ensures i <= |acts|
    ensures var db := Exec(p, serial, INITIAL, acts[..i]).world.db; c in db.clients && db.clients[c].idTokenAllowed
    decreases |acts|
  {
    hide Next, HasScope;
    assert acts != [];
    var front := acts[..|acts| - 1];
    if c in Exec(p, serial, INITIAL, front).history.idAllowed {
      i := AllowedWasStored(p, serial, front, c);
      assert front[..i] == acts[..i];
    } else {
      NextDeclares(p, serial, Exec(p, serial, INITIAL, front), acts[|acts| - 1]);
      i := |acts|;
      assert acts[..i] == acts;
    }
  }

  // ---------------------------------------------------------------- the laws

  /** The answer to a code grant fits the authorize request that was answered with its code: same client, a verifier
      for its challenge and method, its scope list, and with `openid` an ID token about its user for its client with
      its nonce. */
  predicate Fits(p: Prims, ask: Request, redeem: Request, resp: Response)
    requires ask.Authorize? && redeem.CodeGrant?
  {
    && redeem.client == Some(ask.clientId)
    && redeem.codeVerifier.Some?
    && (|| (ask.codeChallengeMethod == "S256" && p.sha256(redeem.codeVerifier.value) == ask.codeChallenge)
        || (ask.codeChallengeMethod == "plain" && redeem.codeVerifier.value == ask.codeChallenge))
    && resp.Tokens? && resp.scope == ask.scope
    && (resp.idToken.Some? <==> Openid in ask.scope)
    && (resp.idToken.Some? ==>
          && resp.idToken.value.claims.sub == ask.user && resp.idToken.value.aud == ask.clientId
          && resp.idToken.value.nonce == ask.nonce && !Falsy(ask.nonce))
  }

  /** For every answered code grant there is an authorize request that was answered with its code, and the answer fits
      that request and every other one answered with the code. */
  lemma CodeAnswersFit(p: Prims, serial: bool, acts: seq<Action>, j: nat) returns (i: nat)
    requires var tasks := Exec(p, serial, INITIAL, acts).tasks;
      j < |tasks| && tasks[j].Done? && tasks[j].req.CodeGrant?
    ensures var tasks := Exec(p, serial, INITIAL, acts).tasks;
      && i < |tasks| && GaveCode(tasks[i], tasks[j].req.code)
      && forall k :: 0 <= k < |tasks| && GaveCode(tasks[k], tasks[j].req.code) ==>
           Fits(p, tasks[k].req, tasks[j].req, tasks[j].resp)
  {
    hide Exec;
    var s := Exec(p, serial, INITIAL, acts);
    AnchoredReachable(p, serial, acts);
    CodeAnswers(p, serial, acts, j);
    Reachable(p, serial, acts);
    DoneFact(p, s, j);
    assert SomeGaveCode(s.tasks, s.tasks[j].req.code);
    i :| 0 <= i < |s.tasks| && GaveCode(s.tasks[i], s.tasks[j].req.code);
  }

  lemma DoneFact(p: Prims, s: Sys, j: nat)
    requires Inv(p, s) && j < |s.tasks| && s.tasks[j].Done?
    ensures DoneOk(p, s.history, s.tasks[j].req, s.tasks[j].resp) && HistoryInv(s.history)
  {
    assert TaskOk(p, s.history, s.tasks[j]);
  }

  /** No two authorize requests were answered with the same code unless they asked the same. */
  lemma OneAsker(p: Prims, serial: bool, acts: seq<Action>, i: nat, k: nat, code: string)
    requires var tasks := Exec(p, serial, INITIAL, acts).tasks;
      i < |tasks| && k < |tasks| && GaveCode(tasks[i], code) && GaveCode(tasks[k], code)
    ensures var tasks := Exec(p, serial, INITIAL, acts).tasks;
      && tasks[i].req.user == tasks[k].req.user && tasks[i].req.clientId == tasks[k].req.clientId
      && tasks[i].req.scope == tasks[k].req.scope && tasks[i].req.codeChallenge == tasks[k].req.codeChallenge
  {
    hide Exec, GaveCode;
    AnchoredReachable(p, serial, acts);
    var s := Exec(p, serial, INITIAL, acts);
    assert AskedThat(s.history.auths[code], s.tasks[i].req) && AskedThat(s.history.auths[code], s.tasks[k].req);
  }

  /** A field of the user that an ID token shows a client was agreed to in a consent request of that user for that
      client, which was answered. */
  lemma IdTokenConsented(p: Prims, serial: bool, acts: seq<Action>, j: nat, s: Scope) returns (i: nat)
    requires var tasks := Exec(p, serial, INITIAL, acts).tasks;
      && j < |tasks| && tasks[j].Done? && tasks[j].req.CodeGrant? && tasks[j].resp.Tokens?
      && tasks[j].resp.idToken.Some? && Discloses(tasks[j].resp.idToken.value.claims, s)
    ensures var tasks := Exec(p, serial, INITIAL, acts).tasks;
      var id := tasks[j].resp.idToken.value;
      i < |tasks| && GaveConsent(tasks[i], id.claims.sub, id.aud, s)
  {
    hide Exec, Discloses, GaveConsent;
    var st := Exec(p, serial, INITIAL, acts);
    var id := st.tasks[j].resp.idToken.value;
    AnchoredReachable(p, serial, acts);
    Disclosure(p, serial, acts, j);
    assert Agreed(st.history, id.claims.sub, id.aud, s);
    assert SomeGaveConsent(st.tasks, Agreement(id.claims.sub, id.aud, s));
    i :| 0 <= i < |st.tasks| && GaveConsent(st.tasks[i], id.claims.sub, id.aud, s);
  }

  /** The access token of an answered code grant: whatever userinfo ever shows for it is about the user of the authorize
      request answered with that code, lies within the scope of the answer, and was agreed to in an answered consent
      request of that user for that client. */
  lemma AccessTokenStory(
      p: Prims, serial: bool, acts: seq<Action>, ask: nat, grant: nat, info: nat, s: Scope) returns (i: nat)
    requires var tasks := Exec(p, serial, INITIAL, acts).tasks;
      && ask < |tasks| && grant < |tasks| && info < |tasks|
      && tasks[grant].Done? && tasks[grant].req.CodeGrant? && tasks[grant].resp.Tokens?
      && GaveCode(tasks[ask], tasks[grant].req.code)
      && tasks[info].Done? && tasks[info].req.Userinfo? && tasks[info].resp.Info?
      && tasks[info].req.token == tasks[grant].resp.accessToken
      && InfoDiscloses(tasks[info].resp.info, s)
    ensures var tasks := Exec(p, serial, INITIAL, acts).tasks;
      && tasks[info].resp.info.claims.sub == tasks[ask].req.user
      && s in tasks[grant].resp.scope
      && i < |tasks| && GaveConsent(tasks[i], tasks[ask].req.user, tasks[ask].req.clientId, s)
  {
    hide Exec, InfoDiscloses, GaveConsent;
    var st := Exec(p, serial, INITIAL, acts);
    AnchoredReachable(p, serial, acts);
    Reachable(p, serial, acts);
    Disclosure(p, serial, acts, info);
    DoneFact(p, st, grant);
    DoneFact(p, st, info);
    var a := st.tasks[ask].req;
    var token := st.tasks[info].req.token;
    GrantOfCode(p, st.history, st.tasks[grant].req, st.tasks[grant].resp, token);
    assert Agreed(st.history, a.user, a.clientId, s);
    assert SomeGaveConsent(st.tasks, Agreement(a.user, a.clientId, s));
    i :| 0 <= i < |st.tasks| && GaveConsent(st.tasks[i], a.user, a.clientId, s);
    InfoInScope(st.history, token, st.tasks[info].resp, s);
  }

  lemma GrantOfCode(p: Prims, h: History, r: Request, resp: Response, token: string)
    requires HistoryInv(h) && r.CodeGrant? && DoneOk(p, h, r, resp) && resp.Tokens? && token == resp.accessToken
    ensures r.code in h.auths && token in h.grants && token !in h.clientGrants && h.grants[token].root == r.code
    ensures var a, g := h.auths[r.code], h.grants[token];
      g.user == a.user && g.client == a.client && g.scopes == a.scopes && resp.scope == a.scopes
  {
    assert GrantOk(h, h.grants[token]);
  }

  lemma InfoInScope(h: History, token: string, resp: Response, s: Scope)
    requires InfoAnswerOk(h, token, resp) && InfoDiscloses(resp.info, s)
    requires token in h.grants && token !in h.clientGrants
    ensures s in h.grants[token].scopes
  {
  }

  /** The access and refresh tokens of an answered refresh carry on the chain of the token presented: whatever userinfo
      ever shows for the access token is about the user, and within the scope, of that chain's grant. */
  lemma RefreshCarriesOn(p: Prims, serial: bool, acts: seq<Action>, j: nat)
    requires var tasks := Exec(p, serial, INITIAL, acts).tasks;
      j < |tasks| && tasks[j].Done? && tasks[j].req.RefreshGrant?
    ensures var s := Exec(p, serial, INITIAL, acts);
      var spent, resp, h := s.tasks[j].req.refreshToken, s.tasks[j].resp, s.history;
      && resp.Tokens? && spent in h.grants && resp.scope == h.grants[spent].scopes
      && resp.accessToken in h.grants
      && h.grants[resp.accessToken] == h.grants[spent].(path := h.grants[spent].path + [spent])
      && (resp.refreshToken.Some? ==>
            && resp.refreshToken.value in h.grants
            && h.grants[resp.refreshToken.value] == h.grants[spent].(path := h.grants[spent].path + [spent]))
  {
    hide Exec, HistoryInv;
    Reachable(p, serial, acts);
    DoneFact(p, Exec(p, serial, INITIAL, acts), j);
  }
}
