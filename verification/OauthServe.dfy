/** A request served in one go: that this is what the serial scheduler does, when a refresh succeeds, and
    what an answer may depend on. */
module OauthServe {
  import opened Types
  import opened Database
  import opened Store
  import opened OauthProtocol
  import opened OauthMachine
  import opened OauthInvariants
  import opened OauthSafety
  import opened OauthInterleaved
  import opened OauthSerial
  import opened OauthSerialTheorems

  // ---------------------------------------------------------------- serving is a serial run

  predicate WantsAccess(pc: Pc) {
    match pc
    case AuthReadClient => true
    case AuthReadConsent(_) => true
    case AuthStore => true
    case CodeGet => true
    case CodeDel(_) => true
    case CodeSetToken(_) => true
    case RefFind => true
    case RefCheck(_) => true
    case RefSetToken(_) => true
    case CredReadClient => true
    case CredStore(_) => true
    case _ => false
  }

  predicate WantsRefresh(pc: Pc) {
    match pc
    case CodeGet => true
    case CodeDel(_) => true
    case CodeSetToken(_) => true
    case CodeCreateRow(_, _) => true
    case RefFind => true
    case RefCheck(_) => true
    case RefSetToken(_) => true
    case RefCreateRow(_, _) => true
    case _ => false
  }

  /** The draw is new wherever the request may still use it. */
  ghost predicate FreshDraw(used: set<string>, d: Draw) {
    d.access != d.refresh && d.access !in used && d.refresh !in used
  }

  ghost predicate DrawLeft(used: set<string>, pc: Pc, d: Draw) {
    && d.access != d.refresh
    && (WantsAccess(pc) ==> d.access !in used)
    && (WantsRefresh(pc) ==> d.refresh !in used)
  }

  lemma DrawStep(p: Prims, w: World, r: Request, pc: Pc, d: Draw, used: set<string>)
    requires DrawLeft(used, pc, d)
    ensures Drawn(pc, d) !! used
    ensures var o := Step(p, w, r, pc, d); o.task.Running? ==> DrawLeft(used + Drawn(pc, d), o.task.pc, d)
  {
    hide IdTokenFor, UserInfoFor, VerifierError, CreateRefreshToken, FindRefreshToken, DeleteRefreshToken, FindConsent;
  }

  lemma DrawnOf(pc: Pc, d: Draw)
    ensures Drawn(pc, d) <= {d.access, d.refresh}
  {
  }

  /** One action as a run. */
  lemma ExecOne(p: Prims, serial: bool, s: Sys, a: Action)
    ensures Exec(p, serial, s, [a]) == Next(p, serial, s, a)
  {
    assert [a][..0] == [] && Exec(p, serial, s, []) == s;
  }

  /** One step of the running request under the serial scheduler. */
  lemma RunLast(p: Prims, s: Sys, d: Draw)
    requires s.tasks != [] && OnlyLast(s.tasks) && Last(s).Running? && DrawLeft(s.used, Last(s).pc, d)
    ensures var o := Step(p, s.world, Last(s).req, Last(s).pc, d);
      var s1 := Next(p, true, s, Run(|s.tasks| - 1, d));
      && s1.world == o.world && s1.tasks == s.tasks[|s.tasks| - 1 := o.task]
      && s1.tasks != [] && Last(s1) == o.task && OnlyLast(s1.tasks)
      && s1.used <= s.used + {d.access, d.refresh}
      && (Last(s1).Running? ==> DrawLeft(s1.used, Last(s1).pc, d))
  {
    hide Step, Record, DrawLeft, Drawn;
    DrawStep(p, s.world, Last(s).req, Last(s).pc, d, s.used);
    DrawnOf(Last(s).pc, d);
  }

  /** The running request can be driven to its answer by the serial scheduler, and what that leaves is what
      `Finish` computes. */
  lemma {:induction false} FinishIsSerialRun(p: Prims, s: Sys, d: Draw) returns (acts: seq<Action>)
    requires s.tasks != [] && OnlyLast(s.tasks)
    requires Last(s).Running? ==> DrawLeft(s.used, Last(s).pc, d)
    ensures var s' := Exec(p, true, s, acts);
      && s'.world == Finish(p, s.world, Last(s), d).0
      && s'.tasks == s.tasks[|s.tasks| - 1 := Finish(p, s.world, Last(s), d).1]
      && s'.used <= s.used + {d.access, d.refresh}
    decreases if Last(s).Running? then Rank(Last(s).pc) else 0
  {
    if !Last(s).Running? {
      acts := [];
    } else {
      hide Step, Next, DrawLeft, OnlyLast, Exec;
      var a := Run(|s.tasks| - 1, d);
      RunLast(p, s, d);
      var rest := FinishIsSerialRun(p, Next(p, true, s, a), d);
      acts := [a] + rest;
      ExecJoin(p, true, s, [a], rest);
      ExecOne(p, true, s, a);
    }
  }

  /** Serving a request to a quiet system is a run of the serial machine: the request arrives, takes its
      steps, and leaves the world and the answer that `Serve` computes. */
  lemma ServeIsSerialRun(p: Prims, s: Sys, r: Request, d: Draw) returns (acts: seq<Action>)
    requires Quiet(s) && Accepted(r) && FreshDraw(s.used, d)
    ensures var s' := Exec(p, true, s, acts);
      && s'.world == Serve(p, s.world, r, d).0
      && s'.tasks == s.tasks + [Serve(p, s.world, r, d).1]
      && s'.used <= s.used + {d.access, d.refresh}
  {
    var a := Arrive(r);
    var s1 := Next(p, true, s, a);
    assert Last(s1) == Running(r, First(r));
    var rest := FinishIsSerialRun(p, s1, d);
    acts := [a] + rest;
    ExecJoin(p, true, s, [a], rest);
    ExecOne(p, true, s, a);
  }

  /** Serving a code grant for a stored code, in any reachable state: the code is gone, and no request that
      arrives later, in any continuation, is answered with it. */
  lemma CodeConsumedForGood(
      p: Prims, before: seq<Action>, client: Option<string>, code: string, verifier: Option<string>, d: Draw,
      after: seq<Action>)
      returns (serve: seq<Action>)
    requires var s := Exec(p, true, INITIAL, before);
      Quiet(s) && FreshDraw(s.used, d) && Live(s.world.codes, code, s.world.now)
    ensures var s := Exec(p, true, INITIAL, before);
      var s1 := Exec(p, true, INITIAL, before + serve);
      var s2 := Exec(p, true, INITIAL, before + serve + after);
      && s1.world == Serve(p, s.world, CodeGrant(client, code, verifier), d).0
      && s1.tasks == s.tasks + [Serve(p, s.world, CodeGrant(client, code, verifier), d).1]
      && code !in s2.world.codes
      && forall i :: |s1.tasks| <= i < |s2.tasks| ==> !AnsweredCode(s2.tasks[i], code)
  {
    hide Inv, SerialInv, AllAccepted, Serve;
    var s := Exec(p, true, INITIAL, before);
    var r := CodeGrant(client, code, verifier);
    serve := ServeIsSerialRun(p, s, r, d);
    ExecJoin(p, true, INITIAL, before, serve);
    ExecJoin(p, true, INITIAL, before + serve, after);
    SerialReachable(p, before);
    SerialReachable(p, before + serve);
    var s1 := Exec(p, true, INITIAL, before + serve);
    LookupConsumes(p, s.world, client, code, verifier, d);
    ServedIsDone(p, s.world, r, d);
    assert Quiet(s1);
    QuietFacts(s1);
    UsedGrows(p, true, s, serve);
    CodesUsed(p, s, code);
    assert Spent(s1, code);
    SpentStays(p, s1, code, after);
  }

  lemma CodesUsed(p: Prims, s: Sys, code: string)
    requires Inv(p, s) && code in s.world.codes
    ensures code in s.used
  {
  }

  lemma ServedIsDone(p: Prims, w: World, r: Request, d: Draw)
    ensures !Serve(p, w, r, d).1.Running?
  {
    FinishedIsDone(p, w, Running(r, First(r)), d);
  }

  lemma {:induction false} FinishedIsDone(p: Prims, w: World, t: Task, d: Draw)
    ensures !Finish(p, w, t, d).1.Running?
    decreases if t.Running? then Rank(t.pc) else 0
  {
    hide Step;
    if t.Running? {
      var o := Step(p, w, t.req, t.pc, d);
      FinishedIsDone(p, o.world, o.task, d);
    }
  }

  lemma {:induction false} UsedGrows(p: Prims, serial: bool, s: Sys, acts: seq<Action>)
    ensures s.used <= Exec(p, serial, s, acts).used
  {
    hide Step, Record, Execute;
    if acts != [] {
      UsedGrows(p, serial, s, acts[..|acts| - 1]);
    }
  }

  // ---------------------------------------------------------------- exactly when a request succeeds

  /** A consent is recorded exactly when it covers everything the client requires and nothing the client did
      not declare. */
  lemma ConsentIff(p: Prims, w: World, user: string, client: string, scope: seq<Scope>, d: Draw)
    ensures var (w', t) := Serve(p, w, Consent(user, client, scope), d);
      && (t.Done? <==>
            && user in w.db.users && client in w.db.clients
            && (forall s :: s in scope ==> s in w.db.clients[client].scopes || s in w.db.clients[client].optionalScopes)
            && (forall s :: s in w.db.clients[client].scopes ==> s in scope))
      && w' == (if t.Done? then w.(db := w.db.(consents := w.db.consents[ConsentKey(client, user) := scope])) else w)
      && (t.Done? ==> t.resp == Empty)
  {
    var r := Consent(user, client, scope);
    Unfold(p, w, r, ConsentReadClient, d);
    Unfold(p, w, r, ConsentUpsert, d);
    if client in w.db.clients {
      var c := w.db.clients[client];
      assert forall s :: s in c.scopes + c.optionalScopes <==> s in c.scopes || s in c.optionalScopes;
    }
  }

  /** An authorization is granted exactly within the consent and the client's registration. The code stands for what
      was asked, challenge and method included, for ten minutes; nothing else is stored. */
  lemma AuthorizeIff(p: Prims, w: World, r: Request, d: Draw)
    requires r.Authorize?
    ensures var (w', t) := Serve(p, w, r, d);
      && (t.Done? <==>
            && r.clientId in w.db.clients && ConsentKey(r.clientId, r.user) in w.db.consents
            && (forall s :: s in r.scope ==> s in w.db.consents[ConsentKey(r.clientId, r.user)] || IsTokenScope(s))
            && r.redirectUri in w.db.clients[r.clientId].urls
            && (Openid in r.scope ==> w.db.clients[r.clientId].idTokenAllowed && !Falsy(r.nonce)))
      && (t.Done? ==>
            && t.resp == Redirect(d.access)
            && w' == w.(codes := w.codes[d.access := Timed(
                 AuthorizeCache(r.clientId, r.user, r.codeChallenge, r.codeChallengeMethod, r.redirectUri, r.scope,
                                r.nonce),
                 w.now + 600 * 1000)]))
      && (!t.Done? ==> w' == w)
  {
    Unfold(p, w, r, AuthReadClient, d);
    if r.clientId in w.db.clients {
      Unfold(p, w, r, AuthReadConsent(w.db.clients[r.clientId]), d);
      Unfold(p, w, r, AuthStore, d);
    }
  }

  /** A code grant succeeds exactly for the right client with a fitting verifier, as long as the user is
      still there when an offline token or an ID token asks for the user. */
  lemma CodeGrantIff(p: Prims, w: World, client: Option<string>, code: string, verifier: Option<string>, d: Draw)
    requires d.refresh !in w.db.refreshTokens
    ensures var t := Serve(p, w, CodeGrant(client, code, verifier), d).1;
      t.Done? <==>
        && Live(w.codes, code, w.now)
        && var c := w.codes[code].value;
        && client == Some(c.clientId)
        && (c.codeChallengeMethod == "S256" ==> verifier.Some? && p.sha256(verifier.value) == c.codeChallenge)
        && (c.codeChallengeMethod == "plain" ==> verifier == Some(c.codeChallenge))
        && (OfflineAccess in c.scope ==> c.userUuid in w.db.users && c.clientId in w.db.clients)
        && (Openid in c.scope ==> c.userUuid in w.db.users)
  {
    hide IdTokenFor, VerifierError;
    var r := CodeGrant(client, code, verifier);
    Unfold(p, w, r, CodeGet, d);
    if Live(w.codes, code, w.now) {
      var c := w.codes[code].value;
      Unfold(p, w, r, CodeDel(c), d);
      VerifierCases(p, c, verifier);
      if client == Some(c.clientId) && VerifierError(p, c, verifier).None? {
        CodeTail(p, Step(p, w, r, CodeDel(c), d).world, r, c, d);
      }
    }
  }

  lemma VerifierCases(p: Prims, c: AuthorizeCache, verifier: Option<string>)
    ensures VerifierError(p, c, verifier).None? <==>
              && (c.codeChallengeMethod == "S256" ==> verifier.Some? && p.sha256(verifier.value) == c.codeChallenge)
              && (c.codeChallengeMethod == "plain" ==> verifier == Some(c.codeChallenge))
  {
  }

  /** The part of a code grant after its checks. */
  lemma CodeTail(p: Prims, w: World, r: Request, c: AuthorizeCache, d: Draw)
    requires r.CodeGrant? && d.refresh !in w.db.refreshTokens
    ensures Finish(p, w, Running(r, CodeSetToken(c)), d).1.Done? <==>
              && (OfflineAccess in c.scope ==> c.userUuid in w.db.users && c.clientId in w.db.clients)
              && (Openid in c.scope ==> c.userUuid in w.db.users)
  {
    hide IdTokenFor;
    Unfold(p, w, r, CodeSetToken(c), d);
    var o := Step(p, w, r, CodeSetToken(c), d);
    if OfflineAccess in c.scope {
      Unfold(p, o.world, r, o.task.pc, d);
      var o2 := Step(p, o.world, r, o.task.pc, d);
      if o2.task.Running? {
        Unfold(p, o2.world, r, o2.task.pc, d);
      }
    } else if Openid in c.scope {
      Unfold(p, o.world, r, o.task.pc, d);
    }
  }

  /** The row a refresh writes: same grant, no nonce, thirty days. */
  function NextRow(row: RefreshToken, now: nat): RefreshToken {
    RefreshToken(row.userUuid, row.clientUuid, row.scopes, None, now + 30 * 24 * 3600 * 1000)
  }

  function WithNextRow(w: World, token: string, d: Draw): map<string, RefreshToken>
    requires token in w.db.refreshTokens
  {
    var row := w.db.refreshTokens[token];
    if OfflineAccess in row.scopes then w.db.refreshTokens[d.refresh := NextRow(row, w.now)] else w.db.refreshTokens
  }

  /** The token is stored and unexpired, and the client its own. */
  predicate Redeemable(w: World, client: Option<string>, token: string) {
    && token != "" && token in w.db.refreshTokens
    && w.now <= w.db.refreshTokens[token].expiresAt
    && client == Some(w.db.refreshTokens[token].clientUuid)
  }

  /** The new access token stored, for three hours, and the next row beside the old one. */
  function WithNewTokens(w: World, token: string, d: Draw): World
    requires token in w.db.refreshTokens
  {
    var row := w.db.refreshTokens[token];
    w.(db := w.db.(refreshTokens := WithNextRow(w, token, d)),
       tokens := w.tokens[d.access := Timed(TokenCache(ToUser, Some(row.userUuid), row.clientUuid, row.scopes),
                                            w.now + 10800 * 1000)])
  }

  /** The new tokens stored and delivered, and the old row gone. */
  ghost predicate Rotated(w: World, token: string, d: Draw, w': World, t: Task)
    requires token in w.db.refreshTokens
  {
    var row, w1 := w.db.refreshTokens[token], WithNewTokens(w, token, d);
    && t.Done?
    && t.resp == Tokens(d.access, 10800, if OfflineAccess in row.scopes then Some(d.refresh) else None,
                        Some(7776000), None, row.scopes)
    && w' == w1.(db := w1.db.(refreshTokens := w1.db.refreshTokens - {token}))
  }

  /** In every reachable state a refresh grant succeeds if and only if the token is stored, unexpired and the
      client's own, and its scope is without `openid`. Success replaces the row. A refused `openid` leaves the new
      access token and the new row stored, and the old row in place; any other refusal changes nothing. */
  lemma RefreshIff(p: Prims, serial: bool, acts: seq<Action>, client: Option<string>, token: string, d: Draw)
    requires FreshDraw(Exec(p, serial, INITIAL, acts).used, d)
    ensures var w := Exec(p, serial, INITIAL, acts).world;
      var r := RefreshGrant(client, token);
      var (w', t) := Serve(p, w, r, d);
      && (t.Done? <==> Redeemable(w, client, token) && Openid !in w.db.refreshTokens[token].scopes)
      && (t.Done? ==> Rotated(w, token, d, w', t))
      && (!t.Done? && Redeemable(w, client, token) ==>
            t == Failed(r, InvalidRequest) && w' == WithNewTokens(w, token, d))
      && (!Redeemable(w, client, token) ==> w' == w)
  {
    hide Inv, Rotated, Serve, WithNewTokens;
    Reachable(p, serial, acts);
    var s := Exec(p, serial, INITIAL, acts);
    if Redeemable(s.world, client, token) {
      RowFacts(p, s, token, d);
      RefreshRedeemed(p, s.world, client, token, d);
    } else {
      RefreshRefused(p, s.world, client, token, d);
    }
  }

  lemma RefreshRefused(p: Prims, w: World, client: Option<string>, token: string, d: Draw)
    requires !Redeemable(w, client, token)
    ensures var (w', t) := Serve(p, w, RefreshGrant(client, token), d);
      !t.Done? && w' == w
  {
    hide RefreshAfterRow, CreateRefreshToken;
    var r := RefreshGrant(client, token);
    Unfold(p, w, r, RefFind, d);
    if token in w.db.refreshTokens {
      Unfold(p, w, r, RefCheck(w.db.refreshTokens[token]), d);
    }
  }

  lemma RefreshRedeemed(p: Prims, w: World, client: Option<string>, token: string, d: Draw)
    requires Redeemable(w, client, token)
    requires var row := w.db.refreshTokens[token];
      row.nonce.None? && row.userUuid in w.db.users && row.clientUuid in w.db.clients
    requires d.refresh !in w.db.refreshTokens
    ensures var r := RefreshGrant(client, token);
      var (w', t) := Serve(p, w, r, d);
      && (t.Done? <==> Openid !in w.db.refreshTokens[token].scopes)
      && (t.Done? ==> Rotated(w, token, d, w', t))
      && (!t.Done? ==> t == Failed(r, InvalidRequest) && w' == WithNewTokens(w, token, d))
  {
    hide Rotated, WithNewTokens, RefreshAfterRow, CreateRefreshToken;
    var r, row := RefreshGrant(client, token), w.db.refreshTokens[token];
    Unfold(p, w, r, RefFind, d);
    Unfold(p, w, r, RefCheck(row), d);
    RefreshTail(p, w, r, row, d);
  }

  lemma RowFacts(p: Prims, s: Sys, token: string, d: Draw)
    requires Inv(p, s) && token in s.world.db.refreshTokens && FreshDraw(s.used, d)
    ensures var row := s.world.db.refreshTokens[token];
      row.nonce.None? && row.userUuid in s.world.db.users && row.clientUuid in s.world.db.clients
    ensures d.refresh !in s.world.db.refreshTokens
  {
    assert RowMatches(s.history, token, s.world.db.refreshTokens[token]);
  }

  /** The part of a refresh grant after its checks. */
  lemma RefreshTail(p: Prims, w: World, r: Request, row: RefreshToken, d: Draw)
    requires r.RefreshGrant? && r.refreshToken in w.db.refreshTokens && w.db.refreshTokens[r.refreshToken] == row
    requires row.nonce.None? && row.userUuid in w.db.users && row.clientUuid in w.db.clients
    requires d.refresh !in w.db.refreshTokens
    ensures var (w', t) := Finish(p, w, Running(r, RefSetToken(row)), d);
      && (t.Done? <==> Openid !in row.scopes)
      && (t.Done? ==> Rotated(w, r.refreshToken, d, w', t))
      && (!t.Done? ==> t == Failed(r, InvalidRequest) && w' == WithNewTokens(w, r.refreshToken, d))
  {
    hide IdTokenFor, RefreshAfterRow;
    Unfold(p, w, r, RefSetToken(row), d);
    var w1 := WithNewTokens(w, r.refreshToken, d);
    var next := if OfflineAccess in row.scopes then Some(d.refresh) else None;
    if OfflineAccess in row.scopes {
      Unfold(p, Step(p, w, r, RefSetToken(row), d).world, r, RefCreateRow(row, d.access), d);
    }
    assert Finish(p, w, Running(r, RefSetToken(row)), d)
        == Finish(p, w1, RefreshAfterRow(w1, r, row, d.access, next).task, d) by {
      AfterRowWorld(w1, r, row, d.access, next);
    }
    RefreshEnd(p, w1, r, row, d.access, next, d);
  }

  lemma AfterRowWorld(w: World, r: Request, row: RefreshToken, access: string, next: Option<string>)
    ensures RefreshAfterRow(w, r, row, access, next).world == w
  {
  }

  /** The end of a refresh grant, after the new tokens are stored. */
  lemma RefreshEnd(p: Prims, w: World, r: Request, row: RefreshToken, access: string, next: Option<string>, d: Draw)
    requires r.RefreshGrant? && r.refreshToken in w.db.refreshTokens && row.nonce.None?
    ensures var (w', t) := Finish(p, w, RefreshAfterRow(w, r, row, access, next).task, d);
      if Openid in row.scopes then w' == w && t == Failed(r, InvalidRequest)
      else
        && w' == w.(db := w.db.(refreshTokens := w.db.refreshTokens - {r.refreshToken}))
        && t == Done(r, RefreshTokens(row, access, next, None))
  {
    if Openid !in row.scopes {
      Unfold(p, w, r, RefDelete(row, access, next, None), d);
    }
  }

  /** A client's own token is granted exactly for its secret and for scopes it declared. The answer is the token stored
      for ninety days, with its lifetime and scope. */
  lemma CredentialsIff(p: Prims, w: World, client: string, secret: Option<string>, scope: Option<seq<Scope>>, d: Draw)
    ensures var (w', t) := Serve(p, w, ClientCredentials(client, secret, scope), d);
      && (t.Done? <==>
            && client in w.db.clients && secret.Some? && p.bcrypt(secret.value, w.db.clients[client].secret)
            && scope.Some?
            && forall s :: s in scope.value ==>
                 s in w.db.clients[client].scopes || s in w.db.clients[client].optionalScopes)
      && (t.Done? ==>
            && t.resp == Tokens(d.access, 7776000, None, None, None, scope.value)
            && w' == w.(tokens := w.tokens[d.access := Timed(TokenCache(ToClient, None, client, scope.value),
                                                             w.now + 7776000 * 1000)]))
      && (!t.Done? ==> w' == w)
  {
    var r := ClientCredentials(client, secret, scope);
    Unfold(p, w, r, CredReadClient, d);
    if scope.Some? {
      Unfold(p, w, r, CredStore(scope.value), d);
    }
  }

  /** A revocation takes effect for every access token, stored or not, and for a refresh token exactly while its row
      is stored; it touches nothing but the one token. */
  lemma RevokeIff(p: Prims, w: World, token: string, hint: Option<Hint>, d: Draw)
    ensures var (w', t) := Serve(p, w, Revoke(token, hint), d);
      && (t.Done? <==> hint == Some(AccessTokenHint) || (hint == Some(RefreshTokenHint) && token in w.db.refreshTokens))
      && (if t.Done? then t.resp == Empty else w' == w)
      && (hint == Some(RefreshTokenHint) && t.Done? ==>
            w' == w.(db := w.db.(refreshTokens := w.db.refreshTokens - {token})))
      && (hint == Some(AccessTokenHint) ==>
            && w' == w.(tokens := w'.tokens) && !Live(w'.tokens, token, w.now)
            && forall k :: k != token ==> Get(w'.tokens, k, w.now) == Get(w.tokens, k, w.now))
  {
    Unfold(p, w, Revoke(token, hint), RevokeAny, d);
  }

  /** The user a userinfo request is about: the token's own, or for a client's token the one asked for. */
  function AskedFor(c: TokenCache, sub: Option<string>): Option<string> {
    if c.to == ToClient then sub else c.sub
  }

  /** A client's token is good for a user who consented to the client, and to nothing outside the token's scope. */
  predicate CoversConsent(db: Db, c: TokenCache, user: string) {
    && ConsentKey(c.clientId, user) in db.consents
    && forall s :: s in db.consents[ConsentKey(c.clientId, user)] ==> s in c.scope
  }

  /** Userinfo changes nothing. It answers exactly for a live token and an existing user, who for a client's token
      must have consented to the client within the token's scope; the answer is the user's row seen through that
      scope. */
  lemma UserinfoIff(p: Prims, w: World, token: string, sub: Option<string>, d: Draw)
    ensures var (w', t) := Serve(p, w, Userinfo(token, sub), d);
      && w' == w
      && (t.Done? <==>
            && Live(w.tokens, token, w.now)
            && var c := w.tokens[token].value;
            && !Falsy(AskedFor(c, sub)) && AskedFor(c, sub).value in w.db.users
            && (c.to == ToClient ==> CoversConsent(w.db, c, AskedFor(c, sub).value)))
      && (t.Done? ==>
            var c := w.tokens[token].value;
            var user := AskedFor(c, sub).value;
            t.resp == Info(UserInfoFor(w.db.users[user], user, c.scope)))
  {
    hide UserInfoFor;
    var r := Userinfo(token, sub);
    Unfold(p, w, r, InfoGet, d);
    if Live(w.tokens, token, w.now) {
      var c := w.tokens[token].value;
      if !Falsy(AskedFor(c, sub)) {
        var user := AskedFor(c, sub).value;
        Unfold(p, w, r, InfoReadUser(c, user), d);
        if c.to == ToClient {
          Unfold(p, w, r, InfoReadConsent(c, user), d);
        }
      }
    }
  }

  /** The answer to a client's own token stays within what the user consented to if and only if the token has no
      client scope beyond the consent; that the consent lies within the token is all the handler looks at. */
  lemma ClientAnswerWithinConsent(p: Prims, w: World, token: string, sub: Option<string>, d: Draw)
    requires Serve(p, w, Userinfo(token, sub), d).1.Done?
    requires token in w.tokens && w.tokens[token].value.to == ToClient
    ensures sub.Some? && ConsentKey(w.tokens[token].value.clientId, sub.value) in w.db.consents
    ensures var t := Serve(p, w, Userinfo(token, sub), d).1;
      var c := w.tokens[token].value;
      var consent := w.db.consents[ConsentKey(c.clientId, sub.value)];
      && t.resp.Info?
      && ((forall s :: InfoDiscloses(t.resp.info, s) ==> s in consent) <==>
          (forall s :: s in c.scope && IsClientScope(s) ==> s in consent))
  {
    hide UserInfoFor, Serve, InfoDiscloses, IsClientScope;
    UserinfoIff(p, w, token, sub, d);
    var c := w.tokens[token].value;
    var info := UserInfoFor(w.db.users[sub.value], sub.value, c.scope);
    forall s ensures InfoDiscloses(info, s) <==> s in c.scope && IsClientScope(s) {
      InfoExactly(w.db.users[sub.value], sub.value, c.scope, s);
    }
  }

  // ---------------------------------------------------------------- what an answer depends on

  /** A userinfo answer gives away exactly the client scopes of the token. */
  lemma InfoExactly(u: User, uuid: string, scope: seq<Scope>, s: Scope)
    ensures InfoDiscloses(UserInfoFor(u, uuid, scope), s) <==> s in scope && IsClientScope(s)
    ensures Discloses(IdTokenFor(u, uuid, "", None, scope).claims, s) <==> s in scope && IsClientScope(s)
  {
  }

  /** The world with the row of one user changed. */
  function WithUser(w: World, uuid: string, u: User): World {
    w.(db := w.db.(users := w.db.users[uuid := u]))
  }

  /** Finishing a userinfo request whose last read is still to come. */
  lemma InfoTail(p: Prims, w: World, r: Request, token: TokenCache, user: string, uuid: string, v: User, d: Draw)
    requires r.Userinfo? && uuid in w.db.users && AlikeFor(w.db.users[uuid], v, token.scope)
    ensures Finish(p, w, Running(r, InfoReadUser(token, user)), d).1
         == Finish(p, WithUser(w, uuid, v), Running(r, InfoReadUser(token, user)), d).1
  {
    Unfold(p, w, r, InfoReadUser(token, user), d);
    Unfold(p, WithUser(w, uuid, v), r, InfoReadUser(token, user), d);
  }

  /** The steps of a userinfo request before it reads the user. */
  lemma InfoStepCommutes(w: World, r: Request, pc: Pc, uuid: string, v: User)
    requires r.Userinfo? && (pc.InfoGet? || pc.InfoReadConsent?)
    ensures UserinfoStep(WithUser(w, uuid, v), r, pc).task == UserinfoStep(w, r, pc).task
    ensures UserinfoStep(WithUser(w, uuid, v), r, pc).world == WithUser(w, uuid, v) && UserinfoStep(w, r, pc).world == w
    ensures UserinfoStep(w, r, pc).task.Running? ==>
              && var pc' := UserinfoStep(w, r, pc).task.pc;
              && (pc.InfoGet? ==>
                    && r.token in w.tokens && (pc'.InfoReadConsent? || pc'.InfoReadUser?)
                    && pc'.token == w.tokens[r.token].value)
              && (pc.InfoReadConsent? ==> pc' == InfoReadUser(pc.token, pc.user))
  {
  }

  /** A userinfo answer is independent of every field outside the scope of its token: two worlds that differ
      only in such fields of one user give the same answer. */
  lemma UserinfoNoninterference(p: Prims, w: World, token: string, sub: Option<string>, uuid: string, v: User, d: Draw)
    requires uuid in w.db.users
    requires token in w.tokens ==> AlikeFor(w.db.users[uuid], v, w.tokens[token].value.scope)
    ensures Serve(p, w, Userinfo(token, sub), d).1 == Serve(p, WithUser(w, uuid, v), Userinfo(token, sub), d).1
  {
    hide AlikeFor, UserinfoStep, Finish;
    var r := Userinfo(token, sub);
    var w2 := WithUser(w, uuid, v);
    Unfold(p, w, r, InfoGet, d);
    Unfold(p, w2, r, InfoGet, d);
    InfoStepCommutes(w, r, InfoGet, uuid, v);
    var t := UserinfoStep(w, r, InfoGet).task;
    if t.Running? {
      if t.pc.InfoReadConsent? {
        Unfold(p, w, r, t.pc, d);
        Unfold(p, w2, r, t.pc, d);
        InfoStepCommutes(w, r, t.pc, uuid, v);
        Stopped(p, w, w2, UserinfoStep(w, r, t.pc).task, d);
      }
      InfoTail(p, w, r, w.tokens[token].value, t.pc.user, uuid, v, d);
    } else {
      Stopped(p, w, w2, t, d);
    }
  }

  /** A request that is not running is finished as it is. */
  lemma Stopped(p: Prims, w: World, w2: World, t: Task, d: Draw)
    ensures !t.Running? ==> Finish(p, w, t, d).1 == t && Finish(p, w2, t, d).1 == t
  {
  }

  /** A step of a code grant on the two worlds. */
  lemma CodeStepCommutes(p: Prims, w: World, r: Request, pc: Pc, uuid: string, v: User, d: Draw)
    requires r.CodeGrant? && uuid in w.db.users
    requires pc.CodeReadUser? ==> AlikeFor(w.db.users[uuid], v, pc.cache.scope)
    ensures var o := Step(p, w, r, pc, d);
      var o2 := Step(p, WithUser(w, uuid, v), r, pc, d);
      o2.task == o.task && o2.world == WithUser(o.world, uuid, v) && o.world.db.users == w.db.users
  {
    hide VerifierError, IdTokenFor, AlikeFor;
    if pc.CodeReadUser? {
      AlikeIdToken(w.db.users[uuid], v, uuid, pc.cache.clientId, pc.cache.nonce, pc.cache.scope);
    } else if pc.CodeCreateRow? {
      hide CreateRefreshToken;
      RowCommutes(w, uuid, v, pc.cache, d);
    } else {
      hide CodeStep;
      if pc.CodeGet? {
        CodeGetCommutes(p, w, r, pc, uuid, v, d);
      } else if pc.CodeDel? {
        CodeDelCommutes(p, w, r, pc, uuid, v, d);
      } else if pc.CodeSetToken? {
        CodeSetTokenCommutes(p, w, r, pc, uuid, v, d);
      } else {
        ForeignCodeStep(p, w, r, pc, d);
        ForeignCodeStep(p, WithUser(w, uuid, v), r, pc, d);
      }
    }
  }

  /** A step of another handler's is refused. */
  lemma ForeignCodeStep(p: Prims, w: World, r: Request, pc: Pc, d: Draw)
    requires r.CodeGrant?
    requires !pc.CodeGet? && !pc.CodeDel? && !pc.CodeSetToken? && !pc.CodeCreateRow? && !pc.CodeReadUser?
    ensures CodeStep(p, w, r, pc, d) == Stop(w, r, Internal)
  {
  }

  /** Reading the code. */
  lemma CodeGetCommutes(p: Prims, w: World, r: Request, pc: Pc, uuid: string, v: User, d: Draw)
    requires r.CodeGrant? && uuid in w.db.users && pc.CodeGet?
    ensures var o := CodeStep(p, w, r, pc, d);
      var o2 := CodeStep(p, WithUser(w, uuid, v), r, pc, d);
      o2.task == o.task && o2.world == WithUser(o.world, uuid, v) && o.world.db.users == w.db.users
  {
    hide Get;
  }

  /** Deleting the code. */
  lemma CodeDelCommutes(p: Prims, w: World, r: Request, pc: Pc, uuid: string, v: User, d: Draw)
    requires r.CodeGrant? && uuid in w.db.users && pc.CodeDel?
    ensures var o := CodeStep(p, w, r, pc, d);
      var o2 := CodeStep(p, WithUser(w, uuid, v), r, pc, d);
      o2.task == o.task && o2.world == WithUser(o.world, uuid, v) && o.world.db.users == w.db.users
  {
    hide VerifierError, Del;
  }

  /** Storing the access token. */
  lemma CodeSetTokenCommutes(p: Prims, w: World, r: Request, pc: Pc, uuid: string, v: User, d: Draw)
    requires r.CodeGrant? && uuid in w.db.users && pc.CodeSetToken?
    ensures var o := CodeStep(p, w, r, pc, d);
      var o2 := CodeStep(p, WithUser(w, uuid, v), r, pc, d);
      o2.task == o.task && o2.world == WithUser(o.world, uuid, v) && o.world.db.users == w.db.users
  {
    hide CodeTokens, Set;
  }

  lemma AlikeIdToken(u: User, v: User, uuid: string, aud: string, nonce: Option<string>, scope: seq<Scope>)
    requires AlikeFor(u, v, scope)
    ensures IdTokenFor(u, uuid, aud, nonce, scope) == IdTokenFor(v, uuid, aud, nonce, scope)
  {
  }

  /** Writing a refresh token and changing an existing user row can be done in either order. */
  lemma RowCommutes(w: World, uuid: string, v: User, c: AuthorizeCache, d: Draw)
    requires uuid in w.db.users
    ensures var r := CreateRefreshToken(w.db, d.refresh, c.scope, c.userUuid, c.clientId, None, w.now);
      var r2 := CreateRefreshToken(WithUser(w, uuid, v).db, d.refresh, c.scope, c.userUuid, c.clientId, None, w.now);
      && (r.Err? ==> r2 == r)
      && (r.Ok? ==>
            && r2 == Ok(r.value.(users := r.value.users[uuid := v]))
            && r.value.users == w.db.users)
  {
  }

  lemma {:induction false} CodeFinishCommutes(p: Prims, w: World, t: Task, uuid: string, v: User, d: Draw)
    requires t.req.CodeGrant? && uuid in w.db.users
    requires t.Running? && (t.pc.CodeDel? || t.pc.CodeSetToken? || t.pc.CodeCreateRow? || t.pc.CodeReadUser?) ==>
               AlikeFor(w.db.users[uuid], v, t.pc.cache.scope)
    requires t.Running? ==> !t.pc.CodeGet?
    ensures Finish(p, WithUser(w, uuid, v), t, d).1 == Finish(p, w, t, d).1
    decreases if t.Running? then Rank(t.pc) else 0
  {
    hide VerifierError, AlikeFor, IdTokenFor;
    if t.Running? {
      CodeStepCommutes(p, w, t.req, t.pc, uuid, v, d);
      var o := Step(p, w, t.req, t.pc, d);
      CodeFinishCommutes(p, o.world, o.task, uuid, v, d);
    }
  }

  /** A code grant's answer, ID token included, is independent of every field outside the scope of the code. */
  lemma CodeGrantNoninterference(
      p: Prims, w: World, client: Option<string>, code: string, verifier: Option<string>, uuid: string, v: User,
      d: Draw)
    requires uuid in w.db.users
    requires code in w.codes ==> AlikeFor(w.db.users[uuid], v, w.codes[code].value.scope)
    ensures Serve(p, w, CodeGrant(client, code, verifier), d).1
         == Serve(p, WithUser(w, uuid, v), CodeGrant(client, code, verifier), d).1
  {
    hide VerifierError, AlikeFor, IdTokenFor;
    var r := CodeGrant(client, code, verifier);
    Unfold(p, w, r, CodeGet, d);
    Unfold(p, WithUser(w, uuid, v), r, CodeGet, d);
    var o := Step(p, w, r, CodeGet, d);
    CodeFinishCommutes(p, o.world, o.task, uuid, v, d);
  }

  /** The ID token of a code grant and the userinfo answer for the access token granted with it agree on
      every field they share, when the user's row has not changed in between. */
  lemma ProjectionsAgree(
      p: Prims, w: World, client: Option<string>, code: string, verifier: Option<string>, d: Draw,
      later: World, sub: Option<string>, e: Draw)
    requires d.refresh !in w.db.refreshTokens
    requires var (w1, t) := Serve(p, w, CodeGrant(client, code, verifier), d);
      && t.Done? && t.resp.Tokens? && t.resp.idToken.Some?
      && d.access in later.tokens && Live(later.tokens, d.access, later.now)
      && d.access in w1.tokens && later.tokens[d.access] == w1.tokens[d.access]
      && t.resp.idToken.value.claims.sub in w.db.users && t.resp.idToken.value.claims.sub in later.db.users
      && w.db.users[t.resp.idToken.value.claims.sub] == later.db.users[t.resp.idToken.value.claims.sub]
      && t.resp.idToken.value.claims.sub != ""
    ensures var t := Serve(p, w, CodeGrant(client, code, verifier), d).1;
      var u := Serve(p, later, Userinfo(d.access, sub), e).1;
      t.resp.accessToken == d.access && u.Done? && u.resp.Info? && u.resp.info.claims == t.resp.idToken.value.claims
  {
    hide Serve, IdTokenFor, UserInfoFor;
    CodeGrantLeaves(p, w, client, code, verifier, d);
    UserinfoIff(p, later, d.access, sub, e);
    var c := w.codes[code].value;
    LaddersAgree(w.db.users[c.userUuid], c.userUuid, c.clientId, c.nonce, c.scope);
  }

  /** The two ladders of the source release the same claims of a row. */
  lemma LaddersAgree(u: User, uuid: string, aud: string, nonce: Option<string>, scope: seq<Scope>)
    ensures IdTokenFor(u, uuid, aud, nonce, scope).claims == UserInfoFor(u, uuid, scope).claims
    ensures IdTokenFor(u, uuid, aud, nonce, scope).claims.sub == uuid
  {
  }

  /** The ID token of a grant for the cached authorization: exactly when `openid` was granted. */
  function IdTokenOf(db: Db, c: AuthorizeCache): Option<IdToken>
    requires Openid in c.scope ==> c.userUuid in db.users
  {
    if Openid in c.scope then Some(IdTokenFor(db.users[c.userUuid], c.userUuid, c.clientId, c.nonce, c.scope)) else None
  }

  /** The whole effect of an answered code grant: the three-hour access token, with `offline_access` a row that
      carries no nonce and lives thirty days, and an answer that reports ninety days whether or not there is a
      refresh token. */
  ghost predicate Granted(w: World, c: AuthorizeCache, d: Draw, w': World, t: Task) {
    && t.Done?
    && (Openid in c.scope ==> c.userUuid in w.db.users)
    && t.resp == Tokens(d.access, 10800, if OfflineAccess in c.scope then Some(d.refresh) else None, Some(7776000),
                        IdTokenOf(w.db, c), c.scope)
    && w'.tokens == w.tokens[d.access := Timed(TokenCache(ToUser, Some(c.userUuid), c.clientId, c.scope),
                                               w.now + 10800 * 1000)]
    && w'.db == w.db.(refreshTokens :=
                 if OfflineAccess in c.scope then
                   w.db.refreshTokens[d.refresh := RefreshToken(c.userUuid, c.clientId, c.scope, None,
                                                                w.now + 2592000 * 1000)]
                 else w.db.refreshTokens)
    && w'.now == w.now
  }

  /** What an answered code grant leaves behind and what it answers, in full. */
  lemma CodeGrantLeaves(p: Prims, w: World, client: Option<string>, code: string, verifier: Option<string>, d: Draw)
    requires Serve(p, w, CodeGrant(client, code, verifier), d).1.Done?
    ensures Live(w.codes, code, w.now)
    ensures var (w', t) := Serve(p, w, CodeGrant(client, code, verifier), d);
      Granted(w, w.codes[code].value, d, w', t) && w'.codes == w.codes - {code}
  {
    hide IdTokenFor, VerifierError, Granted;
    var r := CodeGrant(client, code, verifier);
    Unfold(p, w, r, CodeGet, d);
    var c := w.codes[code].value;
    Unfold(p, w, r, CodeDel(c), d);
    CodeTailLeaves(p, w, r, c, d);
    LookupConsumes(p, w, client, code, verifier, d);
  }

  lemma CodeTailLeaves(p: Prims, w: World, r: Request, c: AuthorizeCache, d: Draw)
    requires r.CodeGrant?
    ensures var w1 := w.(codes := Del(w.codes, r.code, w.now));
      var (w', t) := Finish(p, w1, Running(r, CodeSetToken(c)), d);
      t.Done? ==> Granted(w, c, d, w', t)
  {
    hide IdTokenFor;
    var w1 := w.(codes := Del(w.codes, r.code, w.now));
    Unfold(p, w1, r, CodeSetToken(c), d);
    var o := Step(p, w1, r, CodeSetToken(c), d);
    if o.task.Running? {
      Unfold(p, o.world, r, o.task.pc, d);
      var o2 := Step(p, o.world, r, o.task.pc, d);
      if o2.task.Running? {
        Unfold(p, o2.world, r, o2.task.pc, d);
      }
    }
  }
}
