/** Login sessions: issued by a login, handed on by a refresh, ended by a logout, each request served in one go. */
module Sessions {
  import opened Types
  import opened Database
  import opened Store

  // ---------------------------------------------------------------- state and requests

  /** `sessions` maps a session token to its user, `challenges` a key to the passkey challenge given out under it. */
  datatype World = World(now: nat, db: Db, sessions: Cache<string>, challenges: Cache<string>)

  /** The world a request leaves behind, and the user it answers with tokens for. */
  datatype Reply = Reply(world: World, result: Result<string>)

  const CHALLENGE_TTL := 10 * 60

  function IssueTokens(w: World, uuid: string, token: string, ttl: nat): Reply {
    Reply(w.(sessions := Set(w.sessions, token, uuid, ttl, w.now)), Ok(uuid))
  }

  ghost function Login(p: Prims, w: World, email: string, password: string, token: string, ttl: nat): Reply {
    match UserByEmail(w.db, email)
    case None => Reply(w, Err(Unauthorized))
    case Some(u) =>
      if !p.bcrypt(password, w.db.users[u].password) then Reply(w, Err(Unauthorized))
      else IssueTokens(w, u, token, ttl)
  }

  function Logout(w: World, token: string): World {
    w.(sessions := Del(w.sessions, token, w.now))
  }

  /** A session of a deleted user stays in the cache when its refresh is refused. */
  function Refresh(w: World, token: string, newToken: string, ttl: nat): Reply {
    if token == "" then Reply(w, Err(Unauthorized))
    else
      match Get(w.sessions, token, w.now)
      case None => Reply(w, Err(Unauthorized))
      case Some(u) =>
        if u !in w.db.users then Reply(w, Err(Unauthorized))
        else Reply(w.(sessions := Set(Del(w.sessions, token, w.now), newToken, u, ttl, w.now)), Ok(u))
  }

  function AuthenticateOptions(w: World, key: string, challenge: string): World {
    w.(challenges := Set(w.challenges, key, challenge, CHALLENGE_TTL, w.now))
  }

  /** `verified` is what the signature check answers, `None` when it throws. By then the challenge is gone. */
  function VerifyAuthentication(
      w: World, key: string, id: string, verified: Option<bool>, token: string, ttl: nat): Reply
  {
    match Get(w.challenges, key, w.now)
    case None => Reply(w, Err(CacheNotFound))
    case Some(challenge) =>
      if challenge == "" then Reply(w, Err(CacheNotFound))
      else
        var w1 := w.(challenges := Del(w.challenges, key, w.now));
        if id !in w.db.authenticators then Reply(w1, Err(Unauthorized))
        else if verified.None? then Reply(w1, Err(Internal))
        else if !verified.value then Reply(w1, Err(Unauthorized))
        else IssueTokens(w1, w.db.authenticators[id], token, ttl)
  }

  /** One request, a write of the rest of the service, or the clock moving on. */
  datatype Act =
    | PasswordLogin(email: string, password: string, token: string)
    | AskChallenge(key: string, challenge: string)
    | PasskeyLogin(key: string, id: string, verified: Option<bool>, token: string)
    | EndSession(token: string)
    | Renew(token: string, newToken: string)
    | Write(st: Statement)
    | Tick(dt: nat)

  /** The world, the tokens and keys drawn so far, and for each token the number of the login it goes back to. */
  datatype State = State(world: World, logins: seq<string>, root: map<string, nat>, keys: set<string>)

  const OPENING := State(World(0, EMPTY_DB, map[], map[]), [], map[], {})

  /** Random tokens and keys do not repeat. */
  predicate Enabled(s: State, a: Act) {
    match a
    case PasswordLogin(_, _, token) => token !in s.root
    case PasskeyLogin(_, _, _, token) => token !in s.root
    case Renew(_, newToken) => newToken !in s.root
    case AskChallenge(key, _) => key !in s.keys
    case _ => true
  }

  ghost function Answer(p: Prims, ttl: nat, w: World, a: Act): Reply {
    match a
    case PasswordLogin(email, password, token) => Login(p, w, email, password, token, ttl)
    case AskChallenge(key, challenge) => Reply(AuthenticateOptions(w, key, challenge), Ok(""))
    case PasskeyLogin(key, id, verified, token) => VerifyAuthentication(w, key, id, verified, token, ttl)
    case EndSession(token) => Reply(Logout(w, token), Ok(""))
    case Renew(token, newToken) => Refresh(w, token, newToken, ttl)
    case Write(st) => Reply(w.(db := After(w.db, st)), Ok(""))
    case Tick(dt) => Reply(w.(now := w.now + dt), Ok(""))
  }

  /** A login by either route that gives out a session. */
  ghost predicate LogsIn(p: Prims, ttl: nat, s: State, a: Act) {
    Enabled(s, a) && (a.PasswordLogin? || a.PasskeyLogin?) && Answer(p, ttl, s.world, a).result.Ok?
  }

  /** A logout that finds its session. */
  ghost predicate LogsOut(s: State, a: Act) {
    a.EndSession? && Live(s.world.sessions, a.token, s.world.now)
  }

  /** A refresh that is answered with new tokens. */
  ghost predicate Renews(p: Prims, ttl: nat, s: State, a: Act) {
    Enabled(s, a) && a.Renew? && Answer(p, ttl, s.world, a).result.Ok?
  }

  ghost function Next(p: Prims, ttl: nat, s: State, a: Act): State {
    if !Enabled(s, a) then s
    else
      var w := Answer(p, ttl, s.world, a).world;
      if LogsIn(p, ttl, s, a) then
        State(w, s.logins + [Answer(p, ttl, s.world, a).result.value], s.root[a.token := |s.logins|], s.keys)
      else if Renews(p, ttl, s, a) && a.token in s.root then
        State(w, s.logins, s.root[a.newToken := s.root[a.token]], s.keys)
      else if a.AskChallenge? then State(w, s.logins, s.root, s.keys + {a.key})
      else s.(world := w)
  }

  ghost function Run(p: Prims, ttl: nat, acts: seq<Act>): State {
    if acts == [] then OPENING else Next(p, ttl, Run(p, ttl, acts[..|acts| - 1]), acts[|acts| - 1])
  }

  // ---------------------------------------------------------------- the invariant

  /** Every stored session goes back to a login of its user, and to a login of its own. */
  ghost predicate Owned(m: Cache<string>, logins: seq<string>, root: map<string, nat>) {
    && (forall t :: t in root ==> root[t] < |logins|)
    && (forall t :: t in m ==> t in root && m[t].value == logins[root[t]])
    && (forall t, u :: t in m && u in m && root[t] == root[u] ==> t == u)
  }

  ghost predicate Inv(s: State) {
    && Owned(s.world.sessions, s.logins, s.root)
    && (forall k :: k in s.world.challenges ==> k in s.keys)
  }

  lemma OwnedNew(m: Cache<string>, logins: seq<string>, root: map<string, nat>, token: string, user: string,
        expiresAt: nat)
    requires Owned(m, logins, root) && token !in root
    ensures Owned(m[token := Timed(user, expiresAt)], logins + [user], root[token := |logins|])
    ensures |m[token := Timed(user, expiresAt)]| == |m| + 1
  {
    assert m[token := Timed(user, expiresAt)].Keys == m.Keys + {token};
  }

  lemma OwnedLess(m: Cache<string>, logins: seq<string>, root: map<string, nat>, token: string)
    requires Owned(m, logins, root) && token in m
    ensures Owned(m - {token}, logins, root)
    ensures |m - {token}| == |m| - 1
  {
    assert (m - {token}).Keys == m.Keys - {token};
  }

  lemma OwnedMoved(
      m: Cache<string>, logins: seq<string>, root: map<string, nat>, token: string, newToken: string, expiresAt: nat)
    requires Owned(m, logins, root) && token in m && newToken !in root
    ensures var m' := (m - {token})[newToken := Timed(m[token].value, expiresAt)];
      Owned(m', logins, root[newToken := root[token]]) && |m'| == |m|
  {
    var m' := (m - {token})[newToken := Timed(m[token].value, expiresAt)];
    assert m'.Keys == m.Keys - {token} + {newToken};
  }

  lemma LoginKeeps(p: Prims, ttl: nat, s: State, a: Act)
    requires Inv(s) && LogsIn(p, ttl, s, a)
    ensures Inv(Next(p, ttl, s, a))
    ensures |Next(p, ttl, s, a).world.sessions| == |s.world.sessions| + 1
  {
    hide UserByEmail, Owned;
    var user := Answer(p, ttl, s.world, a).result.value;
    OwnedNew(s.world.sessions, s.logins, s.root, a.token, user, s.world.now + ttl * 1000);
  }

  lemma RenewKeeps(p: Prims, ttl: nat, s: State, a: Act)
    requires Inv(s) && Renews(p, ttl, s, a)
    ensures a.token in s.root && s.root[a.token] < |s.logins|
    ensures Inv(Next(p, ttl, s, a))
    ensures |Next(p, ttl, s, a).world.sessions| == |s.world.sessions|
  {
    hide Owned;
    OwnedMoved(s.world.sessions, s.logins, s.root, a.token, a.newToken, s.world.now + ttl * 1000);
    assert a.token in s.root && s.root[a.token] < |s.logins| by {
      HasRoot(s, a.token);
    }
  }

  lemma HasRoot(s: State, token: string)
    requires Inv(s) && token in s.world.sessions
    ensures token in s.root && s.root[token] < |s.logins|
    ensures s.world.sessions[token].value == s.logins[s.root[token]]
  {
  }

  lemma LogoutKeeps(p: Prims, ttl: nat, s: State, a: Act)
    requires Inv(s) && LogsOut(s, a)
    ensures Inv(Next(p, ttl, s, a))
    ensures |Next(p, ttl, s, a).world.sessions| == |s.world.sessions| - 1
  {
    hide Owned;
    OwnedLess(s.world.sessions, s.logins, s.root, a.token);
  }

  /** Whatever else happens leaves the sessions alone. */
  lemma OthersKeep(p: Prims, ttl: nat, s: State, a: Act)
    requires Inv(s) && !LogsIn(p, ttl, s, a) && !Renews(p, ttl, s, a) && !LogsOut(s, a)
    ensures Inv(Next(p, ttl, s, a)) && Next(p, ttl, s, a).world.sessions == s.world.sessions
  {
    hide UserByEmail, After, Owned;
  }

  lemma NextKeeps(p: Prims, ttl: nat, s: State, a: Act)
    requires Inv(s)
    ensures Inv(Next(p, ttl, s, a))
    ensures |Next(p, ttl, s, a).world.sessions| == |s.world.sessions|
            + (if LogsIn(p, ttl, s, a) then 1 else 0) - (if LogsOut(s, a) then 1 else 0)
  {
    if LogsIn(p, ttl, s, a) {
      LoginKeeps(p, ttl, s, a);
    } else if LogsOut(s, a) {
      LogoutKeeps(p, ttl, s, a);
    } else if Renews(p, ttl, s, a) {
      RenewKeeps(p, ttl, s, a);
    } else {
      OthersKeep(p, ttl, s, a);
    }
  }

  lemma {:induction false} Reachable(p: Prims, ttl: nat, acts: seq<Act>)
    ensures Inv(Run(p, ttl, acts))
  {
    if acts != [] {
      hide Inv, Next;
      Reachable(p, ttl, acts[..|acts| - 1]);
      NextKeeps(p, ttl, Run(p, ttl, acts[..|acts| - 1]), acts[|acts| - 1]);
    }
  }

  // ---------------------------------------------------------------- conservation

  ghost function CountLogins(p: Prims, ttl: nat, acts: seq<Act>): nat {
    if acts == [] then 0
    else
      var front, a := acts[..|acts| - 1], acts[|acts| - 1];
      CountLogins(p, ttl, front) + if LogsIn(p, ttl, Run(p, ttl, front), a) then 1 else 0
  }

  ghost function CountLogouts(p: Prims, ttl: nat, acts: seq<Act>): nat {
    if acts == [] then 0
    else
      var front, a := acts[..|acts| - 1], acts[|acts| - 1];
      CountLogouts(p, ttl, front) + if LogsOut(Run(p, ttl, front), a) then 1 else 0
  }

  ghost function LiveSessions(w: World): set<string> {
    set t | t in w.sessions && w.now <= w.sessions[t].expiresAt
  }

  ghost function ExpiredSessions(w: World): set<string> {
    set t | t in w.sessions && w.sessions[t].expiresAt < w.now
  }

  lemma {:induction false} Stored(p: Prims, ttl: nat, acts: seq<Act>)
    ensures CountLogins(p, ttl, acts) - CountLogouts(p, ttl, acts) == |Run(p, ttl, acts).world.sessions|
  {
    if acts != [] {
      hide Inv, Next, LogsIn, LogsOut;
      Reachable(p, ttl, acts[..|acts| - 1]);
      NextKeeps(p, ttl, Run(p, ttl, acts[..|acts| - 1]), acts[|acts| - 1]);
      Stored(p, ttl, acts[..|acts| - 1]);
    }
  }

  /** In every run the logins that gave out a session, less the logouts that ended one, are the sessions that are
      still alive and those that expired: refreshes, refused or not, change neither side. */
  lemma Conservation(p: Prims, ttl: nat, acts: seq<Act>)
    ensures var w := Run(p, ttl, acts).world;
      CountLogins(p, ttl, acts) - CountLogouts(p, ttl, acts) == |LiveSessions(w)| + |ExpiredSessions(w)|
  {
    Stored(p, ttl, acts);
    var w := Run(p, ttl, acts).world;
    assert w.sessions.Keys == LiveSessions(w) + ExpiredSessions(w);
    assert LiveSessions(w) !! ExpiredSessions(w);
  }

  /** A renewed session: the token is dead, its successor is alive, the number of stored sessions is unchanged and
      both belong to the user of the login they go back to, who still has an account. */
  lemma RenewalKeepsOwner(p: Prims, ttl: nat, acts: seq<Act>, token: string, newToken: string)
    requires Renews(p, ttl, Run(p, ttl, acts), Renew(token, newToken))
    ensures var s := Run(p, ttl, acts);
      var s' := Next(p, ttl, s, Renew(token, newToken));
      && token in s.root && s.root[token] < |s.logins|
      && newToken in s'.root && s'.root[newToken] == s.root[token]
      && Get(s'.world.sessions, newToken, s'.world.now) == Get(s.world.sessions, token, s.world.now)
         == Some(s.logins[s.root[token]])
      && token !in s'.world.sessions
      && |s'.world.sessions| == |s.world.sessions|
      && s.logins[s.root[token]] in s.world.db.users
  {
    Reachable(p, ttl, acts);
    RenewKeeps(p, ttl, Run(p, ttl, acts), Renew(token, newToken));
    HasRoot(Run(p, ttl, acts), token);
    hide Inv, Run;
  }

  /** A password login is answered exactly for the password of the account with that email; the session it adds is
      that account's and no other session changes. */
  lemma LoginIff(p: Prims, w: World, email: string, password: string, token: string, ttl: nat)
    requires Referential(w.db)
    ensures var r := Login(p, w, email, password, token, ttl);
      && (forall u :: r.result == Ok(u) <==>
            u in w.db.users && w.db.users[u].email == email && p.bcrypt(password, w.db.users[u].password))
      && (r.result.Ok? ==> r.world == w.(sessions := w.sessions[token := Timed(r.result.value, w.now + ttl * 1000)]))
      && (r.result.Err? ==> r == Reply(w, Err(Unauthorized)))
  {
  }

  /** A passkey login is answered exactly for a challenge that can still be read, a known authenticator and a
      signature that checks; the session it adds is the authenticator's user's. */
  lemma PasskeyLoginIff(w: World, key: string, id: string, verified: Option<bool>, token: string, ttl: nat)
    ensures var r := VerifyAuthentication(w, key, id, verified, token, ttl);
      && (r.result.Ok? <==>
            && Live(w.challenges, key, w.now) && w.challenges[key].value != ""
            && id in w.db.authenticators && verified == Some(true))
      && (r.result.Ok? ==>
            && r.result.value == w.db.authenticators[id]
            && r.world == w.(challenges := w.challenges - {key},
                             sessions := w.sessions[token := Timed(w.db.authenticators[id], w.now + ttl * 1000)]))
      && (r.result.Err? ==> r.world.sessions == w.sessions && r.world.db == w.db)
  {
  }

  /** In every reachable state a refresh is answered if and only if its token was given out, its session has neither
      ended nor expired, and the user of the login it goes back to still has an account. */
  lemma RenewIff(p: Prims, ttl: nat, acts: seq<Act>, token: string, newToken: string)
    ensures var s := Run(p, ttl, acts);
      Refresh(s.world, token, newToken, ttl).result.Ok? <==>
        && token != "" && token in s.root && !Spent(s, token)
        && s.world.now <= s.world.sessions[token].expiresAt
        && s.root[token] < |s.logins| && s.logins[s.root[token]] in s.world.db.users
  {
    Reachable(p, ttl, acts);
    var s := Run(p, ttl, acts);
    if token in s.world.sessions {
      HasRoot(s, token);
    }
    hide Run, Inv;
  }

  /** The session a login or a refresh gives out can be read for its whole lifetime and no longer, and every other
      session as before. */
  lemma SessionLifetime(p: Prims, ttl: nat, w: World, a: Act, later: nat, t: string)
    requires (a.PasswordLogin? || a.PasskeyLogin? || a.Renew?) && Answer(p, ttl, w, a).result.Ok? && w.now <= later
    ensures var r := Answer(p, ttl, w, a);
      var given := if a.Renew? then a.newToken else a.token;
      Get(r.world.sessions, t, later) ==
        if t == given then (if later <= w.now + ttl * 1000 then Some(r.result.value) else None)
        else if a.Renew? && t == a.token then None
        else Get(w.sessions, t, later)
  {
    hide UserByEmail;
  }

  /** A refused refresh is unauthorized and leaves everything as it was. */
  lemma RefreshRefused(w: World, token: string, newToken: string, ttl: nat)
    ensures var r := Refresh(w, token, newToken, ttl); r.result.Err? ==> r == Reply(w, Err(Unauthorized))
    ensures var r := Refresh(w, token, newToken, ttl); r.result.Ok? ==>
              r.world == w.(sessions := r.world.sessions) && Get(w.sessions, token, w.now) == Some(r.result.value)
  {
  }

  /** A logout ends the one session. */
  lemma LogoutEffect(w: World, token: string, later: nat, t: string)
    requires w.now <= later
    ensures Logout(w, token) == w.(sessions := Logout(w, token).sessions)
    ensures Get(Logout(w, token).sessions, t, later) == if t == token then None else Get(w.sessions, t, later)
  {
  }

  /** A challenge that was asked for can be answered for ten minutes and no longer, and what was asked for under other
      keys as before. */
  lemma ChallengeLifetime(
      w: World, key: string, challenge: string, later: nat, id: string, token: string, ttl: nat, k: string)
    requires challenge != "" && w.now <= later
    ensures var w' := AuthenticateOptions(w, key, challenge);
      && w' == w.(challenges := w'.challenges)
      && (k != key ==> Get(w'.challenges, k, later) == Get(w.challenges, k, later))
      && (VerifyAuthentication(w'.(now := later), key, id, Some(true), token, ttl).result.Ok? <==>
            later <= w.now + 600 * 1000 && id in w.db.authenticators)
  {
  }

  /** What a refused passkey login gets, and that it costs the challenge as soon as there was one. */
  lemma PasskeyRefused(w: World, key: string, id: string, verified: Option<bool>, token: string, ttl: nat)
    ensures var r := VerifyAuthentication(w, key, id, verified, token, ttl);
      var known := Live(w.challenges, key, w.now) && w.challenges[key].value != "";
      && (!known ==> r == Reply(w, Err(CacheNotFound)))
      && (known && r.result.Err? ==>
            && r.world == w.(challenges := w.challenges - {key})
            && r.result == Err(if id in w.db.authenticators && verified.None? then Internal else Unauthorized))
  {
  }

  /** Through any number of refreshes a login has at most one session, alive or expired. */
  lemma OneSessionPerLogin(p: Prims, ttl: nat, acts: seq<Act>, t: string, u: string)
    ensures var s := Run(p, ttl, acts);
      t in s.world.sessions && u in s.world.sessions ==>
        && t in s.root && u in s.root
        && (s.root[t] == s.root[u] ==> t == u)
        && s.root[t] < |s.logins| && s.world.sessions[t].value == s.logins[s.root[t]]
  {
    Reachable(p, ttl, acts);
  }

  // ---------------------------------------------------------------- nothing is accepted twice

  /** The token was given out and its session has ended. */
  predicate Spent(s: State, token: string) {
    token in s.root && token !in s.world.sessions
  }

  lemma SpentStays(p: Prims, ttl: nat, s: State, a: Act, token: string)
    requires Spent(s, token)
    ensures Spent(Next(p, ttl, s, a), token)
  {
    hide UserByEmail, After;
  }

  lemma {:induction false} SpentForGood(p: Prims, ttl: nat, acts: seq<Act>, i: nat, token: string)
    requires i <= |acts| && Spent(Run(p, ttl, acts[..i]), token)
    ensures Spent(Run(p, ttl, acts), token)
    decreases |acts|
  {
    if i == |acts| {
      assert acts[..i] == acts;
    } else {
      hide Next, Spent;
      var front := acts[..|acts| - 1];
      assert front[..i] == acts[..i];
      SpentForGood(p, ttl, front, i, token);
      SpentStays(p, ttl, Run(p, ttl, front), acts[|acts| - 1], token);
    }
  }

  /** The `i`th act of the run ends the session of the token: a refresh that is answered, or a logout that finds it. */
  ghost predicate Ends(p: Prims, ttl: nat, acts: seq<Act>, i: nat, token: string)
    requires i < |acts|
  {
    var s := Run(p, ttl, acts[..i]);
    (acts[i].Renew? || acts[i].EndSession?) && acts[i].token == token
    && (Renews(p, ttl, s, acts[i]) || LogsOut(s, acts[i]))
  }

  lemma EndsSpends(p: Prims, ttl: nat, acts: seq<Act>, i: nat, token: string)
    requires i < |acts| && Ends(p, ttl, acts, i, token)
    ensures Spent(Run(p, ttl, acts[..i + 1]), token)
  {
    var s := Run(p, ttl, acts[..i]);
    assert acts[..i + 1][..|acts[..i + 1]| - 1] == acts[..i];
    Reachable(p, ttl, acts[..i]);
    HasRoot(s, token);
    hide Inv, Run;
  }

  /** In every run at most one request ever ends the session of a token, and after it no refresh with the token is
      answered. */
  lemma AcceptedOnce(p: Prims, ttl: nat, acts: seq<Act>, i: nat, j: nat, token: string)
    requires i < j < |acts| && Ends(p, ttl, acts, i, token)
    ensures !Ends(p, ttl, acts, j, token)
    ensures Get(Run(p, ttl, acts[..j]).world.sessions, token, Run(p, ttl, acts[..j]).world.now).None?
  {
    EndsSpends(p, ttl, acts, i, token);
    assert acts[..j][..i + 1] == acts[..i + 1];
    SpentForGood(p, ttl, acts[..j], i + 1, token);
    hide Run;
  }

  /** The key was given out and no challenge can be read under it any more. */
  predicate Answered(s: State, key: string) {
    key in s.keys && (Live(s.world.challenges, key, s.world.now) ==> s.world.challenges[key].value == "")
  }

  lemma AnsweredNow(p: Prims, ttl: nat, s: State, a: Act)
    requires a.PasskeyLogin? && Enabled(s, a) && a.key in s.keys
    ensures Answered(Next(p, ttl, s, a), a.key)
  {
  }

  lemma AnsweredStays(p: Prims, ttl: nat, s: State, a: Act, key: string)
    requires Answered(s, key)
    ensures Answered(Next(p, ttl, s, a), key)
  {
    hide UserByEmail, After;
  }

  /** Any answer to a passkey challenge uses it up, whether or not it logs in, and from then on every answer under
      the same key is refused. */
  lemma {:induction false} ChallengeOnce(p: Prims, ttl: nat, acts: seq<Act>, i: nat, key: string)
    requires i < |acts| && acts[i].PasskeyLogin? && acts[i].key == key && Enabled(Run(p, ttl, acts[..i]), acts[i])
    requires key in Run(p, ttl, acts[..i]).keys
    ensures Answered(Run(p, ttl, acts), key)
    ensures forall id, verified, token :: VerifyAuthentication(Run(p, ttl, acts).world, key, id, verified, token, ttl)
              == Reply(Run(p, ttl, acts).world, Err(CacheNotFound))
    decreases |acts|
  {
    var front, a := acts[..|acts| - 1], acts[|acts| - 1];
    var s := Run(p, ttl, front);
    if i == |acts| - 1 {
      AnsweredNow(p, ttl, s, a);
    } else {
      assert front[..i] == acts[..i];
      ChallengeOnce(p, ttl, front, i, key);
      AnsweredStays(p, ttl, s, a, key);
    }
    hide Next;
  }
}
