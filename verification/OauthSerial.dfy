/** The serial layer: what holds when a request is answered before anything else happens. */
module OauthSerial {
  import opened Types
  import opened Database
  import opened Store
  import opened OauthProtocol
  import opened OauthMachine
  import opened OauthInvariants
  import opened OauthSafety

  /** Only the request that arrived last can still be running. */
  ghost predicate OnlyLast(tasks: seq<Task>) {
    forall i :: 0 <= i < |tasks| - 1 ==> !tasks[i].Running?
  }

  /** The refresh token an answer delivers. */
  function Gives(t: Task): Option<string> {
    match t
    case Done(_, Tokens(_, _, refresh, _, _, _)) => refresh
    case _ => None
  }

  ghost predicate Delivered(tasks: seq<Task>, token: string) {
    exists i :: 0 <= i < |tasks| && Gives(tasks[i]) == Some(token)
  }

  /** The code whose cache entry the running request holds in a local variable. */
  function InHand(tasks: seq<Task>): Option<string> {
    if tasks == [] then None
    else
      match tasks[|tasks| - 1]
      case Running(CodeGrant(_, code, _), pc) => if pc.CodeGet? then None else Some(code)
      case _ => None
  }

  /** The new refresh token the running request is about to deliver. */
  function Pending(tasks: seq<Task>): Option<string> {
    if tasks == [] then None
    else
      match tasks[|tasks| - 1]
      case Running(RefreshGrant(_, _), RefDelete(_, _, refresh, _)) => refresh
      case _ => None
  }

  /** The code can still lead to an answer. */
  ghost predicate Open(s: Sys, code: string) {
    code in s.world.codes || InHand(s.tasks) == Some(code)
  }

  predicate AnsweredCode(t: Task, code: string) {
    t.Done? && t.req.CodeGrant? && t.req.code == code
  }

  /** A code that can still lead to an answer has led to none, nor has any refresh token delivered from it;
      and no code has led to two. */
  ghost predicate CodesInv(s: Sys) {
    && (forall i, c :: 0 <= i < |s.tasks| && AnsweredCode(s.tasks[i], c) ==> !Open(s, c))
    && (forall i, j, c :: 0 <= i < j < |s.tasks| && AnsweredCode(s.tasks[i], c) ==> !AnsweredCode(s.tasks[j], c))
    && (forall t :: Delivered(s.tasks, t) ==> t in s.history.grants && !Open(s, s.history.grants[t].root))
  }

  predicate SameRoot(h: History, t: string, u: string) {
    t in h.grants && u in h.grants && h.grants[t].root == h.grants[u].root
  }

  /** A row that was never delivered contains `openid`, which no refresh gets past, or is just about to be
      delivered; and no two delivered rows have the same root. */
  ghost predicate RowsInv(s: Sys) {
    var rows, h := s.world.db.refreshTokens, s.history;
    && (forall t :: t in rows ==>
          Delivered(s.tasks, t) || Openid in rows[t].scopes || Pending(s.tasks) == Some(t))
    && (forall t, u ::
          t in rows && u in rows && Delivered(s.tasks, t) && Delivered(s.tasks, u) && SameRoot(h, t, u) ==> t == u)
  }

  // ---------------------------------------------------------------- time

  /** Milliseconds by which an access token reached after `k` rotations of an authorization is dead. */
  function AccessBound(at: nat, k: nat): nat {
    at + (600 + k * 2592000 + 10800) * 1000
  }

  function RowBound(at: nat, k: nat): nat {
    at + (600 + (k + 1) * 2592000) * 1000
  }

  function CodeBound(at: nat): nat {
    at + 600 * 1000
  }

  ghost predicate TimesInv(s: Sys) {
    var h := s.history;
    && (forall c :: c in s.world.codes && c in h.auths ==> s.world.codes[c].expiresAt <= CodeBound(h.auths[c].at))
    && (forall t :: t in s.world.tokens && t in h.grants && h.grants[t].root in h.auths ==>
          s.world.tokens[t].expiresAt <= AccessBound(h.auths[h.grants[t].root].at, |h.grants[t].path|))
    && (forall t :: t in s.world.db.refreshTokens && t in h.grants && h.grants[t].root in h.auths ==>
          s.world.db.refreshTokens[t].expiresAt <= RowBound(h.auths[h.grants[t].root].at, |h.grants[t].path|))
  }

  /** What the running request read still holds, because nothing else has happened since. */
  ghost predicate FreshRead(s: Sys, r: Request, pc: Pc) {
    var w, h := s.world, s.history;
    match r
    case CodeGrant(_, code, _) =>
      && (pc.CodeDel? ==> Live(w.codes, code, w.now) && w.codes[code].value == pc.cache)
      && (pc.CodeSetToken? || pc.CodeCreateRow? || pc.CodeReadUser? ==> code !in w.codes)
      && (!pc.CodeGet? && code in h.auths ==> w.now <= CodeBound(h.auths[code].at))
    case RefreshGrant(_, token) =>
      && !pc.RefDropExpired?
      && (pc.RefCheck? || pc.RefSetToken? || pc.RefCreateRow? || pc.RefDelete? ==>
            token in w.db.refreshTokens && w.db.refreshTokens[token] == pc.row && w.now <= pc.row.expiresAt)
    case _ => true
  }

  ghost predicate ReadInv(s: Sys) {
    s.tasks != [] && s.tasks[|s.tasks| - 1].Running? ==>
      FreshRead(s, s.tasks[|s.tasks| - 1].req, s.tasks[|s.tasks| - 1].pc)
  }

  ghost predicate SerialInv(s: Sys) {
    OnlyLast(s.tasks) && CodesInv(s) && RowsInv(s) && TimesInv(s) && ReadInv(s)
  }

  // ---------------------------------------------------------------- changing the last request

  lemma DeliveredLast(tasks: seq<Task>, t: Task)
    requires tasks != [] && tasks[|tasks| - 1].Running?
    ensures forall x :: Delivered(tasks[|tasks| - 1 := t], x) <==> Delivered(tasks, x) || Gives(t) == Some(x)
  {
    var n := |tasks| - 1;
    var tasks' := tasks[n := t];
    forall x ensures Delivered(tasks', x) <==> Delivered(tasks, x) || Gives(t) == Some(x) {
      if Delivered(tasks, x) {
        var i :| 0 <= i < |tasks| && Gives(tasks[i]) == Some(x);
        assert Gives(tasks'[i]) == Some(x);
      }
      if Gives(t) == Some(x) {
        assert Gives(tasks'[n]) == Some(x);
      }
    }
  }

  lemma DeliveredArrive(tasks: seq<Task>, t: Task)
    requires t.Running?
    ensures forall x :: Delivered(tasks + [t], x) <==> Delivered(tasks, x)
  {
    forall x ensures Delivered(tasks + [t], x) <==> Delivered(tasks, x) {
      if Delivered(tasks, x) {
        var i :| 0 <= i < |tasks| && Gives(tasks[i]) == Some(x);
        assert Gives((tasks + [t])[i]) == Some(x);
      }
    }
  }

  /** The request that arrived last is running and may take its next step. */
  ghost predicate Current(p: Prims, s: Sys, d: Draw) {
    && Inv(p, s) && AllAccepted(s) && SerialInv(s)
    && s.tasks != [] && s.tasks[|s.tasks| - 1].Running?
    && Drawn(s.tasks[|s.tasks| - 1].pc, d) !! s.used
  }

  function Last(s: Sys): Task
    requires s.tasks != []
  {
    s.tasks[|s.tasks| - 1]
  }

  function After(p: Prims, s: Sys, d: Draw): Sys
    requires s.tasks != [] && Last(s).Running?
  {
    RunTask(p, s, |s.tasks| - 1, d)
  }

  lemma LastOk(p: Prims, s: Sys, d: Draw)
    requires Current(p, s, d)
    ensures RunningOk(p, s.history, Last(s).req, Last(s).pc)
    ensures FreshRead(s, Last(s).req, Last(s).pc)
    ensures HistoryInv(s.history) && WorldInv(s.world, s.history) && UsedInv(s.world, s.history, s.used)
  {
    assert TaskOk(p, s.history, Last(s));
  }

  /** A step that answers no code and opens none. */
  lemma CodesKeep(s: Sys, s': Sys, t: Task)
    requires CodesInv(s) && s.tasks != [] && Last(s).Running?
    requires s'.tasks == s.tasks[|s.tasks| - 1 := t]
    requires !(t.Done? && t.req.CodeGrant?) && Gives(t).None?
    requires forall c :: Open(s', c) ==> Open(s, c)
    requires Extends(s.history.grants, s'.history.grants)
    ensures CodesInv(s')
  {
    hide Open, InHand, Gives, Delivered;
    DeliveredLast(s.tasks, t);
    forall i, c | 0 <= i < |s'.tasks| && AnsweredCode(s'.tasks[i], c) ensures !Open(s', c) {
      assert AnsweredCode(s.tasks[i], c);
    }
  }

  /** A step that delivers nothing and adds no row. */
  lemma RowsKeep(s: Sys, s': Sys, t: Task)
    requires RowsInv(s) && s.tasks != [] && Last(s).Running? && Known(s)
    requires s'.tasks == s.tasks[|s.tasks| - 1 := t] && Gives(t).None?
    requires Extends(s.history.grants, s'.history.grants)
    requires Extends(s'.world.db.refreshTokens, s.world.db.refreshTokens)
    requires Pending(s.tasks).Some? ==> Pending(s'.tasks) == Pending(s.tasks)
    ensures RowsInv(s')
  {
    hide Pending, Gives, Delivered;
    DeliveredLast(s.tasks, t);
  }

  /** Whatever is stored has its history, and whatever is minted its authorization. */
  ghost predicate Known(s: Sys) {
    && (forall x :: x in s.world.db.refreshTokens ==> x in s.history.grants)
    && (forall c :: c in s.world.codes ==> c in s.history.auths)
    && (forall t :: t in s.history.grants ==> s.history.grants[t].root in s.history.auths)
  }

  lemma KnownFacts(s: Sys)
    requires WorldInv(s.world, s.history) && HistoryInv(s.history)
    ensures Known(s)
  {
    forall x | x in s.world.db.refreshTokens ensures x in s.history.grants {
      assert RowMatches(s.history, x, s.world.db.refreshTokens[x]);
    }
    forall c | c in s.world.codes ensures c in s.history.auths {
      assert CodeMatches(s.history, c, s.world.codes[c].value);
    }
    forall t | t in s.history.grants ensures s.history.grants[t].root in s.history.auths {
      assert GrantOk(s.history, s.history.grants[t]);
    }
  }

  /** A step that stores no token of a user and prolongs nothing. */
  lemma TimesKeep(s: Sys, s': Sys)
    requires TimesInv(s) && Known(s)
    requires Extends(s.history.auths, s'.history.auths) && Extends(s.history.grants, s'.history.grants)
    requires Extends(s'.world.codes, s.world.codes)
    requires Extends(s'.world.db.refreshTokens, s.world.db.refreshTokens)
    requires forall t :: t in s'.world.tokens && t in s'.history.grants ==>
               t in s.world.tokens && t in s.history.grants && s'.world.tokens[t] == s.world.tokens[t]
    ensures TimesInv(s')
  {
    hide AccessBound, RowBound, CodeBound;
  }

  /** Consents, client tokens, revocations, userinfo and the reads of an authorization leave codes open or
      not, rows delivered or not, and lifetimes, as they were. */
  lemma OtherSerial(p: Prims, s: Sys, d: Draw)
    requires Current(p, s, d)
    requires !Last(s).req.CodeGrant? && !Last(s).req.RefreshGrant? && !(Last(s).req.Authorize? && Last(s).pc.AuthStore?)
    ensures SerialInv(After(p, s, d))
  {
    hide Inv, AllAccepted, TimesInv, HistoryInv, WorldInv, UsedInv, RunningOk, CodesInv, RowsInv, Known, Step, Record;
    LastOk(p, s, d);
    KnownFacts(s);
    var s' := After(p, s, d);
    OtherHarmless(p, s.world, s.history, s.used, Last(s).req, Last(s).pc, d);
    CodesKeep(s, s', Last(s'));
    RowsKeep(s, s', Last(s'));
    TimesKeep(s, s');
  }

  /** What a step of the other handlers does to the things the serial invariants speak of. */
  ghost predicate Harmless(w: World, h: History, used: set<string>, r: Request, o: Outcome) {
    var h' := Record(h, w.now, o.event);
    && Gives(o.task).None?
    && o.task.req == r
    && o.world.codes == w.codes
    && Extends(o.world.db.refreshTokens, w.db.refreshTokens)
    && h'.grants == h.grants && h'.auths == h.auths
    && (forall t :: t in o.world.tokens && t in h'.grants ==> t in w.tokens && o.world.tokens[t] == w.tokens[t])
  }

  lemma ConsentHarmless(w: World, h: History, used: set<string>, r: Request, pc: Pc)
    requires r.Consent?
    ensures Harmless(w, h, used, r, ConsentStep(w, r, pc))
  {
    hide FirstTimes;
  }

  lemma AuthorizeHarmless(w: World, h: History, used: set<string>, r: Request, pc: Pc, d: Draw)
    requires r.Authorize? && !pc.AuthStore?
    ensures Harmless(w, h, used, r, AuthorizeStep(w, r, pc, d))
  {
  }

  lemma CredentialsHarmless(p: Prims, w: World, h: History, used: set<string>, r: Request, pc: Pc, d: Draw)
    requires r.ClientCredentials? && UsedInv(w, h, used) && Drawn(pc, d) !! used
    ensures Harmless(w, h, used, r, CredentialsStep(p, w, r, pc, d))
  {
    if pc.CredStore? {
      FreshToken(w, h, used, d.access);
    }
    hide UsedInv;
  }

  lemma RevokeHarmless(w: World, h: History, used: set<string>, r: Request, pc: Pc)
    requires r.Revoke?
    ensures Harmless(w, h, used, r, RevokeStep(w, r, pc))
  {
  }

  lemma UserinfoHarmless(w: World, h: History, used: set<string>, r: Request, pc: Pc)
    requires r.Userinfo?
    ensures Harmless(w, h, used, r, UserinfoStep(w, r, pc))
  {
    hide UserInfoFor;
  }

  lemma OtherHarmless(p: Prims, w: World, h: History, used: set<string>, r: Request, pc: Pc, d: Draw)
    requires !r.CodeGrant? && !r.RefreshGrant? && !(r.Authorize? && pc.AuthStore?)
    requires UsedInv(w, h, used) && Drawn(pc, d) !! used
    ensures Harmless(w, h, used, r, Step(p, w, r, pc, d))
  {
    hide Harmless, ConsentStep, CredentialsStep, RevokeStep, UserinfoStep, AuthorizeStep, UsedInv;
    match r
    case Consent(_, _, _) => ConsentHarmless(w, h, used, r, pc);
    case Authorize(_, _, _, _, _, _, _) => AuthorizeHarmless(w, h, used, r, pc, d);
    case ClientCredentials(_, _, _) => CredentialsHarmless(p, w, h, used, r, pc, d);
    case Revoke(_, _) => RevokeHarmless(w, h, used, r, pc);
    case Userinfo(_, _) => UserinfoHarmless(w, h, used, r, pc);
  }

  // ---------------------------------------------------------------- authorize

  /** A fresh code opens; nothing was answered or delivered from it before. */
  lemma AuthorizeSerial(p: Prims, s: Sys, d: Draw)
    requires Current(p, s, d)
    requires Last(s).req.Authorize? && Last(s).pc.AuthStore?
    ensures SerialInv(After(p, s, d))
  {
    hide Inv, AllAccepted, TimesInv, HistoryInv, WorldInv, UsedInv, RunningOk, CodesInv, RowsInv, Known;
    LastOk(p, s, d);
    KnownFacts(s);
    var s' := After(p, s, d);
    FreshFact(s.world, s.history, s.used, d.access);
    RowsKeep(s, s', Last(s'));
    AnsweredKnown(p, s);
    AuthorizeCodes(s, s', Last(s'), d.access);
    AuthorizeTimes(s, s', d.access);
  }

  /** Every answered code was authorized. */
  lemma AnsweredKnown(p: Prims, s: Sys)
    requires Inv(p, s)
    ensures forall i, c :: 0 <= i < |s.tasks| && AnsweredCode(s.tasks[i], c) ==> c in s.history.auths
  {
    forall i, c | 0 <= i < |s.tasks| && AnsweredCode(s.tasks[i], c) ensures c in s.history.auths {
      assert TaskOk(p, s.history, s.tasks[i]);
    }
  }

  lemma AuthorizeCodes(s: Sys, s': Sys, t: Task, code: string)
    requires CodesInv(s) && Known(s) && s.tasks != [] && Last(s).Running?
    requires s'.tasks == s.tasks[|s.tasks| - 1 := t]
    requires !(t.Done? && t.req.CodeGrant?) && Gives(t).None?
    requires forall c :: Open(s', c) ==> Open(s, c) || c == code
    requires code !in s.history.auths
    requires forall i, c :: 0 <= i < |s.tasks| && AnsweredCode(s.tasks[i], c) ==> c in s.history.auths
    requires s'.history.grants == s.history.grants
    ensures CodesInv(s')
  {
    hide Open, InHand, Gives, Delivered;
    DeliveredLast(s.tasks, t);
    forall i, c | 0 <= i < |s'.tasks| && AnsweredCode(s'.tasks[i], c) ensures !Open(s', c) {
      assert AnsweredCode(s.tasks[i], c);
    }
  }

  lemma AuthorizeTimes(s: Sys, s': Sys, code: string)
    requires TimesInv(s) && Known(s) && code !in s.history.auths
    requires code in s'.history.auths && s'.history.auths[code].at == s.world.now
    requires Extends(s.history.auths, s'.history.auths) && s'.history.grants == s.history.grants
    requires code in s'.world.codes && s'.world.codes[code].expiresAt == s.world.now + CODE_TTL * 1000
    requires forall c :: c in s'.world.codes && c != code ==>
               c in s.world.codes && s'.world.codes[c] == s.world.codes[c]
    requires s'.world.db == s.world.db && s'.world.tokens == s.world.tokens
    ensures TimesInv(s')
  {
    hide AccessBound, RowBound;
  }

  // ---------------------------------------------------------------- code grant

  lemma CodeLifetime(s: Sys, code: string)
    requires TimesInv(s) && Live(s.world.codes, code, s.world.now) && code in s.history.auths
    ensures s.world.now <= CodeBound(s.history.auths[code].at)
  {
  }

  lemma CodeGetSerial(p: Prims, s: Sys, d: Draw)
    requires Current(p, s, d)
    requires Last(s).req.CodeGrant?
    requires !Last(s).pc.CodeDel? && !Last(s).pc.CodeSetToken?
    requires !Last(s).pc.CodeCreateRow? && !Last(s).pc.CodeReadUser?
    ensures SerialInv(After(p, s, d))
  {
    hide Inv, AllAccepted, HistoryInv, WorldInv, UsedInv, RunningOk, CodesInv, RowsInv, VerifierError, TimesInv, Known,
      CodeBound;
    LastOk(p, s, d);
    KnownFacts(s);
    var s' := After(p, s, d);
    if Last(s').Running? && Last(s).req.code in s.history.auths {
      CodeLifetime(s, Last(s).req.code);
    }
    CodesKeep(s, s', Last(s'));
    RowsKeep(s, s', Last(s'));
    TimesKeep(s, s');
  }

  /** Deleting the code of a code grant, and the checks that follow. */
  lemma CodeDeletes(p: Prims, w: World, r: Request, pc: Pc, d: Draw)
    requires r.CodeGrant? && pc.CodeDel? && Live(w.codes, r.code, w.now)
    ensures var o := CodeStep(p, w, r, pc, d);
      && o.world == w.(codes := w.codes - {r.code}) && o.event == Nothing
      && o.task.req == r && !o.task.Done?
      && (o.task.Running? ==> o.task.pc == CodeSetToken(pc.cache))
  {
  }

  lemma CodeDelSerial(p: Prims, s: Sys, d: Draw)
    requires Current(p, s, d)
    requires Last(s).req.CodeGrant? && Last(s).pc.CodeDel?
    ensures SerialInv(After(p, s, d))
  {
    hide Inv, AllAccepted, HistoryInv, WorldInv, UsedInv, RunningOk, CodesInv, RowsInv, TimesInv, CodeStep;
    LastOk(p, s, d);
    CodeDeletes(p, s.world, Last(s).req, Last(s).pc, d);
    KnownFacts(s);
    var s' := After(p, s, d);
    assert Open(s, Last(s).req.code);
    CodesKeep(s, s', Last(s'));
    RowsKeep(s, s', Last(s'));
    TimesKeep(s, s');
  }

  /** The row a handler may add: fresh, minted for the root, and either delivered by the same step, or with
      `openid` in its scope, or pending. */
  ghost predicate AddsRow(s: Sys, s': Sys, t: Task, x: string, root: string) {
    && x !in s.world.db.refreshTokens && !Delivered(s.tasks, x)
    && x in s'.world.db.refreshTokens
    && (forall y :: y in s'.world.db.refreshTokens && y != x ==>
          y in s.world.db.refreshTokens && s'.world.db.refreshTokens[y] == s.world.db.refreshTokens[y])
    && x in s'.history.grants && s'.history.grants[x].root == root
    && (Gives(t) == Some(x) || Openid in s'.world.db.refreshTokens[x].scopes || Pending(s'.tasks) == Some(x))
  }

  lemma RowsAdd(s: Sys, s': Sys, t: Task, x: string, root: string)
    requires RowsInv(s) && Known(s) && s.tasks != [] && Last(s).Running? && Pending(s.tasks).None?
    requires s'.tasks == s.tasks[|s.tasks| - 1 := t]
    requires Extends(s.history.grants, s'.history.grants)
    requires AddsRow(s, s', t, x, root)
    requires Gives(t).Some? ==> Gives(t) == Some(x)
    requires Gives(t).Some? ==>
               forall y :: Delivered(s.tasks, y) ==> y in s.history.grants && s.history.grants[y].root != root
    ensures RowsInv(s')
  {
    hide Pending, Gives, Delivered;
    DeliveredLast(s.tasks, t);
  }

  /** An answered code grant: the code is closed for good, and the token it delivers is the only one
      delivered from it. */
  lemma CodesAnswer(s: Sys, s': Sys, t: Task, code: string)
    requires CodesInv(s) && s.tasks != [] && Last(s).Running?
    requires InHand(s.tasks) == Some(code) && code !in s.world.codes
    requires s'.tasks == s.tasks[|s.tasks| - 1 := t]
    requires AnsweredCode(t, code)
    requires s'.world.codes == s.world.codes
    requires Extends(s.history.grants, s'.history.grants)
    requires Gives(t).Some? ==> Gives(t).value in s'.history.grants && s'.history.grants[Gives(t).value].root == code
    ensures CodesInv(s')
    ensures forall y :: Delivered(s.tasks, y) ==> y in s.history.grants && s.history.grants[y].root != code
  {
    hide Gives, Delivered;
    assert Open(s, code);
    assert InHand(s'.tasks).None?;
    assert !Open(s', code);
    DeliveredLast(s.tasks, t);
    forall i, c | 0 <= i < |s'.tasks| && AnsweredCode(s'.tasks[i], c) ensures !Open(s', c) {
      if i < |s.tasks| - 1 {
        assert AnsweredCode(s.tasks[i], c);
        assert !Open(s, c);
      } else {
        assert c == code;
      }
    }
    forall i, j, c | 0 <= i < j < |s'.tasks| && AnsweredCode(s'.tasks[i], c) ensures !AnsweredCode(s'.tasks[j], c) {
      assert AnsweredCode(s.tasks[i], c);
    }
  }

  /** Delivering a token whose row was written by an earlier step of the same request. */
  lemma RowsDeliver(s: Sys, s': Sys, t: Task, root: string)
    requires RowsInv(s) && Known(s) && s.tasks != [] && Last(s).Running? && Pending(s.tasks).None?
    requires s'.tasks == s.tasks[|s.tasks| - 1 := t]
    requires s'.history == s.history && s'.world.db.refreshTokens == s.world.db.refreshTokens
    requires Gives(t).Some? ==> Gives(t).value in s.history.grants && s.history.grants[Gives(t).value].root == root
    requires forall y :: Delivered(s.tasks, y) ==> y in s.history.grants && s.history.grants[y].root != root
    ensures RowsInv(s')
  {
    hide Pending, Gives, Delivered;
    DeliveredLast(s.tasks, t);
  }

  /** A user's access token, minted with the given origin. */
  lemma TokenTimes(s: Sys, s': Sys, x: string)
    requires TimesInv(s) && Known(s)
    requires x !in s.history.grants && x in s'.history.grants && x in s'.world.tokens
    requires s'.history.auths == s.history.auths && s'.history.grants == s.history.grants[x := s'.history.grants[x]]
    requires s'.history.grants[x].root in s'.history.auths
    requires s'.world.tokens[x].expiresAt
             <= AccessBound(s'.history.auths[s'.history.grants[x].root].at, |s'.history.grants[x].path|)
    requires s'.world.tokens == s.world.tokens[x := s'.world.tokens[x]]
    requires s'.world.codes == s.world.codes && s'.world.db == s.world.db
    ensures TimesInv(s')
  {
    hide AccessBound, RowBound, CodeBound;
  }

  /** A refresh token, minted with the given origin. */
  lemma RowTimes(s: Sys, s': Sys, x: string)
    requires TimesInv(s) && Known(s)
    requires x !in s.history.grants && x in s'.history.grants && x in s'.world.db.refreshTokens
    requires s'.history.auths == s.history.auths && s'.history.grants == s.history.grants[x := s'.history.grants[x]]
    requires s'.history.grants[x].root in s'.history.auths
    requires s'.world.db.refreshTokens[x].expiresAt
             <= RowBound(s'.history.auths[s'.history.grants[x].root].at, |s'.history.grants[x].path|)
    requires s'.world.db.refreshTokens == s.world.db.refreshTokens[x := s'.world.db.refreshTokens[x]]
    requires s'.world.codes == s.world.codes && s'.world.tokens == s.world.tokens && x !in s.world.tokens
    ensures TimesInv(s')
  {
    hide AccessBound, RowBound, CodeBound;
  }

  lemma FreshToken(w: World, h: History, used: set<string>, x: string)
    requires UsedInv(w, h, used) && x !in used
    ensures x !in w.tokens && x !in w.db.refreshTokens && x !in h.grants
  {
  }

  lemma DeliveredKnown(s: Sys, x: string)
    requires CodesInv(s) && x !in s.history.grants
    ensures !Delivered(s.tasks, x)
  {
  }

  /** Storing the access token of a code grant. */
  lemma CodeSetsToken(p: Prims, w: World, r: Request, pc: Pc, d: Draw)
    requires r.CodeGrant? && pc.CodeSetToken?
    ensures var o := CodeStep(p, w, r, pc, d);
      var c := pc.cache;
      && o.world == w.(tokens := o.world.tokens)
      && o.world.tokens == w.tokens[d.access := Timed(TokenCache(ToUser, Some(c.userUuid), c.clientId, c.scope),
                                                      w.now + ACCESS_TTL * 1000)]
      && o.event == Minted(d.access, c.userUuid, c.clientId, c.scope, FromCode(r.code))
      && o.task.req == r && !o.task.Failed? && Gives(o.task).None?
      && (o.task.Running? ==>
            && (o.task.pc.CodeCreateRow? || o.task.pc.CodeReadUser?) && o.task.pc.cache == c
            && (o.task.pc.CodeReadUser? ==> o.task.pc.refresh.None?))
  {
  }

  lemma CodeSetTokenSerial(p: Prims, s: Sys, d: Draw)
    requires Current(p, s, d)
    requires Last(s).req.CodeGrant? && Last(s).pc.CodeSetToken?
    ensures SerialInv(After(p, s, d))
  {
    hide Inv, AllAccepted, HistoryInv, WorldInv, UsedInv, CodesInv, RowsInv, TimesInv, VerifierError, Known, CodeStep;
    LastOk(p, s, d);
    CodeSetsToken(p, s.world, Last(s).req, Last(s).pc, d);
    KnownFacts(s);
    var s' := After(p, s, d);
    var code := Last(s).req.code;
    FreshToken(s.world, s.history, s.used, d.access);
    TokenTimes(s, s', d.access);
    RowsKeep(s, s', Last(s'));
    if Last(s').Done? {
      CodesAnswer(s, s', Last(s'), code);
    } else {
      CodesKeep(s, s', Last(s'));
    }
  }

  /** Writing the row of a code grant, which may already answer it. */
  lemma CodeCreatesRow(p: Prims, w: World, r: Request, pc: Pc, d: Draw)
    requires r.CodeGrant? && pc.CodeCreateRow? && d.refresh !in w.db.refreshTokens
    ensures var o := CodeStep(p, w, r, pc, d);
      var c := pc.cache;
      && o.task.req == r
      && (if o.task.Failed? then o.world == w && o.event == Nothing
          else
            && o.world == w.(db := w.db.(refreshTokens := w.db.refreshTokens[
                 d.refresh := RefreshToken(c.userUuid, c.clientId, c.scope, None,
                                           w.now + MAX_REFRESH_TOKEN_AGE * 1000)]))
            && o.event == Minted(d.refresh, c.userUuid, c.clientId, c.scope, FromCode(r.code))
            && (if Openid in c.scope then o.task.Running? && o.task.pc == CodeReadUser(c, pc.access, Some(d.refresh))
                else o.task.Done? && Gives(o.task) == Some(d.refresh)))
  {
  }

  lemma CodeCreateRowSerial(p: Prims, s: Sys, d: Draw)
    requires Current(p, s, d)
    requires Last(s).req.CodeGrant? && Last(s).pc.CodeCreateRow?
    ensures SerialInv(After(p, s, d))
  {
    hide Inv, AllAccepted, HistoryInv, WorldInv, UsedInv, CodesInv, RowsInv, TimesInv, VerifierError, Known, CodeStep;
    LastOk(p, s, d);
    KnownFacts(s);
    var s' := After(p, s, d);
    var code := Last(s).req.code;
    FreshToken(s.world, s.history, s.used, d.refresh);
    CodeCreatesRow(p, s.world, Last(s).req, Last(s).pc, d);
    DeliveredKnown(s, d.refresh);
    if Last(s').Failed? {
      CodesKeep(s, s', Last(s'));
      RowsKeep(s, s', Last(s'));
      TimesKeep(s, s');
    } else {
      RowTimes(s, s', d.refresh);
      if Last(s').Done? {
        CodesAnswer(s, s', Last(s'), code);
      } else {
        CodesKeep(s, s', Last(s'));
      }
      RowsAdd(s, s', Last(s'), d.refresh, code);
    }
  }

  /** Reading the user, the last read of a code grant. */
  lemma CodeReadsUser(p: Prims, w: World, r: Request, pc: Pc, d: Draw)
    requires r.CodeGrant? && pc.CodeReadUser?
    ensures var o := CodeStep(p, w, r, pc, d);
      && o.world == w && o.event == Nothing && o.task.req == r && !o.task.Running?
      && (o.task.Done? ==> Gives(o.task) == pc.refresh)
  {
    hide IdTokenFor;
  }

  lemma CodeReadUserSerial(p: Prims, s: Sys, d: Draw)
    requires Current(p, s, d)
    requires Last(s).req.CodeGrant? && Last(s).pc.CodeReadUser?
    ensures SerialInv(After(p, s, d))
  {
    hide Inv, AllAccepted, HistoryInv, WorldInv, UsedInv, CodesInv, RowsInv, TimesInv, VerifierError, Known, CodeStep;
    LastOk(p, s, d);
    CodeReadsUser(p, s.world, Last(s).req, Last(s).pc, d);
    KnownFacts(s);
    var s' := After(p, s, d);
    var code := Last(s).req.code;
    TimesKeep(s, s');
    if Last(s').Done? {
      CodesAnswer(s, s', Last(s'), code);
      RowsDeliver(s, s', Last(s'), code);
    } else {
      CodesKeep(s, s', Last(s'));
      RowsKeep(s, s', Last(s'));
    }
  }

  // ---------------------------------------------------------------- refresh grant

  /** The reads and checks of a refresh grant, which change nothing. */
  lemma RefreshReads(w: World, r: Request, pc: Pc, d: Draw)
    requires r.RefreshGrant?
    requires !pc.RefSetToken? && !pc.RefCreateRow? && !pc.RefDelete? && !pc.RefDropExpired? && !pc.RefReadUser?
    ensures var o := RefreshStep(w, r, pc, d);
      && o.world == w && o.event == Nothing && o.task.req == r && !o.task.Done?
      && (o.task.Running? ==>
            || (pc.RefFind? && r.refreshToken in w.db.refreshTokens
                && o.task.pc == RefCheck(w.db.refreshTokens[r.refreshToken])
                && w.now <= w.db.refreshTokens[r.refreshToken].expiresAt)
            || (pc.RefCheck?
                && o.task.pc == (if pc.row.expiresAt < w.now then RefDropExpired else RefSetToken(pc.row))))
  {
  }

  lemma RefreshReadSerial(p: Prims, s: Sys, d: Draw)
    requires Current(p, s, d)
    requires Last(s).req.RefreshGrant?
    requires !Last(s).pc.RefSetToken? && !Last(s).pc.RefCreateRow? && !Last(s).pc.RefDelete?
    ensures SerialInv(After(p, s, d))
  {
    hide Inv, AllAccepted, HistoryInv, WorldInv, UsedInv, CodesInv, RowsInv, TimesInv, Known, RefreshStep;
    LastOk(p, s, d);
    RefreshReads(s.world, Last(s).req, Last(s).pc, d);
    KnownFacts(s);
    var s' := After(p, s, d);
    CodesKeep(s, s', Last(s'));
    RowsKeep(s, s', Last(s'));
    TimesKeep(s, s');
  }

  /** The lifetime of the row being redeemed, from the authorization at its root. */
  lemma RowLifetime(p: Prims, s: Sys, token: string)
    requires TimesInv(s) && Known(s) && token in s.world.db.refreshTokens
    ensures token in s.history.grants && s.history.grants[token].root in s.history.auths
    ensures s.world.db.refreshTokens[token].expiresAt
            <= RowBound(s.history.auths[s.history.grants[token].root].at, |s.history.grants[token].path|)
  {
  }

  lemma NextBounds(at: nat, k: nat, now: nat)
    requires now <= RowBound(at, k)
    ensures now + ACCESS_TTL * 1000 <= AccessBound(at, k + 1)
    ensures now + MAX_REFRESH_TOKEN_AGE * 1000 <= RowBound(at, k + 1)
  {
  }

  /** What the running refresh grant relies on. */
  lemma RefreshFacts(p: Prims, s: Sys, d: Draw)
    requires Current(p, s, d)
    requires Last(s).req.RefreshGrant? && (Last(s).pc.RefSetToken? || Last(s).pc.RefCreateRow?)
    ensures var token, row := Last(s).req.refreshToken, Last(s).pc.row;
      && token in s.world.db.refreshTokens && s.world.db.refreshTokens[token] == row
      && token in s.history.grants && s.history.grants[token].root in s.history.auths
      && row.nonce.None? && s.world.now <= row.expiresAt
      && s.world.now <= RowBound(s.history.auths[s.history.grants[token].root].at, |s.history.grants[token].path|)
    ensures Known(s) && UsedInv(s.world, s.history, s.used)
    ensures InHand(s.tasks).None? && Pending(s.tasks).None?
  {
    hide Inv, AllAccepted, HistoryInv, WorldInv, UsedInv, CodesInv, RowsInv, TimesInv, Known;
    LastOk(p, s, d);
    KnownFacts(s);
    RowLifetime(p, s, Last(s).req.refreshToken);
  }

  lemma RefreshSetTokenSerial(p: Prims, s: Sys, d: Draw)
    requires Current(p, s, d)
    requires Last(s).req.RefreshGrant? && Last(s).pc.RefSetToken?
    ensures SerialInv(After(p, s, d))
  {
    hide Inv, AllAccepted, UsedInv, CodesInv, RowsInv, TimesInv, Known, IdTokenFor, AccessBound, RowBound;
    RefreshFacts(p, s, d);
    var s' := After(p, s, d);
    var parent := s.history.grants[Last(s).req.refreshToken];
    NextBounds(s.history.auths[parent.root].at, |parent.path|, s.world.now);
    FreshToken(s.world, s.history, s.used, d.access);
    TokenTimes(s, s', d.access);
    CodesKeep(s, s', Last(s'));
    RowsKeep(s, s', Last(s'));
  }

  /** Writing the next row of a refresh grant: no step delivers it yet. */
  lemma RefreshCreatesRow(w: World, r: Request, pc: Pc, d: Draw)
    requires r.RefreshGrant? && pc.RefCreateRow? && d.refresh !in w.db.refreshTokens && pc.row.nonce.None?
    ensures var o := RefreshStep(w, r, pc, d);
      var row := pc.row;
      && o.task.req == r && !o.task.Done?
      && (if o.world == w then o.task.Failed? && o.event == Nothing
          else
            && o.world == w.(db := w.db.(refreshTokens := w.db.refreshTokens[
                 d.refresh := RefreshToken(row.userUuid, row.clientUuid, row.scopes, None,
                                           w.now + MAX_REFRESH_TOKEN_AGE * 1000)]))
            && o.event == Minted(d.refresh, row.userUuid, row.clientUuid, row.scopes, FromRefresh(r.refreshToken))
            && (if Openid in row.scopes then o.task.Failed?
                else o.task.Running? && o.task.pc == RefDelete(row, pc.access, Some(d.refresh), None)))
  {
  }

  lemma RefreshCreateRowSerial(p: Prims, s: Sys, d: Draw)
    requires Current(p, s, d)
    requires Last(s).req.RefreshGrant? && Last(s).pc.RefCreateRow?
    ensures SerialInv(After(p, s, d))
  {
    hide Inv, AllAccepted, UsedInv, CodesInv, RowsInv, TimesInv, Known, IdTokenFor, AccessBound, RowBound, RefreshStep;
    RefreshFacts(p, s, d);
    FreshToken(s.world, s.history, s.used, d.refresh);
    RefreshCreatesRow(s.world, Last(s).req, Last(s).pc, d);
    var s' := After(p, s, d);
    var parent := s.history.grants[Last(s).req.refreshToken];
    NextBounds(s.history.auths[parent.root].at, |parent.path|, s.world.now);
    DeliveredKnown(s, d.refresh);
    CodesKeep(s, s', Last(s'));
    if d.refresh in s'.world.db.refreshTokens {
      RowTimes(s, s', d.refresh);
      RowsAdd(s, s', Last(s'), d.refresh, parent.root);
    } else {
      RowsKeep(s, s', Last(s'));
      TimesKeep(s, s');
    }
  }

  /** The old row goes and the new token is delivered in one step: of the tokens of that root, the new one is
      the only one delivered and still there. */
  lemma RefreshSwaps(s: Sys, s': Sys, t: Task, spent: string, next: Option<string>)
    requires RowsInv(s) && CodesInv(s) && Known(s) && s.tasks != [] && Last(s).Running?
    requires Pending(s.tasks) == next && Gives(t) == next
    requires s'.tasks == s.tasks[|s.tasks| - 1 := t] && s'.history == s.history
    requires spent in s.world.db.refreshTokens && Openid !in s.world.db.refreshTokens[spent].scopes
    requires s'.world.db.refreshTokens == s.world.db.refreshTokens - {spent}
    requires next.Some? ==> next != Some(spent) && SameRoot(s.history, next.value, spent)
    requires s'.world.codes == s.world.codes && InHand(s.tasks).None? && InHand(s'.tasks).None?
    requires t.Done? && t.req.RefreshGrant?
    ensures RowsInv(s') && CodesInv(s')
  {
    hide Pending, Gives, Delivered, InHand;
    assert Delivered(s.tasks, spent);
    assert forall c :: Open(s', c) <==> Open(s, c);
    DeliveredLast(s.tasks, t);
    forall i, c | 0 <= i < |s'.tasks| && AnsweredCode(s'.tasks[i], c) ensures !Open(s', c) {
      assert AnsweredCode(s.tasks[i], c);
    }
  }

  /** Deleting the old row, which is what the answer of a refresh grant waits for. */
  lemma RefreshDeletesRow(w: World, r: Request, pc: Pc, d: Draw)
    requires r.RefreshGrant? && pc.RefDelete? && r.refreshToken in w.db.refreshTokens
    ensures var o := RefreshStep(w, r, pc, d);
      && o.world == w.(db := w.db.(refreshTokens := w.db.refreshTokens - {r.refreshToken}))
      && o.event == Nothing && o.task.Done? && o.task.req == r && Gives(o.task) == pc.refresh
  {
  }

  /** What is known of a refresh grant before its last step. */
  lemma DeleteFacts(p: Prims, s: Sys, d: Draw)
    requires Current(p, s, d)
    requires Last(s).req.RefreshGrant? && Last(s).pc.RefDelete?
    ensures var spent, next := Last(s).req.refreshToken, Last(s).pc.refresh;
      && spent in s.world.db.refreshTokens && Openid !in s.world.db.refreshTokens[spent].scopes
      && (next.Some? ==> next != Some(spent) && SameRoot(s.history, next.value, spent))
      && Pending(s.tasks) == next && InHand(s.tasks).None?
    ensures Known(s)
  {
    hide AllAccepted, HistoryInv, WorldInv, UsedInv, CodesInv, RowsInv, TimesInv, Known;
    LastOk(p, s, d);
    KnownFacts(s);
  }

  lemma RefreshDeleteSerial(p: Prims, s: Sys, d: Draw)
    requires Current(p, s, d)
    requires Last(s).req.RefreshGrant? && Last(s).pc.RefDelete?
    ensures SerialInv(After(p, s, d))
  {
    hide Inv, AllAccepted, CodesInv, RowsInv, TimesInv, Known, RefreshStep, SameRoot;
    DeleteFacts(p, s, d);
    RefreshDeletesRow(s.world, Last(s).req, Last(s).pc, d);
    var s' := After(p, s, d);
    TimesKeep(s, s');
    RefreshSwaps(s, s', Last(s'), Last(s).req.refreshToken, Last(s).pc.refresh);
  }

  // ---------------------------------------------------------------- every action

  lemma StepSerial(p: Prims, s: Sys, d: Draw)
    requires s.tasks != [] && Last(s).Running? && Current(p, s, d)
    ensures SerialInv(After(p, s, d))
  {
    hide Current, SerialInv, Step;
    var r, pc := Last(s).req, Last(s).pc;
    if r.CodeGrant? {
      if pc.CodeDel? { CodeDelSerial(p, s, d); }
      else if pc.CodeSetToken? { CodeSetTokenSerial(p, s, d); }
      else if pc.CodeCreateRow? { CodeCreateRowSerial(p, s, d); }
      else if pc.CodeReadUser? { CodeReadUserSerial(p, s, d); }
      else { CodeGetSerial(p, s, d); }
    } else if r.RefreshGrant? {
      if pc.RefSetToken? { RefreshSetTokenSerial(p, s, d); }
      else if pc.RefCreateRow? { RefreshCreateRowSerial(p, s, d); }
      else if pc.RefDelete? { RefreshDeleteSerial(p, s, d); }
      else { RefreshReadSerial(p, s, d); }
    } else if r.Authorize? && pc.AuthStore? {
      AuthorizeSerial(p, s, d);
    } else {
      OtherSerial(p, s, d);
    }
  }
}
