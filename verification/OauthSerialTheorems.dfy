/** Theorems about every serial run of the OAuth handlers, and about a single request served in one go. */
module OauthSerialTheorems {
  import opened Types
  import opened Database
  import opened Store
  import opened OauthProtocol
  import opened OauthMachine
  import opened OauthInvariants
  import opened OauthSafety
  import opened OauthInterleaved
  import opened OauthSerial

  // ---------------------------------------------------------------- every serial run keeps the invariants

  lemma QuietFacts(s: Sys)
    requires Quiet(s)
    ensures InHand(s.tasks).None? && Pending(s.tasks).None? && OnlyLast(s.tasks)
    ensures forall c :: Open(s, c) <==> c in s.world.codes
  {
  }

  lemma ArriveSerial(s: Sys, r: Request)
    requires SerialInv(s) && Quiet(s)
    ensures SerialInv(s.(tasks := s.tasks + [Running(r, First(r))]))
  {
    hide Delivered, Gives;
    var t := Running(r, First(r));
    var s' := s.(tasks := s.tasks + [t]);
    QuietFacts(s);
    assert Last(s') == t;
    assert InHand(s'.tasks).None? && Pending(s'.tasks).None?;
    DeliveredArrive(s.tasks, t);
    forall i, c | 0 <= i < |s'.tasks| && AnsweredCode(s'.tasks[i], c) ensures !Open(s', c) {
      assert AnsweredCode(s.tasks[i], c);
      assert !Open(s, c);
    }
  }

  lemma WriteRows(db: Db, st: Statement)
    requires Execute(db, st).Ok?
    ensures Extends(Execute(db, st).value.refreshTokens, db.refreshTokens)
  {
  }

  lemma WriteSerial(s: Sys, st: Statement)
    requires SerialInv(s) && Quiet(s) && Known(s)
    ensures SerialInv(RunStatement(s, st))
  {
    hide Delivered, Execute, TimesInv, Declare;
    var s' := RunStatement(s, st);
    QuietFacts(s);
    QuietFacts(s');
    if Execute(s.world.db, st).Ok? {
      WriteRows(s.world.db, st);
      WriteHistory(s.history, s'.world.db, st);
      TimesKeep(s, s');
      forall i, c | 0 <= i < |s'.tasks| && AnsweredCode(s'.tasks[i], c) ensures !Open(s', c) {
        assert !Open(s, c);
      }
    }
  }

  lemma WriteHistory(h: History, db: Db, st: Statement)
    ensures DeclareAfter(h, db, st).auths == h.auths && DeclareAfter(h, db, st).grants == h.grants
  {
  }

  lemma NextSerial(p: Prims, s: Sys, a: Action)
    requires Inv(p, s) && AllAccepted(s) && SerialInv(s)
    ensures SerialInv(Next(p, true, s, a))
  {
    hide HistoryInv, WorldInv, UsedInv, TaskOk, CodesInv, RowsInv, TimesInv, Known, RunTask, RunStatement;
    if Enabled(true, s, a) {
      match a
      case Arrive(r) => ArriveSerial(s, r);
      case Run(i, d) =>
        assert i == |s.tasks| - 1;
        StepSerial(p, s, d);
      case Tick(dt) => TickSerial(s, dt);
      case Write(st) =>
        KnownFacts(s);
        WriteSerial(s, st);
    }
  }

  lemma TickSerial(s: Sys, dt: nat)
    requires SerialInv(s) && Quiet(s)
    ensures SerialInv(s.(world := s.world.(now := s.world.now + dt)))
  {
    hide Delivered;
    var s' := s.(world := s.world.(now := s.world.now + dt));
    QuietFacts(s);
    QuietFacts(s');
    assert forall c :: Open(s', c) <==> Open(s, c);
  }

  lemma {:induction false} SerialReachable(p: Prims, acts: seq<Action>)
    ensures Inv(p, Exec(p, true, INITIAL, acts)) && AllAccepted(Exec(p, true, INITIAL, acts))
    ensures SerialInv(Exec(p, true, INITIAL, acts))
  {
    hide Inv, AllAccepted, Next;
    Reachable(p, true, acts);
    if acts == [] {
      InitialSerial();
    } else {
      hide SerialInv;
      var k := |acts| - 1;
      SerialReachable(p, acts[..k]);
      NextSerial(p, Exec(p, true, INITIAL, acts[..k]), acts[k]);
    }
  }

  lemma InitialSerial()
    ensures SerialInv(INITIAL)
  {
    assert forall x :: !Delivered([], x);
  }

  // ---------------------------------------------------------------- refresh tokens and time

  /** Of all refresh tokens that descend from one authorization, at most one is both delivered in an answer
      and still stored, after any number of rotations, failures, revocations and deletions. */
  lemma OneLiveRefreshToken(p: Prims, acts: seq<Action>, t: string, u: string)
    requires var s := Exec(p, true, INITIAL, acts);
      && Delivered(s.tasks, t) && t in s.world.db.refreshTokens
      && Delivered(s.tasks, u) && u in s.world.db.refreshTokens
      && SameRoot(s.history, t, u)
    ensures t == u
  {
    SerialReachable(p, acts);
  }

  /** A user's access token that can still be read was authorized no longer ago than ten minutes for the
      code, thirty days for each rotation on its path, and three hours for itself. */
  lemma AccessDeadline(p: Prims, acts: seq<Action>, token: string)
    requires var s := Exec(p, true, INITIAL, acts);
      Live(s.world.tokens, token, s.world.now) && s.world.tokens[token].value.to == ToUser
    ensures var s := Exec(p, true, INITIAL, acts);
      && token in s.history.grants && s.history.grants[token].root in s.history.auths
      && var g := s.history.grants[token];
         s.world.now <= s.history.auths[g.root].at + (600 + |g.path| * 2592000 + 10800) * 1000
  {
    SerialReachable(p, acts);
    var s := Exec(p, true, INITIAL, acts);
    assert TokenMatches(s.history, token, s.world.tokens[token].value);
    assert GrantOk(s.history, s.history.grants[token]);
  }

  /** What `userinfo` accepts, it accepts in time: the same bound, stated of the answer. */
  lemma UserinfoDeadline(p: Prims, acts: seq<Action>, token: string, sub: Option<string>, d: Draw)
    requires var s := Exec(p, true, INITIAL, acts);
      token in s.history.grants && Serve(p, s.world, Userinfo(token, sub), d).1.Done?
    ensures var s := Exec(p, true, INITIAL, acts);
      && s.history.grants[token].root in s.history.auths
      && var g := s.history.grants[token];
         s.world.now <= s.history.auths[g.root].at + (600 + |g.path| * 2592000 + 10800) * 1000
  {
    SerialReachable(p, acts);
    var s := Exec(p, true, INITIAL, acts);
    UserinfoNeedsToken(p, s.world, token, sub, d);
    assert TokenMatches(s.history, token, s.world.tokens[token].value);
    AccessDeadline(p, acts, token);
  }

  lemma UserinfoNeedsToken(p: Prims, w: World, token: string, sub: Option<string>, d: Draw)
    requires Serve(p, w, Userinfo(token, sub), d).1.Done?
    ensures Live(w.tokens, token, w.now)
  {
    var o := Step(p, w, Userinfo(token, sub), InfoGet, d);
    assert Serve(p, w, Userinfo(token, sub), d) == Finish(p, o.world, o.task, d);
  }

  // ---------------------------------------------------------------- authorization codes

  /** No authorization code is ever answered twice. */
  lemma CodeOnce(p: Prims, acts: seq<Action>, i: nat, j: nat, code: string)
    requires var s := Exec(p, true, INITIAL, acts);
      i < |s.tasks| && j < |s.tasks| && AnsweredCode(s.tasks[i], code) && AnsweredCode(s.tasks[j], code)
    ensures i == j
  {
    SerialReachable(p, acts);
  }

  /** A lookup that finds a code consumes it, whatever becomes of the request. */
  lemma LookupConsumes(p: Prims, w: World, client: Option<string>, code: string, verifier: Option<string>, d: Draw)
    requires Live(w.codes, code, w.now)
    ensures Serve(p, w, CodeGrant(client, code, verifier), d).0.codes == w.codes - {code}
  {
    hide IdTokenFor, VerifierError;
    var r := CodeGrant(client, code, verifier);
    var o1 := Step(p, w, r, CodeGet, d);
    var o2 := Step(p, o1.world, r, o1.task.pc, d);
    assert Serve(p, w, r, d) == Finish(p, o1.world, o1.task, d) == Finish(p, o2.world, o2.task, d);
    FinishKeepsCodes(p, o2.world, o2.task, d);
  }

  /** After the code is deleted the rest of a code grant leaves the codes alone. */
  lemma {:induction false} FinishKeepsCodes(p: Prims, w: World, t: Task, d: Draw)
    requires t.req.CodeGrant? && (t.Running? ==> !t.pc.CodeGet? && !t.pc.CodeDel?)
    ensures Finish(p, w, t, d).0.codes == w.codes
    decreases if t.Running? then Rank(t.pc) else 0
  {
    hide IdTokenFor, VerifierError;
    if t.Running? {
      var o := Step(p, w, t.req, t.pc, d);
      FinishKeepsCodes(p, o.world, o.task, d);
    }
  }

  /** A code that has been used up: it was drawn, it is not stored, and no running request holds it. */
  ghost predicate Spent(s: Sys, code: string) {
    code in s.used && !Open(s, code)
  }

  /** Once spent, a code stays spent, and no request that arrives later is answered with it. */
  lemma {:induction false} SpentStays(p: Prims, s: Sys, code: string, acts: seq<Action>)
    requires Inv(p, s) && AllAccepted(s) && SerialInv(s) && Spent(s, code)
    ensures var s' := Exec(p, true, s, acts);
      && Inv(p, s') && AllAccepted(s') && SerialInv(s') && Spent(s', code)
      && |s.tasks| <= |s'.tasks|
      && forall i :: |s.tasks| <= i < |s'.tasks| ==> !AnsweredCode(s'.tasks[i], code)
  {
    hide Inv, AllAccepted, SerialInv, Spent, Next, AnsweredCode;
    if acts != [] {
      var k := |acts| - 1;
      SpentStays(p, s, code, acts[..k]);
      var s1 := Exec(p, true, s, acts[..k]);
      NextKeeps(p, true, s1, acts[k]);
      NextSerial(p, s1, acts[k]);
      SpentNext(p, s1, acts[k], code);
    }
  }

  lemma SpentNext(p: Prims, s: Sys, a: Action, code: string)
    requires Inv(p, s) && SerialInv(s) && Spent(s, code)
    ensures var s' := Next(p, true, s, a);
      && Spent(s', code) && |s.tasks| <= |s'.tasks|
      && forall i :: 0 <= i < |s'.tasks| && AnsweredCode(s'.tasks[i], code) ==>
           i < |s.tasks| && AnsweredCode(s.tasks[i], code)
  {
    hide HistoryInv, WorldInv, UsedInv, TaskOk, CodesInv, RowsInv, TimesInv, ReadInv, Record, Execute;
    if Enabled(true, s, a) {
      match a
      case Run(i, d) =>
        assert i == |s.tasks| - 1;
        SpentStep(p, s.world, s.tasks[i].req, s.tasks[i].pc, d, code);
      case Arrive(r) =>
        var s' := Next(p, true, s, a);
        assert s'.tasks[|s'.tasks| - 1] == Running(r, First(r));
      case Write(st) =>
      case Tick(_) =>
    }
  }

  lemma SpentStep(p: Prims, w: World, r: Request, pc: Pc, d: Draw, code: string)
    requires code !in w.codes && code !in Drawn(pc, d)
    requires r.CodeGrant? && r.code == code ==> pc.CodeGet?
    ensures var o := Step(p, w, r, pc, d);
      && code !in o.world.codes
      && (r.CodeGrant? && r.code == code ==> o.task.Failed?)
  {
    hide CodeStep, RefreshStep, UserinfoStep, ConsentStep;
    match r
    case CodeGrant(_, _, _) => CodeSpent(p, w, r, pc, d, code);
    case RefreshGrant(_, _) => RefreshCodes(w, r, pc, d);
    case Userinfo(_, _) => UserinfoCodes(w, r, pc);
    case Consent(_, _, _) => ConsentCodes(w, r, pc);
    case _ =>
  }

  lemma CodeSpent(p: Prims, w: World, r: Request, pc: Pc, d: Draw, code: string)
    requires r.CodeGrant? && code !in w.codes && (r.code == code ==> pc.CodeGet?)
    ensures code !in CodeStep(p, w, r, pc, d).world.codes && (r.code == code ==> CodeStep(p, w, r, pc, d).task.Failed?)
  {
    hide IdTokenFor, VerifierError, CreateRefreshToken, CodeTokens;
  }

  lemma RefreshCodes(w: World, r: Request, pc: Pc, d: Draw)
    requires r.RefreshGrant?
    ensures RefreshStep(w, r, pc, d).world.codes == w.codes
  {
    hide IdTokenFor, CreateRefreshToken, DeleteRefreshToken, FindRefreshToken, RefreshTokens;
  }

  lemma UserinfoCodes(w: World, r: Request, pc: Pc)
    requires r.Userinfo?
    ensures UserinfoStep(w, r, pc).world.codes == w.codes
  {
    hide UserInfoFor, FindConsent;
  }

  lemma ConsentCodes(w: World, r: Request, pc: Pc)
    requires r.Consent?
    ensures ConsentStep(w, r, pc).world.codes == w.codes
  {
    hide UpsertConsent;
  }
}
