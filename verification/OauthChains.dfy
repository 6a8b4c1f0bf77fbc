/** Refresh tokens under every interleaving: the tokens delivered for one authorization form one chain for each
    answered code grant, and of each chain at most the last is still stored. */
module OauthChains {
  import opened Types
  import opened Database
  import opened OauthProtocol
  import opened OauthMachine
  import opened OauthInvariants
  import opened OauthSafety
  import opened OauthInterleaved
  import opened OauthSerial

  /** The tokens of an authorization that were delivered in an answer and are still stored. */
  ghost function LiveTokens(s: Sys, code: string): set<string> {
    set t | t in s.world.db.refreshTokens
            && Delivered(s.tasks, t) && t in s.history.grants && s.history.grants[t].root == code
  }

  /** The code grants answered with the code. */
  ghost function CodeGrants(s: Sys, code: string): set<int> {
    set i | 0 <= i < |s.tasks| && AnsweredCode(s.tasks[i], code)
  }

  /** Who presents a refresh token was given it, or guesses a string outside `known`. */
  ghost predicate Given(tasks: seq<Task>, r: Request, known: set<string>) {
    r.RefreshGrant? ==> Delivered(tasks, r.refreshToken) || r.refreshToken !in known
  }

  /** Every refresh request of the run presents a token that some answer had delivered before the request arrived, or
      a string that the service never draws. */
  ghost predicate OnlyGiven(p: Prims, serial: bool, acts: seq<Action>, known: set<string>) {
    forall k :: 0 <= k < |acts| && acts[k].Arrive? ==>
      Given(Exec(p, serial, INITIAL, acts[..k]).tasks, acts[k].req, known)
  }

  ghost predicate ChainInv(s: Sys, known: set<string>) {
    && (forall i :: 0 <= i < |s.tasks| && s.tasks[i].Running? ==> Given(s.tasks, s.tasks[i].req, known))
    && (forall c :: |LiveTokens(s, c)| <= |CodeGrants(s, c)|)
  }

  /** What an answer delivers was minted, in the chain of what the request presented. */
  lemma GivesMinted(p: Prims, h: History, t: Task)
    requires TaskOk(p, h, t) && HistoryInv(h) && Gives(t).Some?
    ensures Gives(t).value in h.grants && (t.req.CodeGrant? || t.req.RefreshGrant?)
    ensures t.req.CodeGrant? ==> AnsweredCode(t, t.req.code) && h.grants[Gives(t).value].root == t.req.code
    ensures t.req.RefreshGrant? ==>
              && Won(t) == Some(t.req.refreshToken) && t.req.refreshToken in h.grants
              && h.grants[Gives(t).value].root == h.grants[t.req.refreshToken].root
  {
    hide HistoryInv, CodeAnswerOk;
  }

  lemma DeliveredMinted(p: Prims, s: Sys, t: string)
    requires Inv(p, s) && Delivered(s.tasks, t)
    ensures t in s.history.grants && t in s.used
  {
    var i :| 0 <= i < |s.tasks| && Gives(s.tasks[i]) == Some(t);
    GivesMinted(p, s.history, s.tasks[i]);
  }

  lemma SmallerSet<T>(a: set<T>, b: set<T>)
    requires a <= b
    ensures |a| <= |b|
  {
    assert b == a + (b - a);
  }

  /** The facts about one step that the count rests on. */
  ghost predicate Stepped(s: Sys, s': Sys, i: nat) {
    && i < |s.tasks| && s.tasks[i].Running?
    && |s'.tasks| == |s.tasks| && s'.tasks == s.tasks[i := s'.tasks[i]]
    && s'.tasks[i].req == s.tasks[i].req
    && Extends(s.history.grants, s'.history.grants)
    && (forall t :: t in s'.world.db.refreshTokens && t in s.used ==> t in s.world.db.refreshTokens)
    && (Won(s'.tasks[i]).Some? ==>
          Won(s'.tasks[i]).value in s.world.db.refreshTokens && Won(s'.tasks[i]).value !in s'.world.db.refreshTokens)
  }

  lemma RunStepped(p: Prims, s: Sys, i: nat, d: Draw)
    requires Inv(p, s) && AllAccepted(s)
    requires i < |s.tasks| && s.tasks[i].Running? && Drawn(s.tasks[i].pc, d) !! s.used
    ensures Stepped(s, RunTask(p, s, i, d), i)
  {
    hide Inv, AllAccepted, Step, Record;
    WinnerDeletes(p, s.world, s.tasks[i].req, s.tasks[i].pc, d);
    RunKeeps(p, s, i, d);
  }

  lemma DeliveredAt(tasks: seq<Task>, i: nat, t: Task)
    requires i < |tasks| && tasks[i].Running?
    ensures forall x :: Delivered(tasks[i := t], x) <==> Delivered(tasks, x) || Gives(t) == Some(x)
  {
    var tasks' := tasks[i := t];
    forall x ensures Delivered(tasks', x) <==> Delivered(tasks, x) || Gives(t) == Some(x) {
      if Delivered(tasks, x) {
        var j :| 0 <= j < |tasks| && Gives(tasks[j]) == Some(x);
        assert Gives(tasks'[j]) == Some(x);
      }
      if Gives(t) == Some(x) {
        assert Gives(tasks'[i]) == Some(x);
      }
    }
  }

  /** A step makes no token both delivered and stored but the one it delivers. */
  lemma LiveAfter(p: Prims, s: Sys, s': Sys, i: nat, c: string)
    requires Inv(p, s) && Stepped(s, s', i)
    ensures forall t :: t in LiveTokens(s', c) ==> t in LiveTokens(s, c) || Gives(s'.tasks[i]) == Some(t)
  {
    hide Inv, Gives, Delivered, Won;
    DeliveredAt(s.tasks, i, s'.tasks[i]);
    forall t | t in LiveTokens(s', c) ensures t in LiveTokens(s, c) || Gives(s'.tasks[i]) == Some(t) {
      if Delivered(s.tasks, t) {
        DeliveredMinted(p, s, t);
      }
    }
  }

  lemma GrantsAfter(s: Sys, s': Sys, i: nat, c: string)
    requires Stepped(s, s', i)
    ensures CodeGrants(s', c) == CodeGrants(s, c) + (if AnsweredCode(s'.tasks[i], c) then {i as int} else {})
    ensures i as int !in CodeGrants(s, c)
  {
  }

  /** The count after a step: a code grant that delivers a token is one more code grant, and a refresh that delivers
      one has taken the token presented out of the same chain. */
  lemma CountAfter(p: Prims, s: Sys, s': Sys, i: nat, c: string, known: set<string>)
    requires Inv(p, s) && Inv(p, s') && Stepped(s, s', i) && ChainInv(s, known) && s.used <= known
    ensures |LiveTokens(s', c)| <= |CodeGrants(s', c)|
  {
    hide Inv, Gives, Delivered, Won, LiveTokens, CodeGrants, Given;
    LiveAfter(p, s, s', i, c);
    GrantsAfter(s, s', i, c);
    var before := LiveTokens(s, c);
    assert |before| <= |CodeGrants(s, c)|;
    SmallerSet(CodeGrants(s, c), CodeGrants(s', c));
    match Gives(s'.tasks[i])
    case None =>
      SmallerSet(LiveTokens(s', c), before);
    case Some(x) =>
      TaskAt(p, s', i);
      GivesMinted(p, s'.history, s'.tasks[i]);
      if s'.history.grants[x].root != c {
        OtherRoot(s', c, x);
        SmallerSet(LiveTokens(s', c), before);
      } else if s'.tasks[i].req.CodeGrant? {
        SmallerSet(LiveTokens(s', c), before + {x});
      } else {
        var t := s.tasks[i].req.refreshToken;
        PresentedLives(p, s, s', i, c, known);
        assert |before - {t}| == |before| - 1;
        SmallerSet(LiveTokens(s', c), before - {t} + {x});
      }
  }

  lemma TaskAt(p: Prims, s: Sys, i: nat)
    requires Inv(p, s) && i < |s.tasks|
    ensures TaskOk(p, s.history, s.tasks[i]) && HistoryInv(s.history)
  {
  }

  lemma OtherRoot(s: Sys, c: string, x: string)
    requires x in s.history.grants && s.history.grants[x].root != c
    ensures x !in LiveTokens(s, c)
  {
  }

  /** The token a refresh was answered for was live before and is gone afterwards. */
  lemma PresentedLives(p: Prims, s: Sys, s': Sys, i: nat, c: string, known: set<string>)
    requires Inv(p, s) && Stepped(s, s', i) && ChainInv(s, known) && s.used <= known
    requires s.tasks[i].req.RefreshGrant? && Won(s'.tasks[i]) == Some(s.tasks[i].req.refreshToken)
    requires s.tasks[i].req.refreshToken in s'.history.grants
    requires s'.history.grants[s.tasks[i].req.refreshToken].root == c
    ensures s.tasks[i].req.refreshToken in LiveTokens(s, c)
    ensures s.tasks[i].req.refreshToken !in LiveTokens(s', c)
  {
    hide Gives, Delivered, HistoryInv, TaskOk;
    var t := s.tasks[i].req.refreshToken;
    assert Given(s.tasks, s.tasks[i].req, known);
    RowUsed(p, s, t);
  }

  lemma RowUsed(p: Prims, s: Sys, t: string)
    requires Inv(p, s) && t in s.world.db.refreshTokens
    ensures t in s.used && t in s.history.grants
  {
    assert RowMatches(s.history, t, s.world.db.refreshTokens[t]);
  }

  lemma RunChains(p: Prims, s: Sys, i: nat, d: Draw, known: set<string>)
    requires Inv(p, s) && AllAccepted(s) && ChainInv(s, known) && s.used <= known
    requires i < |s.tasks| && s.tasks[i].Running? && Drawn(s.tasks[i].pc, d) !! s.used
    ensures ChainInv(RunTask(p, s, i, d), known)
  {
    hide Inv, AllAccepted, RunTask, Gives, Delivered, LiveTokens, CodeGrants;
    var s' := RunTask(p, s, i, d);
    RunStepped(p, s, i, d);
    RunInv(p, s, i, d);
    DeliveredAt(s.tasks, i, s'.tasks[i]);
    forall j | 0 <= j < |s'.tasks| && s'.tasks[j].Running? ensures Given(s'.tasks, s'.tasks[j].req, known) {
      assert Given(s.tasks, s.tasks[j].req, known);
    }
    forall c ensures |LiveTokens(s', c)| <= |CodeGrants(s', c)| {
      CountAfter(p, s, s', i, c, known);
    }
  }

  lemma RunInv(p: Prims, s: Sys, i: nat, d: Draw)
    requires Inv(p, s) && AllAccepted(s)
    requires i < |s.tasks| && s.tasks[i].Running? && Drawn(s.tasks[i].pc, d) !! s.used
    ensures Inv(p, RunTask(p, s, i, d))
  {
    hide Inv, AllAccepted, RunTask;
    RunKeeps(p, s, i, d);
  }

  /** What happens between requests delivers nothing and stores no refresh token. */
  lemma CalmChains(s: Sys, s': Sys, known: set<string>)
    requires ChainInv(s, known)
    requires |s.tasks| <= |s'.tasks| && s'.tasks[..|s.tasks|] == s.tasks
    requires forall i :: |s.tasks| <= i < |s'.tasks| ==> s'.tasks[i].Running? && Given(s.tasks, s'.tasks[i].req, known)
    requires s'.history.grants == s.history.grants
    requires s'.world.db.refreshTokens.Keys <= s.world.db.refreshTokens.Keys
    ensures ChainInv(s', known)
  {
    assert forall i :: 0 <= i < |s.tasks| ==> s'.tasks[i] == s.tasks[i];
    forall x ensures Delivered(s'.tasks, x) <==> Delivered(s.tasks, x) {
      CalmDelivered(s.tasks, s'.tasks, x);
    }
    hide Delivered;
    forall j | 0 <= j < |s'.tasks| && s'.tasks[j].Running? ensures Given(s'.tasks, s'.tasks[j].req, known) {
      assert Given(s.tasks, s'.tasks[j].req, known);
    }
    forall c ensures |LiveTokens(s', c)| <= |CodeGrants(s', c)| {
      SmallerSet(LiveTokens(s', c), LiveTokens(s, c));
      assert CodeGrants(s', c) == CodeGrants(s, c);
      assert |LiveTokens(s, c)| <= |CodeGrants(s, c)|;
    }
  }

  lemma CalmDelivered(tasks: seq<Task>, tasks': seq<Task>, x: string)
    requires |tasks| <= |tasks'| && (forall i :: 0 <= i < |tasks| ==> tasks'[i] == tasks[i])
    requires forall i :: |tasks| <= i < |tasks'| ==> tasks'[i].Running?
    ensures Delivered(tasks', x) <==> Delivered(tasks, x)
  {
    if Delivered(tasks, x) {
      var i :| 0 <= i < |tasks| && Gives(tasks[i]) == Some(x);
      assert Gives(tasks'[i]) == Some(x);
    }
  }

  lemma WriteCalm(s: Sys, st: Statement)
    ensures var s' := RunStatement(s, st);
      && s'.tasks == s.tasks && s'.history.grants == s.history.grants
      && s'.world.db.refreshTokens.Keys <= s.world.db.refreshTokens.Keys
  {
    StatementRows(s.world.db, st);
    hide Execute, FirstTimes;
  }

  lemma NextChains(p: Prims, serial: bool, s: Sys, a: Action, known: set<string>)
    requires Inv(p, s) && AllAccepted(s) && ChainInv(s, known) && s.used <= known
    requires a.Arrive? ==> Given(s.tasks, a.req, known)
    ensures ChainInv(Next(p, serial, s, a), known)
  {
    hide Inv, AllAccepted, ChainInv, Given;
    var s' := Next(p, serial, s, a);
    if Enabled(serial, s, a) {
      match a
      case Run(i, d) => RunChains(p, s, i, d, known);
      case Write(st) =>
        WriteCalm(s, st);
        hide RunStatement;
        CalmChains(s, s', known);
      case Arrive(r) => CalmChains(s, s', known);
      case Tick(_) => CalmChains(s, s', known);
    }
  }

  lemma {:induction false} ChainsReachable(p: Prims, serial: bool, acts: seq<Action>, known: set<string>)
    requires OnlyGiven(p, serial, acts, known) && Exec(p, serial, INITIAL, acts).used <= known
    ensures ChainInv(Exec(p, serial, INITIAL, acts), known)
  {
    if acts == [] {
      assert forall c :: LiveTokens(INITIAL, c) == {};
    } else {
      hide Inv, AllAccepted, ChainInv, Next, Given;
      var front := acts[..|acts| - 1];
      var s := Exec(p, serial, INITIAL, front);
      assert forall k :: 0 <= k < |front| ==> front[..k] == acts[..k];
      Reachable(p, serial, front);
      NextKeeps(p, serial, s, acts[|acts| - 1]);
      ChainsReachable(p, serial, front, known);
      NextChains(p, serial, s, acts[|acts| - 1], known);
    }
  }

  /** Under every interleaving in which refresh requests present only tokens that were delivered before, or strings
      the service never draws, an authorization has no more tokens that are both delivered and stored than code grants
      answered with its code. */
  lemma LiveTokensBounded(p: Prims, serial: bool, acts: seq<Action>, code: string)
    requires OnlyGiven(p, serial, acts, Exec(p, serial, INITIAL, acts).used)
    ensures var s := Exec(p, serial, INITIAL, acts);
      |LiveTokens(s, code)| <= |CodeGrants(s, code)|
  {
    hide Exec, LiveTokens, CodeGrants, OnlyGiven, Given;
    ChainsReachable(p, serial, acts, Exec(p, serial, INITIAL, acts).used);
  }
}
