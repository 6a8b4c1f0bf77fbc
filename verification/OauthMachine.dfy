/** Runs of the OAuth handlers: the history that explains every token, and the two schedulers. */
module OauthMachine {
  import opened Types
  import opened Database
  import opened OauthProtocol

  // ---------------------------------------------------------------- history

  /** An authorization as it was granted; `at` is clock time, `moment` its place in the order of events. */
  datatype Auth = Auth(
    user: string, client: string, scopes: seq<Scope>, nonce: Option<string>,
    challenge: string, challengeMethod: string, at: nat, moment: nat)

  /** What a token was minted for. `root` is the authorization code its chain starts from and `path` the
      refresh tokens redeemed on the way to it, oldest first. */
  datatype Grant = Grant(user: string, client: string, scopes: seq<Scope>, root: string, path: seq<string>)

  datatype Declaration = Declaration(client: string, scope: Scope)
  datatype Agreement = Agreement(user: string, client: string, scope: Scope)

  /** When each thing first happened. Entries are never changed or dropped. */
  datatype History = History(
    moment: nat,
    declared: map<Declaration, nat>,
    idAllowed: map<string, nat>,
    consented: map<Agreement, nat>,
    auths: map<string, Auth>,
    grants: map<string, Grant>,
    clientGrants: map<string, seq<Scope>>)

  const NO_HISTORY := History(0, map[], map[], map[], map[], map[], map[])

  function FirstTimes<K>(m: map<K, nat>, ks: set<K>, moment: nat): map<K, nat> {
    m + map k | k in ks - m.Keys :: moment
  }

  function GrantFrom(h: History, user: string, client: string, scopes: seq<Scope>, origin: Origin): Grant {
    match origin
    case FromCode(code) => Grant(user, client, scopes, code, [])
    case FromRefresh(token) =>
      if token in h.grants then Grant(user, client, scopes, h.grants[token].root, h.grants[token].path + [token])
      else Grant(user, client, scopes, "", [token])
  }

  function Record(h: History, now: nat, e: Event): History {
    match e
    case Nothing => h
    case Consented(user, client, scopes) =>
      h.(moment := h.moment + 1,
         consented := FirstTimes(h.consented, set s | s in scopes :: Agreement(user, client, s), h.moment))
    case Authorized(code, user, client, scopes, nonce, challenge, m) =>
      h.(moment := h.moment + 1,
         auths := h.auths[code := Auth(user, client, scopes, nonce, challenge, m, now, h.moment)])
    case Minted(token, user, client, scopes, origin) =>
      h.(moment := h.moment + 1,
         grants := h.grants[token := GrantFrom(h, user, client, scopes, origin)])
    case MintedForClient(token, scopes) =>
      h.(moment := h.moment + 1,
         clientGrants := h.clientGrants[token := scopes])
  }

  /** A client row with these scopes and this permission is now in the table. */
  function Declare(h: History, uuid: string, c: Client): History {
    h.(moment := h.moment + 1,
       declared := FirstTimes(h.declared, set s | s in c.scopes + c.optionalScopes :: Declaration(uuid, s), h.moment),
       idAllowed := FirstTimes(h.idAllowed, if c.idTokenAllowed then {uuid} else {}, h.moment))
  }

  function DeclareAfter(h: History, db: Db, st: Statement): History {
    if st.ClientUpdated? && st.uuid in db.clients then Declare(h, st.uuid, db.clients[st.uuid]) else h
  }

  // ---------------------------------------------------------------- the machine

  /** `used` holds every random string drawn so far; `tasks` every request that ever arrived, in order. */
  datatype Sys = Sys(world: World, history: History, used: set<string>, tasks: seq<Task>)

  const INITIAL := Sys(World(0, EMPTY_DB, map[], map[]), NO_HISTORY, {}, [])

  datatype Action =
    | Arrive(req: Request)
    | Run(i: nat, draw: Draw)
    | Tick(dt: nat)
    | Write(statement: Statement)

  /** The random strings a step draws. */
  function Drawn(pc: Pc, d: Draw): set<string> {
    match pc
    case AuthStore => {d.access}
    case CodeSetToken(_) => {d.access}
    case RefSetToken(_) => {d.access}
    case CredStore(_) => {d.access}
    case CodeCreateRow(_, _) => {d.refresh}
    case RefCreateRow(_, _) => {d.refresh}
    case _ => {}
  }

  /** The uuids a statement draws. */
  function DrawnBy(st: Statement): set<string> {
    match st
    case UserCreated(uuid, _) => {uuid}
    case ClientCreated(uuid, _, _, _) => {uuid}
    case _ => {}
  }

  predicate Quiet(s: Sys) {
    forall i :: 0 <= i < |s.tasks| ==> !s.tasks[i].Running?
  }

  /** With `serial` a request must have been answered before anything else may happen. */
  predicate Enabled(serial: bool, s: Sys, a: Action) {
    match a
    case Arrive(r) => Accepted(r) && (serial ==> Quiet(s))
    case Run(i, d) => i < |s.tasks| && s.tasks[i].Running? && Drawn(s.tasks[i].pc, d) !! s.used
    case Tick(_) => serial ==> Quiet(s)
    case Write(st) =>
      && (st.ClientUpdated? ==> PatchAccepted(st.patch))
      && DrawnBy(st) !! s.used
      && (serial ==> Quiet(s))
  }

  /** The step of one request. */
  function RunTask(p: Prims, s: Sys, i: nat, d: Draw): Sys
    requires i < |s.tasks| && s.tasks[i].Running?
  {
    var t := s.tasks[i];
    var o := Step(p, s.world, t.req, t.pc, d);
    Sys(o.world, Record(s.history, s.world.now, o.event), s.used + Drawn(t.pc, d), s.tasks[i := o.task])
  }

  function RunStatement(s: Sys, st: Statement): Sys {
    match Execute(s.world.db, st)
    case Err(_) => s
    case Ok(db) => Sys(s.world.(db := db), DeclareAfter(s.history, db, st), s.used + DrawnBy(st), s.tasks)
  }

  function Next(p: Prims, serial: bool, s: Sys, a: Action): Sys {
    if !Enabled(serial, s, a) then s
    else
      match a
      case Arrive(r) => s.(tasks := s.tasks + [Running(r, First(r))])
      case Run(i, d) => RunTask(p, s, i, d)
      case Tick(dt) => s.(world := s.world.(now := s.world.now + dt))
      case Write(st) => RunStatement(s, st)
  }

  /** The state after a sequence of actions; an action that is not enabled changes nothing. */
  function Exec(p: Prims, serial: bool, s: Sys, acts: seq<Action>): Sys {
    if acts == [] then s
    else Next(p, serial, Exec(p, serial, s, acts[..|acts| - 1]), acts[|acts| - 1])
  }

  lemma {:induction false} ExecJoin(p: Prims, serial: bool, s: Sys, before: seq<Action>, after: seq<Action>)
    ensures Exec(p, serial, s, before + after) == Exec(p, serial, Exec(p, serial, s, before), after)
  {
    if after == [] {
      assert before + after == before;
    } else {
      var k := |after| - 1;
      ExecJoin(p, serial, s, before, after[..k]);
      assert (before + after)[..|before + after| - 1] == before + after[..k];
    }
  }

  /** Serial runs are interleaved runs: dropping the actions the serial scheduler refuses, which change
      nothing, leaves an interleaved run to the same state. */
  lemma {:induction false} SerialIsInterleaved(p: Prims, s: Sys, acts: seq<Action>) returns (same: seq<Action>)
    ensures Exec(p, false, s, same) == Exec(p, true, s, acts)
  {
    if acts == [] {
      same := [];
    } else {
      var k := |acts| - 1;
      var front := SerialIsInterleaved(p, s, acts[..k]);
      if Enabled(true, Exec(p, true, s, acts[..k]), acts[k]) {
        same := front + [acts[k]];
        assert same[..|same| - 1] == front;
      } else {
        same := front;
      }
    }
  }
}
