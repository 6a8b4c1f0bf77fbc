/** Who may do what to a client, and what becomes of its ownership over whole runs of the service. */
module ClientMembership {
  import opened Types
  import opened Database

  // ---------------------------------------------------------------- the role guard

  function Rank(role: Role): nat {
    match role
    case OWNER => 3
    case ADMIN => 2
    case MEMBER => 1
  }

  /** The guard's verdict on a request; `None` is a route without a required role, or a missing parameter. */
  function CanActivate(db: Db, required: Option<Role>, user: Option<string>, client: Option<string>): Result<()> {
    if required.None? then Ok(())
    else if Falsy(user) || Falsy(client) then Err(Forbidden)
    else if Membership(user.value, client.value) !in db.members then Err(Forbidden)
    else if Rank(db.members[Membership(user.value, client.value)]) < Rank(required.value) then Err(Forbidden)
    else Ok(())
  }

  /** The guard lets exactly these through: only the owner where OWNER is required, the owner and the admins
      where ADMIN is, every member where MEMBER is. */
  lemma GuardIff(db: Db, required: Role, user: string, client: string)
    ensures CanActivate(db, Some(required), Some(user), Some(client)).Ok? <==>
              && user != "" && client != ""
              && Membership(user, client) in db.members
              && var role := db.members[Membership(user, client)];
              match required
              case OWNER => role == OWNER
              case ADMIN => role != MEMBER
              case MEMBER => true
  {
  }

  // ---------------------------------------------------------------- the guarded operations

  predicate Allowed(db: Db, required: Role, caller: string, client: string) {
    CanActivate(db, Some(required), Some(caller), Some(client)).Ok?
  }

  ghost function AddMemberByEmail(db: Db, client: string, email: string): Result<Db> {
    match UserByEmail(db, email)
    case None => Err(NotFound)
    case Some(u) => AddMember(db, client, u)
  }

  function RemoveMemberUnlessOwner(db: Db, client: string, user: string): Result<Db> {
    if Membership(user, client) !in db.members then Err(NotFound)
    else if db.members[Membership(user, client)] == OWNER then Err(Forbidden)
    else RemoveMember(db, client, user)
  }

  function ChangeRole(db: Db, caller: string, client: string, user: string, role: Role): Result<Db> {
    if caller == user then Err(Forbidden)
    else if role == OWNER then TransferOwnership(db, client, caller, user)
    else SetRole(db, client, user, role)
  }

  /** Deleting an account asks for its password. */
  function DeleteAccount(p: Prims, db: Db, user: string, password: string): Result<Db> {
    if user !in db.users then Err(Forbidden)
    else if !p.bcrypt(password, db.users[user].password) then Err(Forbidden)
    else DeleteUser(db, user)
  }

  /** A request to the service, served in one go. The last two stand for everything that writes no
      membership: registrations and profile changes, passkeys, consents and refresh tokens. */
  datatype Act =
    | RegisterClient(uuid: string, secret: string, urls: seq<string>, user: string)
    | AddMemberAct(caller: string, client: string, email: string)
    | RemoveMemberAct(caller: string, client: string, user: string)
    | SetRoleAct(caller: string, client: string, user: string, role: Role)
    | UpdateClientAct(caller: string, client: string, patch: ClientPatch)
    | DeleteAccountAct(user: string, password: string)
    | OtherStatement(st: Statement)
    | OtherTables(consents: map<ConsentKey, seq<Scope>>, refreshTokens: map<string, RefreshToken>)

  predicate WritesNoMembership(st: Statement) {
    st.UserCreated? || st.UserUpdated? || st.AuthenticatorSaved? || st.AuthenticatorDeleted? || st.SecretUpdated?
  }

  ghost function Outcome(p: Prims, db: Db, a: Act): Result<Db> {
    match a
    case RegisterClient(uuid, secret, urls, user) => CreateClient(db, uuid, secret, urls, user)
    case AddMemberAct(caller, client, email) =>
      if Allowed(db, ADMIN, caller, client) then AddMemberByEmail(db, client, email) else Err(Forbidden)
    case RemoveMemberAct(caller, client, user) =>
      if Allowed(db, ADMIN, caller, client) then RemoveMemberUnlessOwner(db, client, user) else Err(Forbidden)
    case SetRoleAct(caller, client, user, role) =>
      if Allowed(db, OWNER, caller, client) then ChangeRole(db, caller, client, user, role) else Err(Forbidden)
    case UpdateClientAct(caller, client, patch) =>
      if Allowed(db, ADMIN, caller, client) then UpdateClient(db, client, Filtered(patch), caller) else Err(Forbidden)
    case DeleteAccountAct(user, password) => DeleteAccount(p, db, user, password)
    case OtherStatement(st) => if WritesNoMembership(st) then Execute(db, st) else Err(Forbidden)
    case OtherTables(consents, rows) => Ok(db.(consents := consents, refreshTokens := rows))
  }

  ghost function Perform(p: Prims, db: Db, a: Act): Db {
    match Outcome(p, db, a) case Ok(db') => db' case Err(_) => db
  }

  ghost function Run(p: Prims, db: Db, acts: seq<Act>): Db
    decreases acts
  {
    if acts == [] then db else Run(p, Perform(p, db, acts[0]), acts[1..])
  }

  // ---------------------------------------------------------------- ownership

  predicate IsOwner(db: Db, user: string, client: string) {
    Membership(user, client) in db.members && db.members[Membership(user, client)] == OWNER
  }

  ghost predicate AtMostOneOwner(db: Db) {
    forall u, v, c :: IsOwner(db, u, c) && IsOwner(db, v, c) ==> u == v
  }

  ghost predicate Owned(db: Db, client: string) {
    exists u :: IsOwner(db, u, client)
  }

  /** Every membership is of an existing client. */
  ghost predicate MembersHaveClients(db: Db) {
    forall m :: m in db.members ==> m.clientUuid in db.clients
  }

  lemma PerformKeepsClients(p: Prims, db: Db, a: Act)
    requires MembersHaveClients(db)
    ensures MembersHaveClients(Perform(p, db, a))
    ensures db.clients.Keys <= Perform(p, db, a).clients.Keys
  {
    hide EmailTaken, UserByEmail;
    if a.OtherStatement? && WritesNoMembership(a.st) {
      hide Execute;
      OtherKeepsMembers(db, a.st);
    }
  }

  /** An owner after an act was the owner before, or made the client, or was handed it by the owner. */
  lemma OwnerBefore(p: Prims, db: Db, a: Act, u: string, c: string)
    requires IsOwner(Perform(p, db, a), u, c)
    ensures || IsOwner(db, u, c)
            || (a.RegisterClient? && Outcome(p, db, a).Ok? && c == a.uuid && u == a.user && c !in db.clients)
            || (a.SetRoleAct? && Outcome(p, db, a).Ok? && c == a.client && u == a.user && a.role == OWNER
                && IsOwner(db, a.caller, c) && !IsOwner(Perform(p, db, a), a.caller, c))
  {
    hide EmailTaken, UserByEmail;
    if a.OtherStatement? && WritesNoMembership(a.st) {
      hide Execute;
      OtherKeepsMembers(db, a.st);
    }
  }

  lemma PerformKeepsOneOwner(p: Prims, db: Db, a: Act)
    requires AtMostOneOwner(db) && MembersHaveClients(db)
    ensures AtMostOneOwner(Perform(p, db, a)) && MembersHaveClients(Perform(p, db, a))
    ensures db.clients.Keys <= Perform(p, db, a).clients.Keys
  {
    hide Perform, Outcome;
    PerformKeepsClients(p, db, a);
    var db' := Perform(p, db, a);
    forall u, v, c | IsOwner(db', u, c) && IsOwner(db', v, c) ensures u == v {
      OwnerBefore(p, db, a, u, c);
      OwnerBefore(p, db, a, v, c);
    }
  }

  lemma OtherKeepsMembers(db: Db, st: Statement)
    requires WritesNoMembership(st)
    ensures Execute(db, st).Ok? ==>
              Execute(db, st).value.members == db.members && Execute(db, st).value.clients.Keys == db.clients.Keys
  {
  }

  /** The act deletes the account that owns the client right now. */
  ghost predicate DeletesOwner(p: Prims, db: Db, a: Act, client: string) {
    a.DeleteAccountAct? && IsOwner(db, a.user, client) && DeleteAccount(p, db, a.user, a.password).Ok?
  }

  lemma DeletedOwnerGone(p: Prims, db: Db, a: Act, client: string)
    requires DeletesOwner(p, db, a, client)
    ensures !IsOwner(Perform(p, db, a), a.user, client)
  {
  }

  /** Who owns the client after the act if the owner before was `u`. */
  function Heir(db: Db, a: Act, client: string, u: string): string {
    if a.SetRoleAct? && a.client == client && a.role == OWNER
       && Allowed(db, OWNER, a.caller, client) && ChangeRole(db, a.caller, client, a.user, OWNER).Ok? then a.user
    else u
  }

  lemma TransferHeir(p: Prims, db: Db, a: Act, client: string, u: string)
    requires a.SetRoleAct? && AtMostOneOwner(db) && IsOwner(db, u, client)
    ensures IsOwner(Perform(p, db, a), Heir(db, a, client, u), client)
  {
    assert Allowed(db, OWNER, a.caller, a.client) ==> IsOwner(db, a.caller, a.client);
  }

  lemma HeirOwns(p: Prims, db: Db, a: Act, client: string, u: string)
    requires AtMostOneOwner(db) && client in db.clients && IsOwner(db, u, client) && !DeletesOwner(p, db, a, client)
    ensures IsOwner(Perform(p, db, a), Heir(db, a, client, u), client)
  {
    hide UserByEmail, AtMostOneOwner;
    if a.SetRoleAct? {
      hide Perform, Heir;
      TransferHeir(p, db, a, client, u);
    } else if a.OtherStatement? && WritesNoMembership(a.st) {
      hide Execute;
      OtherKeepsMembers(db, a.st);
    }
  }

  /** One act, one client: an existing client is owned afterwards exactly if it was owned before and the act
      did not delete the owner's account. */
  lemma OwnedIff(p: Prims, db: Db, a: Act, client: string)
    requires AtMostOneOwner(db) && client in db.clients
    ensures Owned(Perform(p, db, a), client) <==> Owned(db, client) && !DeletesOwner(p, db, a, client)
  {
    hide Perform, Outcome, IsOwner, DeleteAccount;
    if Owned(db, client) && !DeletesOwner(p, db, a, client) {
      var u :| IsOwner(db, u, client);
      HeirOwns(p, db, a, client, u);
    }
    if Owned(Perform(p, db, a), client) {
      var v :| IsOwner(Perform(p, db, a), v, client);
      OwnerBefore(p, db, a, v, client);
      if DeletesOwner(p, db, a, client) {
        DeletedOwnerGone(p, db, a, client);
      }
    }
  }

  lemma {:induction false} RunKeepsOneOwner(p: Prims, db: Db, acts: seq<Act>)
    requires AtMostOneOwner(db) && MembersHaveClients(db)
    ensures AtMostOneOwner(Run(p, db, acts)) && MembersHaveClients(Run(p, db, acts))
    decreases acts
  {
    hide AtMostOneOwner, MembersHaveClients, Perform;
    if acts != [] {
      PerformKeepsOneOwner(p, db, acts[0]);
      RunKeepsOneOwner(p, Perform(p, db, acts[0]), acts[1..]);
    }
  }

  /** At some point of the run the account of the then owner is deleted. */
  ghost predicate LosesOwner(p: Prims, db: Db, acts: seq<Act>, client: string)
    decreases acts
  {
    acts != [] && (DeletesOwner(p, db, acts[0], client) || LosesOwner(p, Perform(p, db, acts[0]), acts[1..], client))
  }

  /** Over every run an existing client ends up owned if and only if it began owned and no act deleted the
      account of the owner it had at that time, through any number of transfers. */
  lemma {:induction false} OwnedAfterIff(p: Prims, db: Db, acts: seq<Act>, client: string)
    requires AtMostOneOwner(db) && MembersHaveClients(db) && client in db.clients
    ensures Owned(Run(p, db, acts), client) <==> Owned(db, client) && !LosesOwner(p, db, acts, client)
    decreases acts
  {
    hide AtMostOneOwner, MembersHaveClients, Perform, Owned, DeletesOwner;
    if acts != [] {
      PerformKeepsOneOwner(p, db, acts[0]);
      OwnedIff(p, db, acts[0], client);
      OwnedAfterIff(p, Perform(p, db, acts[0]), acts[1..], client);
    }
  }

  /** A client without an owner stays without one in every continuation. */
  lemma OwnerlessForever(p: Prims, db: Db, acts: seq<Act>, client: string)
    requires AtMostOneOwner(db) && MembersHaveClients(db) && client in db.clients
    requires !Owned(db, client)
    ensures !Owned(Run(p, db, acts), client)
  {
    OwnedAfterIff(p, db, acts, client);
  }

  /** The users who own a client. */
  ghost function Owners(db: Db, client: string): set<string> {
    set m | m in db.members && m.clientUuid == client && db.members[m] == OWNER :: m.userUuid
  }

  lemma OwnersAre(db: Db, client: string)
    ensures forall u :: u in Owners(db, client) <==> IsOwner(db, u, client)
  {
    forall u ensures u in Owners(db, client) <==> IsOwner(db, u, client) {
      assert IsOwner(db, u, client) ==> Membership(u, client) in db.members;
    }
  }

  lemma OwnersCount(db: Db, client: string)
    requires AtMostOneOwner(db)
    ensures |Owners(db, client)| == if Owned(db, client) then 1 else 0
  {
    OwnersAre(db, client);
    if Owned(db, client) {
      var u :| IsOwner(db, u, client);
      assert Owners(db, client) == {u};
    } else {
      assert Owners(db, client) == {};
    }
  }

  // ---------------------------------------------------------------- the migration

  /** The users linked to a client in the old relation. */
  function LinkedTo(pairs: set<Membership>, client: string): set<string> {
    set m | m in pairs && m.clientUuid == client :: m.userUuid
  }

  /** Everyone becomes a member; then the members of clients that have exactly one become owners. */
  function Migrated(pairs: set<Membership>): map<Membership, Role> {
    map m | m in pairs :: if |LinkedTo(pairs, m.clientUuid)| == 1 then OWNER else MEMBER
  }

  lemma Singleton(s: set<string>, x: string, y: string)
    requires |s| == 1 && x in s && y in s
    ensures x == y
  {
    assert |s - {x}| == 0;
    assert y !in s - {x};
  }

  /** The migrated table has at most one owner for a client, and one exactly for the clients that had a
      single linked user: that user. The links are the memberships, and everyone else is a plain member. */
  lemma MigrationOwners(db: Db, pairs: set<Membership>)
    requires db.members == Migrated(pairs)
    ensures AtMostOneOwner(db)
    ensures forall u, c :: IsOwner(db, u, c) <==> LinkedTo(pairs, c) == {u}
    ensures db.members.Keys == pairs && forall m :: m in pairs ==> db.members[m] == OWNER || db.members[m] == MEMBER
  {
    forall u, c ensures IsOwner(db, u, c) <==> LinkedTo(pairs, c) == {u} {
      var linked := LinkedTo(pairs, c);
      if IsOwner(db, u, c) {
        assert u in linked;
        forall v | v in linked ensures v == u {
          Singleton(linked, u, v);
        }
      }
      if linked == {u} {
        assert u in linked;
      }
    }
    forall u, v, c | IsOwner(db, u, c) && IsOwner(db, v, c) ensures u == v {
      assert LinkedTo(pairs, c) == {u} && LinkedTo(pairs, c) == {v};
      assert u in LinkedTo(pairs, c);
    }
  }

  /** From the migrated table on, every reachable state has at most one owner for each client. */
  lemma OneOwnerAlways(p: Prims, db: Db, pairs: set<Membership>, acts: seq<Act>, client: string)
    requires db.members == Migrated(pairs) && MembersHaveClients(db)
    ensures |Owners(Run(p, db, acts), client)| <= 1
  {
    MigrationOwners(db, pairs);
    RunKeepsOneOwner(p, db, acts);
    OwnersCount(Run(p, db, acts), client);
  }

  lemma {:induction false} RunJoin(p: Prims, db: Db, before: seq<Act>, after: seq<Act>)
    ensures Run(p, db, before + after) == Run(p, Run(p, db, before), after)
    decreases before
  {
    if before == [] {
      assert before + after == after;
    } else {
      assert (before + after)[1..] == before[1..] + after;
      RunJoin(p, Perform(p, db, before[0]), before[1..], after);
    }
  }

  /** A client registered at any point of any run that began with the migrated table has exactly one owner
      for as long as the account of its current owner is not deleted, and none ever after it is. */
  lemma RegisteredClientOwner(
      p: Prims, db: Db, pairs: set<Membership>, before: seq<Act>,
      client: string, secret: string, urls: seq<string>, user: string, after: seq<Act>)
    requires db.members == Migrated(pairs) && MembersHaveClients(db)
    requires CreateClient(Run(p, db, before), client, secret, urls, user).Ok?
    ensures var created := Run(p, db, before + [RegisterClient(client, secret, urls, user)]);
      && Owners(created, client) == {user}
      && |Owners(Run(p, created, after), client)| == if LosesOwner(p, created, after, client) then 0 else 1
  {
    var act := RegisterClient(client, secret, urls, user);
    var mid := Run(p, db, before);
    var created := Perform(p, mid, act);
    MigrationOwners(db, pairs);
    RunKeepsOneOwner(p, db, before);
    RunJoin(p, db, before, [act]);
    assert Run(p, mid, [act]) == created by {
      assert [act][1..] == [];
    }
    PerformKeepsOneOwner(p, mid, act);
    assert IsOwner(created, user, client);
    OwnersAre(created, client);
    assert Owners(created, client) == {user};
    OwnedAfterIff(p, created, after, client);
    RunKeepsOneOwner(p, created, after);
    OwnersCount(Run(p, created, after), client);
  }

  // ---------------------------------------------------------------- single operations

  /** A role change takes effect exactly when the owner asks for another member's role; handing over
      ownership swaps the two roles in one go and otherwise only the member's role changes. */
  lemma SetRoleIff(p: Prims, db: Db, caller: string, client: string, user: string, role: Role)
    ensures var r := Outcome(p, db, SetRoleAct(caller, client, user, role));
      && (r.Ok? <==>
            && caller != "" && client != ""
            && IsOwner(db, caller, client) && caller != user && Membership(user, client) in db.members)
      && (r.Ok? ==>
            && r.value == db.(members := r.value.members)
            && r.value.members.Keys == db.members.Keys
            && r.value.members[Membership(user, client)] == role
            && r.value.members[Membership(caller, client)] == (if role == OWNER then ADMIN else OWNER)
            && forall m :: m in db.members && m != Membership(user, client) && m != Membership(caller, client) ==>
                 r.value.members[m] == db.members[m])
  {
  }

  /** A member is removed exactly by an owner or admin, and never the owner. */
  lemma RemoveMemberIff(p: Prims, db: Db, caller: string, client: string, user: string)
    requires MembersHaveClients(db)
    ensures var r := Outcome(p, db, RemoveMemberAct(caller, client, user));
      && (r.Ok? <==>
            && caller != "" && client != ""
            && Membership(caller, client) in db.members && db.members[Membership(caller, client)] != MEMBER
            && Membership(user, client) in db.members && !IsOwner(db, user, client))
      && (r.Ok? ==> r.value == db.(members := db.members - {Membership(user, client)}))
  {
  }

  /** The caller may change who belongs to the client. */
  predicate MayAdmit(db: Db, caller: string, client: string) {
    && caller != "" && client != ""
    && Membership(caller, client) in db.members && db.members[Membership(caller, client)] != MEMBER
  }

  /** Adding a member takes effect exactly for an owner or admin and an email whose holder is no member yet; it adds
      that one user and changes no existing role. An email that nobody holds is not found, and a holder who is a member
      already is a conflict. */
  lemma AddMemberIff(p: Prims, db: Db, caller: string, client: string, email: string)
    requires Referential(db)
    ensures var r := Outcome(p, db, AddMemberAct(caller, client, email));
      && (r.Ok? <==>
            && MayAdmit(db, caller, client)
            && exists u :: u in db.users && db.users[u].email == email && Membership(u, client) !in db.members)
      && (forall u :: u in db.users && db.users[u].email == email ==>
            && (r.Ok? ==> r.value == db.(members := db.members[Membership(u, client) := MEMBER]))
            && (MayAdmit(db, caller, client) && Membership(u, client) in db.members ==> r == Err(Conflict)))
      && (MayAdmit(db, caller, client) && (forall u :: u in db.users ==> db.users[u].email != email) ==>
            r == Err(NotFound))
      && (!MayAdmit(db, caller, client) ==> r == Err(Forbidden))
  {
    forall u | u in db.users && db.users[u].email == email ensures UserByEmail(db, email) == Some(u) {
    }
  }

  /** A sent column takes the sent value, and one that was not sent keeps its own. */
  predicate Takes<T(==)>(sent: Option<T>, before: T, after: T) {
    match sent
    case Some(v) => after == v
    case None => after == before
  }

  /** A client update takes effect exactly for an owner or admin of an existing client. Every column sent is written and
      every other kept, the secret always; when both scope lists come, the optional one loses exactly the required
      scopes and keeps the order of the rest. Nothing else changes. */
  lemma UpdateClientIff(p: Prims, db: Db, caller: string, client: string, patch: ClientPatch)
    requires MembersHaveClients(db)
    ensures var r := Outcome(p, db, UpdateClientAct(caller, client, patch));
      && (r.Ok? <==> MayAdmit(db, caller, client))
      && (r.Err? ==> r.error == Forbidden)
      && (r.Ok? ==>
            && client in db.clients && client in r.value.clients
            && var c, c' := db.clients[client], r.value.clients[client];
            && c'.secret == c.secret
            && Takes(patch.urls, c.urls, c'.urls)
            && Takes(patch.scopes, c.scopes, c'.scopes)
            && Takes(patch.idTokenAllowed, c.idTokenAllowed, c'.idTokenAllowed)
            && (if patch.scopes.Some? && patch.optionalScopes.Some? then
                  SubList(c'.optionalScopes, patch.optionalScopes.value)
                  && forall s :: s in c'.optionalScopes <==> s in patch.optionalScopes.value && s !in patch.scopes.value
                else Takes(patch.optionalScopes, c.optionalScopes, c'.optionalScopes))
            && r.value == db.(clients := db.clients[client := c']))
  {
    if patch.scopes.Some? && patch.optionalScopes.Some? {
      WithoutIsSubList(patch.optionalScopes.value, patch.scopes.value);
    }
  }

  /** The first list is the second with some elements left out. */
  predicate SubList(xs: seq<Scope>, ys: seq<Scope>) {
    if xs == [] then true
    else if ys == [] then false
    else if xs[0] == ys[0] then SubList(xs[1..], ys[1..])
    else SubList(xs, ys[1..])
  }

  lemma {:induction false} WithoutIsSubList(ss: seq<Scope>, drop: seq<Scope>)
    ensures SubList(Without(ss, drop), ss)
  {
    if ss != [] {
      WithoutIsSubList(ss[1..], drop);
      if ss[0] in drop {
        SubListSkips(Without(ss[1..], drop), ss);
      } else {
        assert ([ss[0]] + Without(ss[1..], drop))[1..] == Without(ss[1..], drop);
      }
    }
  }

  /** An element in front of the longer list does no harm. */
  lemma {:induction false} SubListSkips(xs: seq<Scope>, ys: seq<Scope>)
    requires ys != [] && SubList(xs, ys[1..])
    ensures SubList(xs, ys)
    decreases |ys|, 0
  {
    if xs != [] && xs[0] == ys[0] {
      SubListTail(xs, ys[1..]);
    }
  }

  lemma {:induction false} SubListTail(xs: seq<Scope>, ys: seq<Scope>)
    requires xs != [] && SubList(xs, ys)
    ensures SubList(xs[1..], ys)
    decreases |ys|, 1
  {
    if xs[0] == ys[0] {
      SubListSkips(xs[1..], ys);
    } else {
      SubListTail(xs, ys[1..]);
      SubListSkips(xs[1..], ys);
    }
  }

  /** Registering adds one client, without scopes and without ID tokens, and one membership: the creator's, as owner. */
  lemma RegisterClientIff(p: Prims, db: Db, uuid: string, secret: string, urls: seq<string>, user: string)
    ensures var r := Outcome(p, db, RegisterClient(uuid, secret, urls, user));
      if uuid in db.clients then r == Err(Conflict)
      else if user !in db.users then r == Err(Internal)
      else
        && r.Ok? && uuid in r.value.clients
        && var c := r.value.clients[uuid];
        && c.secret == secret && c.urls == urls && c.scopes == [] && c.optionalScopes == [] && !c.idTokenAllowed
        && r.value == db.(clients := db.clients[uuid := c], members := db.members[Membership(user, uuid) := OWNER])
  {
  }

  /** Deleting an account takes effect exactly for its password; the user's row goes, and in the other tables exactly
      the rows that refer to the user. */
  lemma DeleteAccountIff(p: Prims, db: Db, user: string, password: string)
    ensures var r := Outcome(p, db, DeleteAccountAct(user, password));
      && (r.Ok? <==> user in db.users && p.bcrypt(password, db.users[user].password))
      && (r.Err? ==> r.error == Forbidden)
      && (r.Ok? ==>
            && var db' := r.value;
            && db'.users == db.users - {user} && db'.clients == db.clients
            && (forall m :: m in db'.members <==> m in db.members && m.userUuid != user)
            && (forall m :: m in db'.members ==> db'.members[m] == db.members[m])
            && (forall c :: c in db'.consents <==> c in db.consents && c.userUuid != user)
            && (forall c :: c in db'.consents ==> db'.consents[c] == db.consents[c])
            && (forall t :: t in db'.refreshTokens <==>
                  t in db.refreshTokens && db.refreshTokens[t].userUuid != user)
            && (forall t :: t in db'.refreshTokens ==> db'.refreshTokens[t] == db.refreshTokens[t])
            && (forall a :: a in db'.authenticators <==> a in db.authenticators && db.authenticators[a] != user)
            && (forall a :: a in db'.authenticators ==> db'.authenticators[a] == db.authenticators[a]))
  {
  }

  /** Why a role change or a removal is refused. */
  lemma RoleRefusals(p: Prims, db: Db, caller: string, client: string, user: string, role: Role)
    requires MembersHaveClients(db)
    ensures var r := Outcome(p, db, SetRoleAct(caller, client, user, role));
      var may := caller != "" && client != "" && IsOwner(db, caller, client) && caller != user;
      r.Err? ==> r.error == if may then NotFound else Forbidden
    ensures var r := Outcome(p, db, RemoveMemberAct(caller, client, user));
      r.Err? ==> r.error == if MayAdmit(db, caller, client) && Membership(user, client) !in db.members then NotFound
                            else Forbidden
  {
  }

  /** A route without a required role lets everyone through; with one, a missing parameter is forbidden. */
  lemma GuardEdges(db: Db, required: Option<Role>, user: Option<string>, client: Option<string>)
    ensures required.None? ==> CanActivate(db, required, user, client) == Ok(())
    ensures required.Some? && (user in {None, Some("")} || client in {None, Some("")}) ==>
              CanActivate(db, required, user, client) == Err(Forbidden)
    ensures CanActivate(db, required, user, client) in {Ok(()), Err(Forbidden)}
  {
  }

  /** After a client update that sends both lists, no optional scope is required; when only one list is sent
      the two lists may overlap exactly where the sent list meets the kept one. */
  lemma UpdateScopes(db: Db, uuid: string, patch: ClientPatch, caller: string)
    requires UpdateClient(db, uuid, Filtered(patch), caller).Ok?
    ensures var before, after := db.clients[uuid], UpdateClient(db, uuid, Filtered(patch), caller).value.clients[uuid];
      forall s :: s in after.scopes && s in after.optionalScopes <==>
        if patch.scopes.Some? && patch.optionalScopes.Some? then false
        else if patch.scopes.Some? then s in patch.scopes.value && s in before.optionalScopes
        else if patch.optionalScopes.Some? then s in patch.optionalScopes.value && s in before.scopes
        else s in before.scopes && s in before.optionalScopes
  {
  }
}
