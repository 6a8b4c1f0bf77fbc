/** The relational tables, their keys and the cascade rules of every deletion. */
module Database {
  import opened Types

  datatype Role = OWNER | ADMIN | MEMBER

  datatype User = User(
    password: string, profile: Option<string>, picture: Option<string>,
    name: string, email: string, studentId: string, phoneNumber: string,
    isIdVerified: bool, isPhoneNumberVerified: bool)

  datatype Client = Client(
    secret: string, urls: seq<string>, idTokenAllowed: bool,
    scopes: seq<Scope>, optionalScopes: seq<Scope>)

  datatype RefreshToken = RefreshToken(
    userUuid: string, clientUuid: string, scopes: seq<Scope>, nonce: Option<string>, expiresAt: nat)

  /** Primary key of the membership table. */
  datatype Membership = Membership(userUuid: string, clientUuid: string)

  /** Primary key of the consent table. */
  datatype ConsentKey = ConsentKey(clientUuid: string, userUuid: string)

  datatype Db = Db(
    users: map<string, User>,
    clients: map<string, Client>,
    members: map<Membership, Role>,
    consents: map<ConsentKey, seq<Scope>>,
    refreshTokens: map<string, RefreshToken>,
    authenticators: map<string, string>)

  const EMPTY_DB := Db(map[], map[], map[], map[], map[], map[])

  /** Every foreign key points at an existing row, and no two users share an email. */
  ghost predicate Referential(db: Db) {
    && (forall m :: m in db.members ==> m.userUuid in db.users && m.clientUuid in db.clients)
    && (forall c :: c in db.consents ==> c.userUuid in db.users && c.clientUuid in db.clients)
    && (forall t :: t in db.refreshTokens ==>
          db.refreshTokens[t].userUuid in db.users && db.refreshTokens[t].clientUuid in db.clients)
    && (forall a :: a in db.authenticators ==> db.authenticators[a] in db.users)
    && (forall u, v :: u in db.users && v in db.users && db.users[u].email == db.users[v].email ==> u == v)
  }

  /** No row of any table belongs to the user. */
  ghost predicate NothingOf(db: Db, userUuid: string) {
    && userUuid !in db.users
    && (forall m :: m in db.members ==> m.userUuid != userUuid)
    && (forall c :: c in db.consents ==> c.userUuid != userUuid)
    && (forall t :: t in db.refreshTokens ==> db.refreshTokens[t].userUuid != userUuid)
    && (forall a :: a in db.authenticators ==> db.authenticators[a] != userUuid)
  }

  lemma NothingOfMissing(db: Db, userUuid: string)
    requires Referential(db) && userUuid !in db.users
    ensures NothingOf(db, userUuid)
  {
  }

  // ---------------------------------------------------------------- user rows

  predicate EmailTaken(db: Db, email: string) {
    exists u :: u in db.users && db.users[u].email == email
  }

  /** The account with the email; `Referential` says there is at most one. */
  ghost function UserByEmail(db: Db, email: string): Option<string> {
    if u :| u in db.users && db.users[u].email == email then Some(u) else None
  }

  /** P2002 when the email is taken. */
  function CreateUser(db: Db, uuid: string, user: User): Result<Db> {
    if uuid in db.users then Err(Internal)
    else if EmailTaken(db, user.email) then Err(Conflict)
    else Ok(db.(users := db.users[uuid := user]))
  }

  /** Any update of columns other than the email. */
  function UpdateUser(db: Db, uuid: string, user: User): Result<Db> {
    if uuid !in db.users || user.email != db.users[uuid].email then Err(Forbidden)
    else Ok(db.(users := db.users[uuid := user]))
  }

  /** Deleting a user row takes every membership, consent, refresh token and authenticator of the user along. */
  function DeleteUser(db: Db, uuid: string): Result<Db> {
    if uuid !in db.users then Err(Forbidden)
    else Ok(Db(
      db.users - {uuid},
      db.clients,
      map m | m in db.members && m.userUuid != uuid :: db.members[m],
      map c | c in db.consents && c.userUuid != uuid :: db.consents[c],
      map t | t in db.refreshTokens && db.refreshTokens[t].userUuid != uuid :: db.refreshTokens[t],
      map a | a in db.authenticators && db.authenticators[a] != uuid :: db.authenticators[a]))
  }

  /** P2002 when the credential id is known, P2003 when the user is gone. */
  function SaveAuthenticator(db: Db, id: string, userUuid: string): Result<Db> {
    if id in db.authenticators then Err(Conflict)
    else if userUuid !in db.users then Err(Internal)
    else Ok(db.(authenticators := db.authenticators[id := userUuid]))
  }

  function DeletePasskey(db: Db, id: string): Result<Db> {
    if id !in db.authenticators then Err(Forbidden)
    else Ok(db.(authenticators := db.authenticators - {id}))
  }

  // ---------------------------------------------------------------- client rows and memberships

  /** A new client starts without scopes and without ID tokens; its creator becomes the owner. */
  function CreateClient(db: Db, uuid: string, secret: string, urls: seq<string>, userUuid: string): Result<Db> {
    if uuid in db.clients then Err(Conflict)
    else if userUuid !in db.users then Err(Internal)
    else Ok(db.(clients := db.clients[uuid := Client(secret, urls, false, [], [])],
                members := db.members[Membership(userUuid, uuid) := OWNER]))
  }

  /** The body of a client update; `None` leaves the column as it is. */
  datatype ClientPatch = ClientPatch(
    urls: Option<seq<string>>, scopes: Option<seq<Scope>>,
    optionalScopes: Option<seq<Scope>>, idTokenAllowed: Option<bool>)

  /** The membership tests the request object makes on both scope lists. */
  predicate PatchAccepted(patch: ClientPatch) {
    && (patch.scopes.Some? ==> AllClientScopes(patch.scopes.value))
    && (patch.optionalScopes.Some? ==> AllClientScopes(patch.optionalScopes.value))
  }

  function Without(ss: seq<Scope>, drop: seq<Scope>): (r: seq<Scope>)
    ensures forall s :: s in r <==> s in ss && s !in drop
  {
    if ss == [] then []
    else if ss[0] in drop then Without(ss[1..], drop)
    else [ss[0]] + Without(ss[1..], drop)
  }

  /** Optional scopes lose the required ones, but only when both lists come in the same request. */
  function Filtered(patch: ClientPatch): ClientPatch {
    if patch.optionalScopes.Some? && patch.scopes.Some? then
      patch.(optionalScopes := Some(Without(patch.optionalScopes.value, patch.scopes.value)))
    else patch
  }

  function Or<T>(x: Option<T>, default: T): T {
    match x case Some(v) => v case None => default
  }

  function Patched(c: Client, patch: ClientPatch): Client {
    Client(c.secret, Or(patch.urls, c.urls), Or(patch.idTokenAllowed, c.idTokenAllowed),
           Or(patch.scopes, c.scopes), Or(patch.optionalScopes, c.optionalScopes))
  }

  /** P2025 unless the client exists and the caller is one of its members. */
  function UpdateClient(db: Db, uuid: string, patch: ClientPatch, userUuid: string): Result<Db> {
    if uuid !in db.clients || Membership(userUuid, uuid) !in db.members then Err(NotFound)
    else Ok(db.(clients := db.clients[uuid := Patched(db.clients[uuid], patch)]))
  }

  /** P2025 when the client is missing, P2002 when the user is already a member. */
  function AddMember(db: Db, uuid: string, userUuid: string): Result<Db> {
    if uuid !in db.clients then Err(NotFound)
    else if Membership(userUuid, uuid) in db.members then Err(Conflict)
    else if userUuid !in db.users then Err(Internal)
    else Ok(db.(members := db.members[Membership(userUuid, uuid) := MEMBER]))
  }

  function SetRole(db: Db, uuid: string, userUuid: string, role: Role): Result<Db> {
    if Membership(userUuid, uuid) !in db.members then Err(NotFound)
    else Ok(db.(members := db.members[Membership(userUuid, uuid) := role]))
  }

  /** Two updates in one transaction: when either row is missing neither takes effect. */
  function TransferOwnership(db: Db, uuid: string, currentOwner: string, newOwner: string): Result<Db> {
    match SetRole(db, uuid, currentOwner, ADMIN)
    case Err(e) => Err(e)
    case Ok(demoted) => SetRole(demoted, uuid, newOwner, OWNER)
  }

  function RemoveMember(db: Db, uuid: string, userUuid: string): Result<Db> {
    if uuid !in db.clients || Membership(userUuid, uuid) !in db.members then Err(NotFound)
    else Ok(db.(members := db.members - {Membership(userUuid, uuid)}))
  }

  // ---------------------------------------------------------------- consents and refresh tokens

  /** P2003, which the repository does not translate, when the user or the client is gone. */
  function UpsertConsent(db: Db, userUuid: string, clientUuid: string, scopes: seq<Scope>): Result<Db> {
    if userUuid !in db.users || clientUuid !in db.clients then Err(Internal)
    else Ok(db.(consents := db.consents[ConsentKey(clientUuid, userUuid) := scopes]))
  }

  function FindConsent(db: Db, userUuid: string, clientUuid: string): Result<seq<Scope>> {
    if ConsentKey(clientUuid, userUuid) in db.consents then Ok(db.consents[ConsentKey(clientUuid, userUuid)])
    else Err(InvalidGrant)
  }

  /** Thirty days, in seconds. */
  const MAX_REFRESH_TOKEN_AGE := 60 * 60 * 24 * 30

  function CreateRefreshToken(
      db: Db, token: string, scopes: seq<Scope>, userUuid: string, clientUuid: string, nonce: Option<string>, now: nat)
      : Result<Db>
  {
    if token in db.refreshTokens || userUuid !in db.users || clientUuid !in db.clients then Err(Internal)
    else Ok(db.(refreshTokens := db.refreshTokens[
                  token := RefreshToken(userUuid, clientUuid, scopes, nonce, now + MAX_REFRESH_TOKEN_AGE * 1000)]))
  }

  /** A missing row is an invalid request, an expired one an invalid grant. */
  function FindRefreshToken(db: Db, token: string, now: nat): Result<RefreshToken> {
    if token !in db.refreshTokens then Err(InvalidRequest)
    else if db.refreshTokens[token].expiresAt < now then Err(InvalidGrant)
    else Ok(db.refreshTokens[token])
  }

  /** The delete fails when the row is already gone. */
  function DeleteRefreshToken(db: Db, token: string): Result<Db> {
    if token !in db.refreshTokens then Err(InvalidRequest)
    else Ok(db.(refreshTokens := db.refreshTokens - {token}))
  }

  // ---------------------------------------------------------------- any single write

  /** A write that some part of the service sends to the tables of users, clients, memberships and
      authenticators. Consents and refresh tokens are written by the OAuth handlers alone. */
  datatype Statement =
    | UserCreated(uuid: string, user: User)
    | UserUpdated(uuid: string, user: User)
    | UserDeleted(uuid: string)
    | AuthenticatorSaved(id: string, userUuid: string)
    | AuthenticatorDeleted(id: string)
    | ClientCreated(uuid: string, secret: string, urls: seq<string>, userUuid: string)
    | ClientUpdated(uuid: string, patch: ClientPatch, userUuid: string)
    | SecretUpdated(uuid: string, secret: string)
    | MemberAdded(uuid: string, userUuid: string)
    | RoleSet(uuid: string, userUuid: string, role: Role)
    | OwnershipTransferred(uuid: string, currentOwner: string, newOwner: string)
    | MemberRemoved(uuid: string, userUuid: string)

  function Execute(db: Db, st: Statement): Result<Db> {
    match st
    case UserCreated(uuid, user) => CreateUser(db, uuid, user)
    case UserUpdated(uuid, user) => UpdateUser(db, uuid, user)
    case UserDeleted(uuid) => DeleteUser(db, uuid)
    case AuthenticatorSaved(id, user) => SaveAuthenticator(db, id, user)
    case AuthenticatorDeleted(id) => DeletePasskey(db, id)
    case ClientCreated(uuid, secret, urls, user) => CreateClient(db, uuid, secret, urls, user)
    case ClientUpdated(uuid, patch, user) => UpdateClient(db, uuid, Filtered(patch), user)
    case SecretUpdated(uuid, secret) =>
      if uuid in db.clients then Ok(db.(clients := db.clients[uuid := db.clients[uuid].(secret := secret)]))
      else Err(NotFound)
    case MemberAdded(uuid, user) => AddMember(db, uuid, user)
    case RoleSet(uuid, user, role) => SetRole(db, uuid, user, role)
    case OwnershipTransferred(uuid, from, to) => TransferOwnership(db, uuid, from, to)
    case MemberRemoved(uuid, user) => RemoveMember(db, uuid, user)
  }

  /** A failed statement leaves the tables as they were. */
  function After(db: Db, st: Statement): Db {
    match Execute(db, st) case Ok(db') => db' case Err(_) => db
  }

  lemma UserWritesKeepReferential(db: Db, st: Statement)
    requires Referential(db) && (st.UserCreated? || st.UserUpdated? || st.UserDeleted?)
    ensures Referential(After(db, st))
  {
  }

  lemma MemberWritesKeepReferential(db: Db, st: Statement)
    requires Referential(db)
    requires st.MemberAdded? || st.RoleSet? || st.OwnershipTransferred? || st.MemberRemoved?
    ensures Referential(After(db, st))
  {
  }

  lemma OtherWritesKeepReferential(db: Db, st: Statement)
    requires Referential(db)
    requires
      || st.AuthenticatorSaved? || st.AuthenticatorDeleted?
      || st.ClientCreated? || st.ClientUpdated? || st.SecretUpdated?
    ensures Referential(After(db, st))
  {
    hide Patched, Filtered;
  }

  lemma StatementKeepsReferential(db: Db, st: Statement)
    requires Referential(db)
    ensures Referential(After(db, st))
  {
    hide Referential, After;
    if st.UserCreated? || st.UserUpdated? || st.UserDeleted? {
      UserWritesKeepReferential(db, st);
    } else if st.MemberAdded? || st.RoleSet? || st.OwnershipTransferred? || st.MemberRemoved? {
      MemberWritesKeepReferential(db, st);
    } else {
      OtherWritesKeepReferential(db, st);
    }
  }

  /** After a deletion no row of any table refers to the user. */
  lemma DeletionLeavesNothing(db: Db, uuid: string)
    requires Referential(db) && uuid in db.users
    ensures Referential(DeleteUser(db, uuid).value) && NothingOf(DeleteUser(db, uuid).value, uuid)
  {
    StatementKeepsReferential(db, UserDeleted(uuid));
    NothingOfMissing(DeleteUser(db, uuid).value, uuid);
  }

  /** The writes that other parts of the service send on their own: each takes effect exactly when its keys allow, and
      touches its one row. */
  lemma RowWritesIff(db: Db, uuid: string, user: User, id: string, userUuid: string, secret: string)
    ensures Execute(db, UserCreated(uuid, user)).Ok? <==>
              uuid !in db.users && forall u :: u in db.users ==> db.users[u].email != user.email
    ensures Execute(db, UserUpdated(uuid, user)).Ok? <==> uuid in db.users && db.users[uuid].email == user.email
    ensures After(db, UserCreated(uuid, user)) == (if Execute(db, UserCreated(uuid, user)).Ok? then
              db.(users := db.users[uuid := user]) else db)
    ensures After(db, UserUpdated(uuid, user)) == (if Execute(db, UserUpdated(uuid, user)).Ok? then
              db.(users := db.users[uuid := user]) else db)
    ensures After(db, AuthenticatorSaved(id, userUuid)) == (if id !in db.authenticators && userUuid in db.users then
              db.(authenticators := db.authenticators[id := userUuid]) else db)
    ensures After(db, AuthenticatorDeleted(id)) == db.(authenticators := db.authenticators - {id})
    ensures uuid in db.clients ==>
              After(db, SecretUpdated(uuid, secret))
              == db.(clients := db.clients[uuid := db.clients[uuid].(secret := secret)])
    ensures uuid !in db.clients ==> After(db, SecretUpdated(uuid, secret)) == db
  {
  }
}
