/** The client service as objects over the shared tables. */
module ClientService {
  import opened Types
  import opened Database
  import opened Prisma
  import M = ClientMembership

  class ClientRoleGuard {
    const prisma: PrismaService

    constructor (prisma: PrismaService)
      ensures this.prisma == prisma
    {
      this.prisma := prisma;
    }

    method CanActivate(required: Option<Role>, userUuid: Option<string>, clientUuid: Option<string>)
        returns (r: Result<()>)
      ensures r == M.CanActivate(prisma.State(), required, userUuid, clientUuid)
    {
      if required.None? {
        return Ok(());
      }
      if Falsy(userUuid) || Falsy(clientUuid) {
        return Err(Forbidden);
      }
      var key := Membership(userUuid.value, clientUuid.value);
      if key !in prisma.members {
        return Err(Forbidden);
      }
      if M.Rank(prisma.members[key]) < M.Rank(required.value) {
        return Err(Forbidden);
      }
      return Ok(());
    }
  }

  class ClientRepository {
    const prisma: PrismaService

    constructor (prisma: PrismaService)
      ensures this.prisma == prisma
    {
      this.prisma := prisma;
    }

    method CreateClient(uuid: string, secret: string, urls: seq<string>, userUuid: string) returns (r: Result<()>)
      modifies prisma`clients, prisma`members
      ensures Wrote(old(prisma.State()), Database.CreateClient(old(prisma.State()), uuid, secret, urls, userUuid),
                prisma.State(), r)
    {
      if uuid in prisma.clients {
        return Err(Conflict);
      }
      if userUuid !in prisma.users {
        return Err(Internal);
      }
      prisma.clients := prisma.clients[uuid := Client(secret, urls, false, [], [])];
      prisma.members := prisma.members[Membership(userUuid, uuid) := OWNER];
      return Ok(());
    }

    method UpdateClient(uuid: string, patch: ClientPatch, userUuid: string) returns (r: Result<()>)
      modifies prisma`clients
      ensures Wrote(old(prisma.State()), Database.UpdateClient(old(prisma.State()), uuid, patch, userUuid),
                prisma.State(), r)
    {
      if uuid !in prisma.clients || Membership(userUuid, uuid) !in prisma.members {
        return Err(NotFound);
      }
      var client := prisma.clients[uuid];
      if patch.urls.Some? { client := client.(urls := patch.urls.value); }
      if patch.scopes.Some? { client := client.(scopes := patch.scopes.value); }
      if patch.optionalScopes.Some? { client := client.(optionalScopes := patch.optionalScopes.value); }
      if patch.idTokenAllowed.Some? { client := client.(idTokenAllowed := patch.idTokenAllowed.value); }
      prisma.clients := prisma.clients[uuid := client];
      return Ok(());
    }

    method FindUniqueByEmail(email: string) returns (r: Option<string>)
      ensures r.None? <==> !EmailTaken(prisma.State(), email)
      ensures r.Some? ==> r.value in prisma.users && prisma.users[r.value].email == email
    {
      if u :| u in prisma.users && prisma.users[u].email == email {
        return Some(u);
      }
      return None;
    }

    /** The email names at most one user. */
    method AddMemberToClient(uuid: string, memberEmail: string) returns (r: Result<()>)
      requires Referential(prisma.State())
      modifies prisma`members
      ensures Wrote(old(prisma.State()), M.AddMemberByEmail(old(prisma.State()), uuid, memberEmail), prisma.State(), r)
    {
      var member := FindUniqueByEmail(memberEmail);
      if member.None? {
        return Err(NotFound);
      }
      assert UserByEmail(prisma.State(), memberEmail) == member;
      if uuid !in prisma.clients {
        return Err(NotFound);
      }
      if Membership(member.value, uuid) in prisma.members {
        return Err(Conflict);
      }
      prisma.members := prisma.members[Membership(member.value, uuid) := MEMBER];
      return Ok(());
    }

    method SetRoleToUser(uuid: string, userUuid: string, role: Role) returns (r: Result<()>)
      modifies prisma`members
      ensures Wrote(old(prisma.State()), SetRole(old(prisma.State()), uuid, userUuid, role), prisma.State(), r)
    {
      if Membership(userUuid, uuid) !in prisma.members {
        return Err(NotFound);
      }
      prisma.members := prisma.members[Membership(userUuid, uuid) := role];
      return Ok(());
    }

    /** A failed second update rolls the first one back. */
    method TransferOwnership(clientUuid: string, currentOwnerUuid: string, newOwnerUuid: string) returns (r: Result<()>)
      modifies prisma`members
      ensures Wrote(old(prisma.State()),
                Database.TransferOwnership(old(prisma.State()), clientUuid, currentOwnerUuid, newOwnerUuid),
                prisma.State(), r)
    {
      var begin := prisma.members;
      r := SetRoleToUser(clientUuid, currentOwnerUuid, ADMIN);
      if r.Ok? {
        r := SetRoleToUser(clientUuid, newOwnerUuid, OWNER);
      }
      if r.Err? {
        prisma.members := begin;
      }
    }

    method RemoveMemberFromClient(uuid: string, userUuid: string) returns (r: Result<()>)
      modifies prisma`members
      ensures Wrote(old(prisma.State()), RemoveMember(old(prisma.State()), uuid, userUuid), prisma.State(), r)
    {
      if uuid !in prisma.clients || Membership(userUuid, uuid) !in prisma.members {
        return Err(NotFound);
      }
      prisma.members := prisma.members - {Membership(userUuid, uuid)};
      return Ok(());
    }

    method GetUserClientRole(clientUuid: string, userUuid: string) returns (r: Result<Role>)
      ensures r == if Membership(userUuid, clientUuid) in prisma.members
                   then Ok(prisma.members[Membership(userUuid, clientUuid)]) else Err(NotFound)
    {
      if Membership(userUuid, clientUuid) !in prisma.members {
        return Err(NotFound);
      }
      return Ok(prisma.members[Membership(userUuid, clientUuid)]);
    }
  }

  /** The service behind its guard: each request carries its caller. */
  class ClientService {
    const prisma: PrismaService
    const guardian: ClientRoleGuard
    const clientRepository: ClientRepository

    constructor (prisma: PrismaService)
      ensures this.prisma == prisma && Valid()
    {
      this.prisma := prisma;
      this.guardian := new ClientRoleGuard(prisma);
      this.clientRepository := new ClientRepository(prisma);
    }

    ghost predicate Valid() {
      guardian.prisma == prisma && clientRepository.prisma == prisma
    }

    method RegisterClient(p: Prims, uuid: string, secret: string, urls: seq<string>, user: string)
        returns (r: Result<()>)
      requires Valid()
      modifies prisma
      ensures Wrote(old(prisma.State()),
                M.Outcome(p, old(prisma.State()), M.RegisterClient(uuid, secret, urls, user)), prisma.State(), r)
    {
      r := clientRepository.CreateClient(uuid, secret, urls, user);
    }

    method AddMember(p: Prims, caller: string, uuid: string, memberEmail: string) returns (r: Result<()>)
      requires Valid() && Referential(prisma.State())
      modifies prisma
      ensures Wrote(old(prisma.State()),
                M.Outcome(p, old(prisma.State()), M.AddMemberAct(caller, uuid, memberEmail)), prisma.State(), r)
    {
      r := guardian.CanActivate(Some(ADMIN), Some(caller), Some(uuid));
      if r.Ok? {
        r := clientRepository.AddMemberToClient(uuid, memberEmail);
      } else {
        GuardRefusal(prisma.State(), ADMIN, caller, uuid);
      }
    }

    method RemoveMember(p: Prims, caller: string, uuid: string, userUuid: string) returns (r: Result<()>)
      requires Valid()
      modifies prisma
      ensures Wrote(old(prisma.State()),
                M.Outcome(p, old(prisma.State()), M.RemoveMemberAct(caller, uuid, userUuid)), prisma.State(), r)
    {
      r := guardian.CanActivate(Some(ADMIN), Some(caller), Some(uuid));
      if r.Err? {
        GuardRefusal(prisma.State(), ADMIN, caller, uuid);
        return;
      }
      var curRole := clientRepository.GetUserClientRole(uuid, userUuid);
      if curRole.Err? {
        return Err(curRole.error);
      }
      if curRole.value == OWNER {
        return Err(Forbidden);
      }
      r := clientRepository.RemoveMemberFromClient(uuid, userUuid);
    }

    method SetRole(p: Prims, ownerUuid: string, clientUuid: string, userUuid: string, role: Role)
        returns (r: Result<()>)
      requires Valid()
      modifies prisma
      ensures Wrote(old(prisma.State()),
                M.Outcome(p, old(prisma.State()), M.SetRoleAct(ownerUuid, clientUuid, userUuid, role)),
                prisma.State(), r)
    {
      r := guardian.CanActivate(Some(OWNER), Some(ownerUuid), Some(clientUuid));
      if r.Err? {
        GuardRefusal(prisma.State(), OWNER, ownerUuid, clientUuid);
        return;
      }
      if ownerUuid == userUuid {
        return Err(Forbidden);
      }
      if role == OWNER {
        r := clientRepository.TransferOwnership(clientUuid, ownerUuid, userUuid);
      } else {
        r := clientRepository.SetRoleToUser(clientUuid, userUuid, role);
      }
    }

    /** Filters the body before handing it on. */
    method UpdateClient(p: Prims, caller: string, uuid: string, updateClientDto: ClientPatch) returns (r: Result<()>)
      requires Valid()
      modifies prisma
      ensures Wrote(old(prisma.State()),
                M.Outcome(p, old(prisma.State()), M.UpdateClientAct(caller, uuid, updateClientDto)), prisma.State(), r)
    {
      r := guardian.CanActivate(Some(ADMIN), Some(caller), Some(uuid));
      if r.Err? {
        GuardRefusal(prisma.State(), ADMIN, caller, uuid);
        return;
      }
      var dto := updateClientDto;
      if dto.optionalScopes.Some? && dto.scopes.Some? {
        dto := dto.(optionalScopes := Some(Without(dto.optionalScopes.value, dto.scopes.value)));
      }
      r := clientRepository.UpdateClient(uuid, dto, caller);
    }

    lemma GuardRefusal(db: Db, required: Role, caller: string, client: string)
      requires M.CanActivate(db, Some(required), Some(caller), Some(client)).Err?
      ensures M.CanActivate(db, Some(required), Some(caller), Some(client)) == Err(Forbidden)
      ensures !M.Allowed(db, required, caller, client)
    {
    }
  }

  /** The two data statements of the migration, in order, on the table it has just created. */
  method Migrate(prisma: PrismaService, clientToUser: set<Membership>)
    requires prisma.members == map[]
    modifies prisma`members
    ensures prisma.members == M.Migrated(clientToUser)
  {
    prisma.members := map m | m in clientToUser :: MEMBER;
    var moved := prisma.members;
    assert moved.Keys == clientToUser;
    prisma.members := map m | m in moved ::
      if |M.LinkedTo(moved.Keys, m.clientUuid)| == 1 then OWNER else moved[m];
  }
}
