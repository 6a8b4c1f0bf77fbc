/** The database connection that the repositories share: one mutable field for each table. */
module Prisma {
  import opened Types
  import opened Database

  class PrismaService {
    var users: map<string, User>
    var clients: map<string, Client>
    var members: map<Membership, Role>
    var consents: map<ConsentKey, seq<Scope>>
    var refreshTokens: map<string, RefreshToken>
    var authenticators: map<string, string>

    constructor ()
      ensures State() == EMPTY_DB
    {
      users, clients, members := map[], map[], map[];
      consents, refreshTokens, authenticators := map[], map[], map[];
    }

    /** All tables as one value. */
    ghost function State(): Db
      reads this
    {
      Db(users, clients, members, consents, refreshTokens, authenticators)
    }
  }

  /** A write either takes effect and succeeds, or fails and leaves the tables as they were. */
  ghost predicate Wrote(before: Db, outcome: Result<Db>, after: Db, r: Result<()>) {
    match outcome
    case Ok(db) => r == Ok(()) && after == db
    case Err(e) => r == Err(e) && after == before
  }
}
