# Infoteam account: what its stateful protocols keep

This project models the stateful parts of the identity provider (an OAuth 2.1 and OpenID Connect server) and proves
what they keep over whole runs. `dafny verify dfyconfig.toml` checks all of it.

## How the system is modelled

**Time and storage.** The clock counts milliseconds. The relational tables are maps with the primary keys of
`prisma/schema.prisma`; a deletion takes the dependent rows along as its cascades say (`Database.dfy`). Redis is one
flat map from `prefix:key` to a value and the last millisecond at which it can be read; lifetimes are given in seconds
(`Store.dfy`). An expired entry stays in the map as a record that no command can reach.

**What comes from outside.** Random tokens, codes and uuids are parameters that have not been drawn before. SHA-256,
the salted password hash and its comparison, lower-casing and the phone number parser are functions the model knows
nothing about (`Types.Prims`). Whether a mail or a message went out, what the student registry answered and whether a
passkey signature checked are parameters too. A verification token is valid if and only if it was signed by the service
and has not expired.

**OAuth, in two layers.** Every handler of `src/oauth/oauth.service.ts` is cut at its awaits into steps
(`OauthProtocol.dfy`): a request is a program counter with the local variables that are still needed. `OauthMachine.dfy`
runs such requests together with the clock and with arbitrary writes of the rest of the service to the tables.

- The *interleaved layer* lets any request take its next step at any time.
- The *serial layer* answers a request before anything else may happen. It is the same machine with a stricter
  scheduler, so every theorem of the interleaved layer holds there as well (`OauthMachine.SerialIsInterleaved`).

A history records when each client first declared a scope, when each user first consented to it, every authorization,
and for every token the authorization its chain starts from and the refresh tokens redeemed on the way. It is never
read by a handler, and `OauthStory.dfy` ties its declarations, consents and
authorizations to the client rows, requests and answers of the run.

**The classes.** The services and repositories that work by changing state are classes with methods in the order and
with the branches of the source (`OauthService.dfy`, `ClientService.dfy`, `UserService.dfy`, `AuthService.dfy`,
`Prisma.dfy`, `RedisService` in `Store.dfy`). Each method is proved to leave the state, and give the answer, that the
corresponding specification function computes, and to touch no cache entry outside the prefixes of its service; the
theorems are about those functions and the runs made of them. A method's `requires` asks at most for what the database
itself guarantees (keys and foreign keys) and for the cache prefixes of the service to hold what the service puts there.
`Application.dfy` puts all services on one cache and one database and shows that requests to them, in any order, never
disturb one another, and that what the OAuth service sees of it is a run of the serial machine.

| file | part of the system |
|---|---|
| `Types`, `Database`, `Prisma`, `Store`, `Prefixes` | shared values, tables and cascades, the expiring cache and who uses which part |
| `OauthProtocol`, `OauthMachine` | the OAuth handlers as steps, and their runs |
| `OauthInvariants`, `OauthSafety`, `OauthInterleaved`, `OauthChains` | what every interleaving keeps |
| `OauthStory` | the same read off requests and answers alone |
| `OauthSerial`, `OauthSerialTheorems`, `OauthServe`, `OauthWitness` | what every serial run keeps; a request served in one go; runs to two outcomes one might think impossible |
| `OauthAnswers` | the values the OAuth handlers release, and which refusal each failed request gets |
| `OauthService` | the OAuth service and repository as classes |
| `ClientMembership`, `ClientService` | roles and ownership of clients; the role guard, service, repository, migration |
| `Verification`, `VerificationEffects`, `UserService` | verification codes and tokens, registration, user flags; what each request leaves; the two services |
| `Sessions`, `AuthService` | login sessions; the login service |
| `Application` | all services on one cache and one database |
| `ScopeText`, `SixDigits`, `Utf8`, `BasicAuth` | scope text, six-digit codes, Basic credentials |

## Where the code and what is said of it disagree

The model follows the code.

- A refresh of a token whose scope contains `openid` is always refused: no writer stores a nonce with a refresh token,
  and the handler asks for one. By then the new access token and the new row are stored, and the old row stays.
  `OauthServe.RefreshIff` gives the exact condition under which a refresh succeeds, in every reachable state, and what
  each outcome leaves; `OauthWitness.OpenidRefreshRefused` is a run that ends in such a refusal.
- A token answer reports a refresh lifetime of 90 days, with or without a refresh token; the stored lifetime is 30 days
  (`OauthServe.CodeGrantLeaves`, `OauthServe.RefreshIff`).
- For a client's own token `userinfo` asks that the user's consent lie within the token's scope, and answers with the
  token's scope. `OauthServe.ClientAnswerWithinConsent` says exactly when that answer stays within the consent, and
  `OauthWitness.ClientSeesBeyondConsent` is a run after which it does not.
- The API description says a verification code is valid for five minutes; it is stored for three.
- A client update drops required scopes from the optional ones only when both lists are sent; `UpdateScopes` gives the
  overlap in each case.
- A colon in an id or secret is lost in a Basic header; `BasicAuth.HeaderRoundTrip` says exactly when the pair is
  recovered. Generated credentials have none.
- The empty scope list prints as the empty text, which no request may send; `ScopeText.ParseOfPrint` says so exactly.

## Model

| member | source | states |
|---|---|---|
| OauthMachine.SerialIsInterleaved | src/oauth/oauth.service.ts:82-510 | Every state a serial run reaches is reached by an interleaved run. |
| OauthInterleaved.Reachable | src/oauth/oauth.service.ts:82-510 | Every state of every run, under any interleaving, has its codes, tokens, rows, consents and answered requests in agreement with the history, and stored rows carry no nonce. |
| OauthInterleaved.OneWinner | src/oauth/oauth.service.ts:294-384 | Under every interleaving, of all refresh grants and revocations ever answered successfully no two were for the same refresh token. |
| OauthChains.LiveTokensBounded | src/oauth/oauth.service.ts:328-373 | Under every interleaving in which refreshes present only tokens delivered before, or strings the service never draws, an authorization has no more tokens both delivered and stored than code grants answered with its code. |
| OauthChains.CountAfter | src/oauth/oauth.service.ts:193-384 | No step raises the number of delivered and stored tokens of an authorization above the number of its answered code grants: a refresh that delivers a token has taken the one presented out of the same chain. |
| OauthInterleaved.Lineage | src/oauth/oauth.service.ts:193-337 | Every stored user access token and refresh row has the user, client and scopes of the one authorization at the root of its chain, whatever its length; each user scope in it was consented to before, and declared by the client before that. |
| OauthInterleaved.GrantTraced | src/oauth/oauth.service.ts:313-337 | The same of any token ever minted: every refresh token redeemed on its path carries the same grant and the path up to itself. |
| OauthInterleaved.Disclosure | src/oauth/oauth.service.ts:254-276 | An ID token or a user-token userinfo answer shows a client only fields of scopes this user consented to for this client before the authorization; a client token's answer stays within the token's scope; refresh grants give no ID token. |
| OauthInterleaved.ScopesApart | src/oauth/oauth.service.ts:137-157 | Client scopes, optional scopes and consents never contain `openid` or `offline_access`, nor does a client's own token; a stored code with `openid` has a non-empty nonce and a client allowed ID tokens before. |
| OauthInterleaved.CodeAnswers | src/oauth/oauth.service.ts:198-276 | Every answered code grant came from the code's client with a verifier that fits the challenge stored at authorize (section 4.6 of RFC 7636); it has an ID token exactly when `openid` was granted, with the nonce of the authorization (section 2 of OpenID Connect Core 1.0). |
| OauthStory.CodeAnswersFit | src/oauth/oauth.service.ts:147-226 | Read off requests and answers alone, under every interleaving: for each answered code grant there is an authorize request answered with its code, and client, verifier, scope, ID token, user and nonce fit that request's challenge, method and parameters, and those of any other request answered with the code. |
| OauthStory.OneAsker | src/oauth/oauth.service.ts:146-168 | Two authorize requests answered with one code asked the same. |
| OauthStory.IdTokenConsented | src/oauth/oauth.service.ts:82-98 | A field an ID token shows was named in an answered consent request of that user for that client. |
| OauthStory.AccessTokenStory | src/oauth/oauth.service.ts:228-241 | What userinfo ever shows for the access token of an answered code grant is about the user who authorized, lies within the scope of the answer, and was named in an answered consent. |
| OauthStory.RefreshCarriesOn | src/oauth/oauth.service.ts:313-337 | The tokens of an answered refresh carry on the chain of the token presented. |
| OauthStory.StepSays | src/oauth/oauth.service.ts:82-168 | The events of a step say exactly what its request asked, and come with its answer. |
| OauthStory.DeclaredWasStored | src/client/client.service.ts:185-199 | What counts as declared was in the client's row at some point of the run. |
| OauthStory.AllowedWasStored | src/client/client.service.ts:185-199 | A client that counts as allowed ID tokens had the permission in its row at some point of the run. |
| OauthInterleaved.DeletionIsFinal | src/user/user.service.ts:302-311 | After a user is deleted no later state has a row of the user in any table, and the only answers with data of the user are those given before: requests in progress at the deletion and later ones add none. |
| OauthInvariants.RecordKeeps | src/oauth/oauth.service.ts:82-168 | Recording any event keeps the order declaration, consent, authorization, token. |
| OauthInvariants.DeclareKeeps | src/client/client.service.ts:185-199 | So does a client update, after which the stored client's scopes are all declared. |
| OauthSafety.StepKeeps | src/oauth/oauth.service.ts:82-510 | Any single step of any handler keeps stored data in agreement with the history. |
| OauthSafety.StatementKeeps | src/client/client.service.ts:185-199 | Any write of the rest of the service does as well, including client updates between two steps of a request. |
| OauthSerialTheorems.SerialReachable | src/oauth/oauth.service.ts:193-384 | Every serial run keeps: a row is delivered, about to be, or contains `openid`; one live delivered row for each authorization; a used code leads nowhere; every deadline. |
| OauthSerialTheorems.OneLiveRefreshToken | src/oauth/oauth.service.ts:328-373 | Of all refresh tokens that go back to one authorization at most one is both delivered in an answer and still stored. |
| OauthSerialTheorems.AccessDeadline | src/oauth/oauth.service.ts:313-326 | A user access token that can still be read after k rotations was authorized at most 600 + k * 2592000 + 10800 seconds ago. |
| OauthSerialTheorems.UserinfoDeadline | src/oauth/oauth.service.ts:454-489 | `userinfo` accepts a user token no later than that. |
| OauthSerialTheorems.CodeOnce | src/oauth/oauth.service.ts:193-226 | No authorization code is answered twice. |
| OauthSerialTheorems.LookupConsumes | src/oauth/oauth.service.ts:198-226 | A lookup that finds a code removes it and no other, even when the client or verifier check then fails. |
| OauthSerialTheorems.SpentStays | src/oauth/oauth.service.ts:198-226 | A used code stays used, and no later request is answered with it. |
| OauthServe.ServeIsSerialRun | src/oauth/oauth.service.ts:82-510 | Serving a request in one go, as the class methods do, is a run of the serial machine with the same world and answer. |
| OauthServe.CodeConsumedForGood | src/oauth/oauth.service.ts:198-226 | In every reachable state, serving a grant for a stored code ends that code in every continuation. |
| OauthServe.ConsentIff | src/oauth/oauth.service.ts:82-98 | A consent is stored exactly when it covers what the client requires and nothing it did not declare; then it replaces the row and nothing else, and the answer is empty. |
| OauthServe.AuthorizeIff | src/oauth/oauth.service.ts:106-168 | A code is issued exactly within consent, registered urls and the ID token rules; for ten minutes it stands for client, user, challenge, method, redirect url, scope and nonce as asked, and nothing else is stored. |
| OauthAnswers.ConsentRefused | src/oauth/oauth.service.ts:82-98 | Which refusal a consent gets, the first that applies, and that it changes nothing. |
| OauthAnswers.AuthorizeRefused | src/oauth/oauth.service.ts:106-144 | The same of authorize, for each of its six reasons. |
| OauthServe.CodeGrantIff | src/oauth/oauth.service.ts:193-287 | Exactly when a code grant succeeds. |
| OauthServe.RefreshIff | src/oauth/oauth.service.ts:294-384 | In every reachable state a refresh succeeds exactly for a stored, unexpired token of the client without `openid`; the whole world after success (row replaced), after the `openid` refusal (new access token and new row stored, old row kept) and after any other (nothing changed). |
| OauthAnswers.RefreshRefusedBecause | src/oauth/oauth.service.ts:298-311 | Which refusal a token that cannot be redeemed gets. |
| OauthAnswers.ExpiredBetweenChecks | src/oauth/oauth.service.ts:304-307 | When the clock passes the end of the row between the two checks the row goes and the grant is refused. |
| OauthAnswers.RefreshWithNonce | src/oauth/oauth.service.ts:340-383 | What the branch that no reachable row takes would do with a nonce: an ID token that carries it, and the old row gone. |
| OauthWitness.OpenidRefreshRefused | src/oauth/oauth.service.ts:339-343 | A reachable refusal: for every user row, secret, url, challenge and nonce of 1 to 255 characters a serial run of requests that the request objects let through ends with a delivered, stored, unexpired refresh token with `openid`; redeeming it fails, keeps its row, adds a second one and leaves a live access token. |
| OauthServe.CredentialsIff | src/oauth/oauth.service.ts:391-428 | Exactly when a client gets its own token; the answer is the token stored for ninety days, with that lifetime and its scope. |
| OauthAnswers.CredentialsRefused | src/oauth/oauth.service.ts:396-406 | Which refusal a client gets for its own token, and that it changes nothing. |
| OauthAnswers.ClientTokenServes | src/oauth/oauth.service.ts:408-427 | The token answered can be read for the lifetime answered and no longer. |
| OauthServe.RevokeIff | src/oauth/oauth.service.ts:434-446 | Exactly when a revocation takes effect; it touches nothing but the one token. |
| OauthAnswers.RevokeRefused | src/oauth/oauth.service.ts:439-445 | Which refusal a revocation gets. |
| OauthInterleaved.DeadTokensStayDead | src/oauth/oauth.service.ts:434-461 | Under every interleaving: once a drawn token cannot be read, being revoked or expired, no continuation reads it again and no userinfo request that arrives later is answered with it. |
| OauthServe.UserinfoIff | src/oauth/oauth.service.ts:454-510 | Userinfo changes nothing, and exactly when it answers: for a client's own token only about a user whose consent lies within the token's scope. |
| OauthAnswers.UserinfoAnswer | src/oauth/oauth.service.ts:491-509 | Each value of a userinfo answer is the column of its name in the row of the user asked for, released by its scope, both flags included. |
| OauthAnswers.UserinfoRefused | src/oauth/oauth.service.ts:454-489 | Which refusal userinfo gives. |
| OauthServe.ClientAnswerWithinConsent | src/oauth/oauth.service.ts:474-509 | The answer to a client's own token stays within the consent exactly if the token has no client scope beyond the consent. |
| OauthWitness.ClientSeesBeyondConsent | src/oauth/oauth.service.ts:463-509 | A reachable answer: for every user row, url and client secret a serial run ends with a consent to the profile alone and a token of the client's own for which userinfo answers with the user's email. |
| OauthServe.InfoExactly | src/oauth/oauth.service.ts:491-509 | The fields given are exactly those of the client scopes in the token. |
| OauthServe.UserinfoNoninterference | src/oauth/oauth.service.ts:454-510 | A userinfo answer does not depend on any field outside the token's scope. |
| OauthServe.CodeGrantNoninterference | src/oauth/oauth.service.ts:193-287 | A code grant's answer, ID token included, does not depend on any field outside the code's scope. |
| OauthServe.ProjectionsAgree | src/oauth/oauth.service.ts:260-275 | The ID token and the userinfo answer for the access token granted with it agree on every field they share, for the same user row. |
| OauthServe.LaddersAgree | src/oauth/oauth.service.ts:491-509 | The ladders of the ID token and of userinfo, written out twice in the source, release the same claims. |
| OauthServe.CodeGrantLeaves | src/oauth/oauth.service.ts:228-286 | The whole effect of an answered code grant: code gone, three-hour access token, with `offline_access` a thirty-day row without nonce; and its whole answer, which reports ninety days with or without a refresh token. |
| OauthAnswers.CodeGrantAnswer | src/oauth/oauth.service.ts:254-286 | The ID token of a code grant: there exactly if `openid` was granted, each claim the column of its name, audience and nonce those stored with the code, and a scope text that reads back as the scope. |
| OauthAnswers.CodeGrantRefused | src/oauth/oauth.service.ts:198-258 | Which refusal a code grant gets and what it leaves: nothing for an unknown code, the code gone after a failed check, code gone and access token stored when the user is gone by then. |
| OauthService.OauthRepository.DeleteRefreshTokenByToken | src/oauth/oauth.repository.ts:65-83 | Removes the row, or fails when it is already gone. |
| OauthAnswers.CacheNotReread | src/oauth/oauth.service.ts:193-510 | Whatever other requests do to codes and access tokens between two steps, a request that has read its own goes on, answers and leaves the tables as if nothing had happened. |
| OauthAnswers.ClientNotReread | src/oauth/oauth.service.ts:119-168 | An authorization goes by the client row it read first, whatever is updated before it reads the consent. |
| OauthAnswers.RowNotReread | src/oauth/oauth.service.ts:301-346 | A refresh goes by the row it found, until it deletes it. |
| OauthService.OauthService.Consent | src/oauth/oauth.service.ts:82-98 | Leaves the world and gives the answer of running its steps one after the other. |
| OauthService.OauthService.Authorize | src/oauth/oauth.service.ts:106-168 | The same of authorize. |
| OauthService.OauthService.CodeGrant | src/oauth/oauth.service.ts:193-287 | The same of the code grant, on every path. |
| OauthService.OauthService.RefreshTokenGrant | src/oauth/oauth.service.ts:294-384 | The same of the refresh grant, on every path. |
| OauthService.OauthService.ClientCredentialsGrant | src/oauth/oauth.service.ts:391-428 | The same of the client credentials grant. |
| OauthService.OauthService.Revoke | src/oauth/oauth.service.ts:434-446 | The same of revoke. |
| OauthService.OauthService.Userinfo | src/oauth/oauth.service.ts:454-510 | The same of userinfo, which changes nothing. |
| OauthService.ServedAnswers | src/oauth/oauth.service.ts:82-510 | What the class methods are proved to give is what the handler answers or refuses with. |
| Database.StatementKeepsReferential | prisma/schema.prisma:68-124 | Every write keeps all foreign keys and the uniqueness of emails. |
| Database.DeletionLeavesNothing | prisma/schema.prisma:72-121 | The cascades of a user deletion leave no membership, consent, refresh token or authenticator of the user. |
| Database.RowWritesIff | prisma/schema.prisma:21-66 | When the other writes take effect, and the one row each touches. |
| Database.Without | src/client/client.service.ts:190-194 | The filtered list has exactly the scopes that are not required. |
| ClientMembership.GuardIff | src/client/guard/role.guard.ts:27-69 | Which roles the guard lets through for each required role. |
| ClientMembership.GuardEdges | src/client/guard/role.guard.ts:44-52 | A route without a required role lets everyone through; a missing parameter is forbidden. |
| ClientMembership.PerformKeepsOneOwner | src/client/client.service.ts:117-157 | Every guarded request keeps at most one owner for each client. |
| ClientMembership.OwnerBefore | src/client/guard/role.guard.ts:27-69 | An owner was the owner before, made the client just now, or was handed it by its owner, who then is not one any more. |
| ClientMembership.OwnedIff | src/client/client.service.ts:126-157 | An existing client is owned after a request exactly if it was before and the request did not delete its owner's account. |
| ClientMembership.OwnedAfterIff | src/client/client.service.ts:126-157 | The same over every run, through any number of transfers. |
| ClientMembership.OwnerlessForever | src/client/client.controller.ts:214-223 | A client without an owner stays without one in every continuation. |
| ClientMembership.MigrationOwners | prisma/migrations/20251004110421_add_role_and_user_client_relation/migration.sql:19-36 | After the migration a client has at most one owner, and one exactly if a single user was linked to it: that user; the links are the memberships and everyone else is a plain member. |
| ClientMembership.OneOwnerAlways | prisma/migrations/20251004110421_add_role_and_user_client_relation/migration.sql:27-36 | From the migrated table on, every reachable state has at most one owner for each client. |
| ClientMembership.RegisteredClientOwner | src/client/client.repository.ts:83-116 | A client registered in any run has one owner, its creator at first, until the account of its current owner is deleted, and none ever after. |
| ClientMembership.SetRoleIff | src/client/client.service.ts:142-157 | Exactly when a role change takes effect; handing over ownership swaps two roles and touches no other. |
| ClientMembership.RemoveMemberIff | src/client/client.service.ts:126-135 | Exactly when a member is removed; never the owner. |
| ClientMembership.AddMemberIff | src/client/client.repository.ts:236-268 | Exactly when a user is added, as a member, and no existing role changes; not found for an email nobody holds, a conflict for a holder who is a member already, forbidden for a caller who may not. |
| ClientMembership.RegisterClientIff | src/client/client.repository.ts:83-116 | Exactly when a registration succeeds; the client row and the owner's membership it adds. |
| ClientMembership.DeleteAccountIff | src/user/user.service.ts:302-311 | Exactly when an account is deleted; the user's row goes, and in the other tables exactly the rows that refer to the user. |
| ClientMembership.RoleRefusals | src/client/client.service.ts:126-157 | Which refusal a role change or a removal gets. |
| ClientMembership.UpdateClientIff | src/client/client.service.ts:185-199 | Exactly when an update takes effect; each column sent is written and every other kept, the optional scopes lose exactly the required ones when both lists come, and nothing else changes. |
| ClientMembership.UpdateScopes | src/client/client.service.ts:185-199 | Which scopes are both required and optional after an update, for each combination of lists sent. |
| ClientService.ClientRoleGuard.CanActivate | src/client/guard/role.guard.ts:39-69 | The guard's verdict, reading the membership table only. |
| ClientService.ClientRepository.TransferOwnership | src/client/client.repository.ts:329-365 | Both updates take effect or neither: a failed second one rolls the first one back. |
| ClientService.ClientService.AddMember | src/client/client.service.ts:117-119 | Behind the guard, the specified act. |
| ClientService.ClientService.RemoveMember | src/client/client.service.ts:126-135 | The same of removing a member. |
| ClientService.ClientService.SetRole | src/client/client.service.ts:142-157 | The same of a role change. |
| ClientService.ClientService.UpdateClient | src/client/client.service.ts:185-199 | The same of an update, whose body it filters first. |
| ClientService.Migrate | prisma/migrations/20251004110421_add_role_and_user_client_relation/migration.sql:19-36 | The INSERT and the UPDATE in order leave the specified table. |
| Verification.Reachable | src/verify/verify.service.ts:56-231 | In every run from any tables the stored codes are exactly the outstanding ones, every verification token and user flag is backed by an event or by the row at the start, every acceptance is justified. |
| Verification.FlagsJustified | src/user/user.service.ts:100-237 | From any tables at the start: to every user's email a code was sent and matched in time; a user with a verified phone number has one that parses as Korean and for which the same holds, by either route; a user with a student email has a student id the registry returned; excepted is only what a row began with and still has. |
| Verification.AcceptanceMatchesLatest | src/verify/verify.service.ts:80-128 | Each acceptance, by either service, matches the latest code sent to the subject, within 180 seconds, with no acceptance in between. |
| Verification.AcceptancesBounded | src/user/user.service.ts:205-237 | In every run the codes accepted for a subject, over both services, are at most the codes sent to it. |
| Verification.CountsBalance | src/verify/verify.service.ts:80-128 | The sharper count: accepted codes and the outstanding one, if any, are at most the codes sent. |
| Verification.ValidateIff | src/verify/verify.service.ts:80-128 | In every reachable state a code is accepted before registration exactly if it is the current code of the subject. |
| Verification.VerifyPhoneIff | src/user/user.service.ts:205-237 | The same for a phone number of an existing account, with the account and the column width as further conditions. |
| Verification.RegisterIff | src/user/user.service.ts:100-198 | Exactly when a registration succeeds, and the one row it adds: its flags, and the salted hash in place of the password. |
| VerificationEffects.SendEmailIff | src/verify/verify.service.ts:56-73 | A mail that went out leaves the number drawn, in six digits, as the code of the lower-case address for three minutes; one that did not changes nothing. |
| VerificationEffects.SendPhoneIff | src/verify/verify.service.ts:196-231 | The same of a message, for numbers that parse as Korean. |
| VerificationEffects.ValidateEffect | src/verify/verify.service.ts:108-127 | An accepted code is exchanged for a token that vouches for its subject until it expires; the code is gone, other codes and tokens stay. |
| VerificationEffects.VerifyStudentIdIff | src/verify/verify.service.ts:147-161 | The registry's answer is exchanged for a token that vouches for it. |
| VerificationEffects.VerifyOwnStudentIdIff | src/user/user.service.ts:200-203 | Exactly when an account takes the registry's number, and the name, number and mark its row then has. |
| VerificationEffects.VerifyPhoneEffect | src/user/user.service.ts:205-237 | The number and mark the row then has, the code gone, and which refusal is given otherwise. |
| VerificationEffects.RegisterRefused | src/user/user.service.ts:110-184 | Which refusal a registration gets, the first that applies. |
| VerificationEffects.EmailRouteFits | src/user/user.service.ts:100-198 | Send a code, enter it in time, and the token that comes back meets the email condition of a registration, whose success then depends on its other conditions alone. |
| VerificationEffects.PhoneRouteFits | src/user/user.service.ts:205-237 | Send a code to a Korean number, enter it in time, and the account has the number, marked. |
| UserService.VerifyService.SendEmailCode | src/verify/verify.service.ts:56-73 | Stores the six-digit code for three minutes once the mail went out. |
| UserService.VerifyService.SendPhoneCode | src/verify/verify.service.ts:196-231 | The same for Korean numbers, refusing others. |
| UserService.VerifyService.ValidateCode | src/verify/verify.service.ts:80-128 | Exchanges the stored code for a signed token, or changes nothing. |
| UserService.UserRepository.DeleteUser | src/user/user.repository.ts:251-269 | Removes the row and, table by table, what the cascades remove. |
| UserService.UserService.Register | src/user/user.service.ts:100-198 | The checks in order, then the new row; a failed check changes nothing. |
| UserService.UserService.VerifyPhoneNumber | src/user/user.service.ts:205-237 | Updates the row and then uses up the code; a failed update leaves the code. |
| UserService.UserService.DeleteUser | src/user/user.service.ts:302-311 | Deletes exactly for the right password, and leaves nothing of the user. |
| Sessions.Conservation | src/auth/auth.service.ts:61-99 | In every run, logins that gave out a session less logouts that ended one are the live sessions plus the expired ones. |
| Sessions.RenewIff | src/auth/auth.service.ts:67-99 | In every reachable state a refresh is answered exactly for a token whose session neither ended nor expired and whose login's user still exists. |
| Sessions.RenewalKeepsOwner | src/auth/auth.service.ts:67-99 | A refresh keeps the number of sessions, the login the session goes back to and its user. |
| Sessions.SessionLifetime | src/auth/auth.service.ts:79-89 | A session given out by a login or refresh can be read for its whole lifetime and no longer, others as before. |
| Sessions.RefreshRefused | src/auth/auth.service.ts:67-77 | A refused refresh is unauthorized and leaves everything as it was. |
| Sessions.LogoutEffect | src/auth/auth.service.ts:61-65 | A logout ends the one session. |
| Sessions.OneSessionPerLogin | src/auth/auth.service.ts:175-193 | Through any number of refreshes a login has at most one session, owned by the user who logged in. |
| Sessions.AcceptedOnce | src/auth/auth.service.ts:67-99 | At most one request in a run ends the session of a token, by refresh or logout, and no later refresh finds it. |
| Sessions.ChallengeOnce | src/auth/auth.service.ts:124-137 | Any answer to a passkey challenge uses it up, whether or not it logs in. |
| Sessions.ChallengeLifetime | src/auth/auth.service.ts:110-137 | A challenge asked for can be answered for ten minutes and no longer. |
| Sessions.PasskeyRefused | src/auth/auth.service.ts:124-156 | Which refusal a passkey login gets, and that it costs the challenge. |
| Sessions.LoginIff | src/auth/auth.service.ts:51-59 | Exactly when a password login is answered, and the one session it adds. |
| Application.RegisteredCanLogin | src/user/user.service.ts:186-197 | Who registers can log in with the lower-case email and the password of the registration exactly if bcrypt accepts a password for its own hash, while the account is unchanged. |
| Sessions.PasskeyLoginIff | src/auth/auth.service.ts:124-162 | Exactly when a passkey login is answered, and for whom. |
| AuthService.AuthService.Login | src/auth/auth.service.ts:51-59 | Leaves the world and gives the answer specified. |
| AuthService.AuthService.Logout | src/auth/auth.service.ts:61-65 | Ends the session under the token, if it is alive. |
| AuthService.AuthService.Refresh | src/auth/auth.service.ts:67-99 | Replaces the session, or refuses and keeps it. |
| AuthService.AuthService.VerifyAuthentication | src/auth/auth.service.ts:124-162 | Uses the challenge up before it looks at the answer. |
| Application.Application.Oauth | src/oauth/oauth.service.ts:82-510 | With all services on one cache and one database: an OAuth request changes the OAuth state as specified, leaves sessions, challenges and verification codes as they were, and keeps every service in order. |
| Application.Application.Login | src/auth/auth.service.ts:51-193 | The same of a request to the login service, which leaves the OAuth and verification state alone. |
| Application.Application.Verify | src/verify/verify.service.ts:56-231 | The same of a request to the verification and user services. |
| Application.Application.Manage | src/client/client.service.ts:84-199 | The same of a request to the client service and of the deletion of an account, which leave the cache alone. |
| Application.Serve | src/oauth/oauth.service.ts:82-510 | Any requests to any of the services in any order keep every service in order. |
| Application.ServeAsRun | src/oauth/oauth.service.ts:82-510 | Any calls to any of the services, with a clock that does not go back and fresh random strings: what the OAuth service then finds in cache and tables is the world of a run of the serial machine. |
| Application.CallRests | src/oauth/oauth.service.ts:82-510 | Whatever one call does to the state of the OAuth service, the serial machine can do: time passes, and a request is served, or at most one statement is written. |
| Application.Start | src/oauth/oauth.service.ts:82-510 | The same from the start of the service on an empty cache and database, so that every theorem about serial runs from the initial state speaks of it. |
| Application.FinishKeeps | prisma/schema.prisma:68-124 | Serving any OAuth request keeps all foreign keys and the uniqueness of emails. |
| Prefixes.PrefixesApart | src/oauth/oauth.service.ts:38-39 | No two of the seven prefixes of the services can share a key, `passkey` and `passkeyRegister` included. |
| Store.FlatRefinesFamily | libs/redis/src/redis.service.ts:21-62 | Every run of set, get, del and waiting gets the same answers from the flat keyspace as from separate expiring maps, one for each colon-free prefix. |
| Store.FlatRefinesFamilyFromEmpty | libs/redis/src/redis.service.ts:21-62 | The same from an empty keyspace, without any assumption on the state. |
| Store.SetThenGet | libs/redis/src/redis.service.ts:21-42 | What was set can be read for its lifetime in seconds and no longer; other keys read as before. |
| Store.DelThenGet | libs/redis/src/redis.service.ts:35-62 | What was deleted is never read again; other keys read as before. |
| Store.KeyInjective | libs/redis/src/redis.service.ts:27-32 | With colon-free prefixes the flat key determines prefix and key, even when the key has colons. |
| Store.ColonFreeApart | libs/redis/src/redis.service.ts:27-32 | Different colon-free prefixes are apart. |
| Store.KeysDisjoint | libs/redis/src/redis.service.ts:27-32 | No keys of two prefixes collide exactly if the prefixes are apart: neither `prefix:` begins the other. |
| Store.SliceOfSet | libs/redis/src/redis.service.ts:21-33 | A set under one prefix changes its own map and the map of no prefix apart from it. |
| Store.SliceOfDel | libs/redis/src/redis.service.ts:56-62 | The same of a delete. |
| Store.RedisService.SetValue | libs/redis/src/redis.service.ts:21-33 | For any prefix, with or without colons: its map gains the entry, and the map of every prefix apart from it stays. |
| Store.RedisService.GetOrThrow | libs/redis/src/redis.service.ts:44-54 | Fails for a missing and for a falsy value alike. |
| Store.RedisService.DelValue | libs/redis/src/redis.service.ts:56-62 | For any prefix: its map loses the key, and the map of every prefix apart from it stays. |
| ScopeText.PrintOfParse | src/oauth/dto/req.dto.ts:112-119 | Printing an accepted scope text gives it back; the accepted list is non-empty and within the allowed scopes (section 3.3 of RFC 6749). |
| ScopeText.ParseOfPrint | src/oauth/dto/res.dto.ts:78-85 | Reading the printed list gives it back exactly if it is non-empty. |
| OauthProtocol.ConsentIsParsed | src/oauth/dto/req.dto.ts:25-33 | A scope list is accepted for a consent exactly if some scope text reads as it. |
| OauthProtocol.AuthorizationIsParsed | src/oauth/dto/req.dto.ts:112-119 | The scope lists accepted for an authorization or a client's own token are exactly those some scope text reads as. |
| ScopeText.JoinOfSplit | src/oauth/dto/req.dto.ts:216-223 | Splitting and joining at a separator gives any text back. |
| ScopeText.SplitOfJoin | src/oauth/dto/res.dto.ts:78-85 | Joining and splitting gives back any non-empty list of words without the separator. |
| ScopeText.WireNames | src/oauth/types/scope.type.ts:3-7 | Each wire name reads as the one scope of that name, where that scope is allowed. |
| SixDigits.FormatRoundTrip | src/verify/verify.service.ts:57-60 | Every number below a million becomes six digits that read back as the number. |
| SixDigits.FormatSurjective | src/verify/verify.service.ts:214-217 | Every six-digit text is the code of exactly one number. |
| BasicAuth.DecodeOfEncode | src/client/client.service.ts:287-291 | Base64 (section 4 of RFC 4648) gives back any octets. |
| BasicAuth.FourSymbols | src/client/client.service.ts:287-291 | The four symbols of three octets make the same number, most significant first, with padding for a shorter end. |
| BasicAuth.SymbolInAlphabet | src/client/client.service.ts:287-291 | The symbols are those of the alphabet of section 4 of RFC 4648, in its order. |
| BasicAuth.UrlSafeDecodes | src/oauth/guards/basicAuth.guard.ts:12-15 | The URL alphabet decodes as the standard one. |
| Utf8.Table | src/oauth/guards/basicAuth.guard.ts:12-15 | The octets of a character follow the table of section 3 of RFC 3629. |
| Utf8.IllFormed | src/oauth/guards/basicAuth.guard.ts:12-15 | An octet that begins no well-formed sequence reads as one replacement character. |
| Utf8.DecodeOfEncode | src/oauth/guards/basicAuth.guard.ts:12-15 | UTF-8 octets (RFC 3629) read back as the text, for every text. |
| BasicAuth.SecretAlphanumeric | src/client/client.service.ts:287-291 | A generated secret is alphanumeric whatever the random octets. |
| BasicAuth.HeaderRoundTrip | src/oauth/guards/basicAuth.guard.ts:9-22 | For all texts, in UTF-8: the guard recovers id and secret from their header (section 2 of RFC 7617) exactly if neither has a colon. |
| BasicAuth.CutAtSecondColon | src/oauth/guards/basicAuth.guard.ts:16-22 | With further colons the secret is cut at the second one. |
| BasicAuth.NoCredentials | src/oauth/guards/basicAuth.guard.ts:9-15 | Headers without credentials are left alone, and `Basic` alone throws. |
| BasicAuth.NoSecret | src/oauth/guards/basicAuth.guard.ts:16 | Credentials without a colon are an id without a secret. |
| BasicAuth.GeneratedCredentialsRoundTrip | src/oauth/guards/basicAuth.guard.ts:9-22 | For every uuid and every generated secret the guard recovers exactly that pair. |
| BasicAuth.CanActivate | src/oauth/guards/basicAuth.guard.ts:6-27 | Lets every readable request through and overwrites both spellings of the credentials, and nothing else, in its body. |

## Left out

- Code single use, deadlines, ownership, verification codes and sessions under interleavings: the code reads and then
  writes across awaits there, so these are stated for serial runs. One live refresh token for each authorization is
  serial too; what holds of it under interleavings is `OauthChains.LiveTokensBounded`.
- OauthService.OauthService.Authorize: the answer is the code; the redirect URL text and the `state` parameter are left out.
- OauthService.OauthService.RefreshTokenGrant: served in one go the clock stands still, so the second expiry check cannot
  fail there; the stepwise model keeps that check and the deletion behind it.
- OauthService.OauthService.Userinfo: a user's picture is the stored value; the object-store URL made of it is left out.
- Sessions.Conservation: the lifetime of a session is an opaque number of seconds, because the configured value is in
  milliseconds and is handed to Redis as seconds.
- Sessions.LoginIff: takes the email as the request object passes it on, already in lower case.
- Sessions.PasskeyLoginIff: whether the signature checks is a parameter, and the passkey counter is not kept, so the
  counter update and its failure are left out.
- AuthService.AuthService.VerifyAuthentication: leaves out the same counter update.
- Verification.ValidateIff: codes are compared as texts; the byte lengths and the constant-time comparison are not modelled.
- BasicAuth.CanActivate: the decoder takes both base64 alphabets and stops at the first other character; the runtime's
  skipping of white space and of stray characters is not modelled.
- BasicAuth.HeaderRoundTrip: texts are sequences of Unicode characters; lone surrogates are not modelled.
- ClientMembership.RegisteredClientOwner: client rows are never deleted by the service, which only records a request.
- Application.Application.Verify: the events that the theorems about verification count are not kept by the classes.
- Application.ServeAsRun: ties the calls to the runs of the OAuth machine; the runs of verification, sessions and client
  ownership are not tied to the classes beyond the single request.
- Controllers and the guard for the user's own JWT: the caller of a request is a parameter.
- Request validation other than scope texts, the challenge method, the length of a nonce, the scope lists of a client
  update and the width of a phone number.
- Key export, discovery metadata and the signing of tokens: an ID token is its claims.
- Mail, messages, Slack and object storage; the failures of these services other than a code that could not be sent.
- Registry failures other than an answer without a number; database errors other than the violations of keys and widths.
- Passkey registration, password changes, profile texts, client and user pictures, names and icons: writes without a property
  of their own; they appear as arbitrary writes in the runs.
