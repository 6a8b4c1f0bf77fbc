/** Values shared by every part of the identity provider. */
module Types {

  datatype Option<+T> = None | Some(value: T)

  /** The ways a handler can fail: the OAuth error codes, the HTTP exceptions of the
      framework, and `Internal` for everything that ends as a 500 response. */
  datatype Failure =
    | InvalidRequest | InvalidClient | InvalidGrant | InvalidScope
    | UnauthorizedClient | AccessDenied
    | BadRequest | Unauthorized | Forbidden | NotFound | Conflict
    | CacheNotFound | Internal

  datatype Result<+T> = Ok(value: T) | Err(error: Failure)

  /** The four scopes a client may declare, and the two that only shape the token answer. */
  datatype Scope = Profile | Email | PhoneNumber | StudentId | Openid | OfflineAccess

  predicate IsTokenScope(s: Scope) {
    s == Openid || s == OfflineAccess
  }

  predicate IsClientScope(s: Scope) {
    !IsTokenScope(s)
  }

  predicate AllClientScopes(ss: seq<Scope>) {
    forall s :: s in ss ==> IsClientScope(s)
  }

  /** JavaScript's `!x` on an optional string. */
  predicate Falsy(x: Option<string>) {
    x.None? || x.value == ""
  }

  /** Library functions whose inner working plays no part in the model.
      `hash` is the salted hash of a password, `bcrypt` compares a password with one; `phoneCountry` is `None` when the
      parser throws. */
  datatype Prims = Prims(
    sha256: string -> string,
    hash: (string, string) -> string,
    bcrypt: (string, string) -> bool,
    lower: string -> string,
    phoneCountry: string -> Option<string>)

  /** What an authorization code stands for. */
  datatype AuthorizeCache = AuthorizeCache(
    clientId: string, userUuid: string,
    codeChallenge: string, codeChallengeMethod: string,
    redirectUri: string, scope: seq<Scope>, nonce: Option<string>)

  datatype Audience = ToUser | ToClient

  /** What an access token stands for. */
  datatype TokenCache = TokenCache(to: Audience, sub: Option<string>, clientId: string, scope: seq<Scope>)

  /** `m` keeps every entry of `m0`. */
  ghost predicate Extends<K, V>(m0: map<K, V>, m: map<K, V>) {
    forall k :: k in m0 ==> k in m && m[k] == m0[k]
  }
}
