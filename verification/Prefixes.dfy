/** The prefixes under which the services share the cache. */
module Prefixes {
  import opened Store

  const CODE_PREFIX := "code"
  const TOKEN_PREFIX := "token"
  const REFRESH_TOKEN_PREFIX := "refreshToken"
  const PASSKEY_PREFIX := "passkey"
  /** Challenges of passkey registrations, which this model leaves out; the name begins with that of the logins'. */
  const PASSKEY_REGISTER_PREFIX := "passkeyRegister"
  const EMAIL_PREFIX := "EmailVerificationCode"
  const PHONE_PREFIX := "PhoneNumberVerificationCode"

  const OAUTH_PREFIXES := {CODE_PREFIX, TOKEN_PREFIX}
  const AUTH_PREFIXES := {REFRESH_TOKEN_PREFIX, PASSKEY_PREFIX}
  const VERIFY_PREFIXES := {EMAIL_PREFIX, PHONE_PREFIX}
  const ALL_PREFIXES := OAUTH_PREFIXES + AUTH_PREFIXES + VERIFY_PREFIXES + {PASSKEY_REGISTER_PREFIX}

  lemma AllColonFree()
    ensures forall p :: p in ALL_PREFIXES ==> ColonFree(p)
  {
  }

  /** No key of one service is a key of another, nor of the same service under another prefix. */
  lemma PrefixesApart()
    ensures forall p, q :: p in ALL_PREFIXES && q in ALL_PREFIXES && p != q ==> Apart(p, q)
  {
    hide ColonFree, Apart, ALL_PREFIXES;
    AllColonFree();
    forall p, q | p in ALL_PREFIXES && q in ALL_PREFIXES && p != q ensures Apart(p, q) {
      ColonFreeApart(p, q);
    }
  }

  /** A write under one prefix, seen from the service that made it. */
  lemma Narrow<V(!new)>(before: Cache<V>, after: Cache<V>, p: string, own: set<string>)
    requires LeavesOthers(before, after, {p}) && p in own && own <= ALL_PREFIXES
    ensures forall q :: q in ALL_PREFIXES && q != p ==> Slice(after, q) == Slice(before, q)
    ensures LeavesOthers(before, after, own)
  {
    hide Slice, Apart;
    PrefixesApart();
    forall q | ApartFromAll({p}, q) ensures Slice(after, q) == Slice(before, q) {
    }
    forall q | q in ALL_PREFIXES && q != p ensures Slice(after, q) == Slice(before, q) {
      assert ApartFromAll({p}, q);
    }
    forall q | ApartFromAll(own, q) ensures Slice(after, q) == Slice(before, q) {
      assert ApartFromAll({p}, q);
    }
  }

  /** What one service writes, no other service sees. */
  lemma Spared<V(!new)>(before: Cache<V>, after: Cache<V>, own: set<string>)
    requires LeavesOthers(before, after, own) && own <= ALL_PREFIXES
    ensures forall q :: q in ALL_PREFIXES - own ==> Slice(after, q) == Slice(before, q)
  {
    hide Slice, Apart;
    PrefixesApart();
    forall q | q in ALL_PREFIXES - own ensures Slice(after, q) == Slice(before, q) {
      assert ApartFromAll(own, q);
    }
  }

  lemma LeavesOthersSelf<V(!new)>(a: Cache<V>, own: set<string>)
    ensures LeavesOthers(a, a, own)
  {
  }

  lemma LeavesOthersTwice<V(!new)>(a: Cache<V>, b: Cache<V>, c: Cache<V>, own: set<string>)
    requires LeavesOthers(a, b, own) && LeavesOthers(b, c, own)
    ensures LeavesOthers(a, c, own)
  {
    hide Slice, ApartFromAll;
    forall q | ApartFromAll(own, q) ensures Slice(c, q) == Slice(a, q) {
      assert Slice(b, q) == Slice(a, q);
    }
  }
}
