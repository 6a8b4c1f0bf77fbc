/** The Redis cache: one flat keyspace of `prefix:key` entries that expire. */
module Store {
  import opened Types

  /** The parsed JSON values the services keep in the cache. */
  datatype CacheValue =
    | Code(code: AuthorizeCache)
    | Token(token: TokenCache)
    | Session(userUuid: string)
    | Text(text: string)

  /** An entry and the last millisecond at which it can still be read. */
  datatype Timed<+V> = Timed(value: V, expiresAt: nat)

  type Cache<V> = map<string, Timed<V>>

  /** JavaScript's `!value` on a parsed value: of these only the empty string is falsy. */
  predicate Truthy(v: CacheValue) {
    v.Text? ==> v.text != ""
  }

  // ---------------------------------------------------------------- one expiring map

  predicate Live<V>(m: Cache<V>, key: string, now: nat) {
    key in m && now <= m[key].expiresAt
  }

  function Get<V>(m: Cache<V>, key: string, now: nat): Option<V> {
    if Live(m, key, now) then Some(m[key].value) else None
  }

  /** `SET key value EX ttl`: lifetimes are given in seconds, the clock runs in milliseconds. */
  function Set<V>(m: Cache<V>, key: string, value: V, ttl: nat, now: nat): Cache<V> {
    m[key := Timed(value, now + ttl * 1000)]
  }

  /** `DEL key`. An expired entry is already out of reach of every command; the model keeps it as a record. */
  function Del<V>(m: Cache<V>, key: string, now: nat): Cache<V> {
    if Live(m, key, now) then m - {key} else m
  }

  /** What was set can be read for its lifetime in seconds and no longer; other keys read as before. */
  lemma SetThenGet<V>(m: Cache<V>, key: string, value: V, ttl: nat, now: nat, k: string, later: nat)
    ensures Get(Set(m, key, value, ttl, now), k, later) ==
              if k != key then Get(m, k, later)
              else if later <= now + ttl * 1000 then Some(value) else None
  {
  }

  /** What was deleted is never read again; other keys read as before. */
  lemma DelThenGet<V>(m: Cache<V>, key: string, now: nat, k: string, later: nat)
    requires now <= later
    ensures Get(Del(m, key, now), k, later) == if k != key then Get(m, k, later) else None
  {
  }

  // ---------------------------------------------------------------- the flat keyspace

  function Key(prefix: string, key: string): string {
    prefix + ":" + key
  }

  predicate ColonFree(s: string) {
    forall i :: 0 <= i < |s| ==> s[i] != ':'
  }

  lemma KeyParts(prefix: string, key: string)
    ensures |Key(prefix, key)| == |prefix| + 1 + |key|
    ensures Key(prefix, key)[..|prefix| + 1] == prefix + ":"
    ensures Key(prefix, key)[|prefix| + 1..] == key
  {
  }

  lemma BothBegin(a: string, b: string, s: string)
    requires a <= s && b <= s
    ensures a <= b || b <= a
  {
  }

  /** Neither `prefix:` begins the other. */
  predicate Apart(p: string, q: string) {
    !(p + ":" <= q + ":") && !(q + ":" <= p + ":")
  }

  /** Two prefixes can never collide, whatever the keys, if and only if they are apart. */
  lemma KeysDisjoint(p: string, q: string)
    ensures (forall k, l :: Key(p, k) != Key(q, l)) <==> Apart(p, q)
  {
    if p + ":" <= q + ":" {
      var rest := (q + ":")[|p| + 1..];
      assert Key(q, "") == Key(p, rest);
    } else if q + ":" <= p + ":" {
      var rest := (p + ":")[|q| + 1..];
      assert Key(p, "") == Key(q, rest);
    } else {
      forall k, l ensures Key(p, k) != Key(q, l) {
        if Key(p, k) == Key(q, l) {
          KeyParts(p, k);
          KeyParts(q, l);
          BothBegin(p + ":", q + ":", Key(p, k));
        }
      }
    }
  }

  /** With colon-free prefixes the flat key determines both parts, even when the key holds colons. */
  lemma KeyInjective(p: string, q: string, k: string, l: string)
    requires ColonFree(p) && ColonFree(q)
    ensures Key(p, k) == Key(q, l) <==> p == q && k == l
  {
    var s, t := Key(p, k), Key(q, l);
    KeyParts(p, k);
    KeyParts(q, l);
    assert s[|p|] == ':' && t[|q|] == ':';
    assert forall i :: 0 <= i < |p| ==> s[i] == p[i];
    assert forall i :: 0 <= i < |q| ==> t[i] == q[i];
    if s == t {
      assert |p| == |q|;
      assert p == s[..|p|] && q == t[..|q|];
    }
  }

  /** Different colon-free prefixes are apart. */
  lemma ColonFreeApart(p: string, q: string)
    requires ColonFree(p) && ColonFree(q) && p != q
    ensures Apart(p, q)
  {
    hide Key, ColonFree, Apart;
    forall k, l ensures Key(p, k) != Key(q, l) {
      KeyInjective(p, q, k, l);
    }
    KeysDisjoint(p, q);
  }

  /** Under the same prefix or under prefixes that are apart, the flat key determines both parts. */
  lemma KeyDetermines(p: string, q: string, k: string, l: string)
    requires p == q || Apart(p, q)
    ensures Key(p, k) == Key(q, l) <==> p == q && k == l
  {
    if p == q {
      KeyParts(p, k);
      KeyParts(q, l);
    } else {
      KeysDisjoint(p, q);
    }
  }

  /** The keys stored under a prefix. */
  function KeysUnder(keys: set<string>, prefix: string): set<string> {
    set full | full in keys && prefix + ":" <= full :: full[|prefix| + 1..]
  }

  lemma KeysUnderMember(keys: set<string>, prefix: string)
    ensures forall k :: k in KeysUnder(keys, prefix) <==> Key(prefix, k) in keys
  {
    forall k ensures k in KeysUnder(keys, prefix) <==> Key(prefix, k) in keys {
      KeyParts(prefix, k);
      if Key(prefix, k) in keys {
        assert prefix + ":" <= Key(prefix, k);
      }
      if k in KeysUnder(keys, prefix) {
        var full :| full in keys && prefix + ":" <= full && k == full[|prefix| + 1..];
        assert full == Key(prefix, k);
      }
    }
  }

  /** The part of the flat keyspace that lies under a prefix, as a map of its own. */
  function Slice<V>(data: Cache<V>, prefix: string): Cache<V> {
    KeysUnderMember(data.Keys, prefix);
    map k | k in KeysUnder(data.Keys, prefix) :: data[Key(prefix, k)]
  }

  lemma SliceMember<V>(data: Cache<V>, prefix: string)
    ensures forall k :: k in Slice(data, prefix) <==> Key(prefix, k) in data
    ensures forall k :: k in Slice(data, prefix) ==> Slice(data, prefix)[k] == data[Key(prefix, k)]
  {
    KeysUnderMember(data.Keys, prefix);
  }

  lemma SliceOfEmpty<V>(prefix: string)
    ensures Slice<V>(map[], prefix) == map[]
  {
  }

  lemma SliceOfSet<V>(data: Cache<V>, p: string, key: string, entry: Timed<V>, q: string)
    requires p == q || Apart(p, q)
    ensures Slice(data[Key(p, key) := entry], q) ==
            if q == p then Slice(data, q)[key := entry] else Slice(data, q)
  {
    hide Key, Apart, Slice;
    var data' := data[Key(p, key) := entry];
    SliceMember(data, q);
    SliceMember(data', q);
    forall k ensures Key(p, key) == Key(q, k) <==> p == q && key == k {
      KeyDetermines(p, q, key, k);
    }
  }

  lemma SliceOfDel<V>(data: Cache<V>, p: string, key: string, now: nat, q: string)
    requires p == q || Apart(p, q)
    ensures Slice(Del(data, Key(p, key), now), q) ==
            if q == p then Del(Slice(data, q), key, now) else Slice(data, q)
  {
    hide Key, Apart, Slice;
    SliceMember(data, q);
    SliceMember(Del(data, Key(p, key), now), q);
    forall k ensures Key(p, key) == Key(q, k) <==> p == q && key == k {
      KeyDetermines(p, q, key, k);
    }
    var m := Slice(Del(data, Key(p, key), now), q);
    var n := if q == p then Del(Slice(data, q), key, now) else Slice(data, q);
    assert forall k :: k in m <==> k in n;
  }

  // ---------------------------------------------------------------- refinement over whole runs

  datatype Command =
    | SetCommand(prefix: string, key: string, value: CacheValue, ttl: nat)
    | GetCommand(prefix: string, key: string)
    | DelCommand(prefix: string, key: string)
    | Wait(dt: nat)

  predicate WellPrefixed(cs: seq<Command>) {
    forall i :: 0 <= i < |cs| ==> !cs[i].Wait? ==> ColonFree(cs[i].prefix)
  }

  /** What the flat keyspace answers to a run of commands. */
  function FlatRun(data: Cache<CacheValue>, now: nat, cs: seq<Command>): seq<Option<CacheValue>>
    decreases cs
  {
    if cs == [] then []
    else
      match cs[0]
      case SetCommand(p, k, v, ttl) => FlatRun(Set(data, Key(p, k), v, ttl, now), now, cs[1..])
      case GetCommand(p, k) => [Get(data, Key(p, k), now)] + FlatRun(data, now, cs[1..])
      case DelCommand(p, k) => FlatRun(Del(data, Key(p, k), now), now, cs[1..])
      case Wait(dt) => FlatRun(data, now + dt, cs[1..])
  }

  function Part(family: map<string, Cache<CacheValue>>, prefix: string): Cache<CacheValue> {
    if prefix in family then family[prefix] else map[]
  }

  /** What a family of separate maps, one for each prefix, answers to the same run. */
  function FamilyRun(family: map<string, Cache<CacheValue>>, now: nat, cs: seq<Command>): seq<Option<CacheValue>>
    decreases cs
  {
    if cs == [] then []
    else
      match cs[0]
      case SetCommand(p, k, v, ttl) =>
        FamilyRun(family[p := Set(Part(family, p), k, v, ttl, now)], now, cs[1..])
      case GetCommand(p, k) => [Get(Part(family, p), k, now)] + FamilyRun(family, now, cs[1..])
      case DelCommand(p, k) => FamilyRun(family[p := Del(Part(family, p), k, now)], now, cs[1..])
      case Wait(dt) => FamilyRun(family, now + dt, cs[1..])
  }

  ghost predicate Represents(data: Cache<CacheValue>, family: map<string, Cache<CacheValue>>) {
    forall p :: ColonFree(p) ==> Slice(data, p) == Part(family, p)
  }

  lemma SetKeepsRepresents(
      data: Cache<CacheValue>, family: map<string, Cache<CacheValue>>, p: string, key: string, entry: Timed<CacheValue>)
    requires Represents(data, family) && ColonFree(p)
    ensures Represents(data[Key(p, key) := entry], family[p := Part(family, p)[key := entry]])
  {
    hide Key, ColonFree, Slice;
    forall q | ColonFree(q) ensures Slice(data[Key(p, key) := entry], q)
                                    == Part(family[p := Part(family, p)[key := entry]], q) {
      if p != q {
        ColonFreeApart(p, q);
      }
      SliceOfSet(data, p, key, entry, q);
    }
  }

  lemma DelKeepsRepresents(
      data: Cache<CacheValue>, family: map<string, Cache<CacheValue>>, p: string, key: string, now: nat)
    requires Represents(data, family) && ColonFree(p)
    ensures Represents(Del(data, Key(p, key), now), family[p := Del(Part(family, p), key, now)])
  {
    hide Key, ColonFree, Slice, Del;
    forall q | ColonFree(q) ensures Slice(Del(data, Key(p, key), now), q)
                                    == Part(family[p := Del(Part(family, p), key, now)], q) {
      if p != q {
        ColonFreeApart(p, q);
      }
      SliceOfDel(data, p, key, now, q);
    }
  }

  /** Every run of commands with colon-free prefixes gets the same answers from the flat keyspace as from
      the separate maps. */
  lemma {:induction false} FlatRefinesFamily(
      data: Cache<CacheValue>, family: map<string, Cache<CacheValue>>, now: nat, cs: seq<Command>)
    requires WellPrefixed(cs)
    requires Represents(data, family)
    ensures FlatRun(data, now, cs) == FamilyRun(family, now, cs)
    decreases cs
  {
    hide Key, ColonFree, Slice, Del, Represents, Part;
    if cs != [] {
      assert cs[0].Wait? || ColonFree(cs[0].prefix);
      match cs[0]
      case SetCommand(p, k, v, ttl) =>
        SetKeepsRepresents(data, family, p, k, Timed(v, now + ttl * 1000));
        FlatRefinesFamily(Set(data, Key(p, k), v, ttl, now), family[p := Set(Part(family, p), k, v, ttl, now)], now,
          cs[1..]);
      case GetCommand(p, k) =>
        SlicesAgree(data, family, p, k, now);
        FlatRefinesFamily(data, family, now, cs[1..]);
      case DelCommand(p, k) =>
        DelKeepsRepresents(data, family, p, k, now);
        FlatRefinesFamily(Del(data, Key(p, k), now), family[p := Del(Part(family, p), k, now)], now, cs[1..]);
      case Wait(dt) =>
        FlatRefinesFamily(data, family, now + dt, cs[1..]);
    }
  }

  lemma SlicesAgree(data: Cache<CacheValue>, family: map<string, Cache<CacheValue>>, p: string, key: string, now: nat)
    requires Represents(data, family) && ColonFree(p)
    ensures Get(data, Key(p, key), now) == Get(Part(family, p), key, now)
  {
    hide Key, ColonFree, Slice;
    SliceMember(data, p);
    assert Slice(data, p) == Part(family, p);
  }

  /** The refinement from the start: an empty keyspace behaves as empty separate maps. */
  lemma FlatRefinesFamilyFromEmpty(now: nat, cs: seq<Command>)
    requires WellPrefixed(cs)
    ensures FlatRun(map[], now, cs) == FamilyRun(map[], now, cs)
  {
    forall p | ColonFree(p) ensures Slice<CacheValue>(map[], p) == Part(map[], p) {
      SliceMember<CacheValue>(map[], p);
    }
    FlatRefinesFamily(map[], map[], now, cs);
  }

  // ---------------------------------------------------------------- a prefix that holds texts

  function AsTexts(m: Cache<CacheValue>): Cache<string> {
    map k | k in m && m[k].value.Text? :: Timed(m[k].value.text, m[k].expiresAt)
  }

  ghost predicate AllTexts(m: Cache<CacheValue>) {
    forall k :: k in m ==> m[k].value.Text?
  }

  lemma AsTextsSet(m: Cache<CacheValue>, key: string, text: string, ttl: nat, now: nat)
    requires AllTexts(m)
    ensures AllTexts(Set(m, key, Text(text), ttl, now))
    ensures AsTexts(Set(m, key, Text(text), ttl, now)) == Set(AsTexts(m), key, text, ttl, now)
  {
  }

  lemma AsTextsDel(m: Cache<CacheValue>, key: string, now: nat)
    requires AllTexts(m)
    ensures AllTexts(Del(m, key, now)) && AsTexts(Del(m, key, now)) == Del(AsTexts(m), key, now)
  {
  }

  // ---------------------------------------------------------------- the service

  predicate ApartFromAll(prefixes: set<string>, q: string) {
    forall p :: p in prefixes ==> Apart(p, q)
  }

  /** Between the two keyspaces only entries under the given prefixes changed. */
  ghost predicate LeavesOthers<V(!new)>(before: Cache<V>, after: Cache<V>, prefixes: set<string>) {
    forall q :: ApartFromAll(prefixes, q) ==> Slice(after, q) == Slice(before, q)
  }

  class RedisService {
    var data: Cache<CacheValue>

    constructor ()
      ensures data == map[]
    {
      data := map[];
    }

    /** Stores under `prefix:key`: the map of that prefix gains the entry, and the map of every prefix that is apart
        from it stays as it was. */
    method SetValue(key: string, value: CacheValue, prefix: string, ttl: nat, now: nat)
      modifies this
      ensures Slice(data, prefix) == Set(old(Slice(data, prefix)), key, value, ttl, now)
      ensures LeavesOthers(old(data), data, {prefix})
    {
      hide Key, Apart, Slice;
      data := Set(data, Key(prefix, key), value, ttl, now);
      ghost var entry := Timed(value, now + ttl * 1000);
      SliceOfSet(old(data), prefix, key, entry, prefix);
      forall q | ApartFromAll({prefix}, q) ensures Slice(data, q) == old(Slice(data, q)) {
        if q != prefix {
          SliceOfSet(old(data), prefix, key, entry, q);
        } else {
          ApartFromItself(q);
        }
      }
    }

    lemma ApartFromItself(q: string)
      ensures !Apart(q, q)
    {
    }

    method GetValue(key: string, prefix: string, now: nat) returns (r: Option<CacheValue>)
      ensures r == Get(Slice(data, prefix), key, now)
    {
      hide Key, Slice;
      SliceMember(data, prefix);
      r := Get(data, Key(prefix, key), now);
    }

    /** Throws for a missing entry and for a falsy value alike. */
    method GetOrThrow(key: string, prefix: string, now: nat) returns (r: Result<CacheValue>)
      ensures r == match Get(Slice(data, prefix), key, now)
                   case Some(v) => if Truthy(v) then Ok(v) else Err(CacheNotFound)
                   case None => Err(CacheNotFound)
    {
      var value := GetValue(key, prefix, now);
      if value.None? || !Truthy(value.value) {
        return Err(CacheNotFound);
      }
      return Ok(value.value);
    }

    method DelValue(key: string, prefix: string, now: nat)
      modifies this
      ensures Slice(data, prefix) == Del(old(Slice(data, prefix)), key, now)
      ensures LeavesOthers(old(data), data, {prefix})
    {
      hide Key, Apart, Slice, Del;
      data := Del(data, Key(prefix, key), now);
      SliceOfDel(old(data), prefix, key, now, prefix);
      forall q | ApartFromAll({prefix}, q) ensures Slice(data, q) == old(Slice(data, q)) {
        if q != prefix {
          SliceOfDel(old(data), prefix, key, now, q);
        } else {
          ApartFromItself(q);
        }
      }
    }
  }
}
