/** Client credentials in the `Authorization: Basic` header, and the secrets they carry. */
module BasicAuth {
  import opened Types
  import Utf8
  import ScopeText

  predicate IsBase64(c: char) {
    'A' <= c <= 'Z' || 'a' <= c <= 'z' || '0' <= c <= '9' || c == '+' || c == '/'
  }

  /** The decoder also takes the two symbols of the URL alphabet. */
  predicate IsDecodable(c: char) {
    IsBase64(c) || c == '-' || c == '_'
  }

  function Symbol(d: nat): (c: char)
    requires d < 64
    ensures IsBase64(c)
    ensures Sextet(c) == d
  {
    if d < 26 then 'A' + d as char
    else if d < 52 then 'a' + (d - 26) as char
    else if d < 62 then '0' + (d - 52) as char
    else if d == 62 then '+' else '/'
  }

  function Sextet(c: char): (d: nat)
    requires IsDecodable(c)
    ensures d < 64
  {
    if 'A' <= c <= 'Z' then (c - 'A') as nat
    else if 'a' <= c <= 'z' then (c - 'a') as nat + 26
    else if '0' <= c <= '9' then (c - '0') as nat + 52
    else if c == '+' || c == '-' then 62 else 63
  }

  /** `buffer.toString('base64')`, section 4 of RFC 4648: three octets make four symbols. */
  function Encode(bs: seq<Utf8.byte>): string {
    if |bs| == 0 then ""
    else
      var a := bs[0] as nat;
      if |bs| == 1 then [Symbol(a / 4), Symbol(a % 4 * 16), '=', '=']
      else
        var b := bs[1] as nat;
        if |bs| == 2 then [Symbol(a / 4), Symbol(a % 4 * 16 + b / 16), Symbol(b % 16 * 4), '=']
        else
          var c := bs[2] as nat;
          [Symbol(a / 4), Symbol(a % 4 * 16 + b / 16), Symbol(b % 16 * 4 + c / 64), Symbol(c % 64)] + Encode(bs[3..])
  }

  /** `Buffer.from(text, 'base64')`: symbols are read in groups of four; a shorter last group, or one
      cut short by a character outside the alphabet such as the padding, gives one or two octets. */
  function Decode(text: string): seq<Utf8.byte> {
    if |text| < 2 || !IsDecodable(text[0]) || !IsDecodable(text[1]) then []
    else
      var p, q := Sextet(text[0]), Sextet(text[1]);
      if |text| < 3 || !IsDecodable(text[2]) then [First(p, q)]
      else
        var r := Sextet(text[2]);
        if |text| < 4 || !IsDecodable(text[3]) then [First(p, q), Second(q, r)]
        else [First(p, q), Second(q, r), Third(r, Sextet(text[3]))] + Decode(text[4..])
  }

  function First(p: nat, q: nat): Utf8.byte
    requires p < 64 && q < 64
  {
    (p * 4 + q / 16) as Utf8.byte
  }

  function Second(q: nat, r: nat): Utf8.byte
    requires q < 64 && r < 64
  {
    (q % 16 * 16 + r / 4) as Utf8.byte
  }

  function Third(r: nat, s: nat): Utf8.byte
    requires r < 64 && s < 64
  {
    (r % 4 * 64 + s) as Utf8.byte
  }

  /** The six-bit parts of three octets give the octets back. */
  lemma PartsOfOctets(a: Utf8.byte, b: Utf8.byte, c: Utf8.byte)
    ensures First(a as nat / 4, a as nat % 4 * 16 + b as nat / 16) == a
    ensures First(a as nat / 4, a as nat % 4 * 16) == a
    ensures Second(a as nat % 4 * 16 + b as nat / 16, b as nat % 16 * 4 + c as nat / 64) == b
    ensures Second(a as nat % 4 * 16 + b as nat / 16, b as nat % 16 * 4) == b
    ensures Third(b as nat % 16 * 4 + c as nat / 64, c as nat % 64) == c
  {
  }

  lemma {:induction false} DecodeOfEncode(bs: seq<Utf8.byte>)
    ensures Decode(Encode(bs)) == bs
  {
    hide IsBase64, IsDecodable, Symbol, Sextet, First, Second, Third;
    SymbolsDecode();
    if |bs| == 1 {
      PartsOfOctets(bs[0], 0, 0);
      PaddingOutside();
    } else if |bs| == 2 {
      PartsOfOctets(bs[0], bs[1], 0);
      PaddingOutside();
    } else if |bs| >= 3 {
      DecodeOfEncode(bs[3..]);
      PartsOfOctets(bs[0], bs[1], bs[2]);
      assert Encode(bs)[4..] == Encode(bs[3..]);
      assert bs == [bs[0], bs[1], bs[2]] + bs[3..];
    }
  }

  /** The text with the URL alphabet's two symbols in place of the standard ones. */
  function UrlSafe(text: string): string {
    seq(|text|, i requires 0 <= i < |text| =>
      if text[i] == '+' then '-' else if text[i] == '/' then '_' else text[i])
  }

  /** Both alphabets read as the same octets, section 5 of RFC 4648. */
  lemma {:induction false} UrlSafeDecodes(text: string)
    ensures Decode(UrlSafe(text)) == Decode(text)
    decreases |text|
  {
    if |text| >= 4 {
      UrlSafeDecodes(text[4..]);
      assert UrlSafe(text)[4..] == UrlSafe(text[4..]);
    }
  }

  lemma SymbolsDecode()
    ensures forall c :: IsBase64(c) ==> IsDecodable(c)
  {
  }

  lemma PaddingOutside()
    ensures !IsDecodable('=')
  {
  }

  const UPPER: string := "ABCDEFGHIJKLMNOPQRSTUVWXYZ"
  const LOWER: string := "abcdefghijklmnopqrstuvwxyz"
  const DIGITS: string := "0123456789"

  /** The alphabet of section 4 of RFC 4648, in its order. */
  lemma SymbolInAlphabet(d: nat)
    requires d < 64
    ensures Symbol(d) == (UPPER + LOWER + DIGITS + "+/")[d]
  {
    if d < 26 {
      UpperCase(d);
    } else if d < 52 {
      LowerCase(d - 26);
    } else if d < 62 {
      assert DIGITS[d - 52] == '0' + (d - 52) as char;
    }
  }

  lemma UpperCase(k: nat)
    requires k < 26
    ensures UPPER[k] == 'A' + k as char
  {
  }

  lemma LowerCase(k: nat)
    requires k < 26
    ensures LOWER[k] == 'a' + k as char
  {
  }

  /** The number that three octets make is the number that their four symbols make, most significant first. */
  lemma FourSymbols(a: Utf8.byte, b: Utf8.byte, c: Utf8.byte)
    ensures var s := Encode([a, b, c]);
      && |s| == 4 && (forall i :: 0 <= i < 4 ==> IsBase64(s[i]))
      && ((Sextet(s[0]) * 64 + Sextet(s[1])) * 64 + Sextet(s[2])) * 64 + Sextet(s[3])
         == (a as nat * 256 + b as nat) * 256 + c as nat
    ensures Encode([a, b]) == Encode([a, b, 0])[..3] + "=" && Encode([a]) == Encode([a, 0, 0])[..2] + "=="
  {
    hide Symbol, Sextet, IsBase64;
    assert [a, b, c][3..] == [] && [a, b, 0][3..] == [] && [a, 0, 0][3..] == [];
  }

  lemma {:induction false} EncodeSymbols(bs: seq<Utf8.byte>)
    ensures forall c :: c in Encode(bs) ==> IsBase64(c) || c == '='
  {
    if |bs| >= 3 {
      EncodeSymbols(bs[3..]);
    }
  }

  // ---------------------------------------------------------------- generated secrets

  predicate IsAlphanumeric(c: char) {
    'A' <= c <= 'Z' || 'a' <= c <= 'z' || '0' <= c <= '9'
  }

  /** `.replace(/[+//=]/g, '')` */
  function Stripped(text: string): string {
    if text == "" then ""
    else if text[0] in "+/=" then Stripped(text[1..])
    else [text[0]] + Stripped(text[1..])
  }

  /** The secret made from the given random octets. */
  function Secret(random: seq<Utf8.byte>): string {
    Stripped(Encode(random))
  }

  lemma {:induction false} StrippedAlphanumeric(text: string)
    requires forall c :: c in text ==> IsBase64(c) || c == '='
    ensures forall c :: c in Stripped(text) ==> IsAlphanumeric(c)
  {
    if text != "" {
      assert IsBase64(text[0]) || text[0] == '=';
      StrippedAlphanumeric(text[1..]);
    }
  }

  /** Whatever octets the generator returns, the secret made of them is alphanumeric. */
  lemma SecretAlphanumeric(random: seq<Utf8.byte>)
    ensures forall c :: c in Secret(random) ==> IsAlphanumeric(c)
  {
    EncodeSymbols(random);
    StrippedAlphanumeric(Encode(random));
  }

  // ---------------------------------------------------------------- the guard

  /** The credentials the guard reads from a header: `Ok(None)` when it leaves the body alone, and an
      error when `Basic` comes without a second word. A missing password is `undefined`. */
  function Credentials(header: Option<string>): Result<Option<(string, Option<string>)>> {
    if Falsy(header) then Ok(None)
    else
      var words := ScopeText.Split(header.value, ' ');
      if words[0] != "Basic" then Ok(None)
      else if |words| == 1 then Err(Internal)
      else
        var parts := ScopeText.Split(Utf8.Decode(Decode(words[1])), ':');
        Ok(Some((parts[0], if |parts| > 1 then Some(parts[1]) else None)))
  }

  /** A header that is missing or empty, or whose first word is not `Basic`, is left alone; `Basic` alone throws. */
  lemma NoCredentials(scheme: string, rest: string)
    requires ' ' !in scheme
    ensures Credentials(None) == Ok(None) && Credentials(Some("")) == Ok(None)
    ensures scheme != "Basic" ==> Credentials(Some(scheme)) == Ok(None) == Credentials(Some(scheme + " " + rest))
    ensures Credentials(Some("Basic")) == Err(Internal)
  {
    ScopeText.SplitOfFree(scheme, ' ');
    ScopeText.SplitOfFree("Basic", ' ');
    ScopeText.SplitOfCons(scheme, rest, ' ');
    assert scheme + " " + rest == scheme + [' '] + rest;
  }

  /** Credentials without a colon are an id without a secret. */
  lemma NoSecret(id: string)
    requires ':' !in id
    ensures Credentials(Some("Basic " + Encode(Utf8.Encode(id)))) == Ok(Some((id, None)))
  {
    var code := Encode(Utf8.Encode(id));
    EncodeSymbols(Utf8.Encode(id));
    assert "Basic " + code == "Basic" + [' '] + code;
    ScopeText.SplitOfCons("Basic", code, ' ');
    ScopeText.SplitOfFree(code, ' ');
    DecodeOfEncode(Utf8.Encode(id));
    Utf8.DecodeOfEncode(id);
    ScopeText.SplitOfFree(id, ':');
  }

  /** The part of a request the guard touches; `None` in the body stands for `undefined`. */
  class Request {
    const authorization: Option<string>
    var body: map<string, Option<string>>

    constructor (authorization: Option<string>, body: map<string, Option<string>>)
      ensures this.authorization == authorization && this.body == body
    {
      this.authorization := authorization;
      this.body := body;
    }
  }

  /** The guard always lets the request through; it overwrites both spellings of the credentials in the body. */
  method CanActivate(request: Request) returns (r: Result<bool>)
    modifies request
    ensures Credentials(request.authorization).Err? ==>
              r == Err(Internal) && request.body == old(request.body)
    ensures Credentials(request.authorization) == Ok(None) ==>
              r == Ok(true) && request.body == old(request.body)
    ensures forall id, secret :: Credentials(request.authorization) == Ok(Some((id, secret))) ==>
              r == Ok(true) &&
              request.body == old(request.body)["client_id" := Some(id)]["client_secret" := secret]
                                ["clientId" := Some(id)]["clientSecret" := secret]
  {
    if !Falsy(request.authorization) {
      var basicAuthHeader := ScopeText.Split(request.authorization.value, ' ');
      if basicAuthHeader[0] == "Basic" {
        if |basicAuthHeader| == 1 {
          return Err(Internal);
        }
        var basicAuthContent := Utf8.Decode(Decode(basicAuthHeader[1]));
        var parts := ScopeText.Split(basicAuthContent, ':');
        var username := parts[0];
        var password := if |parts| > 1 then Some(parts[1]) else None;
        request.body := request.body["client_id" := Some(username)]["client_secret" := password]
          ["clientId" := Some(username)]["clientSecret" := password];
      }
    }
    return Ok(true);
  }

  /** The header of section 2 of RFC 7617. */
  function Header(id: string, secret: string): string {
    "Basic " + Encode(Utf8.Encode(id + ":" + secret))
  }

  lemma {:induction false} FirstPartFree(text: string, sep: char)
    ensures forall i :: 0 <= i < |ScopeText.Split(text, sep)| ==> sep !in ScopeText.Split(text, sep)[i]
  {
    if text != "" {
      FirstPartFree(text[1..], sep);
    }
  }

  /** The guard recovers exactly the id and the secret from their header if and only if neither
      contains a colon. */
  lemma HeaderRoundTrip(id: string, secret: string)
    ensures Credentials(Some(Header(id, secret))) == Ok(Some((id, Some(secret))))
            <==> ':' !in id && ':' !in secret
  {
    var pair := id + ":" + secret;
    var code := Encode(Utf8.Encode(pair));
    EncodeSymbols(Utf8.Encode(pair));
    assert "Basic " == "Basic" + [' '];
    ScopeText.SplitOfCons("Basic", code, ' ');
    ScopeText.SplitOfFree(code, ' ');
    assert Header(id, secret) == "Basic" + [' '] + code;
    assert ScopeText.Split(Header(id, secret), ' ') == ["Basic", code];
    DecodeOfEncode(Utf8.Encode(pair));
    Utf8.DecodeOfEncode(pair);
    var parts := ScopeText.Split(pair, ':');
    FirstPartFree(pair, ':');
    if ':' !in id && ':' !in secret {
      ScopeText.SplitOfCons(id, secret, ':');
      ScopeText.SplitOfFree(secret, ':');
      assert parts == [id, secret];
    }
  }

  /** With further colons the secret is cut at the second one: what follows is lost. */
  lemma CutAtSecondColon(id: string, head: string, rest: string)
    requires ':' !in id && ':' !in head
    ensures Credentials(Some(Header(id, head + ":" + rest))) == Ok(Some((id, Some(head))))
  {
    var secret := head + ":" + rest;
    var pair := id + ":" + secret;
    var code := Encode(Utf8.Encode(pair));
    EncodeSymbols(Utf8.Encode(pair));
    assert Header(id, secret) == "Basic" + [' '] + code;
    ScopeText.SplitOfCons("Basic", code, ' ');
    ScopeText.SplitOfFree(code, ' ');
    DecodeOfEncode(Utf8.Encode(pair));
    Utf8.DecodeOfEncode(pair);
    assert pair == id + [':'] + secret && secret == head + [':'] + rest;
    ScopeText.SplitOfCons(id, secret, ':');
    ScopeText.SplitOfCons(head, rest, ':');
  }

  predicate IsUuidChar(c: char) {
    '0' <= c <= '9' || 'a' <= c <= 'f' || c == '-'
  }

  /** Every client can authenticate with the secret it was given: for an id made of hexadecimal digits
      and dashes and a secret generated from any octets, the guard recovers exactly that pair. */
  lemma GeneratedCredentialsRoundTrip(id: string, random: seq<Utf8.byte>)
    requires forall c :: c in id ==> IsUuidChar(c)
    ensures Credentials(Some(Header(id, Secret(random)))) == Ok(Some((id, Some(Secret(random)))))
  {
    SecretAlphanumeric(random);
    var secret := Secret(random);
    assert forall i :: 0 <= i < |id| ==> id[i] in id;
    assert forall i :: 0 <= i < |secret| ==> secret[i] in secret;
    HeaderRoundTrip(id, secret);
  }
}
