/** What each request to the verification and user services leaves behind and answers, and that the steps of a
    registration fit together. */
module VerificationEffects {
  import opened Types
  import opened Database
  import opened Store
  import opened Verification
  import SixDigits

  // ---------------------------------------------------------------- codes

  /** The text is the number, as six digits. */
  predicate Spells(code: string, n: nat) {
    SixDigits.IsCode(code) && SixDigits.Value(code) == n
  }

  /** A mail that went out leaves the number drawn, in six digits, as the code of the address in lower case for three
      minutes, and changes no other code; a mail that did not go out changes nothing. */
  lemma SendEmailIff(p: Prims, s: Desk, email: string, n: nat, delivered: bool)
    requires n < 1000000
    ensures var r, key := SendEmailCode(p, s, email, n, delivered), p.lower(email);
      if !delivered then r == Err(Internal)
      else
        && r.Ok? && key in r.value.emailCodes
        && var code := r.value.emailCodes[key].value;
        && Spells(code, n)
        && r.value == s.(emailCodes := s.emailCodes[key := Timed(code, s.now + 180 * 1000)],
                         log := s.log + [Sent(EmailHint, key, code, s.now)])
  {
    SixDigits.FormatRoundTrip(n);
    hide SixDigits.Format, SixDigits.Value, SixDigits.IsCode;
  }

  /** The same for a message to a phone number, which must parse as Korean; the key is the number as it was sent. */
  lemma SendPhoneIff(p: Prims, s: Desk, phone: string, n: nat, delivered: bool)
    requires n < 1000000
    ensures var r := SendPhoneCode(p, s, phone, n, delivered);
      if p.phoneCountry(phone) != Some("KR") then r == Err(BadRequest)
      else if !delivered then r == Err(Internal)
      else
        && r.Ok? && phone in r.value.phoneCodes
        && var code := r.value.phoneCodes[phone].value;
        && Spells(code, n)
        && r.value == s.(phoneCodes := s.phoneCodes[phone := Timed(code, s.now + 180 * 1000)],
                         log := s.log + [Sent(PhoneHint, phone, code, s.now)])
  {
    SixDigits.FormatRoundTrip(n);
    hide SixDigits.Format, SixDigits.Value, SixDigits.IsCode;
  }

  /** Until it expires the token vouches for the subject. */
  ghost predicate VouchesUntil(s: Desk, token: string, hint: Hint, sub: string, expiresAt: nat) {
    forall now: nat :: Vouches(s.(now := now), token, hint, sub) <==> now <= expiresAt
  }

  /** An accepted code is exchanged for a token that vouches for its subject until it expires. The code is gone; other
      codes, other tokens and the tables are as they were. Any refusal is a bad request. */
  lemma ValidateEffect(
      p: Prims, s: Desk, subject: string, code: string, hint: string, token: string, expiresAt: nat)
    ensures var r := ValidateCode(p, s, subject, code, hint, token, expiresAt);
      match r
      case Err(e) => e == BadRequest
      case Ok(s') =>
        && (hint == "email" || hint == "phoneNumber")
        && var kind := if hint == "email" then EmailHint else PhoneHint;
        && var key := if hint == "email" then p.lower(subject) else subject;
        && VouchesUntil(s', token, kind, key, expiresAt)
        && s'.issued.Keys == s.issued.Keys + {token}
        && (forall t :: t in s.issued && t != token ==> s'.issued[t] == s.issued[t])
        && s'.db == s.db && s'.now == s.now && s'.log == s.log + [Accepted(kind, key, code, s.now)]
        && (if kind == EmailHint then s'.emailCodes == s.emailCodes - {key} && s'.phoneCodes == s.phoneCodes
            else s'.phoneCodes == s.phoneCodes - {key} && s'.emailCodes == s.emailCodes)
  {
  }

  /** The token of the registry's answer, and its refusal. */
  lemma VerifyStudentIdIff(s: Desk, registry: Option<string>, token: string, expiresAt: nat)
    ensures var r := VerifyStudentId(s, registry, token, expiresAt);
      if registry.None? || registry == Some("") then r == Err(NotFound)
      else
        && r.Ok?
        && VouchesUntil(r.value, token, StudentIdHint, registry.value, expiresAt)
        && (forall t :: t in s.issued && t != token ==> t in r.value.issued && r.value.issued[t] == s.issued[t])
        && r.value == s.(issued := r.value.issued, log := s.log + [Returned(registry.value)])
  {
  }

  // ---------------------------------------------------------------- rows

  /** Only the one row changed. */
  ghost predicate OnlyRow(before: Desk, after: Desk, uuid: string, u: User) {
    after.db == before.db.(users := before.db.users[uuid := u])
  }

  /** The registry's number, the name it was found under and the mark go into the account's row. */
  lemma VerifyOwnStudentIdIff(s: Desk, uuid: string, name: string, registry: Option<string>)
    ensures var r := VerifyOwnStudentId(s, uuid, name, registry);
      if registry.None? || registry == Some("") then r == Err(NotFound)
      else if uuid !in s.db.users then r == Err(Forbidden)
      else
        && r.Ok? && uuid in r.value.db.users
        && var u, u' := s.db.users[uuid], r.value.db.users[uuid];
        && u'.name == name && u'.studentId == registry.value && u'.isIdVerified
        && u' == u.(name := u'.name, studentId := u'.studentId, isIdVerified := u'.isIdVerified)
        && OnlyRow(s, r.value, uuid, u')
        && r.value == s.(db := r.value.db, log := s.log + [Returned(registry.value)])
  {
  }

  /** A matched number and its mark go into the account's row, and the code is gone; no refusal changes anything. */
  lemma VerifyPhoneEffect(s: Desk, uuid: string, phone: string, code: string)
    ensures var r := VerifyPhoneNumber(s, uuid, phone, code);
      if !Live(s.phoneCodes, phone, s.now) || s.phoneCodes[phone].value != code || code == "" then r == Err(BadRequest)
      else if uuid !in s.db.users then r == Err(Forbidden)
      else if |phone| > 30 then r == Err(Internal)
      else
        && r.Ok? && uuid in r.value.db.users
        && var u, u' := s.db.users[uuid], r.value.db.users[uuid];
        && u'.phoneNumber == phone && u'.isPhoneNumberVerified
        && u' == u.(phoneNumber := u'.phoneNumber, isPhoneNumberVerified := u'.isPhoneNumberVerified)
        && OnlyRow(s, r.value, uuid, u')
        && r.value == s.(db := r.value.db, phoneCodes := s.phoneCodes - {phone},
                         log := s.log + [Accepted(PhoneHint, phone, code, s.now)])
  {
  }

  /** What is wrong with a token: one that was not issued or has expired, or one for something else. */
  function WhyNotVouched(s: Desk, token: string, hint: Hint, sub: string): Option<Failure> {
    if Vouches(s, token, hint, sub) then None
    else if token in s.issued && s.now <= s.issued[token].expiresAt then Some(Forbidden)
    else Some(BadRequest)
  }

  function WhyNotOptionally(s: Desk, token: Option<string>, hint: Hint, sub: string): Option<Failure> {
    if token.None? || token == Some("") then Some(Forbidden) else WhyNotVouched(s, token.value, hint, sub)
  }

  /** Why a registration is refused: the first of these that applies. */
  function WhyNotRegistered(p: Prims, s: Desk, r: Registration): Option<Failure> {
    var email := p.lower(r.email);
    var student := EndsWith(email, "@gm.gist.ac.kr");
    var korean := p.phoneCountry(r.phoneNumber) == Some("KR");
    if |r.phoneNumber| > 30 then Some(BadRequest)
    else if WhyNotVouched(s, r.emailJwt, EmailHint, email).Some? then WhyNotVouched(s, r.emailJwt, EmailHint, email)
    else if student && WhyNotOptionally(s, r.studentIdJwt, StudentIdHint, r.studentId).Some? then
      WhyNotOptionally(s, r.studentIdJwt, StudentIdHint, r.studentId)
    else if p.phoneCountry(r.phoneNumber).None? then Some(BadRequest)
    else if korean && WhyNotOptionally(s, r.phoneNumberJwt, PhoneHint, r.phoneNumber).Some? then
      WhyNotOptionally(s, r.phoneNumberJwt, PhoneHint, r.phoneNumber)
    else if exists u :: u in s.db.users && s.db.users[u].email == email then Some(Conflict)
    else None
  }

  lemma RegisterRefused(p: Prims, s: Desk, uuid: string, salt: string, r: Registration)
    requires uuid !in s.db.users
    ensures match WhyNotRegistered(p, s, r)
            case Some(e) => Register(p, s, uuid, salt, r) == Err(e)
            case None => Register(p, s, uuid, salt, r).Ok?
  {
    hide EndsWith;
  }

  // ---------------------------------------------------------------- the steps fit together

  /** Send a code, enter it in time, and the token that comes back meets the email condition of a registration until it
      expires: whether the registration succeeds then depends on its other conditions alone. */
  lemma EmailRouteFits(
      p: Prims, s: Desk, email: string, n: nat, subject: string, code: string, wait: nat, token: string, expiresAt: nat,
      pause: nat, uuid: string, salt: string, r: Registration)
    requires n < 1000000 && Spells(code, n) && p.lower(subject) == p.lower(email) == p.lower(r.email)
    requires wait <= 180 * 1000 && s.now + wait + pause <= expiresAt
    requires r.emailJwt == token && uuid !in s.db.users
    ensures SendEmailCode(p, s, email, n, true).Ok?
    ensures var s1 := SendEmailCode(p, s, email, n, true).value;
      var entered := ValidateCode(p, s1.(now := s1.now + wait), subject, code, "email", token, expiresAt);
      && entered.Ok?
      && var s2 := entered.value.(now := entered.value.now + pause);
      && Vouches(s2, token, EmailHint, p.lower(r.email))
      && (Register(p, s2, uuid, salt, r).Ok? <==>
            && |r.phoneNumber| <= 30 && p.phoneCountry(r.phoneNumber).Some?
            && (EndsWith(p.lower(r.email), STUDENT_SUFFIX) ==>
                  WhyNotOptionally(s2, r.studentIdJwt, StudentIdHint, r.studentId).None?)
            && (Korean(p, r.phoneNumber) ==> WhyNotOptionally(s2, r.phoneNumberJwt, PhoneHint, r.phoneNumber).None?)
            && (forall u :: u in s.db.users ==> s.db.users[u].email != p.lower(r.email)))
  {
    SendEmailIff(p, s, email, n, true);
    SixDigits.FormatSurjective(code);
    SixDigits.FormatRoundTrip(n);
    hide SendEmailCode, SixDigits.Format, SixDigits.Value, EndsWith;
    var s1 := SendEmailCode(p, s, email, n, true).value;
    var stored := s1.emailCodes[p.lower(email)].value;
    SameNumber(stored, code, n);
    var s1' := s1.(now := s1.now + wait);
    assert ValidateCode(p, s1', subject, code, "email", token, expiresAt).Ok?;
    ValidateEffect(p, s1', subject, code, "email", token, expiresAt);
    var s2 := ValidateCode(p, s1', subject, code, "email", token, expiresAt).value;
    hide ValidateCode;
    RegisterIff(p, s2.(now := s2.now + pause), uuid, salt, r);
  }

  lemma SameNumber(a: string, b: string, n: nat)
    requires Spells(a, n) && Spells(b, n)
    ensures a == b && a != ""
  {
    SixDigits.FormatSurjective(a);
    SixDigits.FormatSurjective(b);
  }

  /** Send a code to a Korean number, enter it in time for an account, and the account's row has the number, marked. */
  lemma PhoneRouteFits(p: Prims, s: Desk, phone: string, n: nat, code: string, wait: nat, uuid: string)
    requires n < 1000000 && Spells(code, n) && Korean(p, phone) && |phone| <= 30
    requires wait <= 180 * 1000 && uuid in s.db.users
    ensures SendPhoneCode(p, s, phone, n, true).Ok?
    ensures var s1 := SendPhoneCode(p, s, phone, n, true).value;
      var r := VerifyPhoneNumber(s1.(now := s1.now + wait), uuid, phone, code);
      && r.Ok? && uuid in r.value.db.users
      && r.value.db.users[uuid].phoneNumber == phone && r.value.db.users[uuid].isPhoneNumberVerified
      && phone !in r.value.phoneCodes
  {
    SendPhoneIff(p, s, phone, n, true);
    hide SendPhoneCode, SixDigits.Format, SixDigits.Value;
    var s1 := SendPhoneCode(p, s, phone, n, true).value;
    SameNumber(s1.phoneCodes[phone].value, code, n);
    VerifyPhoneEffect(s1.(now := s1.now + wait), uuid, phone, code);
  }
}
