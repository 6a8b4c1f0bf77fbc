/** Verification codes, the signed tokens they are exchanged for, and the user flags that rest on them. */
module Verification {
  import opened Types
  import opened Database
  import opened Store
  import SixDigits

  // ---------------------------------------------------------------- state

  datatype Hint = EmailHint | PhoneHint | StudentIdHint

  /** A verification token: unforgeable, so it is valid only if it was issued, and only until it expires. */
  datatype Jwt = Jwt(sub: string, hint: Hint, expiresAt: nat)

  /** What happened, in order. */
  datatype Event =
    | Sent(hint: Hint, subject: string, code: string, at: nat)
    | Accepted(hint: Hint, subject: string, code: string, at: nat)
    | Returned(studentId: string)

  datatype Desk = Desk(
    now: nat, db: Db, emailCodes: Cache<string>, phoneCodes: Cache<string>, issued: map<string, Jwt>, log: seq<Event>)

  const CODE_TTL := 3 * 60
  const STUDENT_SUFFIX := "@gm.gist.ac.kr"
  const MAX_PHONE_LENGTH := 30

  predicate EndsWith(s: string, suffix: string) {
    |suffix| <= |s| && s[|s| - |suffix|..] == suffix
  }

  predicate Korean(p: Prims, phone: string) {
    p.phoneCountry(phone) == Some("KR")
  }

  // ---------------------------------------------------------------- the operations

  /** The mail goes out first; the code is stored when it went. */
  function SendEmailCode(p: Prims, s: Desk, email: string, n: nat, delivered: bool): Result<Desk>
    requires n < 1000000
  {
    var subject, code := p.lower(email), SixDigits.Format(n);
    if !delivered then Err(Internal)
    else Ok(s.(emailCodes := Set(s.emailCodes, subject, code, CODE_TTL, s.now),
               log := s.log + [Sent(EmailHint, subject, code, s.now)]))
  }

  /** Only for numbers that parse as Korean; the key is the string as it was sent. */
  function SendPhoneCode(p: Prims, s: Desk, phone: string, n: nat, delivered: bool): Result<Desk>
    requires n < 1000000
  {
    var code := SixDigits.Format(n);
    if !Korean(p, phone) then Err(BadRequest)
    else if !delivered then Err(Internal)
    else Ok(s.(phoneCodes := Set(s.phoneCodes, phone, code, CODE_TTL, s.now),
               log := s.log + [Sent(PhoneHint, phone, code, s.now)]))
  }

  /** The stored code, as `getOrThrow` gives it. */
  function Stored(m: Cache<string>, subject: string, now: nat): Option<string> {
    match Get(m, subject, now)
    case Some(code) => if code == "" then None else Some(code)
    case None => None
  }

  function ValidateCode(
      p: Prims, s: Desk, subject: string, code: string, hint: string, token: string, expiresAt: nat): Result<Desk>
  {
    if hint == "email" then
      var key := p.lower(subject);
      if Stored(s.emailCodes, key, s.now) != Some(code) then Err(BadRequest)
      else Ok(s.(emailCodes := Del(s.emailCodes, key, s.now),
                 issued := s.issued[token := Jwt(key, EmailHint, expiresAt)],
                 log := s.log + [Accepted(EmailHint, key, code, s.now)]))
    else if hint == "phoneNumber" then
      if Stored(s.phoneCodes, subject, s.now) != Some(code) then Err(BadRequest)
      else Ok(s.(phoneCodes := Del(s.phoneCodes, subject, s.now),
                 issued := s.issued[token := Jwt(subject, PhoneHint, expiresAt)],
                 log := s.log + [Accepted(PhoneHint, subject, code, s.now)]))
    else Err(BadRequest)
  }

  function ValidateJwt(s: Desk, token: string): Result<Jwt> {
    if token in s.issued && s.now <= s.issued[token].expiresAt then Ok(s.issued[token]) else Err(BadRequest)
  }

  /** `registry` is the student number the registry answered with, if any. */
  function VerifyStudentId(s: Desk, registry: Option<string>, token: string, expiresAt: nat): Result<Desk> {
    if Falsy(registry) then Err(NotFound)
    else Ok(s.(issued := s.issued[token := Jwt(registry.value, StudentIdHint, expiresAt)],
               log := s.log + [Returned(registry.value)]))
  }

  /** A token of the given kind for the given subject, as the registration checks it. */
  function CheckJwt(s: Desk, token: string, hint: Hint, sub: string): Result<()> {
    match ValidateJwt(s, token)
    case Err(e) => Err(e)
    case Ok(jwt) => if jwt.hint != hint || jwt.sub != sub then Err(Forbidden) else Ok(())
  }

  function CheckOptionalJwt(s: Desk, token: Option<string>, hint: Hint, sub: string): Result<()> {
    if Falsy(token) then Err(Forbidden) else CheckJwt(s, token.value, hint, sub)
  }

  datatype Registration = Registration(
    email: string, password: string, name: string, studentId: string, phoneNumber: string,
    emailJwt: string, studentIdJwt: Option<string>, phoneNumberJwt: Option<string>)

  /** The user row a registration creates; the id flag is always set. */
  function NewUser(p: Prims, salt: string, r: Registration): User {
    User(p.hash(r.password, salt), None, None, r.name, p.lower(r.email), r.studentId, r.phoneNumber, true,
      Korean(p, r.phoneNumber))
  }

  function CheckRegistration(p: Prims, s: Desk, r: Registration): Result<()> {
    var email := p.lower(r.email);
    if |r.phoneNumber| > MAX_PHONE_LENGTH then Err(BadRequest)
    else if CheckJwt(s, r.emailJwt, EmailHint, email).Err? then CheckJwt(s, r.emailJwt, EmailHint, email)
    else if EndsWith(email, STUDENT_SUFFIX) && CheckOptionalJwt(s, r.studentIdJwt, StudentIdHint, r.studentId).Err? then
      CheckOptionalJwt(s, r.studentIdJwt, StudentIdHint, r.studentId)
    else if p.phoneCountry(r.phoneNumber).None? then Err(BadRequest)
    else if Korean(p, r.phoneNumber) then CheckOptionalJwt(s, r.phoneNumberJwt, PhoneHint, r.phoneNumber)
    else Ok(())
  }

  function Register(p: Prims, s: Desk, uuid: string, salt: string, r: Registration): Result<Desk> {
    match CheckRegistration(p, s, r)
    case Err(e) => Err(e)
    case Ok(_) =>
      match CreateUser(s.db, uuid, NewUser(p, salt, r))
      case Err(e) => Err(e)
      case Ok(db) => Ok(s.(db := db))
  }

  function UpdateStudentId(db: Db, uuid: string, name: string, studentId: string): Result<Db> {
    if uuid !in db.users then Err(Forbidden)
    else Ok(db.(users := db.users[uuid := db.users[uuid].(name := name, studentId := studentId, isIdVerified := true)]))
  }

  /** The column holds thirty characters. */
  function UpdatePhoneNumber(db: Db, uuid: string, phone: string): Result<Db> {
    if uuid !in db.users then Err(Forbidden)
    else if |phone| > MAX_PHONE_LENGTH then Err(Internal)
    else Ok(db.(users := db.users[uuid := db.users[uuid].(phoneNumber := phone, isPhoneNumberVerified := true)]))
  }

  /** The registry's answer goes straight into the row. */
  function VerifyOwnStudentId(s: Desk, uuid: string, name: string, registry: Option<string>): Result<Desk> {
    if Falsy(registry) then Err(NotFound)
    else
      match UpdateStudentId(s.db, uuid, name, registry.value)
      case Err(e) => Err(e)
      case Ok(db) => Ok(s.(db := db, log := s.log + [Returned(registry.value)]))
  }

  /** The row is updated before the code is deleted, so a failed update leaves the code in place. */
  function VerifyPhoneNumber(s: Desk, uuid: string, phone: string, code: string): Result<Desk> {
    if Stored(s.phoneCodes, phone, s.now) != Some(code) then Err(BadRequest)
    else
      match UpdatePhoneNumber(s.db, uuid, phone)
      case Err(e) => Err(e)
      case Ok(db) =>
        Ok(s.(db := db, phoneCodes := Del(s.phoneCodes, phone, s.now),
              log := s.log + [Accepted(PhoneHint, phone, code, s.now)]))
  }

  // ---------------------------------------------------------------- runs

  /** One request served in one go, or the clock moving on. The last two stand for the rest of the service,
      which changes neither emails, phone numbers, student ids nor flags. */
  datatype Act =
    | SendEmail(email: string, n: nat, delivered: bool)
    | SendPhone(phone: string, n: nat, delivered: bool)
    | Validate(subject: string, code: string, hint: string, token: string, expiresAt: nat)
    | Ask(registry: Option<string>, token: string, expiresAt: nat)
    | SignUp(uuid: string, salt: string, registration: Registration)
    | VerifyId(uuid: string, name: string, registry: Option<string>)
    | VerifyPhone(uuid: string, phone: string, code: string)
    | Tick(dt: nat)
    | ChangeProfile(uuid: string, password: string, profile: Option<string>, picture: Option<string>)
    | DropUser(uuid: string)

  /** The random number stays below a million. */
  predicate InRange(a: Act) {
    match a
    case SendEmail(_, n, _) => n < 1000000
    case SendPhone(_, n, _) => n < 1000000
    case _ => true
  }

  /** A signature never repeats. */
  predicate Enabled(s: Desk, a: Act) {
    InRange(a) &&
    match a
    case Validate(_, _, _, token, _) => token !in s.issued
    case Ask(_, token, _) => token !in s.issued
    case _ => true
  }

  function Outcome(p: Prims, s: Desk, a: Act): Result<Desk>
    requires InRange(a)
  {
    match a
    case SendEmail(email, n, delivered) => SendEmailCode(p, s, email, n, delivered)
    case SendPhone(phone, n, delivered) => SendPhoneCode(p, s, phone, n, delivered)
    case Validate(subject, code, hint, token, expiresAt) => ValidateCode(p, s, subject, code, hint, token, expiresAt)
    case Ask(registry, token, expiresAt) => VerifyStudentId(s, registry, token, expiresAt)
    case SignUp(uuid, salt, r) => Register(p, s, uuid, salt, r)
    case VerifyId(uuid, name, registry) => VerifyOwnStudentId(s, uuid, name, registry)
    case VerifyPhone(uuid, phone, code) => VerifyPhoneNumber(s, uuid, phone, code)
    case Tick(dt) => Ok(s.(now := s.now + dt))
    case ChangeProfile(uuid, password, profile, picture) =>
      if uuid !in s.db.users then Err(Forbidden)
      else Ok(s.(db := s.db.(users := s.db.users[
                   uuid := s.db.users[uuid].(password := password, profile := profile, picture := picture)])))
    case DropUser(uuid) =>
      (match DeleteUser(s.db, uuid)
       case Err(e) => Err(e)
       case Ok(db) => Ok(s.(db := db)))
  }

  function Next(p: Prims, s: Desk, a: Act): Desk {
    if !Enabled(s, a) then s
    else match Outcome(p, s, a) case Ok(s') => s' case Err(_) => s
  }

  function Run(p: Prims, s: Desk, acts: seq<Act>): Desk {
    if acts == [] then s else Next(p, Run(p, s, acts[..|acts| - 1]), acts[|acts| - 1])
  }

  /** The service starts at some time, on any tables, with nothing sent and nothing issued. */
  function Starting(at: nat, db: Db): Desk {
    Desk(at, db, map[], map[], map[], [])
  }

  // ---------------------------------------------------------------- what the log says

  datatype SentCode = SentCode(code: string, at: nat)

  /** The latest code sent to the subject that has not been accepted since. */
  function Outstanding(log: seq<Event>, hint: Hint, subject: string): Option<SentCode> {
    if log == [] then None
    else
      match log[|log| - 1]
      case Sent(h, s, code, at) =>
        if h == hint && s == subject then Some(SentCode(code, at)) else Outstanding(log[..|log| - 1], hint, subject)
      case Accepted(h, s, _, _) =>
        if h == hint && s == subject then None else Outstanding(log[..|log| - 1], hint, subject)
      case Returned(_) => Outstanding(log[..|log| - 1], hint, subject)
  }

  /** An acceptance uses up the outstanding code, within three minutes of its sending. */
  predicate Justified(log: seq<Event>, i: nat)
    requires i < |log|
  {
    log[i].Accepted? ==>
      match Outstanding(log[..i], log[i].hint, log[i].subject)
      case Some(sent) => sent.code == log[i].code && sent.at <= log[i].at <= sent.at + 180 * 1000
      case None => false
  }

  ghost predicate LogInv(log: seq<Event>) {
    forall i :: 0 <= i < |log| ==> Justified(log, i)
  }

  predicate WasAccepted(log: seq<Event>, hint: Hint, subject: string) {
    exists i :: 0 <= i < |log| && log[i].Accepted? && log[i].hint == hint && log[i].subject == subject
  }

  predicate WasReturned(log: seq<Event>, studentId: string) {
    Returned(studentId) in log
  }

  /** The stored codes of one kind are exactly the outstanding ones. */
  ghost predicate CacheInv(m: Cache<string>, log: seq<Event>, hint: Hint, now: nat) {
    && (forall k :: k in m <==> Outstanding(log, hint, k).Some?)
    && (forall k :: k in m ==>
          m[k] == Timed(Outstanding(log, hint, k).value.code, Outstanding(log, hint, k).value.at + 180 * 1000)
          && Outstanding(log, hint, k).value.at <= now)
  }

  ghost predicate JwtOk(p: Prims, log: seq<Event>, jwt: Jwt) {
    match jwt.hint
    case EmailHint => WasAccepted(log, EmailHint, jwt.sub)
    case PhoneHint => Korean(p, jwt.sub) && WasAccepted(log, PhoneHint, jwt.sub)
    case StudentIdHint => WasReturned(log, jwt.sub)
  }

  /** What a user's email, flags and student id promise, of a table that began with the rows of `base`. */
  ghost predicate UserOk(p: Prims, base: map<string, User>, log: seq<Event>, uuid: string, u: User) {
    && (u.isPhoneNumberVerified ==>
          HadPhone(base, uuid, u) || (Korean(p, u.phoneNumber) && WasAccepted(log, PhoneHint, u.phoneNumber)))
    && (EndsWith(u.email, STUDENT_SUFFIX) ==> HadStudentId(base, uuid, u) || WasReturned(log, u.studentId))
    && (HadEmail(base, uuid, u) || WasAccepted(log, EmailHint, u.email))
  }

  /** The row began with this email. */
  predicate HadEmail(base: map<string, User>, uuid: string, u: User) {
    uuid in base && base[uuid].email == u.email
  }

  /** The row began with this number, marked as verified. */
  predicate HadPhone(base: map<string, User>, uuid: string, u: User) {
    uuid in base && base[uuid].isPhoneNumberVerified && base[uuid].phoneNumber == u.phoneNumber
  }

  /** The row began with this email and student id. */
  predicate HadStudentId(base: map<string, User>, uuid: string, u: User) {
    uuid in base && base[uuid].email == u.email && base[uuid].studentId == u.studentId
  }

  ghost predicate Inv(p: Prims, base: map<string, User>, s: Desk) {
    && LogInv(s.log)
    && CacheInv(s.emailCodes, s.log, EmailHint, s.now)
    && CacheInv(s.phoneCodes, s.log, PhoneHint, s.now)
    && (forall k :: k in s.phoneCodes ==> Korean(p, k))
    && (forall t :: t in s.issued ==> JwtOk(p, s.log, s.issued[t]))
    && (forall u :: u in s.db.users ==> UserOk(p, base, s.log, u, s.db.users[u]))
  }

  // ---------------------------------------------------------------- appending to the log

  lemma Appended(p: Prims, base: map<string, User>, s: Desk, e: Event)
    requires Inv(p, base, s)
    requires Justified(s.log + [e], |s.log|)
    ensures var log := s.log + [e];
      && LogInv(log)
      && (forall t :: t in s.issued ==> JwtOk(p, log, s.issued[t]))
      && (forall u :: u in s.db.users ==> UserOk(p, base, log, u, s.db.users[u]))
  {
    var log := s.log + [e];
    forall i | 0 <= i < |log| ensures Justified(log, i) {
      if i < |s.log| {
        assert log[..i] == s.log[..i];
        assert Justified(s.log, i);
      }
    }
    forall h, x | WasAccepted(s.log, h, x) ensures WasAccepted(log, h, x) {
      AcceptedStays(s.log, e, h, x);
    }
  }

  lemma AcceptedStays(log: seq<Event>, e: Event, hint: Hint, subject: string)
    requires WasAccepted(log, hint, subject)
    ensures WasAccepted(log + [e], hint, subject)
  {
    var i :| 0 <= i < |log| && log[i].Accepted? && log[i].hint == hint && log[i].subject == subject;
    assert (log + [e])[i] == log[i];
  }

  /** What one more event does to the outstanding code of a subject. */
  function AfterEvent(e: Event, hint: Hint, subject: string, before: Option<SentCode>): Option<SentCode> {
    match e
    case Sent(h, s, code, at) => if h == hint && s == subject then Some(SentCode(code, at)) else before
    case Accepted(h, s, _, _) => if h == hint && s == subject then None else before
    case Returned(_) => before
  }

  lemma OutstandingAppend(log: seq<Event>, e: Event)
    ensures forall hint, subject {:trigger Outstanding(log + [e], hint, subject)} ::
      Outstanding(log + [e], hint, subject) == AfterEvent(e, hint, subject, Outstanding(log, hint, subject))
  {
    assert (log + [e])[..|log + [e]| - 1] == log;
  }

  lemma AcceptedNow(log: seq<Event>, hint: Hint, subject: string, code: string, at: nat)
    ensures WasAccepted(log + [Accepted(hint, subject, code, at)], hint, subject)
  {
    assert (log + [Accepted(hint, subject, code, at)])[|log|].Accepted?;
  }

  lemma CacheSent(m: Cache<string>, log: seq<Event>, hint: Hint, now: nat, subject: string, code: string)
    requires CacheInv(m, log, hint, now)
    ensures CacheInv(Set(m, subject, code, CODE_TTL, now), log + [Sent(hint, subject, code, now)], hint, now)
  {
    OutstandingAppend(log, Sent(hint, subject, code, now));
    hide Outstanding;
  }

  lemma CacheAccepted(m: Cache<string>, log: seq<Event>, hint: Hint, now: nat, subject: string, code: string)
    requires CacheInv(m, log, hint, now) && Live(m, subject, now)
    ensures CacheInv(Del(m, subject, now), log + [Accepted(hint, subject, code, now)], hint, now)
  {
    OutstandingAppend(log, Accepted(hint, subject, code, now));
    hide Outstanding;
  }

  /** An event of another kind. */
  lemma CacheSkips(m: Cache<string>, log: seq<Event>, hint: Hint, now: nat, e: Event)
    requires CacheInv(m, log, hint, now) && (e.Returned? || e.hint != hint)
    ensures CacheInv(m, log + [e], hint, now)
  {
    OutstandingAppend(log, e);
    hide Outstanding;
  }

  lemma SentKeeps(p: Prims, base: map<string, User>, s: Desk, hint: Hint, subject: string, code: string)
    requires Inv(p, base, s) && hint != StudentIdHint && (hint == PhoneHint ==> Korean(p, subject))
    ensures var log := s.log + [Sent(hint, subject, code, s.now)];
      && (hint == EmailHint ==>
            Inv(p, base, s.(emailCodes := Set(s.emailCodes, subject, code, CODE_TTL, s.now), log := log)))
      && (hint == PhoneHint ==>
            Inv(p, base, s.(phoneCodes := Set(s.phoneCodes, subject, code, CODE_TTL, s.now), log := log)))
  {
    var e := Sent(hint, subject, code, s.now);
    Appended(p, base, s, e);
    hide CacheInv, LogInv, JwtOk, UserOk, Korean;
    if hint == EmailHint {
      CacheSent(s.emailCodes, s.log, hint, s.now, subject, code);
      CacheSkips(s.phoneCodes, s.log, PhoneHint, s.now, e);
    } else {
      CacheSent(s.phoneCodes, s.log, hint, s.now, subject, code);
      CacheSkips(s.emailCodes, s.log, EmailHint, s.now, e);
    }
  }

  /** The code stored for a subject is its outstanding one, and in time. */
  lemma CacheReads(m: Cache<string>, log: seq<Event>, hint: Hint, now: nat, subject: string)
    requires CacheInv(m, log, hint, now)
    ensures var o := Outstanding(log, hint, subject);
      && (Live(m, subject, now) <==> o.Some? && now <= o.value.at + 180 * 1000)
      && (Live(m, subject, now) ==> m[subject].value == o.value.code && o.value.at <= now)
  {
    hide Outstanding;
  }

  /** Accepting the stored code of a subject: the log justifies it, and the cache follows. */
  lemma AcceptedKeeps(p: Prims, base: map<string, User>, s: Desk, hint: Hint, subject: string, code: string)
    requires Inv(p, base, s)
    requires || (hint == EmailHint && Get(s.emailCodes, subject, s.now) == Some(code))
             || (hint == PhoneHint && Get(s.phoneCodes, subject, s.now) == Some(code))
    ensures var log := s.log + [Accepted(hint, subject, code, s.now)];
      && WasAccepted(log, hint, subject)
      && (hint == PhoneHint ==> Korean(p, subject))
      && (hint == EmailHint ==> Inv(p, base, s.(emailCodes := Del(s.emailCodes, subject, s.now), log := log)))
      && (hint == PhoneHint ==> Inv(p, base, s.(phoneCodes := Del(s.phoneCodes, subject, s.now), log := log)))
  {
    var e := Accepted(hint, subject, code, s.now);
    assert (s.log + [e])[..|s.log|] == s.log;
    AcceptedNow(s.log, hint, subject, code, s.now);
    hide CacheInv, LogInv, JwtOk, UserOk, Korean, Outstanding, WasAccepted;
    if hint == EmailHint {
      CacheReads(s.emailCodes, s.log, hint, s.now, subject);
      CacheAccepted(s.emailCodes, s.log, hint, s.now, subject, code);
      CacheSkips(s.phoneCodes, s.log, PhoneHint, s.now, e);
    } else {
      CacheReads(s.phoneCodes, s.log, hint, s.now, subject);
      CacheAccepted(s.phoneCodes, s.log, hint, s.now, subject, code);
      CacheSkips(s.emailCodes, s.log, EmailHint, s.now, e);
    }
    Appended(p, base, s, e);
  }

  // ---------------------------------------------------------------- every request keeps the invariant

  lemma ReturnedKeeps(p: Prims, base: map<string, User>, s: Desk, studentId: string)
    requires Inv(p, base, s)
    ensures Inv(p, base, s.(log := s.log + [Returned(studentId)]))
    ensures WasReturned(s.log + [Returned(studentId)], studentId)
  {
    var e := Returned(studentId);
    Appended(p, base, s, e);
    hide CacheInv, LogInv, JwtOk, UserOk;
    CacheSkips(s.emailCodes, s.log, EmailHint, s.now, e);
    CacheSkips(s.phoneCodes, s.log, PhoneHint, s.now, e);
  }

  lemma IssueKeeps(p: Prims, base: map<string, User>, s: Desk, token: string, jwt: Jwt)
    requires Inv(p, base, s) && JwtOk(p, s.log, jwt)
    ensures Inv(p, base, s.(issued := s.issued[token := jwt]))
  {
    hide CacheInv, LogInv, JwtOk, UserOk;
  }

  lemma UsersKeep(p: Prims, base: map<string, User>, s: Desk, db: Db)
    requires Inv(p, base, s)
    requires forall u :: u in db.users ==> UserOk(p, base, s.log, u, db.users[u])
    ensures Inv(p, base, s.(db := db))
  {
  }

  lemma ValidateKeeps(
      p: Prims, base: map<string, User>, s: Desk, subject: string, code: string, hint: string, token: string,
      expiresAt: nat)
    requires Inv(p, base, s) && ValidateCode(p, s, subject, code, hint, token, expiresAt).Ok?
    ensures Inv(p, base, ValidateCode(p, s, subject, code, hint, token, expiresAt).value)
  {
    var kind := if hint == "email" then EmailHint else PhoneHint;
    var key := if hint == "email" then p.lower(subject) else subject;
    var log := s.log + [Accepted(kind, key, code, s.now)];
    AcceptedKeeps(p, base, s, kind, key, code);
    hide Inv, WasAccepted, Korean;
    if hint == "email" {
      IssueKeeps(p, base, s.(emailCodes := Del(s.emailCodes, key, s.now), log := log), token,
        Jwt(key, kind, expiresAt));
    } else {
      IssueKeeps(p, base, s.(phoneCodes := Del(s.phoneCodes, key, s.now), log := log), token,
        Jwt(key, kind, expiresAt));
    }
  }

  /** A token that passes its check justifies what it is checked for. */
  lemma CheckedJwt(p: Prims, base: map<string, User>, s: Desk, token: string, hint: Hint, sub: string)
    requires Inv(p, base, s) && CheckJwt(s, token, hint, sub).Ok?
    ensures JwtOk(p, s.log, Jwt(sub, hint, s.issued[token].expiresAt))
  {
    assert JwtOk(p, s.log, s.issued[token]);
  }

  lemma RegisterKeeps(p: Prims, base: map<string, User>, s: Desk, uuid: string, salt: string, r: Registration)
    requires Inv(p, base, s) && Register(p, s, uuid, salt, r).Ok?
    ensures Inv(p, base, Register(p, s, uuid, salt, r).value)
  {
    var email, u := p.lower(r.email), NewUser(p, salt, r);
    assert UserOk(p, base, s.log, uuid, u) by {
      hide Inv, EndsWith;
      CheckedJwt(p, base, s, r.emailJwt, EmailHint, email);
      if EndsWith(email, STUDENT_SUFFIX) {
        CheckedJwt(p, base, s, r.studentIdJwt.value, StudentIdHint, r.studentId);
      }
      if Korean(p, r.phoneNumber) {
        CheckedJwt(p, base, s, r.phoneNumberJwt.value, PhoneHint, r.phoneNumber);
      }
    }
    hide UserOk, CheckRegistration, NewUser, EmailTaken;
    UsersKeep(p, base, s, s.db.(users := s.db.users[uuid := u]));
  }

  lemma VerifyIdKeeps(p: Prims, base: map<string, User>, s: Desk, uuid: string, name: string, registry: Option<string>)
    requires Inv(p, base, s) && VerifyOwnStudentId(s, uuid, name, registry).Ok?
    ensures Inv(p, base, VerifyOwnStudentId(s, uuid, name, registry).value)
  {
    ReturnedKeeps(p, base, s, registry.value);
    var s1 := s.(log := s.log + [Returned(registry.value)]);
    var db := UpdateStudentId(s.db, uuid, name, registry.value).value;
    assert UserOk(p, base, s1.log, uuid, s1.db.users[uuid]);
    UsersKeep(p, base, s1, db);
  }

  lemma VerifyPhoneKeeps(p: Prims, base: map<string, User>, s: Desk, uuid: string, phone: string, code: string)
    requires Inv(p, base, s) && VerifyPhoneNumber(s, uuid, phone, code).Ok?
    ensures Inv(p, base, VerifyPhoneNumber(s, uuid, phone, code).value)
  {
    AcceptedKeeps(p, base, s, PhoneHint, phone, code);
    var s1 := s.(phoneCodes := Del(s.phoneCodes, phone, s.now),
                 log := s.log + [Accepted(PhoneHint, phone, code, s.now)]);
    var db := UpdatePhoneNumber(s.db, uuid, phone).value;
    assert UserOk(p, base, s1.log, uuid, s1.db.users[uuid]);
    UsersKeep(p, base, s1, db);
  }

  lemma ProfileKeeps(
      p: Prims, base: map<string, User>, s: Desk, uuid: string, password: string, profile: Option<string>,
      picture: Option<string>)
    requires Inv(p, base, s) && uuid in s.db.users
    ensures Inv(p, base, s.(db := s.db.(users := s.db.users[
                   uuid := s.db.users[uuid].(password := password, profile := profile, picture := picture)])))
  {
    assert UserOk(p, base, s.log, uuid, s.db.users[uuid]);
    UsersKeep(p, base, s, s.db.(users := s.db.users[
                   uuid := s.db.users[uuid].(password := password, profile := profile, picture := picture)]));
  }

  lemma NextKeeps(p: Prims, base: map<string, User>, s: Desk, a: Act)
    requires Inv(p, base, s)
    ensures Inv(p, base, Next(p, s, a))
  {
    if Enabled(s, a) && Outcome(p, s, a).Ok? {
      match a
      case SendEmail(email, n, _) => SentKeeps(p, base, s, EmailHint, p.lower(email), SixDigits.Format(n));
      case SendPhone(phone, n, _) => SentKeeps(p, base, s, PhoneHint, phone, SixDigits.Format(n));
      case Validate(subject, code, hint, token, expiresAt) =>
        ValidateKeeps(p, base, s, subject, code, hint, token, expiresAt);
      case Ask(registry, token, expiresAt) =>
        ReturnedKeeps(p, base, s, registry.value);
        IssueKeeps(p, base, s.(log := s.log + [Returned(registry.value)]), token,
          Jwt(registry.value, StudentIdHint, expiresAt));
      case SignUp(uuid, salt, r) => RegisterKeeps(p, base, s, uuid, salt, r);
      case VerifyId(uuid, name, registry) => VerifyIdKeeps(p, base, s, uuid, name, registry);
      case VerifyPhone(uuid, phone, code) => VerifyPhoneKeeps(p, base, s, uuid, phone, code);
      case Tick(dt) =>
      case ChangeProfile(uuid, password, profile, picture) =>
        ProfileKeeps(p, base, s, uuid, password, profile, picture);
      case DropUser(uuid) => UsersKeep(p, base, s, DeleteUser(s.db, uuid).value);
    }
  }

  lemma {:induction false} Reachable(p: Prims, at: nat, db: Db, acts: seq<Act>)
    ensures Inv(p, db.users, Run(p, Starting(at, db), acts))
  {
    if acts == [] {
      assert forall h, x :: Outstanding([], h, x).None?;
    } else {
      hide Inv, Next;
      Reachable(p, at, db, acts[..|acts| - 1]);
      NextKeeps(p, db.users, Run(p, Starting(at, db), acts[..|acts| - 1]), acts[|acts| - 1]);
    }
  }

  // ---------------------------------------------------------------- theorems

  /** A code was sent to the subject and later accepted for it. */
  ghost predicate SentAndMatched(log: seq<Event>, hint: Hint, subject: string) {
    exists i, j :: 0 <= i < j < |log|
      && log[i].Sent? && log[i].hint == hint && log[i].subject == subject
      && log[j].Accepted? && log[j] == Accepted(hint, subject, log[i].code, log[j].at)
      && log[j].at <= log[i].at + 180 * 1000
  }

  lemma {:induction false} OutstandingWasSent(log: seq<Event>, hint: Hint, subject: string) returns (i: nat)
    requires Outstanding(log, hint, subject).Some?
    ensures i < |log|
    ensures var o := Outstanding(log, hint, subject).value; log[i] == Sent(hint, subject, o.code, o.at)
    ensures forall j :: i < j < |log| && (log[j].Sent? || log[j].Accepted?) ==>
              log[j].hint != hint || log[j].subject != subject
    decreases |log|
  {
    var k := |log| - 1;
    if log[k].Sent? && log[k].hint == hint && log[k].subject == subject {
      i := k;
    } else {
      i := OutstandingWasSent(log[..k], hint, subject);
    }
  }

  lemma AcceptedWasSent(log: seq<Event>, hint: Hint, subject: string)
    requires LogInv(log) && WasAccepted(log, hint, subject)
    ensures SentAndMatched(log, hint, subject)
  {
    var j :| 0 <= j < |log| && log[j].Accepted? && log[j].hint == hint && log[j].subject == subject;
    assert Justified(log, j);
    var i := OutstandingWasSent(log[..j], hint, subject);
    assert log[i] == log[..j][i];
  }

  /** In every reachable state, a user marked with a verified phone number has a number that parses as Korean
      and for which a code was sent and then matched in time, whichever of the two routes set the mark; and a
      user with a student email has a student id that the registry returned. To every user's email a code was sent
      and matched in time. The only exceptions are what a row that was there at the start began with and still has. */
  lemma FlagsJustified(p: Prims, at: nat, db: Db, acts: seq<Act>, uuid: string)
    requires uuid in Run(p, Starting(at, db), acts).db.users
    ensures var s := Run(p, Starting(at, db), acts);
      var u := s.db.users[uuid];
      && (u.isPhoneNumberVerified ==>
            || HadPhone(db.users, uuid, u)
            || (Korean(p, u.phoneNumber) && SentAndMatched(s.log, PhoneHint, u.phoneNumber)))
      && (EndsWith(u.email, STUDENT_SUFFIX) ==> HadStudentId(db.users, uuid, u) || Returned(u.studentId) in s.log)
      && (HadEmail(db.users, uuid, u) || SentAndMatched(s.log, EmailHint, u.email))
  {
    Reachable(p, at, db, acts);
    var s := Run(p, Starting(at, db), acts);
    var u := s.db.users[uuid];
    assert UserOk(p, db.users, s.log, uuid, u);
    if u.isPhoneNumberVerified && !HadPhone(db.users, uuid, u) {
      AcceptedWasSent(s.log, PhoneHint, u.phoneNumber);
    }
    if !HadEmail(db.users, uuid, u) {
      AcceptedWasSent(s.log, EmailHint, u.email);
    }
  }

  /** In every run each acceptance, by either service, matches the latest code sent to the subject, no more than
      three minutes after it was sent and with no acceptance for the subject in between. */
  lemma AcceptanceMatchesLatest(p: Prims, at: nat, db: Db, acts: seq<Act>, j: nat) returns (i: nat)
    requires j < |Run(p, Starting(at, db), acts).log| && Run(p, Starting(at, db), acts).log[j].Accepted?
    ensures var log := Run(p, Starting(at, db), acts).log;
      && i < j
      && log[i].Sent? && log[i] == Sent(log[j].hint, log[j].subject, log[j].code, log[i].at)
      && log[i].at <= log[j].at <= log[i].at + 180 * 1000
      && forall k :: i < k < j && (log[k].Sent? || log[k].Accepted?) ==>
           log[k].hint != log[j].hint || log[k].subject != log[j].subject
  {
    Reachable(p, at, db, acts);
    var log := Run(p, Starting(at, db), acts).log;
    assert Justified(log, j);
    i := OutstandingWasSent(log[..j], log[j].hint, log[j].subject);
    assert log[i] == log[..j][i];
    assert forall k :: i < k < j ==> log[k] == log[..j][k];
  }

  function CountSent(log: seq<Event>, hint: Hint, subject: string): nat {
    if log == [] then 0
    else
      var e := log[|log| - 1];
      CountSent(log[..|log| - 1], hint, subject) + if e.Sent? && e.hint == hint && e.subject == subject then 1 else 0
  }

  function CountAccepted(log: seq<Event>, hint: Hint, subject: string): nat {
    if log == [] then 0
    else
      var e := log[|log| - 1];
      CountAccepted(log[..|log| - 1], hint, subject)
      + if e.Accepted? && e.hint == hint && e.subject == subject then 1 else 0
  }

  lemma {:induction false} CountsBalance(log: seq<Event>, hint: Hint, subject: string)
    requires LogInv(log)
    ensures CountAccepted(log, hint, subject) + (if Outstanding(log, hint, subject).Some? then 1 else 0)
            <= CountSent(log, hint, subject)
    decreases |log|
  {
    if log != [] {
      var front := log[..|log| - 1];
      assert LogInv(front) by {
        forall i | 0 <= i < |front| ensures Justified(front, i) {
          assert Justified(log, i) && front[..i] == log[..i];
        }
      }
      CountsBalance(front, hint, subject);
      assert Justified(log, |log| - 1);
    }
  }

  /** In every run the codes accepted for a subject, counted over both services, are at most the codes sent to it. */
  lemma AcceptancesBounded(p: Prims, at: nat, db: Db, acts: seq<Act>, hint: Hint, subject: string)
    ensures var log := Run(p, Starting(at, db), acts).log;
      CountAccepted(log, hint, subject) <= CountSent(log, hint, subject)
  {
    Reachable(p, at, db, acts);
    CountsBalance(Run(p, Starting(at, db), acts).log, hint, subject);
  }

  /** The outstanding code of the subject is this one, sent no more than three minutes ago. */
  predicate Current(s: Desk, hint: Hint, subject: string, code: string) {
    var o := Outstanding(s.log, hint, subject);
    o.Some? && o.value.code == code && code != "" && s.now <= o.value.at + 180 * 1000
  }

  /** In every reachable state the code check before registration succeeds exactly with the current code of the
      subject, for the two kinds that have codes. */
  lemma ValidateIff(
      p: Prims, at: nat, db: Db, acts: seq<Act>, subject: string, code: string, hint: string, token: string,
      expiresAt: nat)
    ensures var s := Run(p, Starting(at, db), acts);
      ValidateCode(p, s, subject, code, hint, token, expiresAt).Ok? <==>
        || (hint == "email" && Current(s, EmailHint, p.lower(subject), code))
        || (hint == "phoneNumber" && Current(s, PhoneHint, subject, code))
  {
    Reachable(p, at, db, acts);
    hide Outstanding, CacheInv, LogInv, JwtOk, UserOk;
    var s := Run(p, Starting(at, db), acts);
    CacheReads(s.emailCodes, s.log, EmailHint, s.now, p.lower(subject));
    CacheReads(s.phoneCodes, s.log, PhoneHint, s.now, subject);
  }

  /** ... and so does the check of a phone number for an existing account, which moreover needs the account and a
      number that fits its column. */
  lemma VerifyPhoneIff(p: Prims, at: nat, db: Db, acts: seq<Act>, uuid: string, phone: string, code: string)
    ensures var s := Run(p, Starting(at, db), acts);
      VerifyPhoneNumber(s, uuid, phone, code).Ok? <==>
        Current(s, PhoneHint, phone, code) && uuid in s.db.users && |phone| <= 30
  {
    Reachable(p, at, db, acts);
    hide Outstanding, CacheInv, LogInv, JwtOk, UserOk;
    var s := Run(p, Starting(at, db), acts);
    CacheReads(s.phoneCodes, s.log, PhoneHint, s.now, phone);
  }

  /** A token that was issued for this kind and subject and has not expired. */
  predicate Vouches(s: Desk, token: string, hint: Hint, sub: string) {
    && token in s.issued && s.issued[token].hint == hint && s.issued[token].sub == sub
    && s.now <= s.issued[token].expiresAt
  }

  /** A registration succeeds exactly with a token for its email in lower case, for a student email also one for
      its student id, for a Korean number also one for that number, a number that parses and fits its column, and
      an email that is still free. It adds one row and nothing else. */
  lemma RegisterIff(p: Prims, s: Desk, uuid: string, salt: string, r: Registration)
    requires uuid !in s.db.users
    ensures var email := p.lower(r.email);
      && (Register(p, s, uuid, salt, r).Ok? <==>
            && Vouches(s, r.emailJwt, EmailHint, email)
            && (EndsWith(email, STUDENT_SUFFIX) ==>
                  !Falsy(r.studentIdJwt) && Vouches(s, r.studentIdJwt.value, StudentIdHint, r.studentId))
            && (Korean(p, r.phoneNumber) ==>
                  !Falsy(r.phoneNumberJwt) && Vouches(s, r.phoneNumberJwt.value, PhoneHint, r.phoneNumber))
            && p.phoneCountry(r.phoneNumber).Some? && |r.phoneNumber| <= 30
            && (forall u :: u in s.db.users ==> s.db.users[u].email != email))
      && (Register(p, s, uuid, salt, r).Ok? ==>
            Register(p, s, uuid, salt, r).value == s.(db := s.db.(users := s.db.users[
              uuid := User(p.hash(r.password, salt), None, None, r.name, email, r.studentId, r.phoneNumber, true,
                           Korean(p, r.phoneNumber))])))
  {
    hide EndsWith;
    assert EmailTaken(s.db, p.lower(r.email)) <==>
             !(forall u :: u in s.db.users ==> s.db.users[u].email != p.lower(r.email));
  }
}
