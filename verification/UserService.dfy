/** The verification and user services as objects over the cache, the tables and the token signer. */
module UserService {
  import opened Types
  import opened Database
  import opened Prefixes
  import opened Prisma
  import opened Store
  import opened Verification
  import SixDigits


  /** Signs verification tokens and remembers what it signed. */
  class JwtService {
    var issued: map<string, Jwt>

    constructor ()
      ensures issued == map[]
    {
      issued := map[];
    }

    method Sign(token: string, sub: string, hint: Hint, expiresAt: nat)
      modifies this
      ensures issued == old(issued)[token := Jwt(sub, hint, expiresAt)]
    {
      issued := issued[token := Jwt(sub, hint, expiresAt)];
    }

    method Verify(token: string, now: nat) returns (r: Result<Jwt>)
      ensures r == if token in issued && now <= issued[token].expiresAt then Ok(issued[token]) else Err(BadRequest)
    {
      if token in issued && now <= issued[token].expiresAt {
        return Ok(issued[token]);
      }
      return Err(BadRequest);
    }
  }

  /** A request served: on success the desk is the one computed, on failure it is untouched. */
  ghost predicate Did(before: Desk, outcome: Result<Desk>, after: Desk, r: Result<()>) {
    match outcome
    case Ok(s) => r == Ok(()) && after.(log := s.log) == s
    case Err(e) => r == Err(e) && after == before
  }

  class VerifyService {
    const redisService: RedisService
    const jwtService: JwtService
    const prisma: PrismaService

    constructor (redisService: RedisService, jwtService: JwtService, prisma: PrismaService)
      ensures this.redisService == redisService && this.jwtService == jwtService && this.prisma == prisma
      ensures redisService.data == map[] ==> Valid()
    {
      this.redisService := redisService;
      this.jwtService := jwtService;
      this.prisma := prisma;
      new;
      SliceOfEmpty<CacheValue>(EMAIL_PREFIX);
      SliceOfEmpty<CacheValue>(PHONE_PREFIX);
    }

    ghost predicate Valid()
      reads this, redisService
    {
      AllTexts(Slice(redisService.data, EMAIL_PREFIX)) && AllTexts(Slice(redisService.data, PHONE_PREFIX))
    }

    /** The state as the specification sees it, with the given log. */
    ghost function View(now: nat, log: seq<Event>): Desk
      reads this, redisService, jwtService, prisma
    {
      Desk(now, prisma.State(), AsTexts(Slice(redisService.data, EMAIL_PREFIX)),
           AsTexts(Slice(redisService.data, PHONE_PREFIX)), jwtService.issued, log)
    }

    method SetCode(hint: Hint, subject: string, code: string, now: nat, ghost log: seq<Event>)
      requires Valid() && hint != StudentIdHint
      modifies redisService
      ensures Valid()
      ensures LeavesOthers(old(redisService.data), redisService.data, VERIFY_PREFIXES)
      ensures hint == EmailHint ==>
                View(now, log)
                == old(View(now, log).(emailCodes := Set(View(now, log).emailCodes, subject, code, 3 * 60, now)))
      ensures hint == PhoneHint ==>
                View(now, log)
                == old(View(now, log).(phoneCodes := Set(View(now, log).phoneCodes, subject, code, 3 * 60, now)))
    {
      hide Slice, AsTexts, AllTexts;
      var prefix := if hint == EmailHint then EMAIL_PREFIX else PHONE_PREFIX;
      AsTextsSet(Slice(redisService.data, prefix), subject, code, 3 * 60, now);
      redisService.SetValue(subject, Text(code), prefix, 3 * 60, now);
      Narrow(old(redisService.data), redisService.data, prefix, VERIFY_PREFIXES);
    }

    method DelCode(hint: Hint, subject: string, now: nat, ghost log: seq<Event>)
      requires Valid() && hint != StudentIdHint
      modifies redisService
      ensures Valid()
      ensures LeavesOthers(old(redisService.data), redisService.data, VERIFY_PREFIXES)
      ensures hint == EmailHint ==>
                View(now, log) == old(View(now, log).(emailCodes := Del(View(now, log).emailCodes, subject, now)))
      ensures hint == PhoneHint ==>
                View(now, log) == old(View(now, log).(phoneCodes := Del(View(now, log).phoneCodes, subject, now)))
    {
      hide Slice, AsTexts, AllTexts;
      var prefix := if hint == EmailHint then EMAIL_PREFIX else PHONE_PREFIX;
      AsTextsDel(Slice(redisService.data, prefix), subject, now);
      redisService.DelValue(subject, prefix, now);
      Narrow(old(redisService.data), redisService.data, prefix, VERIFY_PREFIXES);
    }

    method GetCode(hint: Hint, subject: string, now: nat, ghost log: seq<Event>) returns (r: Option<string>)
      requires Valid() && hint != StudentIdHint
      ensures hint == EmailHint ==> r == Stored(View(now, log).emailCodes, subject, now)
      ensures hint == PhoneHint ==> r == Stored(View(now, log).phoneCodes, subject, now)
    {
      hide Slice;
      var prefix := if hint == EmailHint then EMAIL_PREFIX else PHONE_PREFIX;
      var value := redisService.GetOrThrow(subject, prefix, now);
      if value.Err? {
        return None;
      }
      return Some(value.value.text);
    }

    method SendEmailCode(p: Prims, now: nat, email: string, n: nat, delivered: bool, ghost log: seq<Event>)
        returns (r: Result<()>)
      requires Valid() && n < 1000000
      modifies redisService
      ensures Valid()
      ensures LeavesOthers(old(redisService.data), redisService.data, VERIFY_PREFIXES)
      ensures Did(old(View(now, log)), Verification.SendEmailCode(p, old(View(now, log)), email, n, delivered),
                View(now, log), r)
    {
      hide Valid, SixDigits.Format;
      var emailVerificationCode := SixDigits.Format(n);
      if !delivered {
        return Err(Internal);
      }
      SetCode(EmailHint, p.lower(email), emailVerificationCode, now, log);
      return Ok(());
    }

    method SendPhoneCode(p: Prims, now: nat, phoneNumber: string, n: nat, delivered: bool, ghost log: seq<Event>)
        returns (r: Result<()>)
      requires Valid() && n < 1000000
      modifies redisService
      ensures Valid()
      ensures LeavesOthers(old(redisService.data), redisService.data, VERIFY_PREFIXES)
      ensures Did(old(View(now, log)), Verification.SendPhoneCode(p, old(View(now, log)), phoneNumber, n, delivered),
                View(now, log), r)
    {
      hide Valid, SixDigits.Format;
      var tel := p.phoneCountry(phoneNumber);
      if tel.None? {
        return Err(BadRequest);
      }
      if tel.value != "KR" {
        return Err(BadRequest);
      }
      var phoneNumberVerificationCode := SixDigits.Format(n);
      if !delivered {
        return Err(Internal);
      }
      SetCode(PhoneHint, phoneNumber, phoneNumberVerificationCode, now, log);
      return Ok(());
    }

    method ValidateCode(
        p: Prims, now: nat, subject: string, code: string, hint: string, token: string, expiresAt: nat,
        ghost log: seq<Event>)
        returns (r: Result<()>)
      requires Valid()
      modifies redisService, jwtService
      ensures Valid()
      ensures LeavesOthers(old(redisService.data), redisService.data, VERIFY_PREFIXES)
      ensures Did(old(View(now, log)),
                Verification.ValidateCode(p, old(View(now, log)), subject, code, hint, token, expiresAt),
                View(now, log), r)
    {
      hide Valid, Slice, AsTexts, AllTexts, Stored, Del;
      var kind, key;
      if hint == "email" {
        kind := EmailHint;
        key := p.lower(subject);
      } else if hint == "phoneNumber" {
        kind := PhoneHint;
        key := subject;
      } else {
        return Err(BadRequest);
      }
      var cachedCode := GetCode(kind, key, now, log);
      if cachedCode != Some(code) {
        return Err(BadRequest);
      }
      DelCode(kind, key, now, log);
      jwtService.Sign(token, key, kind, expiresAt);
      return Ok(());
    }

    method ValidateJwtToken(token: string, now: nat, ghost log: seq<Event>) returns (r: Result<Jwt>)
      ensures r == ValidateJwt(View(now, log), token)
    {
      r := jwtService.Verify(token, now);
    }

    /** `registry` is what the student registry answered, if it answered with a number. */
    method GetStudentId(registry: Option<string>) returns (r: Result<string>)
      ensures r == if Falsy(registry) then Err(NotFound) else Ok(registry.value)
    {
      if Falsy(registry) {
        return Err(NotFound);
      }
      return Ok(registry.value);
    }

    method VerifyStudentId(now: nat, registry: Option<string>, token: string, expiresAt: nat, ghost log: seq<Event>)
        returns (r: Result<()>)
      requires Valid()
      modifies jwtService
      ensures Valid()
      ensures Did(old(View(now, log)), Verification.VerifyStudentId(old(View(now, log)), registry, token, expiresAt),
                View(now, log), r)
    {
      var studentId := GetStudentId(registry);
      if studentId.Err? {
        return Err(studentId.error);
      }
      jwtService.Sign(token, studentId.value, StudentIdHint, expiresAt);
      return Ok(());
    }
  }

  class UserRepository {
    const prisma: PrismaService

    constructor (prisma: PrismaService)
      ensures this.prisma == prisma
    {
      this.prisma := prisma;
    }

    /** Whatever is passed in, the id flag of a new row is set. */
    method CreateUser(
        uuid: string, email: string, password: string, name: string, studentId: string, phoneNumber: string,
        isPhoneNumberVerified: bool)
        returns (r: Result<()>)
      modifies prisma`users
      ensures Wrote(old(prisma.State()),
                Database.CreateUser(old(prisma.State()), uuid,
                  User(password, None, None, name, email, studentId, phoneNumber, true, isPhoneNumberVerified)),
                prisma.State(), r)
    {
      if uuid in prisma.users {
        return Err(Internal);
      }
      if u :| u in prisma.users && prisma.users[u].email == email {
        return Err(Conflict);
      }
      prisma.users := prisma.users[
        uuid := User(password, None, None, name, email, studentId, phoneNumber, true, isPhoneNumberVerified)];
      return Ok(());
    }

    method UpdateStudentId(uuid: string, name: string, studentId: string) returns (r: Result<()>)
      modifies prisma`users
      ensures Wrote(old(prisma.State()), Verification.UpdateStudentId(old(prisma.State()), uuid, name, studentId),
                prisma.State(), r)
    {
      if uuid !in prisma.users {
        return Err(Forbidden);
      }
      prisma.users := prisma.users[
        uuid := prisma.users[uuid].(name := name, studentId := studentId, isIdVerified := true)];
      return Ok(());
    }

    method UpdatePhoneNumber(uuid: string, phoneNumber: string) returns (r: Result<()>)
      modifies prisma`users
      ensures Wrote(old(prisma.State()), Verification.UpdatePhoneNumber(old(prisma.State()), uuid, phoneNumber),
                prisma.State(), r)
    {
      if uuid !in prisma.users {
        return Err(Forbidden);
      }
      if |phoneNumber| > MAX_PHONE_LENGTH {
        return Err(Internal);
      }
      prisma.users := prisma.users[
        uuid := prisma.users[uuid].(phoneNumber := phoneNumber, isPhoneNumberVerified := true)];
      return Ok(());
    }

    /** The delete reaches every table that refers to the user. */
    method DeleteUser(uuid: string) returns (r: Result<()>)
      modifies prisma
      ensures Wrote(old(prisma.State()), Database.DeleteUser(old(prisma.State()), uuid), prisma.State(), r)
    {
      if uuid !in prisma.users {
        return Err(Forbidden);
      }
      prisma.users := prisma.users - {uuid};
      prisma.members := map m | m in prisma.members && m.userUuid != uuid :: prisma.members[m];
      prisma.consents := map c | c in prisma.consents && c.userUuid != uuid :: prisma.consents[c];
      prisma.refreshTokens := map t | t in prisma.refreshTokens && prisma.refreshTokens[t].userUuid != uuid
                                :: prisma.refreshTokens[t];
      prisma.authenticators := map a | a in prisma.authenticators && prisma.authenticators[a] != uuid
                                :: prisma.authenticators[a];
      return Ok(());
    }
  }

  class UserService {
    const verifyService: VerifyService
    const userRepository: UserRepository

    constructor (verifyService: VerifyService)
      ensures this.verifyService == verifyService
      ensures userRepository.prisma == verifyService.prisma
      ensures verifyService.Valid() ==> Valid()
    {
      this.verifyService := verifyService;
      this.userRepository := new UserRepository(verifyService.prisma);
    }

    ghost predicate Valid()
      reads verifyService, verifyService.redisService
    {
      userRepository.prisma == verifyService.prisma && verifyService.Valid()
    }

    ghost function View(now: nat, log: seq<Event>): Desk
      reads verifyService, verifyService.redisService, verifyService.jwtService, verifyService.prisma
    {
      verifyService.View(now, log)
    }

    /** The three checks on one verification token. */
    method RequireJwt(token: string, hint: Hint, sub: string, now: nat, ghost log: seq<Event>) returns (r: Result<()>)
      ensures r == CheckJwt(View(now, log), token, hint, sub)
    {
      var payload := verifyService.ValidateJwtToken(token, now, log);
      if payload.Err? {
        return Err(payload.error);
      }
      if payload.value.hint != hint {
        return Err(Forbidden);
      }
      if payload.value.sub != sub {
        return Err(Forbidden);
      }
      return Ok(());
    }

    method RequireOptionalJwt(token: Option<string>, hint: Hint, sub: string, now: nat, ghost log: seq<Event>)
        returns (r: Result<()>)
      ensures r == CheckOptionalJwt(View(now, log), token, hint, sub)
    {
      if Falsy(token) {
        return Err(Forbidden);
      }
      r := RequireJwt(token.value, hint, sub, now, log);
    }

    method Register(p: Prims, now: nat, uuid: string, salt: string, dto: Registration, ghost log: seq<Event>)
        returns (r: Result<()>)
      requires Valid()
      modifies verifyService.prisma
      ensures Valid()
      ensures Did(old(View(now, log)), Verification.Register(p, old(View(now, log)), uuid, salt, dto),
                View(now, log), r)
    {
      hide Database.CreateUser, CheckJwt, CheckOptionalJwt, Falsy, EndsWith, Slice, AsTexts, AllTexts;
      var email := p.lower(dto.email);
      if |dto.phoneNumber| > MAX_PHONE_LENGTH {
        return Err(BadRequest);
      }
      r := RequireJwt(dto.emailJwt, EmailHint, email, now, log);
      if r.Err? {
        return;
      }
      var isStudentEmail := EndsWith(email, STUDENT_SUFFIX);
      if isStudentEmail {
        r := RequireOptionalJwt(dto.studentIdJwt, StudentIdHint, dto.studentId, now, log);
        if r.Err? {
          return;
        }
      }
      var isKoreanPhoneNumber := false;
      var parsed := p.phoneCountry(dto.phoneNumber);
      if parsed.None? {
        return Err(BadRequest);
      }
      isKoreanPhoneNumber := parsed.value == "KR";
      if isKoreanPhoneNumber {
        r := RequireOptionalJwt(dto.phoneNumberJwt, PhoneHint, dto.phoneNumber, now, log);
        if r.Err? {
          return;
        }
      }
      var hashedPassword := p.hash(dto.password, salt);
      r := userRepository.CreateUser(uuid, email, hashedPassword, dto.name, dto.studentId, dto.phoneNumber,
        isKoreanPhoneNumber);
    }

    method VerifyStudentId(now: nat, uuid: string, name: string, registry: Option<string>, ghost log: seq<Event>)
        returns (r: Result<()>)
      requires Valid()
      modifies verifyService.prisma
      ensures Valid()
      ensures Did(old(View(now, log)), VerifyOwnStudentId(old(View(now, log)), uuid, name, registry), View(now, log), r)
    {
      hide Slice, AsTexts, AllTexts;
      var studentId := verifyService.GetStudentId(registry);
      if studentId.Err? {
        return Err(studentId.error);
      }
      r := userRepository.UpdateStudentId(uuid, name, studentId.value);
    }

    method VerifyPhoneNumber(now: nat, uuid: string, phoneNumber: string, code: string, ghost log: seq<Event>)
        returns (r: Result<()>)
      requires Valid()
      modifies verifyService.prisma, verifyService.redisService
      ensures Valid()
      ensures LeavesOthers(old(verifyService.redisService.data), verifyService.redisService.data, VERIFY_PREFIXES)
      ensures Did(old(View(now, log)), Verification.VerifyPhoneNumber(old(View(now, log)), uuid, phoneNumber, code),
                View(now, log), r)
    {
      hide Slice, AsTexts, AllTexts, Stored, Verification.UpdatePhoneNumber, Del;
      var cachedCode := verifyService.GetCode(PhoneHint, phoneNumber, now, log);
      if cachedCode != Some(code) {
        return Err(BadRequest);
      }
      r := userRepository.UpdatePhoneNumber(uuid, phoneNumber);
      if r.Err? {
        return;
      }
      verifyService.DelCode(PhoneHint, phoneNumber, now, log);
    }

    /** Deleting an account asks for its password and leaves no row of the user in any table. */
    method DeleteUser(p: Prims, userUuid: string, password: string) returns (r: Result<()>)
      requires Valid() && Referential(verifyService.prisma.State())
      modifies verifyService.prisma
      ensures r.Ok? <==> old(userUuid in verifyService.prisma.users
                             && p.bcrypt(password, verifyService.prisma.users[userUuid].password))
      ensures r.Ok? ==> NothingOf(verifyService.prisma.State(), userUuid)
      ensures Wrote(old(verifyService.prisma.State()),
                if r.Ok? then Database.DeleteUser(old(verifyService.prisma.State()), userUuid) else Err(Forbidden),
                verifyService.prisma.State(), r)
    {
      hide Referential, NothingOf;
      if userUuid !in verifyService.prisma.users {
        return Err(Forbidden);
      }
      if !p.bcrypt(password, verifyService.prisma.users[userUuid].password) {
        return Err(Forbidden);
      }
      DeletionLeavesNothing(verifyService.prisma.State(), userUuid);
      r := userRepository.DeleteUser(userUuid);
    }
  }
}
