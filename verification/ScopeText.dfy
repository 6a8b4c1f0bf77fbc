/** The wire form of scope lists: names joined by single spaces (section 3.3 of RFC 6749). */
module ScopeText {
  import opened Types

  /** JavaScript's `text.split(sep)` for a one-character separator. */
  function Split(text: string, sep: char): (parts: seq<string>)
    ensures |parts| >= 1
  {
    if text == "" then [""]
    else
      var rest := Split(text[1..], sep);
      if text[0] == sep then [""] + rest
      else [[text[0]] + rest[0]] + rest[1..]
  }

  /** JavaScript's `parts.join(sep)`. */
  function Join(parts: seq<string>, sep: char): string {
    if |parts| == 0 then ""
    else if |parts| == 1 then parts[0]
    else parts[0] + [sep] + Join(parts[1..], sep)
  }

  lemma {:induction false} JoinOfSplit(text: string, sep: char)
    ensures Join(Split(text, sep), sep) == text
  {
    if text != "" {
      JoinOfSplit(text[1..], sep);
      var rest := Split(text[1..], sep);
      assert rest[1..] == ([[text[0]] + rest[0]] + rest[1..])[1..];
      assert ([""] + rest)[1..] == rest;
    }
  }

  lemma {:induction false} SplitOfFree(part: string, sep: char)
    requires sep !in part
    ensures Split(part, sep) == [part]
  {
    if part != "" {
      SplitOfFree(part[1..], sep);
      assert [part[0]] + part[1..] == part;
    }
  }

  lemma {:induction false} SplitOfCons(part: string, rest: string, sep: char)
    requires sep !in part
    ensures Split(part + [sep] + rest, sep) == [part] + Split(rest, sep)
  {
    var text := part + [sep] + rest;
    if part == "" {
      assert text[1..] == rest;
    } else {
      SplitOfCons(part[1..], rest, sep);
      assert text[1..] == part[1..] + [sep] + rest;
      assert [part[0]] + part[1..] == part;
      assert ([part[1..]] + Split(rest, sep))[1..] == Split(rest, sep);
    }
  }

  lemma {:induction false} SplitOfJoin(parts: seq<string>, sep: char)
    requires parts != []
    requires forall i :: 0 <= i < |parts| ==> sep !in parts[i]
    ensures Split(Join(parts, sep), sep) == parts
  {
    if |parts| == 1 {
      SplitOfFree(parts[0], sep);
    } else {
      SplitOfJoin(parts[1..], sep);
      SplitOfCons(parts[0], Join(parts[1..], sep), sep);
    }
  }

  function Name(s: Scope): string {
    match s
    case Profile => "profile"
    case Email => "email"
    case PhoneNumber => "phone_number"
    case StudentId => "student_id"
    case Openid => "openid"
    case OfflineAccess => "offline_access"
  }

  const CLIENT_SCOPE_LIST: seq<Scope> := [Profile, Email, PhoneNumber, StudentId]
  const TOKEN_SCOPE_LIST: seq<Scope> := [Openid, OfflineAccess]
  const SCOPE_LIST: seq<Scope> := CLIENT_SCOPE_LIST + TOKEN_SCOPE_LIST

  /** The lists name every scope there is, and the client scopes are those of the first. */
  lemma Listed()
    ensures forall s :: s in SCOPE_LIST
    ensures forall s :: s in CLIENT_SCOPE_LIST <==> IsClientScope(s)
    ensures forall s :: s in TOKEN_SCOPE_LIST <==> IsTokenScope(s)
  {
    forall s ensures s in SCOPE_LIST && (s in CLIENT_SCOPE_LIST <==> IsClientScope(s))
                     && (s in TOKEN_SCOPE_LIST <==> IsTokenScope(s)) {
      match s
      case Profile => assert SCOPE_LIST[0] == s && CLIENT_SCOPE_LIST[0] == s;
      case Email => assert SCOPE_LIST[1] == s && CLIENT_SCOPE_LIST[1] == s;
      case PhoneNumber => assert SCOPE_LIST[2] == s && CLIENT_SCOPE_LIST[2] == s;
      case StudentId => assert SCOPE_LIST[3] == s && CLIENT_SCOPE_LIST[3] == s;
      case Openid => assert SCOPE_LIST[4] == s && TOKEN_SCOPE_LIST[0] == s;
      case OfflineAccess => assert SCOPE_LIST[5] == s && TOKEN_SCOPE_LIST[1] == s;
    }
  }

  /** The wire names: each reads as the one scope of that name, where that scope is allowed. */
  lemma WireNames(allowed: seq<Scope>)
    ensures Parse("profile", allowed) == (if Profile in allowed then Some([Profile]) else None)
    ensures Parse("email", allowed) == (if Email in allowed then Some([Email]) else None)
    ensures Parse("phone_number", allowed) == (if PhoneNumber in allowed then Some([PhoneNumber]) else None)
    ensures Parse("student_id", allowed) == (if StudentId in allowed then Some([StudentId]) else None)
    ensures Parse("openid", allowed) == (if Openid in allowed then Some([Openid]) else None)
    ensures Parse("offline_access", allowed) == (if OfflineAccess in allowed then Some([OfflineAccess]) else None)
  {
    hide Parse;
    OneName("profile", Profile, allowed);
    OneName("email", Email, allowed);
    OneName("phone_number", PhoneNumber, allowed);
    OneName("student_id", StudentId, allowed);
    OneName("openid", Openid, allowed);
    OneName("offline_access", OfflineAccess, allowed);
  }

  lemma OneName(name: string, s: Scope, allowed: seq<Scope>)
    requires Name(s) == name
    ensures Parse(name, allowed) == if s in allowed then Some([s]) else None
  {
    hide Name;
    NamesAreWords(s);
    SplitOfFree(name, ' ');
    assert ParseNames([], allowed) == Some([]) && [name][1..] == [];
    LookupSound(name, allowed);
    if s in allowed {
      LookupComplete(s, allowed);
      assert Lookup(name, allowed) == Some(s) && [s] + [] == [s];
      assert ParseNames([name], allowed) == Some([s] + []);
    } else if Lookup(name, allowed).Some? {
      NameInjective(Lookup(name, allowed).value, s);
    }
  }

  /** The membership test of the request transforms: the listed scope with that name. */
  function Lookup(name: string, allowed: seq<Scope>): Option<Scope> {
    if allowed == [] then None
    else if Name(allowed[0]) == name then Some(allowed[0])
    else Lookup(name, allowed[1..])
  }

  function ParseNames(names: seq<string>, allowed: seq<Scope>): Option<seq<Scope>> {
    if names == [] then Some([])
    else
      match (Lookup(names[0], allowed), ParseNames(names[1..], allowed))
      case (Some(s), Some(ss)) => Some([s] + ss)
      case _ => None
  }

  /** The `scope` transform of the request objects: `None` stands for the thrown `invalid_scope`. */
  function Parse(text: string, allowed: seq<Scope>): Option<seq<Scope>> {
    ParseNames(Split(text, ' '), allowed)
  }

  function Names(ss: seq<Scope>): seq<string> {
    seq(|ss|, i requires 0 <= i < |ss| => Name(ss[i]))
  }

  /** The `scope` transform of the token answer, and the `scope` claim of the ID token. */
  function Print(ss: seq<Scope>): string {
    Join(Names(ss), ' ')
  }

  lemma NamesAreWords(s: Scope)
    ensures ' ' !in Name(s)
  {
  }

  lemma {:induction false} LookupSound(name: string, allowed: seq<Scope>)
    ensures Lookup(name, allowed).Some? ==>
              Lookup(name, allowed).value in allowed && Name(Lookup(name, allowed).value) == name
  {
    if allowed != [] {
      LookupSound(name, allowed[1..]);
    }
  }

  lemma NameInjective(s: Scope, t: Scope)
    requires Name(s) == Name(t)
    ensures s == t
  {
    assert Name(s)[0] == Name(t)[0] && |Name(s)| == |Name(t)|;
  }

  lemma {:induction false} LookupComplete(s: Scope, allowed: seq<Scope>)
    requires s in allowed
    ensures Lookup(Name(s), allowed) == Some(s)
  {
    if Name(allowed[0]) == Name(s) {
      NameInjective(allowed[0], s);
    } else {
      LookupComplete(s, allowed[1..]);
    }
  }

  lemma {:induction false} ParseNamesSound(names: seq<string>, allowed: seq<Scope>)
    requires ParseNames(names, allowed).Some?
    ensures Names(ParseNames(names, allowed).value) == names
    ensures forall s :: s in ParseNames(names, allowed).value ==> s in allowed
  {
    if names != [] {
      LookupSound(names[0], allowed);
      ParseNamesSound(names[1..], allowed);
    }
  }

  lemma {:induction false} ParseNamesComplete(ss: seq<Scope>, allowed: seq<Scope>)
    requires forall s :: s in ss ==> s in allowed
    ensures ParseNames(Names(ss), allowed) == Some(ss)
  {
    if ss != [] {
      LookupComplete(ss[0], allowed);
      ParseNamesComplete(ss[1..], allowed);
      assert Names(ss)[1..] == Names(ss[1..]);
      assert [ss[0]] + ss[1..] == ss;
    }
  }

  /** Text to list to text: printing an accepted scope string gives back that string, and the
      accepted list is non-empty and drawn from the allowed scopes. */
  lemma PrintOfParse(text: string, allowed: seq<Scope>)
    requires Parse(text, allowed).Some?
    ensures Print(Parse(text, allowed).value) == text
    ensures Parse(text, allowed).value != []
    ensures forall s :: s in Parse(text, allowed).value ==> s in allowed
  {
    ParseNamesSound(Split(text, ' '), allowed);
    JoinOfSplit(text, ' ');
  }

  /** List to text to list, for every list of allowed scopes: it succeeds exactly when the list is
      non-empty, because the empty list prints as the empty string, which no scope is named. */
  lemma ParseOfPrint(ss: seq<Scope>, allowed: seq<Scope>)
    requires forall s :: s in ss ==> s in allowed
    ensures Parse(Print(ss), allowed) == Some(ss) <==> ss != []
  {
    if ss == [] {
      PrintEmptyRejected(allowed);
    } else {
      forall i | 0 <= i < |Names(ss)| ensures ' ' !in Names(ss)[i] {
        NamesAreWords(ss[i]);
      }
      SplitOfJoin(Names(ss), ' ');
      ParseNamesComplete(ss, allowed);
    }
  }

  lemma PrintEmptyRejected(allowed: seq<Scope>)
    ensures Parse("", allowed).None?
  {
    LookupSound("", allowed);
    assert forall s: Scope :: Name(s) != "";
    assert Split("", ' ') == [""];
  }
}
