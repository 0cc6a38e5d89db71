// Access tokens: base64url claims, a dot, and a base64url signature of the first half. The MAC and
// the JSON codec are parameters.

module Token {
  import opened Domain
  import opened Base64Url

  datatype Claims = Claims(subject: string, tenant: string, role: string, expires: int)

  datatype TokenError = InvalidToken | ExpiredToken

  datatype Outcome<+T> = Accepted(value: T) | Rejected(error: TokenError)

  datatype Manager = Manager(
    mac: string -> seq<byte>, marshal: Claims -> seq<byte>, unmarshal: seq<nat> -> Option<Claims>)

  const NANOS := 1_000_000_000

  // Whole seconds of a time in nanoseconds, rounded down.
  function Unix(t: int): int {
    t / NANOS
  }

  predicate ValidRole(role: string) {
    role == "admin" || role == "builder" || role == "requester" || role == "approver" || role == "auditor"
  }

  predicate ValidClaims(c: Claims) {
    c.subject != "" && c.tenant != "" && ValidRole(c.role)
  }

  function Sign(m: Manager, payload: string): string {
    Encode(m.mac(payload))
  }

  function Issue(m: Manager, subject: string, tenant: string, role: string, ttl: int, now: int): Outcome<string> {
    if subject == "" || tenant == "" || !ValidRole(role) || ttl <= 0 then Rejected(InvalidToken)
    else
      var encoded := Encode(m.marshal(Claims(subject, tenant, role, Unix(now + ttl))));
      Accepted(encoded + "." + Sign(m, encoded))
  }

  // ----- Parsing -----

  // The pieces between separators, at least one.
  function Split(s: string, separator: char): (parts: seq<string>)
    ensures |parts| > 0
  {
    if s == "" then [""]
    else
      var parts := Split(Init(s), separator);
      if Last(s) == separator then parts + [""] else Init(parts) + [Last(parts) + [Last(s)]]
  }

  // Go's decoder skips line breaks.
  function Stripped(s: string): string {
    if s == "" then ""
    else Stripped(Init(s)) + (if Last(s) == '\r' || Last(s) == '\n' then "" else [Last(s)])
  }

  // The unpadded decoder refuses characters outside the alphabet and a single left-over character;
  // trailing bits are dropped unseen.
  ghost function DecodeString(s: string): Option<seq<nat>> {
    var t := Stripped(s);
    if (forall c :: c in t ==> InTable(c)) && |t| % 4 != 1 then Some(Decode(t)) else None
  }

  ghost function Parse(m: Manager, token: string, now: int): Outcome<Claims> {
    var parts := Split(token, '.');
    if |parts| != 2 || Sign(m, parts[0]) != parts[1] then Rejected(InvalidToken)
    else
      var payload := DecodeString(parts[0]);
      if payload.None? then Rejected(InvalidToken)
      else
        var claims := m.unmarshal(payload.value);
        if claims.None? || !ValidClaims(claims.value) then Rejected(InvalidToken)
        else if Unix(now) >= claims.value.expires then Rejected(ExpiredToken)
        else Accepted(claims.value)
  }

  // ----- Splitting -----

  lemma {:induction false} SplitWithout(s: string, separator: char)
    requires separator !in s
    ensures Split(s, separator) == [s]
  {
    if s != "" {
      assert s == Init(s) + [Last(s)];
      SplitWithout(Init(s), separator);
    }
  }

  lemma {:induction false} SplitAtFirst(a: string, b: string, separator: char)
    requires separator !in b
    ensures Split(a + [separator] + b, separator) == Split(a, separator) + [b]
  {
    if b == "" {
      assert a + [separator] + b == a + [separator];
      InitOfSnoc(a, separator);
    } else {
      assert b == Init(b) + [Last(b)];
      assert a + [separator] + b == (a + [separator] + Init(b)) + [Last(b)];
      InitOfSnoc(a + [separator] + Init(b), Last(b));
      SplitAtFirst(a, Init(b), separator);
    }
  }

  // A string splits into exactly two parts when it holds exactly one separator.
  lemma {:induction false} SplitInTwo(s: string, separator: char, a: string, b: string)
    ensures Split(s, separator) == [a, b] <==> s == a + [separator] + b && separator !in a && separator !in b
  {
    if s == a + [separator] + b && separator !in a && separator !in b {
      SplitAtFirst(a, b, separator);
      SplitWithout(a, separator);
    }
    if Split(s, separator) == [a, b] {
      PartsLackSeparator(s, separator);
      assert a in Split(s, separator) && b in Split(s, separator);
      JoinOfSplit(s, separator);
      assert Init([a, b]) == [a];
    }
  }

  lemma {:induction false} PartsLackSeparator(s: string, separator: char)
    ensures forall part :: part in Split(s, separator) ==> separator !in part
  {
    if s != "" {
      PartsLackSeparator(Init(s), separator);
      var parts := Split(Init(s), separator);
      assert Last(parts) in parts;
      forall part | part in Split(s, separator) ensures separator !in part {
        if Last(s) != separator && part !in Init(parts) {
          assert part == Last(parts) + [Last(s)];
        }
      }
    }
  }

  function Join(parts: seq<string>, separator: char): string
    requires parts != []
  {
    if |parts| == 1 then parts[0] else Join(Init(parts), separator) + [separator] + Last(parts)
  }

  lemma {:induction false} JoinOfSplit(s: string, separator: char)
    ensures Join(Split(s, separator), separator) == s
  {
    if s != "" {
      JoinOfSplit(Init(s), separator);
      var parts := Split(Init(s), separator);
      if Last(s) == separator {
        InitOfSnoc(parts, "");
      } else {
        InitOfSnoc(Init(parts), Last(parts) + [Last(s)]);
        assert s == Init(s) + [Last(s)];
      }
    }
  }

  // ----- Decoding what was encoded -----

  lemma TableLacks(c: char)
    requires InTable(c)
    ensures c != '.' && c != '\r' && c != '\n' && c != '='
  {
  }

  lemma InitIsPart(s: string)
    requires s != ""
    ensures Last(s) in s && forall c :: c in Init(s) ==> c in s
  {
  }

  lemma {:induction false} NothingStripped(s: string)
    requires forall c :: c in s ==> InTable(c)
    ensures Stripped(s) == s
  {
    hide InTable;
    if s != "" {
      hide Init, Last;
      SplitLast(s);
      InitIsPart(s);
      TableLacks(Last(s));
      NothingStripped(Init(s));
    }
  }

  lemma DecodeStringOfEncode(bytes: seq<byte>)
    ensures DecodeString(Encode(bytes)) == Some(bytes)
  {
    hide InTable, Decode, Encode, Stripped;
    NothingStripped(Encode(bytes));
    DecodeOfEncode(bytes);
  }

  lemma NoDots(bytes: seq<byte>)
    ensures '.' !in Encode(bytes)
  {
    hide Encode;
    if '.' in Encode(bytes) {
      TableLacks('.');
    }
  }

  // ----- Issued tokens -----

  // A token is issued exactly for a subject, a tenant, one of the five roles and a lifetime.
  lemma IssuedIff(m: Manager, subject: string, tenant: string, role: string, ttl: int, now: int)
    ensures Issue(m, subject, tenant, role, ttl, now).Accepted? <==>
            && subject != "" && tenant != "" && ttl > 0
            && role in {"admin", "builder", "requester", "approver", "auditor"}
    ensures Issue(m, subject, tenant, role, ttl, now).Rejected? ==>
              Issue(m, subject, tenant, role, ttl, now).error == InvalidToken
  {
  }

  // Then it splits into exactly two parts: the encoded claims and the encoded MAC of that first part.
  lemma IssuedHasTwoParts(m: Manager, subject: string, tenant: string, role: string, ttl: int, now: int)
    requires subject != "" && tenant != "" && ttl > 0
    requires role in {"admin", "builder", "requester", "approver", "auditor"}
    ensures Issue(m, subject, tenant, role, ttl, now).Accepted?
    ensures var encoded := Encode(m.marshal(Claims(subject, tenant, role, (now + ttl) / 1_000_000_000)));
            Split(Issue(m, subject, tenant, role, ttl, now).value, '.') == [encoded, Encode(m.mac(encoded))]
  {
    hide Split, Encode;
    var bytes := m.marshal(Claims(subject, tenant, role, Unix(now + ttl)));
    NoDots(bytes);
    NoDots(m.mac(Encode(bytes)));
    SplitInTwo(Encode(bytes) + "." + Sign(m, Encode(bytes)), '.', Encode(bytes), Sign(m, Encode(bytes)));
  }

  // Parsing undoes issuing: up to the whole second in which the lifetime ends the token is accepted
  // with the claims it was issued with, and from then on it is reported as expired.
  lemma ParseOfIssue(m: Manager, subject: string, tenant: string, role: string, ttl: int, issued: int, now: int)
    requires subject != "" && tenant != "" && ttl > 0
    requires role in {"admin", "builder", "requester", "approver", "auditor"}
    requires var c := Claims(subject, tenant, role, (issued + ttl) / 1_000_000_000);
             m.unmarshal(m.marshal(c)) == Some(c)
    ensures Issue(m, subject, tenant, role, ttl, issued).Accepted?
    ensures Parse(m, Issue(m, subject, tenant, role, ttl, issued).value, now) ==
            if now < issued + ttl - (issued + ttl) % 1_000_000_000
            then Accepted(Claims(subject, tenant, role, (issued + ttl) / 1_000_000_000)) else Rejected(ExpiredToken)
  {
    hide Split, Encode, DecodeString;
    IssuedHasTwoParts(m, subject, tenant, role, ttl, issued);
    DecodeStringOfEncode(m.marshal(Claims(subject, tenant, role, Unix(issued + ttl))));
  }

  // Issuing at nanosecond precision and comparing whole seconds costs less than a second of lifetime: a
  // token for at least a second is good at once.
  lemma Lifetime(m: Manager, subject: string, tenant: string, role: string, ttl: int, issued: int, now: int)
    requires subject != "" && tenant != "" && ttl > 0
    requires role in {"admin", "builder", "requester", "approver", "auditor"}
    requires var c := Claims(subject, tenant, role, (issued + ttl) / 1_000_000_000);
             m.unmarshal(m.marshal(c)) == Some(c)
    ensures Issue(m, subject, tenant, role, ttl, issued).Accepted?
    ensures var answer := Parse(m, Issue(m, subject, tenant, role, ttl, issued).value, now);
            var claims := Claims(subject, tenant, role, (issued + ttl) / 1_000_000_000);
            && (now <= issued + ttl - 1_000_000_000 ==> answer == Accepted(claims))
            && (now >= issued + ttl ==> answer == Rejected(ExpiredToken))
            && (now == issued && ttl >= 1_000_000_000 ==> answer == Accepted(claims))
  {
    hide Parse, Issue;
    ParseOfIssue(m, subject, tenant, role, ttl, issued, now);
  }

  // What is accepted, whoever made it: one dot, a payload without dots followed by its encoded MAC,
  // and valid claims that have not expired.
  lemma AcceptedIff(m: Manager, token: string, now: int, claims: Claims)
    ensures Parse(m, token, now) == Accepted(claims) <==>
            exists payload ::
              && '.' !in payload && token == payload + "." + Encode(m.mac(payload))
              && DecodeString(payload).Some? && m.unmarshal(DecodeString(payload).value) == Some(claims)
              && claims.subject != "" && claims.tenant != ""
              && claims.role in {"admin", "builder", "requester", "approver", "auditor"}
              && now / 1_000_000_000 < claims.expires
  {
    hide Split, Encode, DecodeString;
    var parts := Split(token, '.');
    if Parse(m, token, now) == Accepted(claims) {
      assert parts == [parts[0], parts[1]];
      SplitInTwo(token, '.', parts[0], parts[1]);
    }
    forall payload | '.' !in payload && token == payload + "." + Encode(m.mac(payload))
      ensures parts == [payload, Encode(m.mac(payload))]
    {
      NoDots(m.mac(payload));
      SplitInTwo(token, '.', payload, Encode(m.mac(payload)));
    }
  }

  // The mobile client decodes the first half of an issued token to the marshalled bytes.
  lemma ClientReadsBytes(m: Manager, subject: string, tenant: string, role: string, ttl: int, now: int)
    requires subject != "" && tenant != "" && ttl > 0
    requires role in {"admin", "builder", "requester", "approver", "auditor"}
    ensures Issue(m, subject, tenant, role, ttl, now).Accepted?
    ensures Decode(Split(Issue(m, subject, tenant, role, ttl, now).value, '.')[0])
         == m.marshal(Claims(subject, tenant, role, (now + ttl) / 1_000_000_000))
  {
    hide Split, Encode, Decode;
    IssuedHasTwoParts(m, subject, tenant, role, ttl, now);
    DecodeOfEncode(m.marshal(Claims(subject, tenant, role, Unix(now + ttl))));
  }
}
