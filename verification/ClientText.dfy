// The text the mobile client reads out of a token: it makes one UTF-16 unit of each decoded byte,
// while the bytes are the UTF-8 form of the marshalled claims.

module ClientText {
  import opened Domain
  import opened Base64Url
  import opened Token

  type CodePoint = c: int | 0 <= c < 0xD800 || 0xE000 <= c < 0x11_0000

  // RFC 3629, section 3.
  function Utf8Of(c: CodePoint): seq<byte> {
    if c < 0x80 then [c]
    else if c < 0x800 then [0xC0 + c / 0x40, 0x80 + c % 0x40]
    else if c < 0x1_0000 then [0xE0 + c / 0x1000, 0x80 + c / 0x40 % 0x40, 0x80 + c % 0x40]
    else [0xF0 + c / 0x4_0000, 0x80 + c / 0x1000 % 0x40, 0x80 + c / 0x40 % 0x40, 0x80 + c % 0x40]
  }

  // RFC 2781, section 2.1.
  function Utf16Of(c: CodePoint): seq<nat> {
    if c < 0x1_0000 then [c]
    else [0xD800 + (c - 0x1_0000) / 0x400, 0xDC00 + (c - 0x1_0000) % 0x400]
  }

  function Utf8(text: seq<CodePoint>): seq<byte> {
    if text == [] then [] else Utf8(Init(text)) + Utf8Of(Last(text))
  }

  function Utf16(text: seq<CodePoint>): seq<nat> {
    if text == [] then [] else Utf16(Init(text)) + Utf16Of(Last(text))
  }

  ghost predicate Ascii(bytes: seq<nat>) {
    forall i :: 0 <= i < |bytes| ==> bytes[i] < 0x80
  }

  // UTF-8 never takes fewer bytes than UTF-16 takes units, and as many only for ASCII.
  lemma {:induction false} LengthsTell(text: seq<CodePoint>)
    ensures |Utf8(text)| >= |Utf16(text)|
    ensures |Utf8(text)| == |Utf16(text)| <==> Ascii(Utf8(text))
    ensures Ascii(Utf8(text)) ==> Utf8(text) == Utf16(text)
  {
    if text != [] {
      var c := Last(text);
      var before, after := Utf8(Init(text)), Utf8(text);
      LengthsTell(Init(text));
      assert after == before + Utf8Of(c);
      assert after[|before|] == Utf8Of(c)[0];
      assert Ascii(after) ==> Ascii(before) by {
        assert forall i :: 0 <= i < |before| ==> before[i] == after[i];
      }
    }
  }

  // The units the client reads are the text if and only if every byte of the text is below 128.
  lemma UnitsAreTextIff(text: seq<CodePoint>)
    ensures Utf8(text) == Utf16(text) <==> Ascii(Utf8(text))
  {
    LengthsTell(text);
  }

  // So the client parses the claims an issued token was marshalled from exactly when they were
  // marshalled to ASCII; otherwise it parses another text.
  lemma ClientReadsTextIff(m: Manager, subject: string, tenant: string, role: string, ttl: int, now: int,
                           text: seq<CodePoint>)
    requires subject != "" && tenant != "" && ttl > 0
    requires role in {"admin", "builder", "requester", "approver", "auditor"}
    requires m.marshal(Claims(subject, tenant, role, (now + ttl) / 1_000_000_000)) == Utf8(text)
    ensures Issue(m, subject, tenant, role, ttl, now).Accepted?
    ensures Decode(Split(Issue(m, subject, tenant, role, ttl, now).value, '.')[0]) == Utf16(text) <==> Ascii(Utf8(text))
  {
    hide Split, Decode, Issue, Utf8, Utf16;
    ClientReadsBytes(m, subject, tenant, role, ttl, now);
    UnitsAreTextIff(text);
  }

  // It occurs: the two bytes of U+00E9 are read as two units.
  lemma AccentIsMisread()
    ensures Utf8([0xE9]) == [0xC3, 0xA9] && Utf16([0xE9]) == [0xE9]
  {
    assert Init<CodePoint>([0xE9]) == [];
  }
}
