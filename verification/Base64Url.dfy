// The mobile client's base64url decoder, bit by bit, and the unpadded encoding of section 5 of
// RFC 4648 that it inverts.

module Base64Url {
  import opened Domain

  type byte = i: int | 0 <= i < 256

  // The alphabet the decoder looks characters up in: that of section 4.
  function Alphabet(): string {
    "ABCDEFGHIJKLMNOPQRSTUVWXYZ" + "abcdefghijklmnopqrstuvwxyz" + "0123456789" + "+/"
  }

  // ----- The decoder -----

  // Position of a character, -1 if it does not occur.
  function IndexOf(s: string, c: char): (i: int)
    ensures -1 <= i < |s|
    ensures i >= 0 ==> s[i] == c
    ensures i == -1 ==> c !in s
  {
    if s == [] then -1
    else
      var i := IndexOf(Init(s), c);
      if i >= 0 then i else if Last(s) == c then |s| - 1 else -1
  }

  function Normal(c: char): char {
    if c == '-' then '+' else if c == '_' then '/' else c
  }

  function Normalized(value: string): string {
    seq(|value|, i requires 0 <= i < |value| => Normal(value[i]))
  }

  // The lowest n bits of v, most significant first: toString(2) padded to n digits when v fits.
  function Bits(v: nat, n: nat): seq<bool> {
    if n == 0 then [] else Bits(v / 2, n - 1) + [v % 2 == 1]
  }

  function Number(bits: seq<bool>): nat {
    if bits == [] then 0 else 2 * Number(Init(bits)) + (if Last(bits) then 1 else 0)
  }

  function BitsOf(c: char): seq<bool> {
    var i := IndexOf(Alphabet(), Normal(c));
    if i >= 0 then Bits(i, 6) else []
  }

  function AllBits(value: string): seq<bool> {
    if value == "" then [] else AllBits(Init(value)) + BitsOf(Last(value))
  }

  // Whole groups of eight bits; what is left over is dropped.
  function Groups(bits: seq<bool>): seq<nat> {
    if |bits| < 8 then [] else [Number(bits[..8])] + Groups(bits[8..])
  }

  function Decode(value: string): seq<nat> {
    Groups(AllBits(value))
  }

  method DecodeBase64Url(value: string) returns (output: seq<nat>)
    ensures output == Decode(value)
  {
    hide BitsOf, Bits, Groups, AllBits, Alphabet, Number;
    var normalized := Normalized(value);
    var bits: seq<bool> := [];
    NoBits();
    for k := 0 to |normalized|
      invariant bits == AllBits(value[..k])
    {
      NextBits(value, k);
      var index := IndexOf(Alphabet(), normalized[k]);
      if index >= 0 {
        bits := bits + Bits(index, 6);
      }
    }
    assert value[..|value|] == value;
    output := [];
    var i := 0;
    while i + 8 <= |bits|
      invariant 0 <= i <= |bits|
      invariant output + Groups(bits[i..]) == Groups(bits)
      decreases |bits| - i
    {
      NextGroup(bits, i);
      output := output + [Number(bits[i..i + 8])];
      i := i + 8;
    }
    NoGroup(bits[i..]);
  }

  lemma NoBits()
    ensures AllBits("") == []
  {
  }

  lemma NextBits(value: string, k: nat)
    requires k < |value|
    ensures var index := IndexOf(Alphabet(), Normal(value[k]));
            AllBits(value[..k + 1]) == AllBits(value[..k]) + if index >= 0 then Bits(index, 6) else []
  {
    hide Bits, IndexOf, Alphabet;
    assert value[..k + 1] == value[..k] + [value[k]];
    InitOfSnoc(value[..k], value[k]);
  }

  lemma NextGroup(bits: seq<bool>, i: nat)
    requires i + 8 <= |bits|
    ensures Groups(bits[i..]) == [Number(bits[i..i + 8])] + Groups(bits[i + 8..])
  {
    assert bits[i..][..8] == bits[i..i + 8] && bits[i..][8..] == bits[i + 8..];
  }

  lemma NoGroup(bits: seq<bool>)
    requires |bits| < 8
    ensures Groups(bits) == []
  {
  }

  // ----- The encoder of the RFC -----

  // Table 2 of the RFC.
  function Digit(v: nat): char
    requires v < 64
  {
    if v < 26 then 'A' + v as char
    else if v < 52 then 'a' + (v - 26) as char
    else if v < 62 then '0' + (v - 52) as char
    else if v == 62 then '-'
    else '_'
  }

  ghost predicate InTable(c: char) {
    exists v: nat :: v < 64 && c == Digit(v)
  }

  // Three bytes become four characters; a final group of one or two bytes becomes two or three
  // characters, the missing bits taken as zero.
  function Encode(bytes: seq<byte>): (s: string)
    ensures |s| == (4 * |bytes| + 2) / 3
    ensures forall c :: c in s ==> InTable(c)
  {
    if bytes == [] then ""
    else if |bytes| == 1 then
      [Digit(bytes[0] / 4), Digit(bytes[0] % 4 * 16)]
    else if |bytes| == 2 then
      [Digit(bytes[0] / 4), Digit(bytes[0] % 4 * 16 + bytes[1] / 16), Digit(bytes[1] % 16 * 4)]
    else
      [Digit(bytes[0] / 4), Digit(bytes[0] % 4 * 16 + bytes[1] / 16),
       Digit(bytes[1] % 16 * 4 + bytes[2] / 64), Digit(bytes[2] % 64)]
      + Encode(bytes[3..])
  }

  // ----- Bits -----

  lemma {:induction false} BitsLength(v: nat, n: nat)
    ensures |Bits(v, n)| == n
  {
    if n > 0 {
      BitsLength(v / 2, n - 1);
    }
  }

  function Power(n: nat): (p: nat)
    ensures p > 0
  {
    if n == 0 then 1 else 2 * Power(n - 1)
  }

  lemma {:induction false} NumberOfBits(v: nat, n: nat)
    requires v < Power(n)
    ensures Number(Bits(v, n)) == v
  {
    if n > 0 {
      NumberOfBits(v / 2, n - 1);
      InitOfSnoc(Bits(v / 2, n - 1), v % 2 == 1);
    }
  }

  // Bits written one after the other are the bits of the combined number.
  lemma {:induction false} BitsJoin(a: nat, m: nat, b: nat, n: nat)
    requires b < Power(n)
    ensures Bits(a, m) + Bits(b, n) == Bits(a * Power(n) + b, m + n)
  {
    if n == 0 {
      assert a * Power(0) + b == a;
    } else {
      var p := Power(n - 1);
      assert a * Power(n) == 2 * (a * p);
      assert (a * Power(n) + b) / 2 == a * p + b / 2 && (a * Power(n) + b) % 2 == b % 2;
      BitsJoin(a, m, b / 2, n - 1);
      assert Bits(a, m) + Bits(b, n) == (Bits(a, m) + Bits(b / 2, n - 1)) + [b % 2 == 1];
    }
  }

  lemma {:induction false} AllBitsOfConcat(a: string, b: string)
    ensures AllBits(a + b) == AllBits(a) + AllBits(b)
  {
    hide BitsOf;
    if b == "" {
      assert a + b == a;
    } else {
      AllBitsOfConcat(a, Init(b));
      assert a + b == (a + Init(b)) + [Last(b)];
      InitOfSnoc(a + Init(b), Last(b));
    }
  }

  // The bits of a byte sequence.
  function ByteBits(bytes: seq<byte>): seq<bool> {
    if bytes == [] then [] else Bits(bytes[0], 8) + ByteBits(bytes[1..])
  }

  // Groups recovers the bytes and drops fewer than eight trailing bits.
  lemma {:induction false} GroupsOfByteBits(bytes: seq<byte>, rest: seq<bool>)
    requires |rest| < 8
    ensures Groups(ByteBits(bytes) + rest) == bytes
  {
    if bytes == [] {
      assert ByteBits(bytes) + rest == rest;
    } else {
      var bits := ByteBits(bytes) + rest;
      BitsLength(bytes[0], 8);
      assert bits == Bits(bytes[0], 8) + (ByteBits(bytes[1..]) + rest);
      assert bits[..8] == Bits(bytes[0], 8) && bits[8..] == ByteBits(bytes[1..]) + rest;
      assert Power(8) == 256;
      NumberOfBits(bytes[0], 8);
      GroupsOfByteBits(bytes[1..], rest);
    }
  }

  // ----- Characters -----

  // The decoder's alphabet is the RFC's table with '+' and '/' for '-' and '_'.
  lemma AlphabetAt(v: nat)
    requires v < 64
    ensures |Alphabet()| == 64 && Alphabet()[v] == Normal(Digit(v))
  {
    var c := Alphabet()[v];
    if v < 26 {
      assert c == 'A' + v as char;
    } else if v < 52 {
      assert c == 'a' + (v - 26) as char;
    } else if v < 62 {
      assert c == '0' + (v - 52) as char;
    }
  }

  lemma TableIsInjective(v: nat, w: nat)
    requires v < 64 && w < 64 && Normal(Digit(v)) == Normal(Digit(w))
    ensures v == w
  {
  }

  lemma DigitBits(v: nat)
    requires v < 64
    ensures BitsOf(Digit(v)) == Bits(v, 6)
  {
    hide Alphabet, Digit, Normal, Bits, IndexOf;
    AlphabetAt(v);
    var i := IndexOf(Alphabet(), Normal(Digit(v)));
    if i >= 0 {
      AlphabetAt(i);
      TableIsInjective(v, i);
    }
  }

  // ----- Round trip -----

  lemma JoinFour(a: nat, b: nat, c: nat, d: nat)
    requires b < 64 && c < 64 && d < 64
    ensures Bits(a, 6) + Bits(b, 6) + Bits(c, 6) + Bits(d, 6) == Bits(((a * 64 + b) * 64 + c) * 64 + d, 24)
  {
    hide Bits, Power;
    Powers();
    BitsJoin(a, 6, b, 6);
    BitsJoin(a * 64 + b, 12, c, 6);
    BitsJoin((a * 64 + b) * 64 + c, 18, d, 6);
  }

  lemma JoinBytes(x: byte, y: byte, z: byte)
    ensures Bits(x, 8) + Bits(y, 8) + Bits(z, 8) == Bits((x * 256 + y) * 256 + z, 24)
  {
    hide Bits, Power;
    Powers();
    BitsJoin(x, 8, y, 8);
    BitsJoin(x * 256 + y, 16, z, 8);
  }

  lemma SameNumber(x: byte, y: byte, z: byte)
    ensures ((x / 4 * 64 + (x % 4 * 16 + y / 16)) * 64 + (y % 16 * 4 + z / 64)) * 64 + z % 64 == (x * 256 + y) * 256 + z
  {
    assert x == x / 4 * 4 + x % 4 && y == y / 16 * 16 + y % 16 && z == z / 64 * 64 + z % 64;
  }

  // Three bytes and the four digits they become have the same bits.
  lemma ThreeBytes(x: byte, y: byte, z: byte)
    ensures Bits(x / 4, 6) + Bits(x % 4 * 16 + y / 16, 6) + Bits(y % 16 * 4 + z / 64, 6) + Bits(z % 64, 6)
         == Bits(x, 8) + Bits(y, 8) + Bits(z, 8)
  {
    hide Bits;
    JoinFour(x / 4, x % 4 * 16 + y / 16, y % 16 * 4 + z / 64, z % 64);
    JoinBytes(x, y, z);
    SameNumber(x, y, z);
  }

  // The same for a final group of two bytes or one, with the bits a missing byte leaves.
  lemma TwoBytes(x: byte, y: byte)
    ensures Bits(x / 4, 6) + Bits(x % 4 * 16 + y / 16, 6) + Bits(y % 16 * 4, 6) == Bits(x, 8) + Bits(y, 8) + Bits(0, 2)
  {
    hide Bits, Power;
    Powers();
    BitsJoin(x / 4, 6, x % 4 * 16 + y / 16, 6);
    BitsJoin(x / 4 * 64 + (x % 4 * 16 + y / 16), 12, y % 16 * 4, 6);
    BitsJoin(x, 8, y, 8);
    BitsJoin(x * 256 + y, 16, 0, 2);
    SameNumber(x, y, 0);
  }

  lemma OneByte(x: byte)
    ensures Bits(x / 4, 6) + Bits(x % 4 * 16, 6) == Bits(x, 8) + Bits(0, 4)
  {
    hide Bits, Power;
    Powers();
    BitsJoin(x / 4, 6, x % 4 * 16, 6);
    BitsJoin(x, 8, 0, 4);
  }

  lemma Powers()
    ensures Power(2) == 4 && Power(4) == 16 && Power(6) == 64 && Power(8) == 256
  {
    assert Power(4) == 2 * Power(3) && Power(6) == 2 * Power(5) && Power(8) == 2 * Power(7);
  }

  // Zero bits beyond the last whole byte.
  function Trailing(n: nat): nat {
    if n % 3 == 0 then 0 else if n % 3 == 1 then 4 else 2
  }

  // What the digits of a group add to the bits of those that follow.
  lemma AllBitsOfOne(c: char)
    ensures AllBits([c]) == BitsOf(c)
  {
    hide BitsOf;
    assert Init([c]) == "";
  }

  lemma AllBitsOfFirst(c: char, rest: string)
    ensures AllBits([c] + rest) == BitsOf(c) + AllBits(rest)
  {
    hide BitsOf, AllBits;
    AllBitsOfConcat([c], rest);
    AllBitsOfOne(c);
  }

  lemma DigitsThen(a: nat, b: nat, c: nat, d: nat, rest: string)
    requires a < 64 && b < 64 && c < 64 && d < 64
    ensures AllBits([Digit(a), Digit(b), Digit(c), Digit(d)] + rest)
         == Bits(a, 6) + Bits(b, 6) + Bits(c, 6) + Bits(d, 6) + AllBits(rest)
  {
    hide Bits, BitsOf, Digit, AllBits;
    DigitBits(a);
    DigitBits(b);
    DigitBits(c);
    DigitBits(d);
    AllBitsOfFirst(Digit(d), rest);
    AllBitsOfFirst(Digit(c), [Digit(d)] + rest);
    AllBitsOfFirst(Digit(b), [Digit(c)] + ([Digit(d)] + rest));
    AllBitsOfFirst(Digit(a), [Digit(b)] + ([Digit(c)] + ([Digit(d)] + rest)));
    assert [Digit(a), Digit(b), Digit(c), Digit(d)] + rest
        == [Digit(a)] + ([Digit(b)] + ([Digit(c)] + ([Digit(d)] + rest)));
    FourFirst(Bits(a, 6), Bits(b, 6), Bits(c, 6), Bits(d, 6), AllBits(rest));
  }

  lemma FourFirst(a: seq<bool>, b: seq<bool>, c: seq<bool>, d: seq<bool>, rest: seq<bool>)
    ensures a + b + c + d + rest == a + (b + (c + (d + rest)))
  {
  }

  lemma TwoDigits(a: nat, b: nat)
    requires a < 64 && b < 64
    ensures AllBits([Digit(a), Digit(b)]) == Bits(a, 6) + Bits(b, 6)
  {
    hide Bits, BitsOf, Digit, AllBits;
    DigitBits(a);
    DigitBits(b);
    AllBitsOfFirst(Digit(a), [Digit(b)]);
    AllBitsOfOne(Digit(b));
    assert [Digit(a), Digit(b)] == [Digit(a)] + [Digit(b)];
  }

  lemma ThreeDigits(a: nat, b: nat, c: nat)
    requires a < 64 && b < 64 && c < 64
    ensures AllBits([Digit(a), Digit(b), Digit(c)]) == Bits(a, 6) + Bits(b, 6) + Bits(c, 6)
  {
    hide Bits, BitsOf, Digit, AllBits;
    DigitBits(a);
    TwoDigits(b, c);
    AllBitsOfFirst(Digit(a), [Digit(b), Digit(c)]);
    assert [Digit(a), Digit(b), Digit(c)] == [Digit(a)] + [Digit(b), Digit(c)];
    assert Bits(a, 6) + (Bits(b, 6) + Bits(c, 6)) == Bits(a, 6) + Bits(b, 6) + Bits(c, 6);
  }

  lemma NextByte(bytes: seq<byte>)
    requires bytes != []
    ensures ByteBits(bytes) == Bits(bytes[0], 8) + ByteBits(bytes[1..])
  {
  }

  lemma ByteThen(x: byte, rest: seq<byte>)
    ensures ByteBits([x] + rest) == Bits(x, 8) + ByteBits(rest)
  {
    hide Bits, ByteBits;
    NextByte([x] + rest);
    assert ([x] + rest)[1..] == rest;
  }

  lemma ThreeThen(x: byte, y: byte, z: byte, rest: seq<byte>)
    ensures ByteBits([x] + ([y] + ([z] + rest))) == Bits(x, 8) + (Bits(y, 8) + (Bits(z, 8) + ByteBits(rest)))
  {
    hide Bits, ByteBits;
    ByteThen(z, rest);
    ByteThen(y, [z] + rest);
    ByteThen(x, [y] + ([z] + rest));
  }

  lemma ByteBitsOfThree(bytes: seq<byte>)
    requires |bytes| >= 3
    ensures ByteBits(bytes) == Bits(bytes[0], 8) + Bits(bytes[1], 8) + Bits(bytes[2], 8) + ByteBits(bytes[3..])
  {
    hide Bits, ByteBits;
    var x, y, z, rest := bytes[0], bytes[1], bytes[2], bytes[3..];
    ThreeThen(x, y, z, rest);
    SplitThree(bytes);
    ThreeFirst(Bits(x, 8), Bits(y, 8), Bits(z, 8), ByteBits(rest));
  }

  lemma SplitThree<T>(s: seq<T>)
    requires |s| >= 3
    ensures s == [s[0]] + ([s[1]] + ([s[2]] + s[3..]))
  {
  }

  lemma ThreeFirst(a: seq<bool>, b: seq<bool>, c: seq<bool>, rest: seq<bool>)
    ensures a + b + c + rest == a + (b + (c + rest))
  {
  }

  // The bits of the encoding are the bits of the bytes and 0, 4 or 2 zero bits more.
  lemma {:induction false} EncodingKeepsBits(bytes: seq<byte>)
    ensures AllBits(Encode(bytes)) == ByteBits(bytes) + Bits(0, Trailing(|bytes|))
  {
    hide Bits, BitsOf, Digit, AllBits, ByteBits;
    if |bytes| < 3 {
      ShortEncoding(bytes);
    } else {
      var x, y, z := bytes[0], bytes[1], bytes[2];
      DigitsThen(x / 4, x % 4 * 16 + y / 16, y % 16 * 4 + z / 64, z % 64, Encode(bytes[3..]));
      ThreeBytes(x, y, z);
      EncodingKeepsBits(bytes[3..]);
      ByteBitsOfThree(bytes);
      var first := Bits(x, 8) + Bits(y, 8) + Bits(z, 8);
      Regroup(first, ByteBits(bytes[3..]), Bits(0, Trailing(|bytes| - 3)));
    }
  }

  lemma Regroup(a: seq<bool>, b: seq<bool>, c: seq<bool>)
    ensures a + b + c == a + (b + c)
  {
  }

  lemma ByteBitsOfShort(bytes: seq<byte>)
    ensures bytes == [] ==> ByteBits(bytes) == []
    ensures |bytes| == 1 ==> ByteBits(bytes) == Bits(bytes[0], 8)
    ensures |bytes| == 2 ==> ByteBits(bytes) == Bits(bytes[0], 8) + Bits(bytes[1], 8)
  {
    hide Bits;
    if |bytes| == 1 {
      assert bytes == [bytes[0]] + [];
      ByteThen(bytes[0], []);
    } else if |bytes| == 2 {
      assert [bytes[1]] == [bytes[1]] + [];
      ByteThen(bytes[1], []);
      assert bytes == [bytes[0]] + [bytes[1]];
      ByteThen(bytes[0], [bytes[1]]);
    }
  }

  lemma ShortEncoding(bytes: seq<byte>)
    requires |bytes| < 3
    ensures AllBits(Encode(bytes)) == ByteBits(bytes) + Bits(0, Trailing(|bytes|))
  {
    hide Bits, BitsOf, Digit, AllBits, ByteBits, Encode;
    EncodeShort(bytes);
    ByteBitsOfShort(bytes);
    if bytes == [] {
      BitsLength(0, 0);
      NoBits();
    } else if |bytes| == 1 {
      TwoDigits(bytes[0] / 4, bytes[0] % 4 * 16);
      OneByte(bytes[0]);
    } else {
      ThreeDigits(bytes[0] / 4, bytes[0] % 4 * 16 + bytes[1] / 16, bytes[1] % 16 * 4);
      TwoBytes(bytes[0], bytes[1]);
    }
  }

  lemma EncodeShort(bytes: seq<byte>)
    requires |bytes| < 3
    ensures bytes == [] ==> Encode(bytes) == ""
    ensures |bytes| == 1 ==> Encode(bytes) == [Digit(bytes[0] / 4), Digit(bytes[0] % 4 * 16)]
    ensures |bytes| == 2 ==>
              Encode(bytes) ==
              [Digit(bytes[0] / 4), Digit(bytes[0] % 4 * 16 + bytes[1] / 16), Digit(bytes[1] % 16 * 4)]
  {
    hide Digit;
  }

  // Decoding the encoding gives back the bytes, whatever their number.
  lemma DecodeOfEncode(bytes: seq<byte>)
    ensures Decode(Encode(bytes)) == bytes
  {
    hide AllBits, Encode, Groups;
    EncodingKeepsBits(bytes);
    BitsLength(0, Trailing(|bytes|));
    GroupsOfByteBits(bytes, Bits(0, Trailing(|bytes|)));
  }

  // ----- What the decoder ignores -----

  predicate Ignored(c: char) {
    c !in Alphabet() && c != '-' && c != '_'
  }

  lemma IgnoredBits(c: char)
    ensures Ignored(c) <==> BitsOf(c) == []
    ensures !Ignored(c) ==> |BitsOf(c)| == 6
  {
    hide Alphabet, Bits;
    var i := IndexOf(Alphabet(), Normal(c));
    if i >= 0 {
      BitsLength(i, 6);
    }
    AlphabetAt(62);
    AlphabetAt(63);
    assert Alphabet()[62] == '+' && Alphabet()[63] == '/';
  }

  // A character may be dropped or added anywhere without changing any result exactly when it is in
  // neither base64 alphabet: '=' among others.
  lemma IgnoredIff(c: char)
    ensures Ignored(c) <==> forall a, b :: Decode(a + [c] + b) == Decode(a + b)
  {
    hide BitsOf, Alphabet, Groups, Bits, AllBits, Ignored;
    IgnoredBits(c);
    if Ignored(c) {
      forall a, b ensures Decode(a + [c] + b) == Decode(a + b) {
        AllBitsOfConcat(a + [c], b);
        AllBitsOfConcat(a, [c]);
        AllBitsOfOne(c);
        AllBitsOfConcat(a, b);
        assert AllBits(a) + [] + AllBits(b) == AllBits(a) + AllBits(b);
      }
    } else {
      IgnoredBits('A');
      AlphabetAt(0);
      IsNotIgnored('A', 0);
      AllBitsOfOne('A');
      AllBitsOfOne(c);
      AllBitsOfConcat("A", [c]);
      assert "A" + [c] + "" == "A" + [c] && "A" + "" == "A";
      NoGroup(AllBits("A"));
      SomeGroup(AllBits("A" + [c]));
      assert Decode("A" + [c] + "") != Decode("A" + "");
    }
  }

  lemma SomeGroup(bits: seq<bool>)
    requires |bits| >= 8
    ensures Groups(bits) != []
  {
  }

  lemma IsNotIgnored(c: char, i: nat)
    requires i < |Alphabet()| && Alphabet()[i] == c
    ensures !Ignored(c)
  {
    hide Alphabet;
  }

  function Repeat(c: char, n: nat): string {
    if n == 0 then "" else Repeat(c, n - 1) + [c]
  }

  // Padding the encoding with '=' does not change what it decodes to.
  lemma {:induction false} PaddingIsIgnored(bytes: seq<byte>, n: nat)
    ensures Decode(Encode(bytes) + Repeat('=', n)) == bytes
  {
    hide Decode, Encode, Alphabet;
    if n == 0 {
      DecodeOfEncode(bytes);
      assert Encode(bytes) + Repeat('=', 0) == Encode(bytes);
    } else {
      PaddingIsIgnored(bytes, n - 1);
      EqualsIsIgnored();
      IgnoredIff('=');
      var padded := Encode(bytes) + Repeat('=', n - 1);
      assert Encode(bytes) + Repeat('=', n) == padded + ['='] + "" && padded + "" == padded;
    }
  }

  lemma EqualsIsIgnored()
    ensures Ignored('=')
  {
    hide Alphabet;
    forall i | 0 <= i < |Alphabet()| ensures Alphabet()[i] != '=' {
      AlphabetAt(0);
      AlphabetAt(i);
    }
  }

  // The standard alphabet of section 4 decodes alike.
  lemma {:induction false} StandardDecodesAlike(value: string)
    ensures Decode(Normalized(value)) == Decode(value)
  {
    SameBits(value);
  }

  lemma {:induction false} SameBits(value: string)
    ensures AllBits(Normalized(value)) == AllBits(value)
  {
    hide Alphabet, Bits, IndexOf;
    if value != "" {
      SameBits(Init(value));
      assert Init(Normalized(value)) == Normalized(Init(value));
    }
  }
}
