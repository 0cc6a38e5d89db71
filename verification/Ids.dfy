// Identifiers: a prefix, an underscore and a counter printed with at least six digits.

module Ids {
  import opened Domain

  const DIGITS := "0123456789"

  function Digits(n: nat): (s: string)
    ensures s != []
  {
    if n < 10 then [DIGITS[n]] else Digits(n / 10) + [DIGITS[n % 10]]
  }

  function Zeros(n: nat): (s: string)
    ensures |s| == n
  {
    if n == 0 then "" else Zeros(n - 1) + "0"
  }

  // The verb %06d on a non-negative counter.
  function Padded(n: nat): string {
    var digits := Digits(n);
    if |digits| < 6 then Zeros(6 - |digits|) + digits else digits
  }

  function Render(prefix: string, counter: nat): string {
    prefix + "_" + Padded(counter)
  }

  // The number a decimal numeral denotes, leading zeros allowed.
  function Value(s: string): nat {
    if s == [] then 0
    else 10 * Value(Init(s)) + (if '0' <= Last(s) <= '9' then (Last(s) - '0') as nat else 0)
  }

  lemma {:induction false} ValueOfDigits(n: nat)
    ensures Value(Digits(n)) == n
  {
    if n >= 10 {
      ValueOfDigits(n / 10);
      InitOfSnoc(Digits(n / 10), DIGITS[n % 10]);
    }
  }

  lemma {:induction false} ValueOfZeros(n: nat)
    ensures Value(Zeros(n)) == 0
  {
    if n > 0 {
      ValueOfZeros(n - 1);
      InitOfSnoc(Zeros(n - 1), '0');
    }
  }

  lemma {:induction false} LeadingZerosAreNeutral(n: nat, s: string)
    ensures Value(Zeros(n) + s) == Value(s)
  {
    if s == [] {
      ValueOfZeros(n);
      assert Zeros(n) + s == Zeros(n);
    } else {
      LeadingZerosAreNeutral(n, Init(s));
      assert Zeros(n) + s == (Zeros(n) + Init(s)) + [Last(s)];
      InitOfSnoc(Zeros(n) + Init(s), Last(s));
    }
  }

  lemma {:induction false} DigitsLead(n: nat)
    ensures forall c :: c in Digits(n) ==> '0' <= c <= '9'
    ensures n > 0 ==> Digits(n)[0] != '0'
  {
    if n >= 10 {
      DigitsLead(n / 10);
    }
  }

  lemma {:induction false} ZerosAreZero(n: nat)
    ensures forall c :: c in Zeros(n) ==> c == '0'
  {
    if n > 0 {
      ZerosAreZero(n - 1);
    }
  }

  // Padding loses nothing, whatever the number of digits, and gives at least six of them, no more than
  // it takes.
  lemma PaddedDenotes(n: nat)
    ensures Value(Padded(n)) == n
    ensures |Padded(n)| >= 6 && forall c :: c in Padded(n) ==> '0' <= c <= '9'
    ensures |Padded(n)| > 6 ==> Padded(n)[0] != '0'
  {
    ValueOfDigits(n);
    LeadingZerosAreNeutral(if |Digits(n)| < 6 then 6 - |Digits(n)| else 0, Digits(n));
    DigitsLead(n);
    ZerosAreZero(if |Digits(n)| < 6 then 6 - |Digits(n)| else 0);
  }

  // Different prefixes or different counters give different identifiers.
  lemma RenderInjective(p: string, m: nat, q: string, n: nat)
    requires '_' !in p && '_' !in q
    requires Render(p, m) == Render(q, n)
    ensures p == q && m == n
  {
    var s := Render(p, m);
    assert s[|p|] == '_' && s[|q|] == '_';
    assert forall i :: 0 <= i < |p| ==> s[i] == p[i];
    assert forall i :: 0 <= i < |q| ==> s[i] == q[i];
    assert p == s[..|p|] && q == s[..|q|];
    assert Padded(m) == s[|p| + 1..] == Padded(n);
    PaddedDenotes(m);
    PaddedDenotes(n);
  }
}
