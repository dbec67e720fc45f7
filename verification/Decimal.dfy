/** Decimal numbers as text: what the formatting verbs print and what strconv.ParseInt reads. */
module Decimal {
  import opened Basics

  const DIGITS: string := "0123456789"

  predicate IsDigit(c: char) { '0' <= c <= '9' }

  predicate AllDigits(s: string) {
    forall i | 0 <= i < |s| :: IsDigit(s[i])
  }

  /** The number as printed by %d or FormatUint. */
  function Print(n: nat): (s: string)
    ensures |s| > 0 && AllDigits(s)
  {
    if n < 10 then [DIGITS[n]] else Print(n / 10) + [DIGITS[n % 10]]
  }

  function DigitValue(c: char): nat
    requires IsDigit(c)
  {
    (c - '0') as int
  }

  function Value(s: string): nat
    requires AllDigits(s)
  {
    if s == [] then 0 else 10 * Value(s[..|s| - 1]) + DigitValue(s[|s| - 1])
  }

  lemma DigitOf(d: nat)
    requires d < 10
    ensures IsDigit(DIGITS[d]) && DigitValue(DIGITS[d]) == d
  {
  }

  lemma ValueSnoc(s: string, c: char)
    requires AllDigits(s) && IsDigit(c)
    ensures AllDigits(s + [c]) && Value(s + [c]) == 10 * Value(s) + DigitValue(c)
  {
    assert (s + [c])[..|s|] == s;
  }

  lemma {:induction false} PrintedValue(n: nat)
    ensures Value(Print(n)) == n
  {
    DigitOf(n % 10);
    if n >= 10 {
      PrintedValue(n / 10);
      ValueSnoc(Print(n / 10), DIGITS[n % 10]);
    } else {
      ValueSnoc("", DIGITS[n]);
      assert Print(n) == "" + [DIGITS[n]];
    }
  }

  // ---------------------------------------------------------------- numerals, place by place

  function Ten(n: nat): (p: nat)
    ensures p >= 1
  {
    if n == 0 then 1 else 10 * Ten(n - 1)
  }

  lemma JoinedDigits(a: string, b: string)
    requires AllDigits(a) && AllDigits(b)
    ensures AllDigits(a + b)
  {
  }

  lemma Scaled(v: nat, p: nat, w: nat, d: nat)
    ensures 10 * (v * p + w) + d == v * (10 * p) + (10 * w + d)
  {
  }

  /** What a text is worth is what its parts are worth, the left one times a power of ten. */
  lemma {:induction false} ValueConcat(a: string, b: string)
    requires AllDigits(a) && AllDigits(b)
    ensures AllDigits(a + b) && Value(a + b) == Value(a) * Ten(|b|) + Value(b)
    decreases |b|
  {
    JoinedDigits(a, b);
    if b == "" {
      assert a + b == a;
    } else {
      var t, c := b[..|b| - 1], b[|b| - 1];
      assert b == t + [c] && a + b == (a + t) + [c];
      ValueConcat(a, t);
      ValueSnoc(t, c);
      ValueSnoc(a + t, c);
      Scaled(Value(a), Ten(|t|), Value(t), DigitValue(c));
    }
  }

  /** A digit by itself is worth its distance from the character 0, whose code is 48. */
  lemma OneDigit(c: char)
    requires '0' <= c <= '9'
    ensures IsDigit(c) && Value([c]) == c as int - 48
  {
    assert [c][..0] == "";
  }

  /** A numeral: digits without a leading zero, or 0 itself. */
  predicate Canonical(s: string) {
    s != "" && AllDigits(s) && (|s| > 1 ==> s[0] != '0')
  }

  lemma {:induction false} PrintCanonical(n: nat)
    ensures Canonical(Print(n)) && (n > 0 ==> Print(n)[0] != '0')
  {
    if n >= 10 { PrintCanonical(n / 10); }
  }

  lemma DivTen(n: nat, v: nat, d: nat)
    requires d < 10 && n == 10 * v + d
    ensures n / 10 == v && n % 10 == d
  {
  }

  lemma PrintMore(n: nat)
    requires n >= 10
    ensures Print(n) == Print(n / 10) + [DIGITS[n % 10]]
  {
  }

  lemma DigitChar(c: char)
    requires IsDigit(c)
    ensures DigitValue(c) < 10 && DIGITS[DigitValue(c)] == c
  {
  }

  lemma PrintSnoc(n: nat, v: nat, c: char)
    requires v > 0 && IsDigit(c) && n == 10 * v + DigitValue(c)
    ensures Print(n) == Print(v) + [c]
  {
    DigitChar(c);
    DivTen(n, v, DigitValue(c));
    PrintMore(n);
  }

  lemma PrintDigit(c: char)
    requires IsDigit(c)
    ensures Print(DigitValue(c)) == [c]
  {
    DigitChar(c);
  }

  lemma {:induction false} CanonicalIsPrinted(s: string)
    requires Canonical(s)
    ensures Print(Value(s)) == s
  {
    var n := |s| - 1;
    var t, c := s[..n], s[n];
    assert s == t + [c];
    ValueSnoc(t, c);
    if n == 0 {
      assert t == "" && Value(t) == 0;
      PrintDigit(c);
    } else {
      CanonicalIsPrinted(t);
      PositiveValue(t);
      PrintSnoc(Value(s), Value(t), c);
    }
  }

  lemma {:induction false} PositiveValue(s: string)
    requires s != "" && AllDigits(s) && s[0] != '0'
    ensures Value(s) > 0
  {
    if |s| > 1 { PositiveValue(s[..|s| - 1]); } else { OneDigit(s[0]); assert s == [s[0]]; }
  }

  /** What is printed for n is the one numeral whose value is n. */
  lemma PrintIsTheNumeral(n: nat, s: string)
    ensures s == Print(n) <==> Canonical(s) && Value(s) == n
  {
    PrintCanonical(n);
    PrintedValue(n);
    if Canonical(s) { CanonicalIsPrinted(s); }
  }

  lemma PrintInjective(m: nat, n: nat)
    requires Print(m) == Print(n)
    ensures m == n
  {
    PrintedValue(m);
    PrintedValue(n);
  }

  /** strconv.ParseInt(s, 10, 64); None for a syntax error and for a number out of range. */
  function ParseInt(s: string): (r: Option<int>)
    ensures r.Some? ==> -MAX_INT64 - 1 <= r.value <= MAX_INT64
  {
    if s == "" then None
    else
      var neg := s[0] == '-';
      var t := if s[0] == '+' || neg then s[1..] else s;
      if t == "" || !AllDigits(t) then None
      else
        var v: int := Value(t);
        if !neg && v > MAX_INT64 then None
        else if neg && v > MAX_INT64 + 1 then None
        else Some(if neg then -v else v)
  }

  /** What ParseInt makes of a text without a sign. */
  lemma ParseDigits(s: string)
    requires AllDigits(s)
    ensures ParseInt(s) == if s != "" && Value(s) <= MAX_INT64 then Some(Value(s)) else None
  {
  }

  /** A printed number reads back, alone or after a plus, if it is below 2^63; after a minus, up
      to 2^63. */
  lemma ParsePrinted(n: int)
    requires n >= 0
    ensures ParseInt(Print(n)) == if n <= 9223372036854775807 then Some(n) else None
    ensures ParseInt("+" + Print(n)) == if n <= 9223372036854775807 then Some(n) else None
    ensures ParseInt("-" + Print(n)) == if n <= 9223372036854775808 then Some(-n) else None
  {
    PrintedValue(n);
    ParseDigits(Print(n));
    assert ("+" + Print(n))[1..] == Print(n) && ("-" + Print(n))[1..] == Print(n);
  }
}
