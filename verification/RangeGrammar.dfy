/** Exactly which Range headers are accepted, and which of those are outside the grammar of
    section 14.1.1 of RFC 9110. */
module RangeGrammar {
  import opened Basics
  import opened Decimal
  import opened RangeHeader

  predicate Signed(s: string) {
    s != "" && (s[0] == '+' || s[0] == '-')
  }

  function Unsigned(s: string): string {
    if Signed(s) then s[1..] else s
  }

  /** Digits that fit 64 bits, alone, after a plus, or after a minus if they are all zero. */
  predicate Numeral(s: string) {
    && Unsigned(s) != "" && AllDigits(Unsigned(s)) && Value(Unsigned(s)) <= 9223372036854775807
    && (s[0] == '-' ==> Value(Unsigned(s)) == 0)
  }

  /** These are the texts that ParseInt reads as a number that is not negative. */
  lemma NumeralIff(s: string)
    ensures Numeral(s) <==> ParseInt(s).Some? && ParseInt(s).value >= 0
    ensures Numeral(s) ==> ParseInt(s) == Some(Value(Unsigned(s)))
  {
  }

  predicate NoHyphen(s: string) {
    forall j | 0 <= j < |s| :: s[j] != '-'
  }

  /** The texts before and after the first hyphen of an accepted header. */
  predicate Accepted(l: string, r: string) {
    && NoHyphen(l)
    && if l == "" then Numeral(r)
       else Numeral(l) && (r == "" || (Numeral(r) && Value(Unsigned(l)) <= Value(Unsigned(r))))
  }

  lemma PartsIff(l: string, r: string)
    requires NoHyphen(l)
    ensures ParseParts(l, r).Some? <==> Accepted(l, r)
  {
    NumeralIff(l);
    NumeralIff(r);
  }

  lemma SplitIff(l: string, r: string)
    requires NoHyphen(l)
    ensures ParseByteRange(Header(l, r)).Some? <==> Accepted(l, r)
  {
    SplitAtHyphen(l, r);
    PartsIff(l, r);
  }

  /** An accepted header has the prefix and a hyphen. */
  lemma HasParts(header: string) returns (l: string, r: string)
    requires ParseByteRange(header).Some?
    ensures header == Header(l, r) && NoHyphen(l)
  {
    var rest := header[|PREFIX|..];
    l, r := CutAtHyphen(rest);
    Glued(header, rest, l, r);
  }

  lemma Glued(header: string, rest: string, l: string, r: string)
    requires |header| >= |PREFIX| && header[..|PREFIX|] == PREFIX && rest == header[|PREFIX|..] && rest == l + "-" + r
    ensures header == Header(l, r)
  {
    assert header == header[..|PREFIX|] + rest;
  }

  lemma CutAtHyphen(rest: string) returns (l: string, r: string)
    requires IndexOf(rest, '-') < |rest|
    ensures rest == l + "-" + r && NoHyphen(l)
  {
    var h := IndexOf(rest, '-');
    l, r := rest[..h], rest[h + 1..];
  }

  /** For every header: it is accepted if and only if it is the prefix, a text without a hyphen,
      a hyphen, and a text, such that these two are accepted. */
  lemma AcceptedIff(header: string)
    ensures ParseByteRange(header).Some? <==> exists l, r :: header == "bytes=" + l + "-" + r && Accepted(l, r)
  {
    if ParseByteRange(header).Some? {
      var l, r := HasParts(header);
      SplitIff(l, r);
    }
    forall l, r | header == Header(l, r) && Accepted(l, r) ensures ParseByteRange(header).Some? { SplitIff(l, r); }
  }

  // ---------------------------------------------------------------- the grammar

  /** A single range in bytes: first-pos "-" [ last-pos ], or "-" suffix-length, in digits. */
  ghost predicate InGrammar(header: string) {
    exists l, r :: header == "bytes=" + l + "-" + r && AllDigits(l) && AllDigits(r) && (l != "" || r != "")
  }

  lemma OneSplit(l: string, r: string, l': string, r': string)
    requires NoHyphen(l) && NoHyphen(l') && Header(l, r) == Header(l', r')
    ensures l == l' && r == r'
  {
    var p, p' := l + "-" + r, l' + "-" + r';
    assert Header(l, r)[|PREFIX|..] == p && Header(l', r')[|PREFIX|..] == p';
    FirstHyphen(l, r);
    FirstHyphen(l', r');
    assert p[..|l|] == l && p'[..|l'|] == l';
    assert p[|l| + 1..] == r && p'[|l'| + 1..] == r';
  }

  lemma FirstHyphen(l: string, r: string)
    requires NoHyphen(l)
    ensures IndexOf(l + "-" + r, '-') == |l|
  {
    var p := l + "-" + r;
    assert p[|l|] == '-' && forall j | 0 <= j < |l| :: p[j] == l[j];
  }

  lemma DigitsHaveNoHyphen(s: string)
    requires AllDigits(s)
    ensures NoHyphen(s) && !Signed(s)
  {
    forall j | 0 <= j < |s| ensures s[j] != '-' { assert IsDigit(s[j]); }
    if s != "" { assert IsDigit(s[0]); }
  }

  lemma NumeralWithoutSign(s: string)
    requires Numeral(s) || s == ""
    ensures AllDigits(s) <==> !Signed(s)
  {
    if AllDigits(s) { DigitsHaveNoHyphen(s); }
  }

  /** An accepted header is in the standard's grammar exactly if neither part begins with a
      sign: leading pluses, and a minus before zeros, are all that is accepted beyond it. */
  lemma AcceptedInGrammarIff(l: string, r: string)
    requires Accepted(l, r)
    ensures InGrammar("bytes=" + l + "-" + r) <==> !Signed(l) && !Signed(r)
  {
    NumeralWithoutSign(l);
    NumeralWithoutSign(r);
    forall l', r' | Header(l, r) == Header(l', r') && AllDigits(l') && AllDigits(r')
      ensures l == l' && r == r' {
      DigitsHaveNoHyphen(l');
      OneSplit(l, r, l', r');
    }
  }

  // ---------------------------------------------------------------- for instance

  lemma SignedNumeral(sign: char, n: nat)
    requires n <= MAX_INT64 && (sign == '+' || (sign == '-' && n == 0))
    ensures Numeral([sign] + Print(n)) && Unsigned([sign] + Print(n)) == Print(n) && Value(Print(n)) == n
    ensures Numeral(Print(n)) && Unsigned(Print(n)) == Print(n)
  {
    PrintedValue(n);
    DigitsHaveNoHyphen(Print(n));
    assert ([sign] + Print(n))[1..] == Print(n);
  }

  /** Accepted although outside the grammar: plus signs in all three forms, and minus zero. */
  lemma SignsAreAccepted(a: nat, b: nat)
    requires a <= b <= 9223372036854775807
    ensures ParseByteRange("bytes=" + ("+" + Print(a)) + "-" + ("+" + Print(b))).Some?
    ensures ParseByteRange("bytes=" + ("+" + Print(a)) + "-").Some?
    ensures ParseByteRange("bytes=-" + ("+" + Print(b))).Some?
    ensures ParseByteRange("bytes=" + "0" + "-" + "-0").Some?
  {
    SignedNumeral('+', a);
    SignedNumeral('+', b);
    SignedNumeral('-', 0);
    PlusHasNoHyphen(a);
    DigitsHaveNoHyphen(Print(0));
    SplitIff("+" + Print(a), "+" + Print(b));
    SplitIff("+" + Print(a), "");
    SplitIff("", "+" + Print(b));
    SplitIff(Print(0), "-" + Print(0));
    NothingOnOneSide("+" + Print(a), "+" + Print(b));
    assert Print(0) == "0" && "-" + Print(0) == "-0";
  }

  lemma PlusHasNoHyphen(n: nat)
    ensures NoHyphen("+" + Print(n))
  {
    DigitsHaveNoHyphen(Print(n));
    forall j | 0 <= j < |"+" + Print(n)| ensures ("+" + Print(n))[j] != '-' {
      if j > 0 { assert ("+" + Print(n))[j] == Print(n)[j - 1]; }
    }
  }
}
