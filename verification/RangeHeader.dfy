/** The Range header: parsing, clamping to the object, and agreement with section 14.1.2 of
    RFC 9110. */
module RangeHeader {
  import opened Basics
  import opened Decimal

  const PREFIX: string := "bytes="

  /** Result of parseByteRange: end is the suffix length if suffix, -1 if open-ended. */
  datatype ByteRange = ByteRange(start: int, end: int, suffix: bool)

  /** strings.IndexByte, with |s| for absent. */
  function IndexOf(s: string, c: char): (i: nat)
    ensures i <= |s| && (i < |s| ==> s[i] == c)
    ensures forall j | 0 <= j < i :: s[j] != c
  {
    if s == "" || s[0] == c then 0 else 1 + IndexOf(s[1..], c)
  }

  function ParseByteRange(header: string): Option<ByteRange> {
    if |header| <= |PREFIX| || header[..|PREFIX|] != PREFIX then None
    else
      var rest := header[|PREFIX|..];
      var hyphen := IndexOf(rest, '-');
      if hyphen == |rest| then None else ParseParts(rest[..hyphen], rest[hyphen + 1..])
  }

  /** The texts on either side of the first hyphen. */
  function ParseParts(left: string, right: string): Option<ByteRange> {
    if left == "" then
      var end := ParseInt(right);
      if end.None? || end.value < 0 then None else Some(ByteRange(0, end.value, true))
    else
      var start := ParseInt(left);
      if start.None? || start.value < 0 then None
      else if right != "" then
        var end := ParseInt(right);
        if end.None? || end.value < start.value then None
        else Some(ByteRange(start.value, end.value, false))
      else Some(ByteRange(start.value, -1, false))
  }

  function ResolveByteRange(header: string, size: int): Option<(int, int)> {
    var r := ParseByteRange(header);
    if r.None? || size <= 0 then None
    else
      var ByteRange(start, end, suffix) := r.value;
      if suffix then
        if end == 0 then None else Some((Max(0, size - end), size - 1))
      else if start >= size then None
      else Some((start, if end < 0 || end >= size then size - 1 else end))
  }

  /** For every header text: an accepted range lies inside the object and is not empty. */
  lemma ResolvedIsInside(header: string, size: int)
    ensures var r := ResolveByteRange(header, size);
            r.Some? ==> 0 <= r.value.0 <= r.value.1 < size
  {
  }

  // ---------------------------------------------------------------- the standard's meaning

  /** A single range of section 14.1.2: first-pos "-" last-pos, first-pos "-", "-" suffix-length. */
  datatype RangeSpec = Bounded(first: nat, last: nat) | From(first: nat) | Suffix(length: nat)

  /** Is position i of a representation of the given size selected? A last-pos below
      first-pos makes the range invalid: it selects nothing. */
  predicate Selects(spec: RangeSpec, size: int, i: int) {
    && 0 <= i < size
    && match spec
       case Bounded(first, last) => first <= i <= last
       case From(first) => first <= i
       case Suffix(length) => size - length <= i
  }

  /** The text of a range from its digit strings; a is empty for a suffix range, b for an open one. */
  function Header(a: string, b: string): string {
    PREFIX + a + "-" + b
  }

  function Meaning(a: string, b: string): RangeSpec
    requires AllDigits(a) && AllDigits(b)
  {
    if a == "" then Suffix(Value(b)) else if b == "" then From(Value(a)) else Bounded(Value(a), Value(b))
  }

  /** Both numbers, as far as present, fit a signed 64-bit integer. */
  predicate Fits(a: string, b: string)
    requires AllDigits(a) && AllDigits(b)
  {
    Value(a) <= 9223372036854775807 && Value(b) <= 9223372036854775807
  }

  /** The answer is satisfiable exactly when the standard selects something, and then it is
      exactly the selected positions. */
  ghost predicate Agrees(answer: Option<(int, int)>, spec: RangeSpec, size: int) {
    && (answer.Some? <==> exists i :: Selects(spec, size, i))
    && (answer.Some? ==> forall i :: answer.value.0 <= i <= answer.value.1 <==> Selects(spec, size, i))
  }

  lemma SplitAtHyphen(a: string, b: string)
    requires forall j | 0 <= j < |a| :: a[j] != '-'
    ensures ParseByteRange(Header(a, b)) == ParseParts(a, b)
  {
    var h, rest := Header(a, b), a + "-" + b;
    assert h[..|PREFIX|] == PREFIX && h[|PREFIX|..] == rest;
    assert rest[|a|] == '-' && forall j | 0 <= j < |a| :: rest[j] == a[j];
    assert IndexOf(rest, '-') == |a|;
    assert rest[..|a|] == a && rest[|a| + 1..] == b;
  }

  /** What the parser makes of a digit-only range. */
  lemma ParsedDigits(a: string, b: string)
    requires AllDigits(a) && AllDigits(b) && a + b != ""
    ensures ParseByteRange(Header(a, b)) ==
            if !Fits(a, b) then None
            else if a == "" then Some(ByteRange(0, Value(b), true))
            else if b == "" then Some(ByteRange(Value(a), -1, false))
            else if Value(b) < Value(a) then None
            else Some(ByteRange(Value(a), Value(b), false))
  {
    SplitAtHyphen(a, b);
    ParseDigits(a);
    ParseDigits(b);
  }

  /** Whatever is accepted begins with the bytes unit and an equals sign. */
  lemma AcceptedStartsWithBytes(header: string, size: int)
    requires ParseByteRange(header).Some? || ResolveByteRange(header, size).Some?
    ensures |header| > 6 && header[..6] == "bytes="
  {
  }

  /** On digit-only single ranges the proxy answers as the standard says if and only if the
      numbers fit 64 bits or nothing is selected anyway. */
  lemma AgreesIff(a: string, b: string, size: int)
    requires AllDigits(a) && AllDigits(b) && a + b != "" && 0 <= size <= 9223372036854775807
    ensures Agrees(ResolveByteRange("bytes=" + a + "-" + b, size), Meaning(a, b), size)
            <==> Fits(a, b) || forall i :: !Selects(Meaning(a, b), size, i)
  {
    ParsedDigits(a, b);
    var spec := Meaning(a, b);
    var answer := ResolveByteRange(Header(a, b), size);
    if Fits(a, b) {
      if answer.Some? {
        ResolvedIsInside(Header(a, b), size);
        assert Selects(spec, size, answer.value.0);
      } else {
        assert forall i :: !Selects(spec, size, i);
      }
      assert Agrees(answer, spec, size);
    }
  }

  /** A last position beyond 64 bits is refused although the standard would clamp it. */
  lemma TooLongIsRefused(first: nat, last: nat, size: int)
    requires first < size <= 9223372036854775807 < last
    ensures ResolveByteRange("bytes=" + Print(first) + "-" + Print(last), size).None?
    ensures Selects(Bounded(first, last), size, first)
  {
    PrintedValue(first);
    PrintedValue(last);
    ParsedDigits(Print(first), Print(last));
  }

  // ---------------------------------------------------------------- round trips

  /** Printing any 64-bit range and parsing it gives the numbers back. */
  lemma RoundTrip(a: nat, b: nat)
    requires a <= b <= 9223372036854775807
    ensures ParseByteRange("bytes=" + Print(a) + "-" + Print(b)) == Some(ByteRange(a, b, false))
    ensures ParseByteRange("bytes=" + Print(a) + "-") == Some(ByteRange(a, -1, false))
    ensures ParseByteRange("bytes=" + "-" + Print(b)) == Some(ByteRange(0, b, true))
  {
    PrintedValue(a);
    PrintedValue(b);
    ParsedDigits(Print(a), Print(b));
    ParsedDigits(Print(a), "");
    ParsedDigits("", Print(b));
    NothingOnOneSide(Print(a), Print(b));
  }

  lemma NothingOnOneSide(a: string, b: string)
    ensures Header(a, "") == "bytes=" + a + "-" && Header("", b) == "bytes=-" + b == "bytes=" + "-" + b
  {
  }

  lemma DigitsAnswer(a: string, b: string, size: int)
    requires AllDigits(a) && AllDigits(b) && a + b != "" && Fits(a, b)
    ensures ResolveByteRange(Header(a, b), size) ==
            if a == "" then (if Value(b) > 0 && size > 0 then Some((Max(0, size - Value(b)), size - 1)) else None)
            else if Value(a) >= size || (b != "" && Value(b) < Value(a)) then None
            else Some((Value(a), if b == "" then size - 1 else Min(Value(b), size - 1)))
  {
    ParsedDigits(a, b);
  }

  /** The answer to every printed bounded range: cut off at the end of the object, refused if
      it lies beyond it or runs backwards. */
  lemma PrintedBounded(a: nat, b: nat, size: int)
    requires a <= 9223372036854775807 && b <= 9223372036854775807
    ensures ResolveByteRange("bytes=" + Print(a) + "-" + Print(b), size) ==
            if a <= b && a < size then Some((a, Min(b, size - 1))) else None
  {
    PrintedValue(a);
    PrintedValue(b);
    DigitsAnswer(Print(a), Print(b), size);
  }

  /** ... to an open one: up to the end. */
  lemma PrintedOpen(a: nat, size: int)
    requires a <= 9223372036854775807
    ensures ResolveByteRange("bytes=" + Print(a) + "-", size) == if a < size then Some((a, size - 1)) else None
  {
    PrintedValue(a);
    DigitsAnswer(Print(a), "", size);
    NothingOnOneSide(Print(a), "");
  }

  /** ... and to a suffix: counted back from the end, refused if it is empty. */
  lemma PrintedSuffix(b: nat, size: int)
    requires b <= 9223372036854775807
    ensures ResolveByteRange("bytes=-" + Print(b), size) ==
            if b > 0 && size > 0 then Some((Max(0, size - b), size - 1)) else None
  {
    PrintedValue(b);
    DigitsAnswer("", Print(b), size);
    NothingOnOneSide("", Print(b));
  }

  lemma CommaSpoilsInt(s: string)
    requires ',' in s
    ensures ParseInt(s).None?
  {
    if s != "" {
      var t := if s[0] == '+' || s[0] == '-' then s[1..] else s;
      assert ',' in t;
    }
  }

  lemma CommaSpoilsParts(left: string, right: string)
    requires ',' in left || ',' in right
    ensures ParseParts(left, right).None?
  {
    if ',' in left { CommaSpoilsInt(left); } else { CommaSpoilsInt(right); }
  }

  lemma InOneHalf<T>(s: seq<T>, i: nat, x: T)
    requires i < |s| && x in s && s[i] != x
    ensures x in s[..i] || x in s[i + 1..]
  {
    var j :| 0 <= j < |s| && s[j] == x;
    if j < i { assert s[..i][j] == x; } else { assert s[i + 1..][j - i - 1] == x; }
  }

  lemma InRest(header: string, n: nat)
    requires n <= |header| && ',' in header && ',' !in header[..n]
    ensures ',' in header[n..]
  {
    assert header == header[..n] + header[n..];
  }

  /** A header that lists several ranges, or has a comma anywhere, is never accepted. */
  lemma MultiRangeIsRefused(header: string)
    requires ',' in header
    ensures ParseByteRange(header).None?
  {
    if |header| > |PREFIX| && header[..|PREFIX|] == PREFIX {
      InRest(header, |PREFIX|);
      var rest := header[|PREFIX|..];
      var h := IndexOf(rest, '-');
      if h < |rest| {
        InOneHalf(rest, h, ',');
        CommaSpoilsParts(rest[..h], rest[h + 1..]);
      }
    }
  }

  // ---------------------------------------------------------------- the backend's own header

  lemma ChunkPositions(objects: Store, k: ChunkKey, first: nat, last: nat, size: int)
    requires HasChunk(objects, k) && size == |objects[k.objectKey]|
    requires first == Base(k.chunkIndex) && last == first + |Chunk(objects, k)| - 1
    ensures first < size && last == Min(first + 4194303, size - 1)
  {
  }

  /** fetchChunk asks for the 4 MiB from the chunk's start on; whoever answers by the rules above
      returns exactly the bytes of the chunk, the last, short chunk included. */
  lemma ChunkHeaderSelectsTheChunk(objects: Store, k: ChunkKey, first: nat, last: nat, size: int)
    requires HasChunk(objects, k) && size == |objects[k.objectKey]| <= MAX_INT64 - CHUNK_SIZE
    requires first == Base(k.chunkIndex) && last == first + |Chunk(objects, k)| - 1
    ensures ResolveByteRange("bytes=" + Print(first) + "-" + Print(first + 4194303), size) == Some((first, last))
  {
    ChunkPositions(objects, k, first, last, size);
    PrintedBounded(first, first + 4194303, size);
  }
}
