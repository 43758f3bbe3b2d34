/** The parts of Go's `strings` and `strconv` packages that the user-conflict
    command relies on: lower-casing, substring search, splitting on a
    separator, and base-10 parsing of a signed 64-bit integer. Each comes
    with a partner (an inverse or an independent definition) and a lemma
    connecting the two. */
module GoStrings {
  import opened Common

  // ---------------------------------------------------------------------
  // strings.ToLower
  // ---------------------------------------------------------------------

  function ToLowerChar(c: char): (r: char)
    ensures 'A' <= c <= 'Z' ==> r as int == c as int + 32
    ensures !('A' <= c <= 'Z') ==> r == c
  {
    if 'A' <= c <= 'Z' then (c as int + 32) as char else c
  }

  /** Lower-casing, letter by letter. */
  function ToLower(s: string): (r: string)
    ensures |r| == |s| && forall i :: 0 <= i < |s| ==> r[i] == ToLowerChar(s[i])
  {
    seq(|s|, i requires 0 <= i < |s| => ToLowerChar(s[i]))
  }

  // ---------------------------------------------------------------------
  // strings.Contains
  // ---------------------------------------------------------------------

  /** `sub` occurs in `s` starting at index `i`. */
  predicate OccursAt(s: string, sub: string, i: int) {
    0 <= i && i + |sub| <= |s| && s[i..i + |sub|] == sub
  }

  /** Substring search; the empty string occurs in every string. */
  function Contains(s: string, sub: string): (r: bool)
    ensures r <==> exists i :: OccursAt(s, sub, i)
    decreases |s|
  {
    if |sub| > |s| then false
    else if sub <= s then assert OccursAt(s, sub, 0); true
    else
      var found := Contains(s[1..], sub);
      if found then
        var i :| OccursAt(s[1..], sub, i);
        assert s[1..][i..i + |sub|] == s[i + 1..i + 1 + |sub|];
        assert OccursAt(s, sub, i + 1);
        true
      else
        assert forall i | OccursAt(s, sub, i) && i > 0 :: OccursAt(s[1..], sub, i - 1) by {
          forall i | OccursAt(s, sub, i) && i > 0
            ensures OccursAt(s[1..], sub, i - 1)
          {
            assert s[1..][i - 1..i - 1 + |sub|] == s[i..i + |sub|];
          }
        }
        false
  }

  // ---------------------------------------------------------------------
  // strings.Split and strings.Join
  // ---------------------------------------------------------------------

  /** Splitting on a one-character separator: one piece more than there are
      separators, none of them containing the separator; splitting the empty
      string gives one empty piece. */
  function Split(s: string, sep: char): (r: seq<string>)
    ensures |r| >= 1
    ensures forall i :: 0 <= i < |r| ==> sep !in r[i]
    decreases |s|
  {
    if s == [] then [""]
    else
      var rest := Split(s[1..], sep);
      if s[0] == sep then [""] + rest else [[s[0]] + rest[0]] + rest[1..]
  }

  /** Joining pieces with the separator between them. */
  function Join(parts: seq<string>, sep: char): string
    decreases |parts|
  {
    if parts == [] then ""
    else if |parts| == 1 then parts[0]
    else parts[0] + [sep] + Join(parts[1..], sep)
  }

  /** Joining what was split gives the string back. */
  lemma {:induction false} JoinSplit(s: string, sep: char)
    ensures Join(Split(s, sep), sep) == s
    decreases |s|
  {
    if s != [] {
      JoinSplit(s[1..], sep);
      var rest := Split(s[1..], sep);
      if s[0] != sep && |rest| > 1 {
        assert Join(rest, sep) == rest[0] + [sep] + Join(rest[1..], sep);
        assert [s[0]] + rest[0] + [sep] + Join(rest[1..], sep) == [s[0]] + Join(rest, sep);
      }
    }
  }

  lemma {:induction false} SplitWithoutSeparator(p: string, sep: char)
    requires sep !in p
    ensures Split(p, sep) == [p]
    decreases |p|
  {
    if p != [] {
      SplitWithoutSeparator(p[1..], sep);
      assert [p[0]] + p[1..] == p;
    }
  }

  lemma {:induction false} SplitAfterPiece(p: string, sep: char, t: string)
    requires sep !in p
    ensures Split(p + [sep] + t, sep) == [p] + Split(t, sep)
    decreases |p|
  {
    if p == [] {
      assert ([] + [sep] + t)[1..] == t;
    } else {
      assert (p + [sep] + t)[1..] == p[1..] + [sep] + t;
      SplitAfterPiece(p[1..], sep, t);
      assert [p[0]] + p[1..] == p;
    }
  }

  /** Splitting what was joined gives the pieces back, provided there is at
      least one piece and none contains the separator. */
  lemma {:induction false} SplitJoin(parts: seq<string>, sep: char)
    requires |parts| >= 1
    requires forall i :: 0 <= i < |parts| ==> sep !in parts[i]
    ensures Split(Join(parts, sep), sep) == parts
    decreases |parts|
  {
    if |parts| == 1 {
      SplitWithoutSeparator(parts[0], sep);
    } else {
      SplitJoin(parts[1..], sep);
      SplitAfterPiece(parts[0], sep, Join(parts[1..], sep));
    }
  }

  /** Every piece of a join occurs in the joined string. */
  lemma {:induction false} PieceOccursInJoin(parts: seq<string>, sep: char, k: nat)
    requires k < |parts|
    ensures Contains(Join(parts, sep), parts[k])
    decreases |parts|
  {
    if |parts| == 1 || k == 0 {
      assert OccursAt(Join(parts, sep), parts[k], 0);
    } else {
      PieceOccursInJoin(parts[1..], sep, k - 1);
      var tail := Join(parts[1..], sep);
      var i :| OccursAt(tail, parts[k], i);
      var j := |parts[0]| + 1 + i;
      assert Join(parts, sep) == parts[0] + [sep] + tail;
      assert Join(parts, sep)[j..j + |parts[k]|] == tail[i..i + |parts[k]|];
      assert OccursAt(Join(parts, sep), parts[k], j);
    }
  }

  /** Every piece of a split occurs in the string that was split. */
  lemma PieceOccurs(s: string, sep: char, k: nat)
    requires k < |Split(s, sep)|
    ensures Contains(s, Split(s, sep)[k])
  {
    JoinSplit(s, sep);
    PieceOccursInJoin(Split(s, sep), sep, k);
  }

  // ---------------------------------------------------------------------
  // strconv.ParseInt(s, 10, 64) and strconv.FormatInt(v, 10)
  // ---------------------------------------------------------------------

  predicate IsDigit(c: char) {
    '0' <= c <= '9'
  }

  function DigitValue(c: char): (d: nat)
    requires IsDigit(c)
    ensures d < 10
  {
    c as int - '0' as int
  }

  predicate AllDigits(s: string) {
    forall i :: 0 <= i < |s| ==> IsDigit(s[i])
  }

  /** The value of a string of decimal digits, most significant first. */
  function DecimalValue(s: string): nat
    requires AllDigits(s)
    decreases |s|
  {
    if s == [] then 0 else DecimalValue(s[..|s| - 1]) * 10 + DigitValue(s[|s| - 1])
  }

  /** The digits after an optional leading sign. */
  function Unsigned(s: string): string {
    if |s| > 0 && (s[0] == '+' || s[0] == '-') then s[1..] else s
  }

  /** A decimal integer: an optional sign and at least one digit. */
  predicate IsDecimal(s: string) {
    |Unsigned(s)| > 0 && AllDigits(Unsigned(s))
  }

  function SignedValue(s: string): int
    requires IsDecimal(s)
  {
    if s[0] == '-' then -(DecimalValue(Unsigned(s)) as int) else DecimalValue(Unsigned(s))
  }

  /** ParseUint's digit loop, base 10: left to right, stopping with a syntax
      error at the first non-digit or with a range error as soon as the value
      exceeds the largest uint64. */
  function ScanDigits(s: string, acc: nat): (r: Result<nat, NumErrorKind>)
    requires acc <= MaxUint64
    ensures r.Success? ==> AllDigits(s) && acc <= r.value <= MaxUint64
    decreases |s|
  {
    if s == [] then Success(acc)
    else if !IsDigit(s[0]) then Failure(ErrSyntax)
    else if acc * 10 + DigitValue(s[0]) > MaxUint64 then Failure(ErrRange)
    else ScanDigits(s[1..], acc * 10 + DigitValue(s[0]))
  }

  /** strconv.ParseUint(s, 10, 64). */
  function ParseUint64(s: string): Result<nat, NumErrorKind> {
    if s == "" then Failure(ErrSyntax) else ScanDigits(s, 0)
  }

  /** strconv.ParseInt(s, 10, 64): an optional sign, then ParseUint on the
      rest; out-of-range values are range errors. Errors name the function
      and the whole input. */
  function ParseInt64(s: string): Result<int64, Error> {
    if s == "" then Failure(NumError("ParseInt", s, ErrSyntax))
    else
      var neg := s[0] == '-';
      var un := ParseUint64(Unsigned(s));
      if un.Failure? && un.error != ErrRange then Failure(NumError("ParseInt", s, un.error))
      else
        var u := if un.Failure? then MaxUint64 else un.value;
        if !neg && u >= 0x8000_0000_0000_0000 then Failure(NumError("ParseInt", s, ErrRange))
        else if neg && u > 0x8000_0000_0000_0000 then Failure(NumError("ParseInt", s, ErrRange))
        else Success(if neg then -u else u)
  }

  /** Decimal digits of a natural number, without leading zeros. */
  function FormatNat(n: nat): (r: string)
    ensures |r| > 0 && AllDigits(r)
    decreases n
  {
    if n < 10 then [('0' as int + n) as char]
    else FormatNat(n / 10) + [('0' as int + n % 10) as char]
  }

  /** strconv.FormatInt(v, 10). */
  function FormatInt(v: int64): string {
    if v < 0 then "-" + FormatNat(-(v as int)) else FormatNat(v)
  }

  lemma {:induction false} DecimalValueOfFormat(n: nat)
    ensures DecimalValue(FormatNat(n)) == n
    decreases n
  {
    if n >= 10 {
      DecimalValueOfFormat(n / 10);
      var s := FormatNat(n);
      assert s[..|s| - 1] == FormatNat(n / 10);
    }
  }

  /** One more digit after a scan that already succeeded or failed. */
  function ScanStep(r: Result<nat, NumErrorKind>, c: char): Result<nat, NumErrorKind> {
    if r.Failure? then r
    else if !IsDigit(c) then Failure(ErrSyntax)
    else if r.value * 10 + DigitValue(c) > MaxUint64 then Failure(ErrRange)
    else Success(r.value * 10 + DigitValue(c))
  }

  lemma {:induction false} ScanDigitsSnoc(s: string, c: char, acc: nat)
    requires acc <= MaxUint64
    ensures ScanDigits(s + [c], acc) == ScanStep(ScanDigits(s, acc), c)
    decreases |s|
  {
    if s != [] {
      assert (s + [c])[1..] == s[1..] + [c];
      if IsDigit(s[0]) && acc * 10 + DigitValue(s[0]) <= MaxUint64 {
        ScanDigitsSnoc(s[1..], c, acc * 10 + DigitValue(s[0]));
      }
    }
  }

  /** Scanning digits yields their value, or a range error when the value
      does not fit in a uint64. */
  lemma {:induction false} ScanDigitsValue(s: string)
    requires AllDigits(s)
    ensures ScanDigits(s, 0) == if DecimalValue(s) <= MaxUint64 then Success(DecimalValue(s)) else Failure(ErrRange)
    decreases |s|
  {
    if s != [] {
      var p := s[..|s| - 1];
      assert s == p + [s[|s| - 1]];
      ScanDigitsValue(p);
      ScanDigitsSnoc(p, s[|s| - 1], 0);
    }
  }

  /** ParseInt accepts exactly the decimal integers that fit in an int64, and
      returns their value. */
  lemma ParseInt64Meaning(s: string)
    ensures ParseInt64(s).Success? <==> IsDecimal(s) && MinInt64 <= SignedValue(s) <= MaxInt64
    ensures ParseInt64(s).Success? ==> ParseInt64(s).value == SignedValue(s)
    ensures ParseInt64(s).Failure? ==> ParseInt64(s).error == NumError("ParseInt", s, ParseInt64(s).error.kind)
  {
    if IsDecimal(s) {
      ScanDigitsValue(Unsigned(s));
    }
  }

  /** Formatting then parsing gives the number back. */
  lemma ParseFormat(v: int64)
    ensures ParseInt64(FormatInt(v)) == Success(v)
  {
    var s := FormatInt(v);
    var n: nat := if v < 0 then -(v as int) else v;
    DecimalValueOfFormat(n);
    assert Unsigned(s) == FormatNat(n);
    ParseInt64Meaning(s);
  }
}
