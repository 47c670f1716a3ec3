/** The parts of Go's `strings` and `strconv` packages that the exporter's
    parsers rely on.  A Go string is a sequence of bytes; here each byte is one
    character below 256 (`IsBytes`). */
module GoStrings {
  import opened Wrappers

  const MAX_INT64: int := 0x7FFF_FFFF_FFFF_FFFF
  const MIN_INT64: int := -0x8000_0000_0000_0000
  const MAX_UINT64: int := 0xFFFF_FFFF_FFFF_FFFF

  predicate IsBytes(s: string) {
    forall i | 0 <= i < |s| :: s[i] as int < 256
  }

  // ----- splitting and joining on a one-byte separator -----

  /** strings.Split */
  function Split(s: string, sep: char): (parts: seq<string>)
    ensures |parts| >= 1
  {
    if s == "" then [""]
    else
      var rest := Split(s[1..], sep);
      if s[0] == sep then [""] + rest
      else [[s[0]] + rest[0]] + rest[1..]
  }

  /** strings.Join */
  function Join(parts: seq<string>, sep: char): string {
    if parts == [] then ""
    else if |parts| == 1 then parts[0]
    else parts[0] + [sep] + Join(parts[1..], sep)
  }

  /** Splitting distributes over a separator: the law behind every line- and
      field-wise statement in this project. */
  lemma {:induction false} SplitAppend(a: string, b: string, sep: char)
    ensures Split(a + [sep] + b, sep) == Split(a, sep) + Split(b, sep)
  {
    if a == "" {
      assert a + [sep] + b == [sep] + b;
    } else {
      assert (a + [sep] + b)[1..] == a[1..] + [sep] + b;
      SplitAppend(a[1..], b, sep);
    }
  }

  lemma {:induction false} SplitWithoutSeparator(s: string, sep: char)
    requires sep !in s
    ensures Split(s, sep) == [s]
  {
    if s == "" {
    } else {
      SplitWithoutSeparator(s[1..], sep);
      assert [s[0]] + s[1..] == s;
    }
  }

  lemma {:induction false} SplitJoin(parts: seq<string>, sep: char)
    requires parts != []
    requires forall i | 0 <= i < |parts| :: sep !in parts[i]
    ensures Split(Join(parts, sep), sep) == parts
  {
    SplitWithoutSeparator(parts[0], sep);
    if |parts| > 1 {
      SplitAppend(parts[0], Join(parts[1..], sep), sep);
      SplitJoin(parts[1..], sep);
      assert [parts[0]] + parts[1..] == parts;
    }
  }

  /** What Split yields contains no separator and only characters of its input. */
  lemma {:induction false} SplitParts(s: string, sep: char)
    ensures forall i | 0 <= i < |Split(s, sep)| :: sep !in Split(s, sep)[i]
    ensures IsBytes(s) ==> forall i | 0 <= i < |Split(s, sep)| :: IsBytes(Split(s, sep)[i])
  {
    if s == "" {
    } else {
      SplitParts(s[1..], sep);
      var rest := Split(s[1..], sep);
      if IsBytes(s) {
        assert IsBytes(s[1..]);
        assert IsBytes([s[0]] + rest[0]);
      }
    }
  }

  // ----- prefixes, suffixes, substrings -----

  predicate HasPrefix(s: string, prefix: string) {
    prefix <= s
  }

  predicate HasSuffix(s: string, suffix: string) {
    |suffix| <= |s| && s[|s| - |suffix|..] == suffix
  }

  function TrimPrefix(s: string, prefix: string): string {
    if HasPrefix(s, prefix) then s[|prefix|..] else s
  }

  /** strings.ReplaceAll(s, part, "") for a nonempty part: non-overlapping
      occurrences are removed from left to right. */
  function RemoveAll(s: string, part: string): string
    requires part != ""
  {
    if s == "" then ""
    else if part <= s then RemoveAll(s[|part|..], part)
    else [s[0]] + RemoveAll(s[1..], part)
  }

  lemma {:induction false} RemoveAllAbsent(s: string, part: string)
    requires part != "" && part[0] !in s
    ensures RemoveAll(s, part) == s
  {
    if s == "" {
    } else {
      assert s[0] != part[0];
      RemoveAllAbsent(s[1..], part);
      assert [s[0]] + s[1..] == s;
    }
  }

  // ----- strings.TrimSpace -----

  /** The number of bytes of the white-space character at the front of s, or 0.
      Beyond ASCII these are the UTF-8 encodings of U+0085, U+00A0, U+1680,
      U+2000 to U+200A, U+2028, U+2029, U+202F, U+205F and U+3000. */
  function SpaceWidth(s: string): (n: nat)
    ensures n <= |s|
  {
    if s == "" then 0
    else if s[0] == ' ' || 9 <= s[0] as int <= 13 then 1
    else if |s| >= 2 && s[0] as int == 0xC2 && s[1] as int in {0x85, 0xA0} then 2
    else if |s| >= 3 && IsWideSpace(s[0] as int, s[1] as int, s[2] as int) then 3
    else 0
  }

  predicate IsWideSpace(a: int, b: int, c: int) {
    || (a == 0xE1 && b == 0x9A && c == 0x80)
    || (a == 0xE2 && b == 0x80 && (0x80 <= c <= 0x8A || c in {0xA8, 0xA9, 0xAF}))
    || (a == 0xE2 && b == 0x81 && c == 0x9F)
    || (a == 0xE3 && b == 0x80 && c == 0x80)
  }

  function TrimLeft(s: string): string {
    if SpaceWidth(s) == 0 then s else TrimLeft(s[SpaceWidth(s)..])
  }

  /** The number of bytes of the white-space character at the end of s, or 0. */
  function TrailingSpaceWidth(s: string): (n: nat)
    ensures n <= |s|
  {
    if |s| >= 1 && SpaceWidth(s[|s| - 1..]) == 1 then 1
    else if |s| >= 2 && SpaceWidth(s[|s| - 2..]) == 2 then 2
    else if |s| >= 3 && SpaceWidth(s[|s| - 3..]) == 3 then 3
    else 0
  }

  function TrimRight(s: string): string {
    if TrailingSpaceWidth(s) == 0 then s else TrimRight(s[..|s| - TrailingSpaceWidth(s)])
  }

  function TrimSpace(s: string): string {
    TrimRight(TrimLeft(s))
  }

  /** A printable ASCII character other than the space. */
  predicate IsGraphic(c: char) {
    0x21 <= c as int <= 0x7E
  }

  lemma {:induction false} GraphicIsNotSpace(s: string)
    requires s != "" && IsGraphic(s[0])
    ensures SpaceWidth(s) == 0
  {
  }

  lemma {:induction false} TrimSpaceGraphic(s: string)
    requires forall i | 0 <= i < |s| :: IsGraphic(s[i])
    ensures TrimSpace(s) == s
  {
    if s != "" {
      GraphicIsNotSpace(s);
      GraphicIsNotSpace(s[|s| - 1..]);
      if |s| >= 2 { GraphicIsNotSpace(s[|s| - 2..]); }
      if |s| >= 3 { GraphicIsNotSpace(s[|s| - 3..]); }
    }
  }

  /** The blanks that regular expressions call \s. */
  predicate IsBlank(c: char) {
    c as int in {9, 10, 12, 13, 32}
  }

  predicate AreBlanks(s: string) {
    forall i | 0 <= i < |s| :: IsBlank(s[i])
  }

  /** No blank, nor any other space, at either end. */
  predicate IsTrimmed(s: string) {
    s != "" ==> IsGraphic(s[0]) && IsGraphic(s[|s| - 1])
  }

  predicate IsPlain(s: string) {
    forall i | 0 <= i < |s| :: IsGraphic(s[i])
  }

  lemma {:induction false} TrimLeftBlanks(blanks: string, s: string)
    requires AreBlanks(blanks) && (s != "" ==> IsGraphic(s[0]))
    ensures TrimLeft(blanks + s) == s
  {
    if blanks == "" {
      assert blanks + s == s;
    } else {
      assert IsBlank(blanks[0]) && SpaceWidth(blanks + s) == 1;
      assert (blanks + s)[1..] == blanks[1..] + s;
      TrimLeftBlanks(blanks[1..], s);
    }
  }

  lemma {:induction false} NoTrailingSpace(s: string)
    requires s != "" ==> IsGraphic(s[|s| - 1])
    ensures TrailingSpaceWidth(s) == 0
  {
    if s != "" {
      GraphicIsNotSpace(s[|s| - 1..]);
    }
  }

  lemma {:induction false} BlankIsSpace(c: char)
    requires IsBlank(c)
    ensures SpaceWidth([c]) == 1
  {
  }

  lemma {:induction false} TrimRightBlanks(s: string, blanks: string)
    requires (s != "" ==> IsGraphic(s[|s| - 1])) && AreBlanks(blanks)
    ensures TrimRight(s + blanks) == s
    decreases |blanks|
  {
    if blanks == "" {
      assert s + blanks == s;
      NoTrailingSpace(s);
    } else {
      var t, last := s + blanks, |blanks| - 1;
      assert t[|t| - 1..] == [blanks[last]];
      BlankIsSpace(blanks[last]);
      assert TrailingSpaceWidth(t) == 1;
      assert t[..|t| - 1] == s + blanks[..last];
      TrimRightBlanks(s, blanks[..last]);
    }
  }

  /** Blanks on both sides are taken off, and nothing else. */
  lemma {:induction false} TrimBlanks(before: string, s: string, after: string)
    requires AreBlanks(before) && AreBlanks(after) && IsTrimmed(s)
    ensures TrimSpace(before + s + after) == s
  {
    if s == "" {
      assert before + s + after == before + after + "";
      assert AreBlanks(before + after);
      TrimLeftBlanks(before + after, "");
      TrimRightBlanks("", "");
    } else {
      assert before + s + after == before + (s + after);
      assert (s + after)[0] == s[0];
      TrimLeftBlanks(before, s + after);
      TrimRightBlanks(s, after);
    }
  }

  lemma {:induction false} TrimLeftBytes(s: string)
    requires IsBytes(s)
    ensures IsBytes(TrimLeft(s))
    decreases |s|
  {
    if SpaceWidth(s) != 0 {
      TrimLeftBytes(s[SpaceWidth(s)..]);
    }
  }

  lemma {:induction false} TrimRightBytes(s: string)
    requires IsBytes(s)
    ensures IsBytes(TrimRight(s))
    decreases |s|
  {
    if TrailingSpaceWidth(s) != 0 {
      TrimRightBytes(s[..|s| - TrailingSpaceWidth(s)]);
    }
  }

  // ----- decimal numbers -----

  predicate IsDigit(c: char) {
    '0' <= c <= '9'
  }

  function Digit(d: int): char
    requires 0 <= d < 10
  {
    "0123456789"[d]
  }

  /** strconv.Itoa, for numbers that are not negative. */
  function Itoa(n: nat): (s: string)
    ensures s != "" && forall i | 0 <= i < |s| :: IsDigit(s[i])
  {
    if n < 10 then [Digit(n)] else Itoa(n / 10) + [Digit(n % 10)]
  }

  datatype Number = Value(n: int) | Syntax | Range(saturated: int) {
    /** The number Go returns beside the error, when a caller ignores the error. */
    function IgnoringError(): int {
      match this
      case Value(n) => n
      case Syntax => 0
      case Range(n) => n
    }

    function ToOption(): Option<int> {
      if Value? then Some(n) else None
    }
  }

  /** The digit loop of strconv.ParseUint: the first offending digit decides
      between the two errors. */
  function ParseDigits(s: string, acc: nat, max: nat): (r: Number)
    ensures r.Value? ==> r.n >= 0
    ensures r.Value? && acc <= max ==> r.n <= max
  {
    if s == "" then Value(acc)
    else if !IsDigit(s[0]) then Syntax
    else
      var next: nat := acc * 10 + (s[0] as int - '0' as int);
      if next > max then Range(max) else ParseDigits(s[1..], next, max)
  }

  /** strconv.ParseUint(s, 10, 64) */
  function ParseUint(s: string): (r: Number)
    ensures r.Value? ==> 0 <= r.n <= MAX_UINT64
  {
    if s == "" then Syntax else ParseDigits(s, 0, MAX_UINT64)
  }

  /** strconv.ParseInt(s, 10, 64), which strconv.Atoi also computes. */
  function ParseInt(s: string): Number {
    var negative := s != "" && s[0] == '-';
    var digits := if s != "" && s[0] in {'+', '-'} then s[1..] else s;
    match ParseUint(digits)
    case Syntax => Syntax
    case Range(_) => if negative then Range(MIN_INT64) else Range(MAX_INT64)
    case Value(n) =>
      if negative then (if -n < MIN_INT64 then Range(MIN_INT64) else Value(-n))
      else if n > MAX_INT64 then Range(MAX_INT64)
      else Value(n)
  }

  lemma {:induction false} ParseDigitsAppend(a: string, b: string, acc: nat, max: nat)
    requires ParseDigits(a, acc, max).Value?
    ensures ParseDigits(a + b, acc, max) == ParseDigits(b, ParseDigits(a, acc, max).n, max)
    decreases |a|
  {
    if a == "" {
      assert a + b == b;
    } else {
      assert (a + b)[1..] == a[1..] + b;
      ParseDigitsAppend(a[1..], b, acc * 10 + (a[0] as int - '0' as int), max);
    }
  }

  lemma {:induction false} DigitValue(d: nat)
    requires d < 10
    ensures Digit(d) as int - '0' as int == d && IsDigit(Digit(d))
  {
    assert "0123456789"[..5] == "01234" && "0123456789"[5..] == "56789";
  }

  lemma {:induction false} OneMoreDigit(acc: nat, d: nat, max: nat)
    requires d < 10 && acc * 10 + d <= max
    ensures ParseDigits([Digit(d)], acc, max) == Value(acc * 10 + d)
  {
    DigitValue(d);
    assert [Digit(d)][1..] == "";
  }

  lemma {:induction false} ParseDigitsItoa(n: nat, max: nat)
    requires n <= max
    ensures ParseDigits(Itoa(n), 0, max) == Value(n)
  {
    if n < 10 {
      OneMoreDigit(0, n, max);
    } else {
      var tens, units := n / 10, n % 10;
      assert n == tens * 10 + units && tens <= max;
      ParseDigitsItoa(tens, max);
      ParseDigitsAppend(Itoa(tens), [Digit(units)], 0, max);
      OneMoreDigit(tens, units, max);
    }
  }

  /** Printing and parsing a number are inverse as far as int64 reaches. */
  lemma {:induction false} ParseIntItoa(n: nat)
    requires n <= MAX_INT64
    ensures ParseInt(Itoa(n)) == Value(n)
  {
    ParseDigitsItoa(n, MAX_UINT64);
    assert IsDigit(Itoa(n)[0]);
  }

  /** With a sign, and beyond int64. */
  lemma {:induction false} ParseIntSigned(n: nat)
    requires n <= MAX_UINT64
    ensures ParseInt("-" + Itoa(n)) == if n <= -MIN_INT64 then Value(0 - n) else Range(MIN_INT64)
    ensures ParseInt("+" + Itoa(n)) == ParseInt(Itoa(n)) == if n <= MAX_INT64 then Value(n) else Range(MAX_INT64)
  {
    ParseDigitsItoa(n, MAX_UINT64);
    assert ("-" + Itoa(n))[1..] == Itoa(n) && ("+" + Itoa(n))[1..] == Itoa(n);
    assert IsDigit(Itoa(n)[0]);
  }

  /** The decimal printer is injective (for numbers of any size). */
  lemma {:induction false} ItoaInjective(m: nat, n: nat)
    requires Itoa(m) == Itoa(n)
    ensures m == n
  {
    var max := m + n;
    ParseDigitsItoa(m, max);
    ParseDigitsItoa(n, max);
  }

  lemma {:induction false} ParseDigitsCharacters(s: string, acc: nat, max: nat)
    requires ParseDigits(s, acc, max).Value?
    ensures forall i | 0 <= i < |s| :: IsDigit(s[i])
  {
    if s == "" {
    } else {
      ParseDigitsCharacters(s[1..], acc * 10 + (s[0] as int - '0' as int), max);
      assert forall i | 0 < i < |s| :: s[i] == s[1..][i - 1];
    }
  }

  /** A parsed number consists of digits after an optional sign. */
  lemma {:induction false} ParseIntCharacters(s: string)
    requires ParseInt(s).Value?
    ensures s != "" && (IsDigit(s[0]) || s[0] in {'+', '-'})
    ensures forall i | 1 <= i < |s| :: IsDigit(s[i])
  {
    var digits := if s[0] in {'+', '-'} then s[1..] else s;
    ParseDigitsCharacters(digits, 0, MAX_UINT64);
    assert forall i | 1 <= i < |s| :: s[i] == s[1..][i - 1];
  }
}
