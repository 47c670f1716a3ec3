/** The microseconds a command has used, as extractTotalUsecForCommand reads them
    out of an INFO text. */
module Latency {
  import opened Wrappers
  import opened GoStrings
  import opened GoInts

  // ----- the regular expression, line by line -----

  predicate IsNameChar(c: char) {
    'a' <= c <= 'z' || 'A' <= c <= 'Z' || IsDigit(c) || c == '|'
  }

  /** The length of the longest prefix of name characters. */
  function NameLength(s: string): (n: nat)
    ensures n <= |s|
  {
    if s != "" && IsNameChar(s[0]) then 1 + NameLength(s[1..]) else 0
  }

  function Digits(s: string): string {
    if s != "" && IsDigit(s[0]) then [s[0]] + Digits(s[1..]) else ""
  }

  /** The digits after the last "usec=" that has any; ".*" is greedy. */
  function LastUsec(s: string): Option<string> {
    if s == "" then None
    else if LastUsec(s[1..]).Some? then LastUsec(s[1..])
    else if HasPrefix(s, "usec=") && |s| > 5 && IsDigit(s[5]) then Some(Digits(s[5..]))
    else None
  }

  datatype Match = Match(name: string, usec: string)

  /** The match of extractUsecRegexp in one line. */
  function MatchLine(line: string): Option<Match> {
    if !HasPrefix(line, "cmdstat_") then None
    else
      var rest := line[8..];
      var n := NameLength(rest);
      if n == 0 || n == |rest| || rest[n] != ':' then None
      else
        var usec :- LastUsec(rest[n + 1..]);
        Some(Match(rest[..n], usec))
  }

  /** A line of Redis: cmdstat_NAME:...usec=N..., N being the last such number. */
  lemma {:induction false} LineText(line: string, name: string, front: string, n: nat, back: string)
    requires line == "cmdstat_" + (name + (":" + (front + ("usec=" + (Itoa(n) + back)))))
    requires name != "" && n <= MAX_UINT64 && forall i | 0 <= i < |name| :: IsNameChar(name[i])
    requires LastUsec(back).None? && (back != "" ==> !IsDigit(back[0]))
    ensures MatchLine(line) == Some(Match(name, Itoa(n))) && ParseUint(Itoa(n)) == Value(n)
  {
    var text := front + ("usec=" + (Itoa(n) + back));
    var rest := name + (":" + text);
    assert line[..8] == "cmdstat_" && line[8..] == rest;
    NameEnds(name, ":" + text);
    assert rest[|name|] == ':' && rest[|name| + 1..] == text;
    assert rest[..|name|] == name;
    NumberIsLast(Itoa(n), back);
    FrontDoesNotMatter(front, "usec=" + (Itoa(n) + back));
    ParseDigitsItoa(n, MAX_UINT64);
  }

  lemma {:induction false} NameEnds(name: string, rest: string)
    requires forall i | 0 <= i < |name| :: IsNameChar(name[i])
    requires rest != "" && !IsNameChar(rest[0])
    ensures NameLength(name + rest) == |name|
  {
    if name == "" {
      assert name + rest == rest;
    } else {
      assert (name + rest)[1..] == name[1..] + rest;
      NameEnds(name[1..], rest);
    }
  }

  lemma {:induction false} FrontDoesNotMatter(front: string, s: string)
    requires LastUsec(s).Some?
    ensures LastUsec(front + s) == LastUsec(s)
  {
    if front == "" {
      assert front + s == s;
    } else {
      assert (front + s)[1..] == front[1..] + s;
      FrontDoesNotMatter(front[1..], s);
    }
  }

  /** No number begins in a text without a u. */
  lemma {:induction false} NoneBegins(front: string, s: string)
    requires LastUsec(s).None? && forall i | 0 <= i < |front| :: front[i] != 'u'
    ensures LastUsec(front + s).None?
  {
    if front == "" {
      assert front + s == s;
    } else {
      assert (front + s)[1..] == front[1..] + s;
      NoneBegins(front[1..], s);
      assert (front + s)[0] == front[0] != 'u' == "usec="[0];
    }
  }

  lemma {:induction false} DigitsAre(digits: string, rest: string)
    requires forall i | 0 <= i < |digits| :: IsDigit(digits[i])
    requires rest != "" ==> !IsDigit(rest[0])
    ensures Digits(digits + rest) == digits
  {
    if digits == "" {
      assert digits + rest == rest;
    } else {
      assert (digits + rest)[1..] == digits[1..] + rest;
      DigitsAre(digits[1..], rest);
      assert [digits[0]] + digits[1..] == digits;
    }
  }

  lemma {:induction false} NumberIsLast(digits: string, back: string)
    requires digits != "" && forall i | 0 <= i < |digits| :: IsDigit(digits[i])
    requires LastUsec(back).None? && (back != "" ==> !IsDigit(back[0]))
    ensures LastUsec("usec=" + (digits + back)) == Some(digits)
  {
    var s := "usec=" + (digits + back);
    assert s[1..] == ("sec=" + digits) + back && s[5..] == digits + back;
    NoneBegins("sec=" + digits, back);
    assert s[..5] == "usec=";
    DigitsAre(digits, back);
  }

  /** What one line adds for the commands whose name starts with cmd.  A number
      beyond 64 bits is skipped. */
  function LineUsec(line: string, cmd: string): nat {
    match MatchLine(line)
    case None => 0
    case Some(m) =>
      if HasPrefix(m.name, cmd) && ParseUint(m.usec).Value? then ParseUint(m.usec).n else 0
  }

  function UsecSum(lines: seq<string>, cmd: string): nat {
    if lines == [] then 0 else LineUsec(lines[0], cmd) + UsecSum(lines[1..], cmd)
  }

  function Matches(lines: seq<string>): seq<Match> {
    if lines == [] then []
    else (match MatchLine(lines[0]) case None => [] case Some(m) => [m]) + Matches(lines[1..])
  }

  // ----- the loop -----

  function MatchUsec(m: Match, cmd: string): nat {
    if HasPrefix(m.name, cmd) && ParseUint(m.usec).Value? then ParseUint(m.usec).n else 0
  }

  function MatchSum(matches: seq<Match>, cmd: string): nat {
    if matches == [] then 0 else MatchUsec(matches[0], cmd) + MatchSum(matches[1..], cmd)
  }

  lemma {:induction false} MatchSumIsUsecSum(lines: seq<string>, cmd: string)
    ensures MatchSum(Matches(lines), cmd) == UsecSum(lines, cmd)
  {
    if lines == [] {
    } else {
      MatchSumIsUsecSum(lines[1..], cmd);
      match MatchLine(lines[0])
      case None => assert [] + Matches(lines[1..]) == Matches(lines[1..]);
      case Some(m) => assert ([m] + Matches(lines[1..]))[1..] == Matches(lines[1..]);
    }
  }

  /** The total of a text, in uint64. */
  function UsecTotal(text: string, cmd: string): nat {
    UsecSum(Split(text, '\n'), cmd) % TWO_64
  }

  /** extractTotalUsecForCommand: uint64 sums wrap around. */
  method ExtractTotalUsecForCommand(info: string, cmd: string) returns (total: nat)
    ensures total == UsecTotal(info, cmd)
  {
    total := 0;
    var matches := Matches(Split(info, '\n'));
    ghost var all := MatchSum(matches, cmd);
    for i := 0 to |matches|
      invariant Same(total, MatchSum(matches[i..], cmd), all)
    {
      assert matches[i..][1..] == matches[i + 1..];
      ghost var before, own, rest := total, MatchUsec(matches[i], cmd), MatchSum(matches[i + 1..], cmd);
      total := AddMatch(total, matches[i], cmd);
      SameStep(before, own, rest, all);
    }
    SameEnds(total, all);
    MatchSumIsUsecSum(Split(info, '\n'), cmd);
  }

  /** A uint64 total and what is still to be added make up the whole. */
  predicate Same(total: nat, rest: nat, all: nat) {
    total < TWO_64 && (total + rest) % TWO_64 == all % TWO_64
  }

  lemma {:induction false} SameStep(total: nat, own: nat, rest: nat, all: nat)
    requires Same(total, own + rest, all)
    ensures Same((total + own) % TWO_64, rest, all)
  {
    AddModulo(total + own, rest);
    assert total + own + rest == total + (own + rest);
  }

  lemma {:induction false} SameEnds(total: nat, all: nat)
    requires Same(total, 0, all)
    ensures total == all % TWO_64
  {
  }

  /** The loop body, for one match. */
  method AddMatch(total: nat, m: Match, cmd: string) returns (sum: nat)
    requires total < TWO_64
    ensures sum == (total + MatchUsec(m, cmd)) % TWO_64
  {
    if !HasPrefix(m.name, cmd) {
      return total;
    }
    var usecs := ParseUint(m.usec);
    if !usecs.Value? {
      return total;
    }
    return (total + usecs.n) % TWO_64;
  }

  lemma {:induction false} AddModulo(a: nat, b: nat)
    ensures (a % TWO_64 + b) % TWO_64 == (a + b) % TWO_64
  {
    var q := a / TWO_64;
    assert a + b == q * TWO_64 + (a % TWO_64 + b);
    MultiplesVanish(a % TWO_64 + b, q);
  }

  lemma {:induction false} MultiplesVanish(x: nat, q: nat)
    ensures (q * TWO_64 + x) % TWO_64 == x % TWO_64
  {
    if q == 0 {
    } else {
      MultiplesVanish(x, q - 1);
      assert q * TWO_64 + x == ((q - 1) * TWO_64 + x) + TWO_64;
    }
  }

  lemma {:induction false} BothModulo(x: nat, y: nat)
    ensures (x + y) % TWO_64 == (x % TWO_64 + y % TWO_64) % TWO_64
  {
    AddModulo(x, y);
    AddModulo(y, x % TWO_64);
  }

  // ----- totals are additive -----

  lemma {:induction false} UsecSumAppend(a: seq<string>, b: seq<string>, cmd: string)
    ensures UsecSum(a + b, cmd) == UsecSum(a, cmd) + UsecSum(b, cmd)
  {
    if a == [] {
      assert a + b == b;
    } else {
      assert (a + b)[1..] == a[1..] + b;
      UsecSumAppend(a[1..], b, cmd);
    }
  }

  lemma {:induction false} SumsOverALineBreak(a: string, b: string, cmd: string)
    ensures UsecSum(Split(a + "\n" + b, '\n'), cmd) == UsecSum(Split(a + "\n", '\n'), cmd) + UsecSum(Split(b, '\n'), cmd)
  {
    SplitAppend(a, b, '\n');
    SplitAppend(a, "", '\n');
    assert a + "\n" + "" == a + "\n";
    UsecSumAppend(Split(a, '\n'), Split(b, '\n'), cmd);
    UsecSumAppend(Split(a, '\n'), [""], cmd);
    assert UsecSum([""], cmd) == 0 by {
      assert [""][1..] == [];
    }
  }

  /** Texts joined at a line break: the totals add up modulo 2^64. */
  lemma {:induction false} UsecTotalsAreAdditive(a: string, b: string, cmd: string)
    ensures UsecTotal(a + "\n" + b, cmd) == (UsecTotal(a + "\n", cmd) + UsecTotal(b, cmd)) % TWO_64
  {
    SumsOverALineBreak(a, b, cmd);
    BothModulo(UsecSum(Split(a + "\n", '\n'), cmd), UsecSum(Split(b, '\n'), cmd));
  }

  // ----- whose microseconds they are -----

  /** What a line adds for the command of exactly this name. */
  function OwnLineUsec(line: string, cmd: string): nat {
    if MatchLine(line).Some? && MatchLine(line).value.name == cmd then LineUsec(line, cmd) else 0
  }

  function OwnSum(lines: seq<string>, cmd: string): nat {
    if lines == [] then 0 else OwnLineUsec(lines[0], cmd) + OwnSum(lines[1..], cmd)
  }

  /** Line i is for another command whose name starts with cmd. */
  predicate IsLongerCommand(lines: seq<string>, i: nat, cmd: string)
    requires i < |lines|
  {
    MatchLine(lines[i]).Some? && MatchLine(lines[i]).value.name != cmd && HasPrefix(MatchLine(lines[i]).value.name, cmd)
  }

  /** Names are compared by prefix, so "get" also collects "getex".  The sum is the
      command's own if and only if every longer command has used no time. */
  lemma {:induction false} SumIsOwnExactly(lines: seq<string>, cmd: string)
    ensures UsecSum(lines, cmd) >= OwnSum(lines, cmd)
    ensures UsecSum(lines, cmd) == OwnSum(lines, cmd) <==>
            forall i | 0 <= i < |lines| :: IsLongerCommand(lines, i, cmd) ==> LineUsec(lines[i], cmd) == 0
  {
    if lines == [] {
    } else {
      SumIsOwnExactly(lines[1..], cmd);
      assert forall i | 0 < i < |lines| :: IsLongerCommand(lines, i, cmd) <==> IsLongerCommand(lines[1..], i - 1, cmd);
      assert forall i | 0 <= i < |lines[1..]| :: lines[1..][i] == lines[i + 1];
    }
  }

  /** What the lines of the longer commands add. */
  function LongerSum(lines: seq<string>, cmd: string): nat {
    if lines == [] then 0
    else (LineUsec(lines[0], cmd) - OwnLineUsec(lines[0], cmd)) + LongerSum(lines[1..], cmd)
  }

  lemma {:induction false} SumSplits(lines: seq<string>, cmd: string)
    ensures UsecSum(lines, cmd) == OwnSum(lines, cmd) + LongerSum(lines, cmd)
  {
    if lines == [] {
    } else {
      SumSplits(lines[1..], cmd);
    }
  }

  lemma {:induction false} UnnoticedModulo(a: nat, b: nat)
    ensures (a + b) % TWO_64 == a % TWO_64 <==> b % TWO_64 == 0
  {
    var x, y := a % TWO_64, b % TWO_64;
    AddModulo(b, a);
    AddModulo(a, y);
    assert (a + b) % TWO_64 == (x + y) % TWO_64;
    if x + y >= TWO_64 {
      MultiplesVanish(x + y - TWO_64, 1);
    }
  }

  /** For the uint64 the code returns: it is the command's own total, as far as 64
      bits go, if and only if what the longer commands add is a multiple of 2^64. */
  lemma {:induction false} TotalIsOwnExactly(text: string, cmd: string)
    ensures var lines := Split(text, '\n');
            && UsecTotal(text, cmd) == (OwnSum(lines, cmd) + LongerSum(lines, cmd)) % TWO_64
            && (UsecTotal(text, cmd) == OwnSum(lines, cmd) % TWO_64 <==> LongerSum(lines, cmd) % TWO_64 == 0)
  {
    var lines := Split(text, '\n');
    SumSplits(lines, cmd);
    UnnoticedModulo(OwnSum(lines, cmd), LongerSum(lines, cmd));
  }
}
