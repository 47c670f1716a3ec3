/** Command-line key lists such as `db0=user%3A1,db3=queue*` and their printer:
    parseKeyArg of keys.go together with the query escaping it undoes. */
module KeyArgs {
  import opened Wrappers
  import opened GoStrings

  datatype DbKey = DbKey(db: string, key: string)

  datatype ArgError =
    | TooManyFields(text: string)
    | BadEscape(text: string)
    | BadDbIndex(db: string)

  /** Go returns the pairs read so far even beside an error. */
  datatype Parsed = Parsed(keys: seq<DbKey>, error: Option<ArgError>)

  // ----- percent-encoding, section 2.1 of RFC 3986, with '+' for the space -----

  function HexValue(c: char): Option<int> {
    if '0' <= c <= '9' then Some(c as int - '0' as int)
    else if 'a' <= c <= 'f' then Some(c as int - 'a' as int + 10)
    else if 'A' <= c <= 'F' then Some(c as int - 'A' as int + 10)
    else None
  }

  function UpperHex(d: int): char
    requires 0 <= d < 16
  {
    "0123456789ABCDEF"[d]
  }

  /** The characters that need no escaping in a query component. */
  predicate IsUnreserved(c: char) {
    'a' <= c <= 'z' || 'A' <= c <= 'Z' || IsDigit(c) || c in {'-', '_', '.', '~'}
  }

  /** url.QueryEscape */
  function QueryEscape(s: string): string
    requires IsBytes(s)
  {
    if s == "" then "" else EscapeOne(s[0]) + QueryEscape(s[1..])
  }

  function EscapeOne(c: char): string
    requires c as int < 256
  {
    if IsUnreserved(c) then [c]
    else if c == ' ' then "+"
    else ['%', UpperHex(c as int / 16), UpperHex(c as int % 16)]
  }

  /** url.QueryUnescape; None is an EscapeError. */
  function QueryUnescape(s: string): Option<string> {
    if s == "" then Some("")
    else if s[0] == '%' then
      if |s| < 3 then None
      else
        var hi :- HexValue(s[1]);
        var lo :- HexValue(s[2]);
        var rest :- QueryUnescape(s[3..]);
        Some([(16 * hi + lo) as char] + rest)
    else
      var rest :- QueryUnescape(s[1..]);
      Some([if s[0] == '+' then ' ' else s[0]] + rest)
  }

  lemma {:induction false} HexDigitRoundTrip(d: int)
    requires 0 <= d < 16
    ensures HexValue(UpperHex(d)) == Some(d)
  {
  }

  lemma {:induction false} UnescapeEscape(s: string)
    requires IsBytes(s)
    ensures QueryUnescape(QueryEscape(s)) == Some(s)
  {
    if s == "" {
    } else {
      UnescapeEscape(s[1..]);
      var c, tail := s[0], QueryEscape(s[1..]);
      assert [c] + s[1..] == s;
      if IsUnreserved(c) {
        assert ([c] + tail)[1..] == tail;
      } else if c == ' ' {
        assert ("+" + tail)[1..] == tail;
      } else {
        HexDigitRoundTrip(c as int / 16);
        HexDigitRoundTrip(c as int % 16);
        var code := ['%', UpperHex(c as int / 16), UpperHex(c as int % 16)];
        assert (code + tail)[3..] == tail;
      }
    }
  }

  lemma {:induction false} UnescapeBytes(s: string)
    requires IsBytes(s)
    ensures QueryUnescape(s).Some? ==> IsBytes(QueryUnescape(s).value)
  {
    if s == "" {
    } else {
      UnescapeBytes(s[1..]);
      if |s| >= 3 {
        UnescapeBytes(s[3..]);
      }
    }
  }

  lemma {:induction false} EscapedCharacter(c: char)
    requires c as int < 256
    ensures EscapeOne(c) != "" && forall x | x in EscapeOne(c) :: IsGraphic(x) && x != ',' && x != '='
  {
  }

  /** An escaped string is graphic ASCII free of the two separators. */
  lemma {:induction false} EscapedCharacters(s: string)
    requires IsBytes(s)
    ensures forall c | c in QueryEscape(s) :: IsGraphic(c) && c != ',' && c != '='
    ensures s != "" ==> QueryEscape(s) != ""
  {
    if s == "" {
    } else {
      EscapedCharacter(s[0]);
      EscapedCharacters(s[1..]);
    }
  }

  // ----- the parser -----

  datatype Fragment = Skip | Pair(pair: DbKey) | Bad(error: ArgError)

  /** One comma-separated piece of the argument. */
  function ParseFragment(k: string): Fragment {
    if k == "" then Skip
    else
      var fields := Split(k, '=');
      if |fields| == 1 then ParsePair(k, "0", QueryUnescape(TrimSpace(fields[0])))
      else if |fields| == 2 then
        ParsePair(k, RemoveAll(TrimSpace(fields[0]), "db"), QueryUnescape(TrimSpace(fields[1])))
      else Bad(TooManyFields(k))
  }

  /** The two halves of a piece. */
  function ParsePair(k: string, db: string, key: Option<string>): Fragment {
    if key.None? then Bad(BadEscape(k))
    else if db == "" || key.value == "" then Skip
    else if ParseInt(db).Value? && ParseInt(db).n >= 0 then Pair(DbKey(db, key.value))
    else Bad(BadDbIndex(db))
  }

  function Fragments(parts: seq<string>): seq<Fragment> {
    seq(|parts|, i requires 0 <= i < |parts| => ParseFragment(parts[i]))
  }

  /** The pairs up to the first bad fragment, and its error. */
  function Collect(fragments: seq<Fragment>): Parsed {
    if fragments == [] then Parsed([], None)
    else
      match fragments[0]
      case Skip => Collect(fragments[1..])
      case Bad(error) => Parsed([], Some(error))
      case Pair(pair) =>
        var rest := Collect(fragments[1..]);
        Parsed([pair] + rest.keys, rest.error)
  }

  function Parse(arg: string): Parsed {
    if arg == "" then Parsed([], None) else Collect(Fragments(Split(arg, ',')))
  }

  /** The body of parseKeyArg's loop, for one piece. */
  method ReadFragment(k: string) returns (f: Fragment)
    ensures f == ParseFragment(k)
  {
    if k == "" {
      return Skip;
    }
    var fields := Split(k, '=');
    var db, key;
    if |fields| == 1 {
      db, key := "0", QueryUnescape(TrimSpace(fields[0]));
    } else if |fields| == 2 {
      db, key := RemoveAll(TrimSpace(fields[0]), "db"), QueryUnescape(TrimSpace(fields[1]));
    } else {
      return Bad(TooManyFields(k));
    }
    f := ReadPair(k, db, key);
  }

  /** The rest of it: the checks on the two halves. */
  method ReadPair(k: string, db: string, key: Option<string>) returns (f: Fragment)
    ensures f == ParsePair(k, db, key)
  {
    if key.None? {
      return Bad(BadEscape(k));
    }
    if db == "" || key.value == "" {
      return Skip;
    }
    var number := ParseInt(db);
    if !number.Value? || number.n < 0 {
      return Bad(BadDbIndex(db));
    }
    return Pair(DbKey(db, key.value));
  }

  /** parseKeyArg */
  method ParseKeyArg(arg: string) returns (keys: seq<DbKey>, error: Option<ArgError>)
    ensures Parsed(keys, error) == Parse(arg)
  {
    keys, error := [], None;
    if arg == "" {
      return;
    }
    var parts := Split(arg, ',');
    ghost var fragments := Fragments(parts);
    for i := 0 to |parts|
      invariant Collect(fragments) ==
                Parsed(keys + Collect(fragments[i..]).keys, Collect(fragments[i..]).error)
    {
      var f := ReadFragment(parts[i]);
      assert fragments[i] == f;
      assert fragments[i..][1..] == fragments[i + 1..];
      match f
      case Skip =>
      case Bad(e) =>
        error := Some(e);
        return;
      case Pair(pair) =>
        keys := keys + [pair];
    }
  }

  // ----- the printer -----

  function PrintPair(p: DbKey): string
    requires IsBytes(p.key)
  {
    "db" + p.db + "=" + QueryEscape(p.key)
  }

  function PrintPairs(pairs: seq<DbKey>): seq<string>
    requires forall i | 0 <= i < |pairs| :: IsBytes(pairs[i].key)
  {
    seq(|pairs|, i requires 0 <= i < |pairs| => PrintPair(pairs[i]))
  }

  function Print(pairs: seq<DbKey>): string
    requires forall i | 0 <= i < |pairs| :: IsBytes(pairs[i].key)
  {
    Join(PrintPairs(pairs), ',')
  }

  /** What the rest of the exporter may rely on: the db text is a number Redis
      can be asked for, and the key is not empty. */
  predicate IsValidPair(p: DbKey) {
    ParseInt(p.db).Value? && ParseInt(p.db).n >= 0 && p.key != "" && IsBytes(p.key)
  }

  predicate AllValid(pairs: seq<DbKey>) {
    forall i | 0 <= i < |pairs| :: IsValidPair(pairs[i])
  }

  // ----- the parser on concatenated arguments -----

  lemma {:induction false} CollectAppend(a: seq<Fragment>, b: seq<Fragment>)
    ensures var x, y := Collect(a), Collect(b);
            Collect(a + b) == if x.error.Some? then x else Parsed(x.keys + y.keys, y.error)
  {
    if a == [] {
      assert a + b == b;
    } else {
      assert (a + b)[1..] == a[1..] + b;
      CollectAppend(a[1..], b);
    }
  }

  /** The parser composes: a comma joins the results, and the first failing
      argument decides the result, partial list included. */
  lemma {:induction false} ParseComposes(a: string, b: string)
    ensures var x, y := Parse(a), Parse(b);
            Parse(a + "," + b) == if x.error.Some? then x else Parsed(x.keys + y.keys, y.error)
  {
    SplitAppend(a, b, ',');
    FragmentsAppend(Split(a, ','), Split(b, ','));
    CollectAppend(Fragments(Split(a, ',')), Fragments(Split(b, ',')));
    ParseIsCollect(a);
    ParseIsCollect(b);
  }

  lemma {:induction false} FragmentsAppend(a: seq<string>, b: seq<string>)
    ensures Fragments(a + b) == Fragments(a) + Fragments(b)
  {
  }

  lemma {:induction false} ParseIsCollect(arg: string)
    ensures Parse(arg) == Collect(Fragments(Split(arg, ',')))
  {
    if arg == "" {
      assert Fragments([""]) == [Skip] && [Skip][1..] == [];
    }
  }

  // ----- what is parsed -----

  lemma {:induction false} TrimmedBytes(s: string)
    requires IsBytes(s)
    ensures QueryUnescape(TrimSpace(s)).Some? ==> IsBytes(QueryUnescape(TrimSpace(s)).value)
  {
    TrimLeftBytes(s);
    TrimRightBytes(TrimLeft(s));
    UnescapeBytes(TrimSpace(s));
  }

  lemma {:induction false} PairIsValid(k: string, db: string, key: Option<string>)
    requires ParsePair(k, db, key).Pair? && IsBytes(key.value)
    ensures IsValidPair(ParsePair(k, db, key).pair)
  {
  }

  lemma {:induction false} FragmentIsValid(k: string)
    requires IsBytes(k) && ParseFragment(k).Pair?
    ensures IsValidPair(ParseFragment(k).pair)
  {
    var fields := Split(k, '=');
    SplitParts(k, '=');
    if |fields| == 1 {
      KeyIsValid(k, "0", fields[0]);
    } else {
      KeyIsValid(k, RemoveAll(TrimSpace(fields[0]), "db"), fields[1]);
    }
  }

  lemma {:induction false} KeyIsValid(k: string, db: string, text: string)
    requires IsBytes(text) && ParsePair(k, db, QueryUnescape(TrimSpace(text))).Pair?
    ensures IsValidPair(ParsePair(k, db, QueryUnescape(TrimSpace(text))).pair)
  {
    TrimmedBytes(text);
    PairIsValid(k, db, QueryUnescape(TrimSpace(text)));
  }

  lemma {:induction false} CollectedPairs(fragments: seq<Fragment>)
    requires forall f | f in fragments && f.Pair? :: IsValidPair(f.pair)
    ensures AllValid(Collect(fragments).keys)
  {
    if fragments == [] {
    } else {
      CollectedPairs(fragments[1..]);
    }
  }

  /** Every returned pair is valid, beside an error as well. */
  lemma {:induction false} ParsedPairsAreValid(arg: string)
    requires IsBytes(arg)
    ensures AllValid(Parse(arg).keys)
  {
    var parts := Split(arg, ',');
    SplitParts(arg, ',');
    forall i | 0 <= i < |parts| && ParseFragment(parts[i]).Pair?
      ensures IsValidPair(ParseFragment(parts[i]).pair)
    {
      FragmentIsValid(parts[i]);
    }
    CollectedPairs(Fragments(parts));
  }

  // ----- the round trip -----

  lemma {:induction false} PrintPairCharacters(p: DbKey)
    requires IsValidPair(p)
    ensures ',' !in PrintPair(p) && PrintPair(p) != "" && IsBytes(PrintPair(p))
    ensures forall c | c in "db" + p.db :: IsGraphic(c) && c != '='
    ensures 'd' !in p.db && p.db != ""
  {
    ParseIntCharacters(p.db);
    EscapedCharacters(p.key);
    assert forall c | c in p.db :: IsDigit(c) || c in {'+', '-'};
    forall i | 0 <= i < |PrintPair(p)| ensures IsGraphic(PrintPair(p)[i]) && PrintPair(p)[i] != ',' {
      assert PrintPair(p)[i] in PrintPair(p);
    }
  }

  lemma {:induction false} PrintedPairParses(p: DbKey)
    requires IsValidPair(p)
    ensures ParseFragment(PrintPair(p)) == Pair(p)
  {
    PrintPairCharacters(p);
    EscapedCharacters(p.key);
    var name, value := "db" + p.db, QueryEscape(p.key);
    assert Split(PrintPair(p), '=') == [name, value] by {
      assert PrintPair(p) == name + ['='] + value;
      SplitAppend(name, value, '=');
      SplitWithoutSeparator(name, '=');
      SplitWithoutSeparator(value, '=');
    }
    TrimSpaceGraphic(name);
    TrimSpaceGraphic(value);
    assert RemoveAll(name, "db") == p.db by {
      assert name[2..] == p.db;
      RemoveAllAbsent(p.db, "db");
    }
    UnescapeEscape(p.key);
  }

  lemma {:induction false} CollectPairs(pairs: seq<DbKey>)
    ensures Collect(seq(|pairs|, i requires 0 <= i < |pairs| => Pair(pairs[i]))) == Parsed(pairs, None)
  {
    if pairs == [] {
    } else {
      var all := seq(|pairs|, i requires 0 <= i < |pairs| => Pair(pairs[i]));
      assert all[1..] == seq(|pairs[1..]|, i requires 0 <= i < |pairs[1..]| => Pair(pairs[1..][i]));
      CollectPairs(pairs[1..]);
      assert [pairs[0]] + pairs[1..] == pairs;
    }
  }

  lemma {:induction false} PrintedPairsParse(pairs: seq<DbKey>)
    requires AllValid(pairs)
    ensures forall i | 0 <= i < |pairs| :: ',' !in PrintPairs(pairs)[i] && PrintPairs(pairs)[i] != ""
    ensures Fragments(PrintPairs(pairs)) == seq(|pairs|, i requires 0 <= i < |pairs| => Pair(pairs[i]))
  {
    forall i | 0 <= i < |pairs|
      ensures ',' !in PrintPairs(pairs)[i] && PrintPairs(pairs)[i] != ""
      ensures Fragments(PrintPairs(pairs))[i] == Pair(pairs[i])
    {
      PrintPairCharacters(pairs[i]);
      PrintedPairParses(pairs[i]);
    }
  }

  lemma {:induction false} JoinIsNotEmpty(parts: seq<string>)
    requires parts != [] && parts[0] != ""
    ensures Join(parts, ',') != ""
  {
  }

  /** Printing a list of valid pairs and parsing it gives the same list back. */
  lemma {:induction false} RoundTrip(pairs: seq<DbKey>)
    requires AllValid(pairs)
    ensures Parse(Print(pairs)) == Parsed(pairs, None)
  {
    if pairs != [] {
      PrintedPairsParse(pairs);
      JoinIsNotEmpty(PrintPairs(pairs));
      SplitJoin(PrintPairs(pairs), ',');
      CollectPairs(pairs);
    }
  }

  function NumberedPairs(pairs: seq<(nat, string)>): seq<DbKey> {
    seq(|pairs|, i requires 0 <= i < |pairs| => DbKey(Itoa(pairs[i].0), pairs[i].1))
  }

  /** The same for (database number, key) pairs, as the tests print them. */
  lemma {:induction false} NumberedRoundTrip(pairs: seq<(nat, string)>)
    requires forall i | 0 <= i < |pairs| ::
               pairs[i].0 <= MAX_INT64 && pairs[i].1 != "" && IsBytes(pairs[i].1)
    ensures Parse(Print(NumberedPairs(pairs))) == Parsed(NumberedPairs(pairs), None)
  {
    forall i | 0 <= i < |pairs| ensures IsValidPair(NumberedPairs(pairs)[i]) {
      ParseIntItoa(pairs[i].0);
    }
    RoundTrip(NumberedPairs(pairs));
  }

  lemma {:induction false} JoinBytes(parts: seq<string>)
    requires forall i | 0 <= i < |parts| :: IsBytes(parts[i])
    ensures IsBytes(Join(parts, ','))
  {
    if |parts| <= 1 {
    } else {
      JoinBytes(parts[1..]);
    }
  }

  /** The lists parseKeyArg accepts an argument for are exactly the lists of
      valid pairs; the validity rule is neither too strict nor too lax. */
  lemma {:induction false} ParseableListsAreTheValidOnes(pairs: seq<DbKey>)
    ensures (exists arg :: IsBytes(arg) && Parse(arg) == Parsed(pairs, None)) <==> AllValid(pairs)
  {
    if arg :| IsBytes(arg) && Parse(arg) == Parsed(pairs, None) {
      ParsedPairsAreValid(arg);
    }
    if AllValid(pairs) {
      RoundTrip(pairs);
      forall i | 0 <= i < |pairs| ensures IsBytes(PrintPairs(pairs)[i]) {
        PrintPairCharacters(pairs[i]);
      }
      JoinBytes(PrintPairs(pairs));
      assert IsBytes(Print(pairs));
    }
  }
}
