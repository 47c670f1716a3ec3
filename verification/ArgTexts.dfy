/** Key lists as users write them: what each way of writing a piece means. */
module ArgTexts {
  import opened Wrappers
  import opened GoStrings
  import opened KeyArgs

  // ----- a list as it is written -----

  /** How the database of a key is written: not at all, as `db3`, or as `3`. */
  datatype DbText = Nowhere | WithPrefix(db: string) | Bare(db: string) {
    function Text(): string {
      match this
      case Nowhere => ""
      case WithPrefix(db) => "db" + db
      case Bare(db) => db
    }

    /** A key that names no database is one of database 0. */
    function Db(): string {
      if Nowhere? then "0" else db
    }
  }

  /** The four gaps may be filled with blanks. */
  datatype Written = Written(gap1: string, db: DbText, gap2: string, gap3: string, key: string, gap4: string) {
    predicate IsFine() {
      && AreBlanks(gap1) && AreBlanks(gap2) && AreBlanks(gap3) && AreBlanks(gap4)
      && key != "" && IsBytes(key)
      && (!db.Nowhere? ==> ParseInt(db.db).Value? && ParseInt(db.db).n >= 0)
    }

    function Text(): string
      requires IsBytes(key)
    {
      if db.Nowhere? then gap3 + QueryEscape(key) + gap4
      else (gap1 + db.Text() + gap2) + "=" + (gap3 + QueryEscape(key) + gap4)
    }

    function Meaning(): DbKey {
      DbKey(db.Db(), key)
    }
  }

  predicate AllFine(list: seq<Written>) {
    forall i | 0 <= i < |list| :: list[i].IsFine()
  }

  function Texts(list: seq<Written>): seq<string>
    requires AllFine(list)
  {
    seq(|list|, i requires 0 <= i < |list| => list[i].Text())
  }

  function Meanings(list: seq<Written>): seq<DbKey> {
    seq(|list|, i requires 0 <= i < |list| => list[i].Meaning())
  }

  lemma {:induction false} EscapedIsPlain(key: string)
    requires IsBytes(key)
    ensures IsPlain(QueryEscape(key)) && ',' !in QueryEscape(key) && '=' !in QueryEscape(key)
    ensures key != "" ==> QueryEscape(key) != ""
  {
    EscapedCharacters(key);
    assert forall i | 0 <= i < |QueryEscape(key)| :: QueryEscape(key)[i] in QueryEscape(key);
  }

  /** The half of a piece that holds the key. */
  lemma {:induction false} KeyHalf(before: string, key: string, after: string)
    requires AreBlanks(before) && AreBlanks(after) && IsBytes(key)
    ensures var half := before + QueryEscape(key) + after;
            QueryUnescape(TrimSpace(half)) == Some(key) && '=' !in half && ',' !in half
  {
    EscapedIsPlain(key);
    TrimBlanks(before, QueryEscape(key), after);
    UnescapeEscape(key);
  }

  lemma {:induction false} NumberCharacters(db: string)
    requires ParseInt(db).Value?
    ensures IsPlain(db) && '=' !in db && ',' !in db && 'd' !in db && db != ""
  {
    ParseIntCharacters(db);
    assert forall i | 0 <= i < |db| :: IsDigit(db[i]) || db[i] in {'+', '-'};
  }

  lemma {:induction false} WithoutPrefix(db: string)
    requires 'd' !in db
    ensures RemoveAll(db, "db") == db && RemoveAll("db" + db, "db") == db
  {
    RemoveAllAbsent(db, "db");
    assert ("db" + db)[2..] == db && "db" <= "db" + db;
  }

  lemma {:induction false} DbTextCharacters(d: DbText)
    requires !d.Nowhere? && ParseInt(d.db).Value?
    ensures IsPlain(d.Text()) && '=' !in d.Text() && ',' !in d.Text() && d.db != ""
    ensures RemoveAll(d.Text(), "db") == d.db
  {
    NumberCharacters(d.db);
    WithoutPrefix(d.db);
  }

  /** The half that holds the database. */
  lemma {:induction false} DbHalf(before: string, d: DbText, after: string)
    requires AreBlanks(before) && AreBlanks(after) && !d.Nowhere? && ParseInt(d.db).Value?
    ensures var half := before + d.Text() + after;
            RemoveAll(TrimSpace(half), "db") == d.db && '=' !in half && ',' !in half && d.db != ""
  {
    DbTextCharacters(d);
    TrimBlanks(before, d.Text(), after);
  }

  lemma {:induction false} TwoHalves(a: string, b: string)
    requires '=' !in a && '=' !in b
    ensures Split(a + "=" + b, '=') == [a, b]
  {
    SplitAppend(a, b, '=');
    SplitWithoutSeparator(a, '=');
    SplitWithoutSeparator(b, '=');
  }

  lemma {:induction false} PieceMeans(w: Written)
    requires w.IsFine()
    ensures ParseFragment(w.Text()) == Pair(w.Meaning()) && ',' !in w.Text() && w.Text() != ""
  {
    var half := w.gap3 + QueryEscape(w.key) + w.gap4;
    KeyHalf(w.gap3, w.key, w.gap4);
    EscapedIsPlain(w.key);
    if w.db.Nowhere? {
      SplitWithoutSeparator(half, '=');
      ZeroIsAnIndex();
    } else {
      DbHalf(w.gap1, w.db, w.gap2);
      TwoHalves(w.gap1 + w.db.Text() + w.gap2, half);
    }
  }

  lemma {:induction false} PiecesMean(list: seq<Written>, pairs: seq<DbKey>)
    requires AllFine(list) && pairs == Meanings(list)
    ensures Fragments(Texts(list)) == seq(|pairs|, i requires 0 <= i < |pairs| => Pair(pairs[i]))
    ensures forall i | 0 <= i < |list| :: ',' !in Texts(list)[i] && Texts(list)[i] != ""
  {
    forall i | 0 <= i < |list|
      ensures Fragments(Texts(list))[i] == Pair(pairs[i])
      ensures ',' !in Texts(list)[i] && Texts(list)[i] != ""
    {
      PieceMeans(list[i]);
    }
  }

  /** Any mixture of bare keys, `db3=key` and `3=key`, with or without blanks, stands
      for the keys in the order in which they are written. */
  lemma {:induction false} MixedRoundTrip(list: seq<Written>)
    requires AllFine(list)
    ensures Parse(Join(Texts(list), ',')) == Parsed(Meanings(list), None)
  {
    if list == [] {
    } else {
      var pairs := Meanings(list);
      PiecesMean(list, pairs);
      SplitJoin(Texts(list), ',');
      ParseIsCollect(Join(Texts(list), ','));
      CollectPairs(pairs);
      assert Fragments(Texts(list)) == seq(|pairs|, i requires 0 <= i < |pairs| => Pair(pairs[i]));
    }
  }

  /** A key alone is one of database 0. */
  lemma {:induction false} BareKey(key: string)
    requires key != "" && IsBytes(key)
    ensures Parse(QueryEscape(key)) == Parsed([DbKey("0", key)], None)
  {
    EscapedIsPlain(key);
    BarePiece(QueryEscape(key), key);
  }

  lemma {:induction false} BarePiece(k: string, key: string)
    requires key != "" && IsBytes(key) && k == QueryEscape(key)
    requires k != "" && IsPlain(k) && ',' !in k && '=' !in k
    ensures Parse(k) == Parsed([DbKey("0", key)], None)
  {
    TrimSpaceGraphic(k);
    UnescapeEscape(key);
    SplitWithoutSeparator(k, '=');
    ZeroIsAnIndex();
    LonePiece(k);
  }

  lemma {:induction false} ZeroIsAnIndex()
    ensures ParseInt("0") == Value(0)
  {
    ParseIntItoa(0);
    assert Itoa(0) == "0";
  }

  // ----- pieces that are no pairs -----

  lemma {:induction false} LonePiece(k: string)
    requires ',' !in k
    ensures Parse(k) == match ParseFragment(k)
                        case Skip => Parsed([], None)
                        case Bad(error) => Parsed([], Some(error))
                        case Pair(pair) => Parsed([pair], None)
  {
    SplitWithoutSeparator(k, ',');
    ParseIsCollect(k);
    assert Fragments([k]) == [ParseFragment(k)] && [ParseFragment(k)][1..] == [];
  }

  /** Both halves of a piece, once trimmed. */
  lemma {:induction false} HalvesMean(a: string, b: string)
    requires '=' !in a && '=' !in b && ',' !in a && ',' !in b
    ensures var k := a + "=" + b;
            ',' !in k && ParseFragment(k) == ParsePair(k, RemoveAll(TrimSpace(a), "db"), QueryUnescape(TrimSpace(b)))
  {
    TwoHalves(a, b);
  }

  lemma {:induction false} OnlyBlanks(s: string)
    requires AreBlanks(s)
    ensures TrimSpace(s) == "" && '=' !in s && ',' !in s
  {
    TrimBlanks(s, "", "");
    assert s + "" + "" == s;
  }

  lemma {:induction false} EscapedHalf(key: string)
    requires IsBytes(key)
    ensures QueryUnescape(TrimSpace(QueryEscape(key))) == Some(key)
    ensures '=' !in QueryEscape(key) && ',' !in QueryEscape(key)
  {
    EscapedIsPlain(key);
    TrimSpaceGraphic(QueryEscape(key));
    UnescapeEscape(key);
  }

  /** Nothing before the `=`: the piece is skipped. */
  lemma {:induction false} NoDatabase(blanks: string, key: string)
    requires AreBlanks(blanks) && IsBytes(key)
    ensures Parse(blanks + "=" + QueryEscape(key)) == Parsed([], None)
  {
    EscapedHalf(key);
    OnlyBlanks(blanks);
    HalvesMean(blanks, QueryEscape(key));
    LonePiece(blanks + "=" + QueryEscape(key));
  }

  /** Nothing after it: the piece is skipped. */
  lemma {:induction false} NoKey(d: DbText, blanks: string)
    requires AreBlanks(blanks) && !d.Nowhere? && ParseInt(d.db).Value?
    ensures Parse(d.Text() + "=" + blanks) == Parsed([], None)
  {
    DbTextCharacters(d);
    OnlyBlanks(blanks);
    HalvesMean(d.Text(), blanks);
    LonePiece(d.Text() + "=" + blanks);
  }

  /** A second `=` is an error. */
  lemma {:induction false} SecondEquals(a: string, b: string, c: string)
    requires ',' !in a + b + c
    requires '=' !in a + b + c
    ensures var k := a + "=" + (b + "=" + c); Parse(k) == Parsed([], Some(TooManyFields(k)))
  {
    var k := a + "=" + (b + "=" + c);
    assert forall x | x in a || x in b || x in c :: x in a + b + c;
    TwoHalves(b, c);
    SplitAppend(a, b + "=" + c, '=');
    SplitWithoutSeparator(a, '=');
    LonePiece(k);
  }

  /** A database that is no number, or a negative one, is an error. */
  lemma {:induction false} NoIndex(db: string, key: string)
    requires db != "" && IsPlain(db) && ',' !in db && '=' !in db && 'd' !in db
    requires key != "" && IsBytes(key)
    requires !ParseInt(db).Value? || ParseInt(db).n < 0
    ensures Parse("db" + db + "=" + QueryEscape(key)) == Parsed([], Some(BadDbIndex(db)))
  {
    EscapedHalf(key);
    PrefixedName(db);
    HalvesMean("db" + db, QueryEscape(key));
    LonePiece("db" + db + "=" + QueryEscape(key));
  }

  lemma {:induction false} PrefixedName(db: string)
    requires IsPlain(db) && ',' !in db && '=' !in db && 'd' !in db
    ensures RemoveAll(TrimSpace("db" + db), "db") == db && '=' !in "db" + db && ',' !in "db" + db
  {
    assert IsPlain("db" + db);
    TrimSpaceGraphic("db" + db);
    WithoutPrefix(db);
  }

  lemma {:induction false} UnescapeOpen(s: string)
    requires IsBytes(s)
    ensures QueryUnescape(QueryEscape(s) + "%").None?
  {
    var text := QueryEscape(s) + "%";
    if s == "" {
      assert text == "%";
    } else {
      UnescapeOpen(s[1..]);
      var code := EscapeOne(s[0]);
      var tail := QueryEscape(s[1..]) + "%";
      assert text == code + tail;
      if |code| == 1 {
        assert text[1..] == tail;
      } else {
        assert text[3..] == tail;
      }
    }
  }

  /** A `%` without its two digits is an error. */
  lemma {:induction false} OpenEscape(key: string)
    requires IsBytes(key)
    ensures Parse(QueryEscape(key) + "%") == Parsed([], Some(BadEscape(QueryEscape(key) + "%")))
  {
    var k := QueryEscape(key) + "%";
    EscapedIsPlain(key);
    UnescapeOpen(key);
    assert IsPlain(k) && '=' !in k && ',' !in k;
    TrimSpaceGraphic(k);
    SplitWithoutSeparator(k, '=');
    LonePiece(k);
  }
}
