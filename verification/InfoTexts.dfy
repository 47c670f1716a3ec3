/** INFO as text: what the lines of the sections with numbers of their own are made
    of, and which samples their numbers become. */
module InfoTexts {
  import opened Wrappers
  import opened GoStrings
  import opened Registry
  import opened InfoFields
  import opened Info
  import opened InfoProofs

  // ----- lines -----

  /** A header and a field as Redis writes them, blanks around them included. */
  lemma {:induction false} HeaderText(before: string, name: string, after: string)
    requires AreBlanks(before) && AreBlanks(after) && name != "" && IsGraphic(name[|name| - 1])
    ensures ParseLine(before + ("# " + name) + after) == Header(name)
  {
    var line := "# " + name;
    assert line[|line| - 1] == name[|name| - 1];
    TrimBlanks(before, line, after);
    assert line[..2] == "# " && line[2..] == name;
  }

  /** The first colon ends the key; the value may hold more of them. */
  lemma {:induction false} FieldText(before: string, key: string, value: string, after: string)
    requires AreBlanks(before) && AreBlanks(after) && IsTrimmed(key + ":" + value)
    requires key != "" && key[0] != '#' && ':' !in key
    ensures ParseLine(before + (key + ":" + value) + after) == Field(key, value)
  {
    TrimBlanks(before, key + ":" + value, after);
    FieldLine(key, value, key + ":" + value);
  }

  lemma {:induction false} FieldLine(key: string, value: string, line: string)
    requires key != "" && key[0] != '#' && ':' !in key && line == key + ":" + value
    ensures !HasPrefix(line, "# ") && |line| >= 2 && ':' in line
    ensures line[..IndexOf(line, ':')] == key && line[IndexOf(line, ':') + 1..] == value
  {
    FirstColon(key, value);
    assert line[0] == key[0] && line[..|key|] == key && line[|key| + 1..] == value;
  }

  lemma {:induction false} FirstColon(key: string, value: string)
    requires ':' !in key
    ensures ':' in key + ":" + value && IndexOf(key + ":" + value, ':') == |key|
  {
    if key == "" {
      assert (key + ":" + value)[0] == ':';
    } else {
      assert key[0] in key && (key + ":" + value)[1..] == key[1..] + ":" + value;
      FirstColon(key[1..], value);
    }
  }

  /** The lines of a text. */
  lemma {:induction false} LinesOfText(raws: seq<string>, i: nat)
    requires i < |raws| && forall j | 0 <= j < |raws| :: '\n' !in raws[j]
    ensures |Lines(Join(raws, '\n'))| == |raws| && Lines(Join(raws, '\n'))[i] == ParseLine(raws[i])
  {
    SplitJoin(raws, '\n');
  }

  /** A header holds until the next one. */
  lemma {:induction false} HeaderHolds(lines: seq<Line>, h: nat, i: nat)
    requires h < i <= |lines| && lines[h].Header?
    requires forall j | h < j < i :: !lines[j].Header?
    ensures SectionAt(lines, i) == SectionOf(lines[h].name)
  {
    if i == h + 1 {
    } else {
      HeaderHolds(lines, h, i - 1);
    }
  }

  lemma {:induction false} SectionNames()
    ensures SectionOf("Replication") == Replication && SectionOf("Server") == Server
    ensures SectionOf("Commandstats") == Commandstats && SectionOf("Latencystats") == Latencystats
    ensures SectionOf("Errorstats") == Errorstats && SectionOf("Keyspace") == Keyspace
    ensures SectionOf("Sentinel") == Sentinel
  {
  }

  // ----- values made of name=text pieces -----

  type Pieces = seq<(string, string)>

  predicate AreSeparate(pieces: Pieces) {
    forall i | 0 <= i < |pieces| ::
      && ',' !in pieces[i].0 && '=' !in pieces[i].0
      && ',' !in pieces[i].1 && '=' !in pieces[i].1
  }

  function PieceTexts(pieces: Pieces): seq<string> {
    seq(|pieces|, i requires 0 <= i < |pieces| => pieces[i].0 + "=" + pieces[i].1)
  }

  /** name=text,name=text */
  function Text(pieces: Pieces): string {
    Join(PieceTexts(pieces), ',')
  }

  lemma {:induction false} PieceParts(name: string, text: string)
    requires '=' !in name && '=' !in text
    ensures Split(name + "=" + text, '=') == [name, text]
  {
    SplitAppend(name, text, '=');
    SplitWithoutSeparator(name, '=');
    SplitWithoutSeparator(text, '=');
  }

  lemma {:induction false} TextParts(pieces: Pieces)
    requires pieces != [] && AreSeparate(pieces)
    ensures Split(Text(pieces), ',') == PieceTexts(pieces)
    ensures forall i | 0 <= i < |pieces| :: Split(PieceTexts(pieces)[i], '=') == [pieces[i].0, pieces[i].1]
  {
    SplitJoin(PieceTexts(pieces), ',');
    forall i | 0 <= i < |pieces| ensures Split(PieceTexts(pieces)[i], '=') == [pieces[i].0, pieces[i].1] {
      PieceParts(pieces[i].0, pieces[i].1);
    }
  }

  /** The number after the `=` of a piece. */
  lemma {:induction false} Numbers(floats: Floats, pieces: Pieces)
    requires pieces != [] && AreSeparate(pieces)
    ensures |Split(Text(pieces), ',')| == |pieces|
    ensures forall i | 0 <= i < |pieces| :: ExtractVal(floats, Split(Text(pieces), ',')[i]) == floats(pieces[i].1)
  {
    TextParts(pieces);
  }

  // ----- Keyspace -----

  /** What a keyspace line asks for: keys and expiring keys, then the cached keys and
      the average time to live, unless they are missing (or below -1). */
  function KeyspaceSamples(key: string, keys: real, expiring: real, ttl: Option<real>, cached: Option<real>): seq<Request> {
    [Register("db_keys", keys, Gauge, [key]), Register("db_keys_expiring", expiring, Gauge, [key])]
    + (if cached.Some? && cached.value > -1.0 then [Register("db_keys_cached", cached.value, Gauge, [key])] else [])
    + (if ttl.Some? && ttl.value > -1.0 then [Register("db_avg_ttl_seconds", ttl.value, Gauge, [key])] else [])
  }

  /** a=x,b=y with perhaps c=t and d=u: x keys, y of them expiring, t milliseconds on
      average, u cached. */
  lemma {:induction false} KeyspaceText(cfg: InfoConfig, host: string, port: string, key: string, pieces: Pieces)
    requires HasPrefix(key, "db") && 2 <= |pieces| <= 4 && AreSeparate(pieces)
    requires forall i | 0 <= i < |pieces| :: cfg.floats(pieces[i].1).Some?
    ensures FieldRequests(cfg, Keyspace, host, port, key, Text(pieces)) ==
            KeyspaceSamples(key, cfg.floats(pieces[0].1).value, cfg.floats(pieces[1].1).value,
                            if |pieces| > 2 then Some(cfg.floats(pieces[2].1).value / 1000.0) else None,
                            if |pieces| > 3 then Some(cfg.floats(pieces[3].1).value) else None)
  {
    Numbers(cfg.floats, pieces);
  }

  /** A line with too few or too many pieces, or one that is no number, is no
      keyspace line. */
  lemma {:induction false} BadKeyspaceText(cfg: InfoConfig, host: string, port: string, key: string, pieces: Pieces)
    requires pieces != [] && AreSeparate(pieces)
    requires !HasPrefix(key, "db") || |pieces| < 2 || |pieces| > 4
             || exists i | 0 <= i < |pieces| :: cfg.floats(pieces[i].1).None?
    ensures FieldRequests(cfg, Keyspace, host, port, key, Text(pieces)) == GenericRequests(cfg, key, Text(pieces))
  {
    NoKeyspace(cfg.floats, key, pieces);
  }

  lemma {:induction false} NoKeyspace(floats: Floats, key: string, pieces: Pieces)
    requires pieces != [] && AreSeparate(pieces)
    requires !HasPrefix(key, "db") || |pieces| < 2 || |pieces| > 4
             || exists i | 0 <= i < |pieces| :: floats(pieces[i].1).None?
    ensures KeyspaceOf(floats, key, Text(pieces)) == None
  {
    Numbers(floats, pieces);
  }

  /** Every labelled request of a line is sent, where its description exists. */
  lemma {:induction false} LineIsSent(cfg: InfoConfig, s: State, lines: seq<Line>, order: seq<string>, dbCount: nat,
                                      i: nat, r: Request)
    requires Run(s, InfoRequests(cfg, lines, order, dbCount)).Some?
    requires i < |lines| && r in RequestsAt(cfg, lines, i) && !r.Create? && Has(s.descriptions, r.name, |r.labels|)
    ensures r in Answered(Run(s, InfoRequests(cfg, lines, order, dbCount)).value.sent, (x: Request) => x == r)
  {
    var requests, want := InfoRequests(cfg, lines, order, dbCount), (x: Request) => x == r;
    LineIsAsked(cfg, lines, i, |lines|, r);
    assert r in requests;
    Delivered(s, s.descriptions, requests, want);
    AskedIncludes(requests, r, want);
  }

  lemma {:induction false} LineIsAsked(cfg: InfoConfig, lines: seq<Line>, i: nat, n: nat, r: Request)
    requires i < n <= |lines| && r in RequestsAt(cfg, lines, i)
    ensures r in RequestsBefore(cfg, lines, n)
  {
    BeforeIsUpTo(cfg, lines, n);
    InUpTo(PerLine(cfg, lines), i, n, r);
  }

  function PerLine(cfg: InfoConfig, lines: seq<Line>): nat -> seq<Request> {
    (i: nat) => if i < |lines| then RequestsAt(cfg, lines, i) else []
  }

  function UpTo(each: nat -> seq<Request>, n: nat): seq<Request> {
    if n == 0 then [] else UpTo(each, n - 1) + each(n - 1)
  }

  lemma {:induction false} InUpTo(each: nat -> seq<Request>, i: nat, n: nat, r: Request)
    requires i < n && r in each(i)
    ensures r in UpTo(each, n)
  {
    if i < n - 1 {
      InUpTo(each, i, n - 1, r);
    }
  }

  lemma {:induction false} BeforeIsUpTo(cfg: InfoConfig, lines: seq<Line>, n: nat)
    requires n <= |lines|
    ensures RequestsBefore(cfg, lines, n) == UpTo(PerLine(cfg, lines), n)
  {
    if n == 0 {
    } else {
      BeforeIsUpTo(cfg, lines, n - 1);
      OneLineMore(cfg, lines, n - 1, UpTo(PerLine(cfg, lines), n - 1));
    }
  }

  lemma {:induction false} OneLineMore(cfg: InfoConfig, lines: seq<Line>, i: nat, before: seq<Request>)
    requires i < |lines| && RequestsBefore(cfg, lines, i) == before
    ensures RequestsBefore(cfg, lines, i + 1) == before + PerLine(cfg, lines)(i)
  {
  }

  lemma {:induction false} AskedIncludes(requests: seq<Request>, r: Request, want: Request -> bool)
    requires r in requests && want(r)
    ensures r in Asked(requests, want)
  {
    if requests[0] != r {
      assert r in requests[1..];
      AskedIncludes(requests[1..], r, want);
    }
  }

  /** From the text of a database's line to the samples: the counts of keys and of
      expiring keys are sent under the name of the database. */
  lemma {:induction false} DatabaseIsReported(cfg: InfoConfig, s: State, lines: seq<Line>, order: seq<string>,
                                              dbCount: nat, h: nat, i: nat, key: string, pieces: Pieces)
    requires CoversInfo(s.descriptions) && Run(s, InfoRequests(cfg, lines, order, dbCount)).Some?
    requires h < i < |lines| && lines[h] == Header("Keyspace") && forall j | h < j < i :: !lines[j].Header?
    requires lines[i] == Field(key, Text(pieces))
    requires HasPrefix(key, "db") && 2 <= |pieces| <= 4 && AreSeparate(pieces)
    requires forall j | 0 <= j < |pieces| :: cfg.floats(pieces[j].1).Some?
    ensures var sent := Run(s, InfoRequests(cfg, lines, order, dbCount)).value.sent;
            var keys := Register("db_keys", cfg.floats(pieces[0].1).value, Gauge, [key]);
            var expiring := Register("db_keys_expiring", cfg.floats(pieces[1].1).value, Gauge, [key]);
            keys in Answered(sent, (x: Request) => x == keys) && expiring in Answered(sent, (x: Request) => x == expiring)
  {
    HeaderHolds(lines, h, i);
    SectionNames();
    KeyspaceText(cfg, HostAt(lines, i + 1), PortAt(lines, i + 1), key, pieces);
    var keys := Register("db_keys", cfg.floats(pieces[0].1).value, Gauge, [key]);
    var expiring := Register("db_keys_expiring", cfg.floats(pieces[1].1).value, Gauge, [key]);
    LineIsSent(cfg, s, lines, order, dbCount, i, keys);
    LineIsSent(cfg, s, lines, order, dbCount, i, expiring);
  }

  /** A numbered database without such a line is reported with two zeros if empty
      databases are wanted, and not at all if they are not. */
  lemma {:induction false} EmptyDatabase(cfg: InfoConfig, lines: seq<Line>, n: nat, i: nat)
    requires i < n && !IsHandled(cfg, lines, |lines|, "db" + Itoa(i))
    ensures !cfg.emptyDatabases ==> EmptyDbRequests(cfg, lines, n) == []
    ensures cfg.emptyDatabases ==>
              && Register("db_keys", 0.0, Gauge, ["db" + Itoa(i)]) in EmptyDbRequests(cfg, lines, n)
              && Register("db_keys_expiring", 0.0, Gauge, ["db" + Itoa(i)]) in EmptyDbRequests(cfg, lines, n)
  {
    if i == n - 1 {
      var last := [Register("db_keys", 0.0, Gauge, ["db" + Itoa(i)]),
                   Register("db_keys_expiring", 0.0, Gauge, ["db" + Itoa(i)])];
      assert last[0] in last && last[1] in last;
      assert cfg.emptyDatabases ==> EmptyDbRequests(cfg, lines, n) == EmptyDbRequests(cfg, lines, i) + last;
    } else {
      EmptyDatabase(cfg, lines, n - 1, i);
    }
  }

  // ----- Commandstats -----

  function CommandSamples(cmd: string, calls: real, usec: real): seq<Request> {
    [Create("commands_total", ["cmd"]), Create("commands_duration_seconds_total", ["cmd"]),
     Register("commands_total", calls, Counter, [cmd]),
     Register("commands_duration_seconds_total", usec / 1000000.0, Counter, [cmd])]
  }

  function FailureSamples(cmd: string, rejected: real, failed: real): seq<Request> {
    [Create("commands_rejected_calls_total", ["cmd"]), Create("commands_failed_calls_total", ["cmd"]),
     Register("commands_rejected_calls_total", rejected, Counter, [cmd]),
     Register("commands_failed_calls_total", failed, Counter, [cmd])]
  }

  /** The pieces of a Commandstats line that have to be numbers: the first two, and
      the fourth and fifth if there are five. */
  predicate AreStats(floats: Floats, pieces: Pieces) {
    && |pieces| >= 3 && floats(pieces[0].1).Some? && floats(pieces[1].1).Some?
    && (|pieces| >= 5 ==> floats(pieces[3].1).Some? && floats(pieces[4].1).Some?)
  }

  /** cmdstat_get:calls=a,usec=b,usec_per_call=c with perhaps rejected_calls=d,failed_calls=e. */
  lemma {:induction false} CommandText(cfg: InfoConfig, host: string, port: string, cmd: string, pieces: Pieces)
    requires pieces != [] && AreSeparate(pieces)
    ensures var requests := FieldRequests(cfg, Commandstats, host, port, "cmdstat_" + cmd, Text(pieces));
            if !AreStats(cfg.floats, pieces) then requests == []
            else if |pieces| < 5 then
              requests == CommandSamples(cmd, cfg.floats(pieces[0].1).value, cfg.floats(pieces[1].1).value)
            else
              requests == CommandSamples(cmd, cfg.floats(pieces[0].1).value, cfg.floats(pieces[1].1).value)
                          + FailureSamples(cmd, cfg.floats(pieces[3].1).value, cfg.floats(pieces[4].1).value)
  {
    Numbers(cfg.floats, pieces);
    assert ("cmdstat_" + cmd)[8..] == cmd;
  }

  /** The count and the sum that go into the summary of the command. */
  lemma {:induction false} StatsText(floats: Floats, cmd: string, pieces: Pieces)
    requires pieces != [] && AreSeparate(pieces) && AreStats(floats, pieces)
    ensures var stats := CommandStatsOf(floats, "cmdstat_" + cmd, Text(pieces));
            && stats.cmd == cmd
            && stats.calls == floats(pieces[0].1).value && stats.usec == floats(pieces[1].1).value
  {
    Numbers(floats, pieces);
    assert ("cmdstat_" + cmd)[8..] == cmd;
  }

  // ----- Latencystats -----

  /** p50=x: a letter and the percentile before the `=`, both of them numbers. */
  predicate ArePercentiles(floats: Floats, pieces: Pieces) {
    forall i | 0 <= i < |pieces| ::
      pieces[i].0 != "" && floats(pieces[i].0[1..]).Some? && floats(pieces[i].1).Some?
  }

  function PercentileOf(floats: Floats, piece: (string, string)): real {
    if piece.0 == "" then 0.0 else floats(piece.0[1..]).GetOr(0.0)
  }

  predicate Named(floats: Floats, pieces: Pieces, p: real) {
    exists i | 0 <= i < |pieces| :: PercentileOf(floats, pieces[i]) == p
  }

  /** Every percentile named is in the table with the last value given for it. */
  ghost predicate Tabulates(floats: Floats, pieces: Pieces, table: map<real, real>) {
    && (forall p :: p in table <==> Named(floats, pieces, p))
    && forall i | 0 <= i < |pieces| && (forall j | i < j < |pieces| ::
                                          PercentileOf(floats, pieces[j]) != PercentileOf(floats, pieces[i])) ::
         PercentileOf(floats, pieces[i]) in table
         && table[PercentileOf(floats, pieces[i])] == floats(pieces[i].1).GetOr(0.0)
  }

  lemma {:induction false} ReadTable(floats: Floats, pieces: Pieces, done: Pieces, table: map<real, real>)
    requires AreSeparate(done + pieces) && ArePercentiles(floats, done + pieces) && Tabulates(floats, done, table)
    ensures var r := ReadPercentiles(floats, PieceTexts(pieces), table);
            r.Accepted? && Tabulates(floats, done + pieces, r.table)
    decreases |pieces|
  {
    if pieces == [] {
      assert done + pieces == done;
    } else {
      var first := pieces[0];
      assert first == (done + pieces)[|done|];
      PieceParts(first.0, first.1);
      var p, v := floats(first.0[1..]).value, floats(first.1).value;
      assert PieceTexts(pieces)[0] == first.0 + "=" + first.1;
      assert PieceTexts(pieces)[1..] == PieceTexts(pieces[1..]);
      assert done + [first] + pieces[1..] == done + pieces;
      OneMorePercentile(floats, done, first, table, p, v);
      ReadTable(floats, pieces[1..], done + [first], table[p := v]);
    }
  }

  lemma {:induction false} NamedSnoc(floats: Floats, done: Pieces, piece: (string, string), q: real)
    ensures Named(floats, done + [piece], q) <==> Named(floats, done, q) || PercentileOf(floats, piece) == q
  {
    var all := done + [piece];
    assert PercentileOf(floats, all[|done|]) == PercentileOf(floats, piece);
    assert forall i | 0 <= i < |done| :: PercentileOf(floats, all[i]) == PercentileOf(floats, done[i]);
  }

  lemma {:induction false} OneMorePercentile(floats: Floats, done: Pieces, piece: (string, string),
                                             table: map<real, real>, p: real, v: real)
    requires Tabulates(floats, done, table)
    requires p == PercentileOf(floats, piece) && v == floats(piece.1).GetOr(0.0)
    ensures Tabulates(floats, done + [piece], table[p := v])
  {
    var all := done + [piece];
    forall q ensures q in table[p := v] <==> Named(floats, all, q) {
      NamedSnoc(floats, done, piece, q);
    }
    forall i | 0 <= i < |all| && forall j | i < j < |all| :: PercentileOf(floats, all[j]) != PercentileOf(floats, all[i])
      ensures PercentileOf(floats, all[i]) in table[p := v]
              && table[p := v][PercentileOf(floats, all[i])] == floats(all[i].1).GetOr(0.0)
    {
      if i < |done| {
        assert PercentileOf(floats, all[|done|]) != PercentileOf(floats, all[i]);
        assert forall j | i < j < |done| :: PercentileOf(floats, done[j]) == PercentileOf(floats, all[j]);
        assert all[i] == done[i];
      }
    }
  }

  /** latency_percentiles_usec_get:p50=x,p99=y */
  lemma {:induction false} LatencyText(floats: Floats, cmd: string, pieces: Pieces)
    requires pieces != [] && AreSeparate(pieces) && ArePercentiles(floats, pieces)
    ensures var key := "latency_percentiles_usec_" + cmd;
            && TrimPrefix(key, LATENCY_PREFIX) == cmd
            && LatencyOf(floats, key, Text(pieces)).Accepted?
            && Tabulates(floats, pieces, LatencyOf(floats, key, Text(pieces)).table)
  {
    var key := "latency_percentiles_usec_" + cmd;
    LatencyKey(cmd, key);
    TextParts(pieces);
    assert [] + pieces == pieces;
    ReadTable(floats, pieces, [], map[]);
  }

  lemma {:induction false} LatencyKey(cmd: string, key: string)
    requires key == "latency_percentiles_usec_" + cmd
    ensures HasPrefix(key, LATENCY_PREFIX) && TrimPrefix(key, LATENCY_PREFIX) == cmd
  {
    assert key[..25] == LATENCY_PREFIX && key[25..] == cmd;
  }

  // ----- Errorstats -----

  /** errorstat_NOAUTH:count=3 */
  lemma {:induction false} ErrorText(cfg: InfoConfig, host: string, port: string, kind: string, name: string, text: string)
    requires '=' !in name && '=' !in text
    ensures FieldRequests(cfg, Errorstats, host, port, "errorstat_" + kind, name + "=" + text) ==
            match cfg.floats(text)
            case None => []
            case Some(count) => [Register("errors_total", count, Counter, [kind])]
  {
    PieceParts(name, text);
    assert ("errorstat_" + kind)[10..] == kind;
  }
}
