/** One input for every failure that the exact conditions elsewhere allow: here
    are texts, keys and clients on which the exporter does not do what a reader
    would expect.  KeyFailures and PipelineFailures do the same for the key
    collectors and the pipelined path. */
module KnownFailures {
  import opened Wrappers
  import opened GoStrings
  import opened Redis
  import opened Registry
  import opened InfoFields
  import opened Info
  import opened InfoProofs
  import opened Latency
  import opened Clients
  import opened ClientProofs
  import opened GroupTotals
  import opened Ranking
  import opened GroupScript
  import opened GroupProofs

  // ----- INFO -----

  /** A percentile without a name: "=1" makes the slice of its first byte panic. */
  lemma {:induction false} EmptyPercentileCrashes(cfg: InfoConfig)
    ensures var lines := [Header("Latencystats"), Field("latency_percentiles_usec_get", "=1")];
            CrashesAt(cfg, lines, 1) && !SafeBefore(cfg, lines, 2)
  {
    var lines := [Header("Latencystats"), Field("latency_percentiles_usec_get", "=1")];
    assert SectionAt(lines, 1) == Latencystats;
    SplitWithoutSeparator("=1", ',');
    SplitWithoutSeparator("1", '=');
    assert "=1"[1..] == "1";
    assert Split("=1", '=') == ["", "1"];
    assert ExtractPercentileVal(cfg.floats, "=1").Crash?;
  }

  /** A replication field whose name only starts like a described one. */
  lemma {:induction false} InexactFieldPanics(cfg: InfoConfig, s: State, order: seq<string>, dbCount: nat)
    requires CoversInfo(s.descriptions) && "slave_repl_offset_old" !in s.descriptions
    ensures Run(s, InfoRequests(cfg, [Header("Replication"), Field("slave_repl_offset_old", "1")], order, dbCount)).None?
  {
    var lines := [Header("Replication"), Field("slave_repl_offset_old", "1")];
    assert SectionAt(lines, 1) == Replication;
    assert RequestsBefore(cfg, lines, 0) == [];
    assert RequestsBefore(cfg, lines, 1) == [];
    OldOffsetIsInexact("slave_repl_offset_old");
    assert IsUndescribed(cfg, s.descriptions, lines, 1);
    InfoPanicsExactly(cfg, s, lines, order, dbCount);
  }

  lemma {:induction false} OldOffsetIsInexact(key: string)
    requires key == "slave_repl_offset_old"
    ensures !IsLinkStatus(key) && IsDirect(key) && !IsExact(key) && DirectName(key) == key
  {
    assert key[0] == 's' && key[..17] == "slave_repl_offset";
    assert key[|key| - 1] == 'd';
  }

  /** A Commandstats line that does not parse, after one that does: the command is
      summarised with no calls and no time. */
  lemma {:induction false} BrokenLineErasesStats(cfg: InfoConfig, order: seq<string>)
    requires cfg.floats("1") == Some(1.0) && cfg.floats("2") == Some(2.0) && cfg.floats("50") == Some(50.0)
    requires IsCommandOrder(cfg, ErasedLines(), order)
    ensures StatsBefore(cfg, ErasedLines(), 2, "get") == Some(CommandStats("get", 1.0, 2.0, 0.0, 0.0, false, true))
    ensures Summary("latency_percentiles_usec", cfg.toUint64(0.0), 0.0, map[50.0 := 2.0], ["get"])
            in AllSummaryRequests(cfg, ErasedLines(), order)
  {
    GoodValue(cfg.floats);
    BrokenValue(cfg.floats);
    PercentileValue(cfg.floats);
    LastStats(cfg, ErasedLines());
    SummariesAreTheJoin(cfg, ErasedLines(), order,
                        Summary("latency_percentiles_usec", cfg.toUint64(0.0), 0.0, map[50.0 := 2.0], ["get"]));
  }

  /** Two Commandstats lines and a Latencystats line. */
  lemma {:induction false} LastStats(cfg: InfoConfig, lines: seq<Line>)
    requires |lines| == 5 && lines[0] == Header("Commandstats") && lines[3] == Header("Latencystats")
    requires lines[1].Field? && CommandStatsOf(cfg.floats, lines[1].key, lines[1].value).cmd == "get"
    requires lines[2].Field? && CommandStatsOf(cfg.floats, lines[2].key, lines[2].value).cmd == "get"
    requires lines[4].Field? && LatencyOf(cfg.floats, lines[4].key, lines[4].value).Accepted?
    requires TrimPrefix(lines[4].key, LATENCY_PREFIX) == "get"
    ensures StatsBefore(cfg, lines, 2, "get") == Some(CommandStatsOf(cfg.floats, lines[1].key, lines[1].value))
    ensures StatsBefore(cfg, lines, 5, "get") == Some(CommandStatsOf(cfg.floats, lines[2].key, lines[2].value))
    ensures LatencyBefore(cfg, lines, 5, "get") == Some(LatencyOf(cfg.floats, lines[4].key, lines[4].value).table)
  {
    assert SectionAt(lines, 1) == SectionAt(lines, 2) == Commandstats;
    assert SectionAt(lines, 4) == Latencystats;
    assert StatsBefore(cfg, lines, 3, "get") == StatsBefore(cfg, lines, 4, "get");
  }

  function ErasedLines(): seq<Line> {
    [Header("Commandstats"), Field("cmdstat_get", "calls=1,usec=2,usec_per_call=2"), Field("cmdstat_get", "broken"),
     Header("Latencystats"), Field("latency_percentiles_usec_get", "p50=2")]
  }

  lemma {:induction false} CommandNames(stats: string, latency: string)
    requires stats == "cmdstat_get" && latency == "latency_percentiles_usec_get"
    ensures HasPrefix(stats, COMMAND_PREFIX) && TrimPrefix(stats, COMMAND_PREFIX) == "get"
    ensures HasPrefix(latency, LATENCY_PREFIX) && TrimPrefix(latency, LATENCY_PREFIX) == "get"
  {
    assert stats[..8] == "cmdstat_" && stats[8..] == "get";
    assert latency[..25] == "latency_percentiles_usec_" && latency[25..] == "get";
  }

  lemma {:induction false} OneEquals(floats: Floats, name: string, value: string)
    requires '=' !in name && '=' !in value
    ensures Split(name + "=" + value, '=') == [name, value]
    ensures ExtractVal(floats, name + "=" + value) == floats(value)
  {
    SplitAppend(name, value, '=');
    SplitWithoutSeparator(name, '=');
    SplitWithoutSeparator(value, '=');
  }

  lemma {:induction false} ThreePieces(a: string, b: string, c: string)
    requires ',' !in a && ',' !in b && ',' !in c
    ensures Split(a + [','] + (b + [','] + c), ',') == [a, b, c]
  {
    SplitWithoutSeparator(a, ',');
    SplitWithoutSeparator(b, ',');
    SplitWithoutSeparator(c, ',');
    SplitAppend(b, c, ',');
    SplitAppend(a, b + [','] + c, ',');
  }

  lemma {:induction false} StatsOfThree(floats: Floats, key: string, value: string, calls: string, usec: string,
                                        rest: string)
    requires HasPrefix(key, COMMAND_PREFIX) && TrimPrefix(key, COMMAND_PREFIX) == "get"
    requires Split(value, ',') == [calls, usec, rest]
    requires ExtractVal(floats, calls) == Some(1.0) && ExtractVal(floats, usec) == Some(2.0)
    ensures CommandStatsOf(floats, key, value) == CommandStats("get", 1.0, 2.0, 0.0, 0.0, false, true)
  {
  }

  lemma {:induction false} GoodPieces(value: string, calls: string, usec: string, rest: string)
    requires value == "calls=1,usec=2,usec_per_call=2"
    requires calls == "calls=1" && usec == "usec=2" && rest == "usec_per_call=2"
    ensures Split(value, ',') == [calls, usec, rest]
  {
    assert value == calls + [','] + (usec + [','] + rest);
    ThreePieces(calls, usec, rest);
  }

  lemma {:induction false} GoodNumbers(floats: Floats, calls: string, usec: string)
    requires calls == "calls=1" && usec == "usec=2"
    requires floats("1") == Some(1.0) && floats("2") == Some(2.0)
    ensures ExtractVal(floats, calls) == Some(1.0) && ExtractVal(floats, usec) == Some(2.0)
  {
    assert calls == "calls" + "=" + "1" && usec == "usec" + "=" + "2";
    OneEquals(floats, "calls", "1");
    OneEquals(floats, "usec", "2");
  }

  lemma {:induction false} GoodValue(floats: Floats)
    requires floats("1") == Some(1.0) && floats("2") == Some(2.0)
    ensures CommandStatsOf(floats, "cmdstat_get", "calls=1,usec=2,usec_per_call=2")
         == CommandStats("get", 1.0, 2.0, 0.0, 0.0, false, true)
  {
    CommandNames("cmdstat_get", "latency_percentiles_usec_get");
    GoodPieces("calls=1,usec=2,usec_per_call=2", "calls=1", "usec=2", "usec_per_call=2");
    GoodNumbers(floats, "calls=1", "usec=2");
    StatsOfThree(floats, "cmdstat_get", "calls=1,usec=2,usec_per_call=2", "calls=1", "usec=2", "usec_per_call=2");
  }

  lemma {:induction false} BrokenValue(floats: Floats)
    ensures CommandStatsOf(floats, "cmdstat_get", "broken") == CommandStats("get", 0.0, 0.0, 0.0, 0.0, false, false)
  {
    CommandNames("cmdstat_get", "latency_percentiles_usec_get");
    SplitWithoutSeparator("broken", ',');
  }

  lemma {:induction false} PercentileValue(floats: Floats)
    requires floats("50") == Some(50.0) && floats("2") == Some(2.0)
    ensures LatencyOf(floats, "latency_percentiles_usec_get", "p50=2") == Accepted(map[50.0 := 2.0])
  {
    CommandNames("cmdstat_get", "latency_percentiles_usec_get");
    SplitWithoutSeparator("p50=2", ',');
    OneEquals(floats, "p50", "2");
    assert "p50" + "=" + "2" == "p50=2" && "p50"[1..] == "50";
    assert ["p50=2"][1..] == [];
    assert map[][50.0 := 2.0] == map[50.0 := 2.0];
  }

  /** The time of getex is reported as time of get. */
  lemma {:induction false} GetIncludesGetex()
    ensures var lines := ["cmdstat_get:usec=5", "cmdstat_getex:usec=7"];
            OwnSum(lines, "get") == 5 && UsecSum(lines, "get") == 12
  {
    GetTotals("cmdstat_get:usec=5", "cmdstat_getex:usec=7");
  }

  lemma {:induction false} GetTotals(first: string, second: string)
    requires first == "cmdstat_get:usec=5" && second == "cmdstat_getex:usec=7"
    ensures OwnSum([first, second], "get") == 5 && UsecSum([first, second], "get") == 12
  {
    TwoLines(first, second, "get");
    GetLines(first, second);
  }

  lemma {:induction false} GetLines(first: string, second: string)
    requires first == "cmdstat_get:usec=5" && second == "cmdstat_getex:usec=7"
    ensures LineUsec(first, "get") == OwnLineUsec(first, "get") == 5
    ensures LineUsec(second, "get") == 7 && OwnLineUsec(second, "get") == 0
  {
    Spelled(first, second);
    ShortLine(first, "get", 5);
    ShortLine(second, "getex", 7);
    assert "getex"[..3] == "get" && |"getex"| != |"get"|;
  }

  lemma {:induction false} Spelled(first: string, second: string)
    requires first == "cmdstat_get:usec=5" && second == "cmdstat_getex:usec=7"
    ensures first == "cmdstat_" + ("get" + (":usec=" + Itoa(5)))
    ensures second == "cmdstat_" + ("getex" + (":usec=" + Itoa(7)))
  {
    assert Itoa(5) == "5" && Itoa(7) == "7";
  }

  lemma {:induction false} ShortLine(line: string, name: string, n: nat)
    requires name != "" && n <= MAX_UINT64 && forall i | 0 <= i < |name| :: IsNameChar(name[i])
    requires line == "cmdstat_" + (name + (":usec=" + Itoa(n)))
    ensures MatchLine(line) == Some(Latency.Match(name, Itoa(n))) && ParseUint(Itoa(n)) == Value(n)
  {
    assert ":usec=" + Itoa(n) == ":" + ("" + ("usec=" + (Itoa(n) + "")));
    LineText(line, name, "", n, "");
  }

  lemma {:induction false} TwoLines(first: string, second: string, cmd: string)
    ensures UsecSum([first, second], cmd) == LineUsec(first, cmd) + LineUsec(second, cmd)
    ensures OwnSum([first, second], cmd) == OwnLineUsec(first, cmd) + OwnLineUsec(second, cmd)
  {
    assert [second][1..] == [];
    assert UsecSum([second], cmd) == LineUsec(second, cmd) && OwnSum([second], cmd) == OwnLineUsec(second, cmd);
    assert [first, second][1..] == [second];
  }

  // ----- key groups -----

  /** A batch of two keys, of which the second expires before MEMORY USAGE. */
  function ExpiringServer(): Redis.Server {
    Redis.Server.Server((_: string) => Status("OK"),
                        (_: Command) => Nil,
                        (_: string, cmd: Command) =>
                          if cmd.Scan? then Arr([Bulk("0"), Arr([Bulk("first"), Bulk("expired")])])
                          else if cmd == MemoryUsage("first") then Int(100)
                          else Nil)
  }

  function NoMatches(): Finder {
    (_, _) => Find.NoMatch
  }

  lemma {:induction false} Unclassified(key: string)
    ensures Classify(NoMatches(), ["x"], key) == Some(UNCLASSIFIED)
  {
    assert ["x"][1..] == [] && Classify(NoMatches(), [], key) == Some(UNCLASSIFIED);
  }

  lemma {:induction false} TwoKeys(server: Redis.Server, cursor: int, count: int, next: Reply, a: string, b: string)
    requires server.Answer("0", Scan(cursor, None, count)) == Arr([next, Arr([Bulk(a), Bulk(b)])])
    ensures ScanBatch(server, "0", cursor, count) == Some(Batch(next, [a, b]))
  {
    var items := [Bulk(a), Bulk(b)];
    assert KeyNames([]) == Some([]) && [Bulk(b)][1..] == [];
    assert [b] + [] == [b] && KeyNames([Bulk(b)]) == Some([b]);
    assert items[1..] == [Bulk(b)];
    assert [a] + [b] == [a, b] && KeyNames(items) == Some([a, b]);
  }

  lemma {:induction false} TwoEntries(e: Entry, f: Entry)
    ensures MemoryTotal([e, f]) == e.usage + f.usage
    ensures forall name :: MemoryOf([e, f], name) ==
                           (if e.group == name then e.usage else 0) + if f.group == name then f.usage else 0
    ensures Names([e, f]) == {e.group, f.group}
  {
    assert [f][1..] == [] && MemoryTotal([f]) == f.usage;
    assert [e, f][1..] == [f];
    forall name ensures MemoryOf([f], name) == if f.group == name then f.usage else 0 {
      assert MemoryOf([f][1..], name) == 0;
    }
    assert [e, f][0] in [e, f] && [e, f][1] in [e, f];
  }

  /** It is booked with 200 bytes where the server reported 100. */
  lemma {:induction false} ExpiredKeyIsOverbooked()
    ensures var server := ExpiringServer();
            var booked := BatchBookings(server, NoMatches(), "0", ["x"], 0, 10);
            && booked == Some([Entry(UNCLASSIFIED, 100), Entry(UNCLASSIFIED, 100)])
            && MemoryTotal(booked.value) == 200
            && ReportedTotal(server, "0", BatchKeys(server, "0", 10, 0)) == 100
  {
    var server, e := ExpiringServer(), Entry(UNCLASSIFIED, 100);
    TwoKeys(server, 0, 10, Bulk("0"), "first", "expired");
    assert "expired" != "first" by {
      assert "expired"[0] != "first"[0];
    }
    assert server.Answer("0", MemoryUsage("expired")) == Nil && server.Answer("0", MemoryUsage("first")) == Int(100);
    assert ["first", "expired"][1..] == ["expired"] && ["expired"][1..] == [];
    TwoBookings(server, "first", "expired");
    TwoEntries(e, e);
  }

  lemma {:induction false} TwoBookings(server: Redis.Server, a: string, b: string)
    requires server.Answer("0", MemoryUsage(a)) == Int(100) && server.Answer("0", MemoryUsage(b)) == Nil
    ensures var e := Entry(UNCLASSIFIED, 100);
            Bookings(server, NoMatches(), "0", ["x"], [a, b], 0, []) == Some([e, e])
    ensures ReportedTotal(server, "0", [a, b]) == 100
  {
    var e := Entry(UNCLASSIFIED, 100);
    Unclassified(a);
    Unclassified(b);
    assert [b][1..] == [] && [a, b][1..] == [b];
    assert [] + [e] == [e] && [e] + [e] == [e, e];
    assert Bookings(server, NoMatches(), "0", ["x"], [b], 100, [e]) == Some([e, e]);
    assert ReportedTotal(server, "0", [b]) == 0;
  }

  /** Two classes, room for one, and the larger one is called overflow. */
  lemma {:induction false} OverflowLabelCollides()
    ensures var s := Series(WrappedSummary([Entry(OVERFLOW, 2), Entry("a", 1)]), 1);
            |s| == 2 && s[0].name == s[1].name
  {
    var entries := [Entry(OVERFLOW, 2), Entry("a", 1)];
    assert "a" != OVERFLOW by {
      assert |"a"| != |OVERFLOW|;
    }
    TwoEntries(entries[0], entries[1]);
    assert AheadOf(WrappedSummary(entries), OVERFLOW) == {} by {
      BeforeTotal(WrappedGroup(entries, OVERFLOW), WrappedGroup(entries, OVERFLOW));
    }
    ExportIsBounded(entries, 1);
  }

  // ----- clients -----

  /** A client with a user and an old server's silence about the protocol, then one
      without a user: the second one's protocol version is sent as its user. */
  lemma {:induction false} VersionIsSentAsUser(inclPort: bool)
    ensures var first, second := EMPTY.(id := "1", user := "alice"), EMPTY.(id := "2", resp := "3");
            var s := State(map[], []);
            var both := ClientRequests(first, inclPort)
                        + [Create(INFO, InfoLabels(second, inclPort)), InfoRequest(second, inclPort)];
            && Run(s, both).Some? && Run(s, both).value.sent != []
            && var sent := Run(s, both).value.sent;
               var last := sent[|sent| - 1];
               && last.request.Register? && |last.request.labels| == |last.labelNames| > 0
               && last.request.labels[|last.request.labels| - 1] == "3"
               && last.labelNames[|last.labelNames| - 1] == "user"
  {
    var first, second := EMPTY.(id := "1", user := "alice"), EMPTY.(id := "2", resp := "3");
    var s := State(map[], []);
    var created := [Create(INFO, InfoLabels(second, inclPort))];
    ClientNeverPanics(s, first, inclPort);
    RunAppend(s, ClientRequests(first, inclPort), created);
    assert Run(Run(s, ClientRequests(first, inclPort)).value, created).Some? by {
      assert created[1..] == [];
    }
    var before := ClientRequests(first, inclPort) + created;
    var common := ["id", "name", "flags", "db", "host"] + (if inclPort then ["port"] else []);
    LabelsOf(first, inclPort, common);
    LabelsOf(second, inclPort, common);
    FirstClientFixesTheShape(s, first, created, second, inclPort);
    RunAppend(s, before, [InfoRequest(second, inclPort)]);
    assert [InfoRequest(second, inclPort)][1..] == [];
    assert before + [InfoRequest(second, inclPort)] ==
           ClientRequests(first, inclPort) + [Create(INFO, InfoLabels(second, inclPort)), InfoRequest(second, inclPort)];
  }
}
