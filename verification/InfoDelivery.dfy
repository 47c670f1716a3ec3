/** What a scrape of INFO sends, as opposed to what it asks the registry for: with
    the exporter's description table, and without a panic, the database and latency
    results of InfoProofs are results about the samples themselves. */
module InfoDelivery {
  import opened Registry
  import opened InfoFields
  import opened Info
  import opened InfoProofs

  // ----- db_keys -----

  lemma {:induction false} CountIsAsked(requests: seq<Request>, db: string)
    ensures |Asked(requests, (r: Request) => IsDbKeys(r, db))| == DbKeysCount(requests, db)
  {
    if requests == [] {
    } else {
      CountIsAsked(requests[1..], db);
    }
  }

  /** With distinct keyspace lines, a scrape sends exactly one db_keys sample for
      every database the text lists and for db0 to db(dbCount - 1), and none for
      another. */
  lemma {:induction false} EveryDatabaseSentOnce(cfg: InfoConfig, s: State, lines: seq<Line>, order: seq<string>,
                                                 dbCount: nat, db: string)
    requires CoversInfo(s.descriptions) && cfg.emptyDatabases && DistinctDbLines(cfg, lines)
    requires Run(s, InfoRequests(cfg, lines, order, dbCount)).Some?
    ensures var want := (r: Request) => IsDbKeys(r, db);
            var after := Run(s, InfoRequests(cfg, lines, order, dbCount)).value;
            |Answered(after.sent, want)| ==
            |Answered(s.sent, want)| + if IsHandled(cfg, lines, |lines|, db) || IsNumberedDb(db, dbCount) then 1 else 0
  {
    var requests := InfoRequests(cfg, lines, order, dbCount);
    var want := (r: Request) => IsDbKeys(r, db);
    Delivered(s, s.descriptions, requests, want);
    CountIsAsked(requests, db);
    EveryDatabaseOnce(cfg, lines, order, dbCount, db);
  }

  // ----- latency summaries -----

  /** The join of the two sections for one command. */
  function SummaryOf(cfg: InfoConfig, lines: seq<Line>, cmd: string): Request
    requires IsJoined(cfg, lines, cmd)
  {
    var stats := StatsBefore(cfg, lines, |lines|, cmd).value;
    Summary("latency_percentiles_usec", cfg.toUint64(stats.calls), stats.usec,
            LatencyBefore(cfg, lines, |lines|, cmd).value, [cmd])
  }

  lemma {:induction false} JoinAsked(cfg: InfoConfig, lines: seq<Line>, own: string, cmd: string)
    ensures Asked(SummaryRequests(cfg, lines, own), (r: Request) => IsSummaryFor(r, cmd))
         == if own == cmd && IsJoined(cfg, lines, cmd) then [SummaryOf(cfg, lines, cmd)] else []
  {
    var want := (r: Request) => IsSummaryFor(r, cmd);
    var requests := SummaryRequests(cfg, lines, own);
    if IsJoined(cfg, lines, own) {
      var last := [SummaryOf(cfg, lines, own)];
      assert requests[1..] == last && last[1..] == [];
      assert want(last[0]) <==> own == cmd;
      assert Asked(last, want) == if own == cmd then last else [];
      assert !want(requests[0]) && Asked(requests, want) == Asked(last, want);
    }
  }

  lemma {:induction false} JoinsAsked(cfg: InfoConfig, lines: seq<Line>, order: seq<string>, cmd: string)
    requires forall i, j | 0 <= i < j < |order| :: order[i] != order[j]
    ensures Asked(AllSummaryRequests(cfg, lines, order), (r: Request) => IsSummaryFor(r, cmd))
         == if cmd in order && IsJoined(cfg, lines, cmd) then [SummaryOf(cfg, lines, cmd)] else []
    decreases |order|
  {
    if order == [] {
    } else {
      var front, last := order[..|order| - 1], order[|order| - 1];
      JoinsAsked(cfg, lines, front, cmd);
      JoinAsked(cfg, lines, last, cmd);
      AskedAppend(AllSummaryRequests(cfg, lines, front), SummaryRequests(cfg, lines, last),
                  (r: Request) => IsSummaryFor(r, cmd));
      assert order == front + [last];
    }
  }

  predicate NoSummaries(requests: seq<Request>) {
    forall r | r in requests :: !r.Summary?
  }

  lemma {:induction false} PlainAskForNoSummary(cfg: InfoConfig, key: string, value: string)
    ensures NoSummaries(GenericRequests(cfg, key, value)) && NoSummaries(ServerRequests(cfg, key, value))
    ensures NoSummaries(SentinelRequests(cfg, key, value)) && NoSummaries(ErrorRequests(cfg, key, value))
  {
  }

  lemma {:induction false} OthersAskForNoSummary(cfg: InfoConfig, host: string, port: string, key: string, value: string)
    ensures NoSummaries(ReplicationRequests(cfg, host, port, key, value).GetOr([]))
    ensures NoSummaries(CommandRequests(CommandStatsOf(cfg.floats, key, value)))
    ensures forall stats :: NoSummaries(DbRequests(key, stats))
  {
  }

  lemma {:induction false} FieldAsksForNoSummary(cfg: InfoConfig, section: Section, host: string, port: string,
                                                 key: string, value: string)
    ensures NoSummaries(FieldRequests(cfg, section, host, port, key, value))
  {
    PlainAskForNoSummary(cfg, key, value);
    OthersAskForNoSummary(cfg, host, port, key, value);
    var generic := GenericRequests(cfg, key, value);
    match section
    case Server => NoSummariesAppend(ServerRequests(cfg, key, value), generic);
    case Sentinel => NoSummariesAppend(SentinelRequests(cfg, key, value), generic);
    case _ =>
  }

  lemma {:induction false} NoSummariesAppend(a: seq<Request>, b: seq<Request>)
    requires NoSummaries(a) && NoSummaries(b)
    ensures NoSummaries(a + b)
  {
  }

  lemma {:induction false} FieldsAskForNoSummary(cfg: InfoConfig, lines: seq<Line>, n: nat)
    requires n <= |lines|
    ensures NoSummaries(RequestsBefore(cfg, lines, n))
  {
    if n == 0 {
    } else {
      var i := n - 1;
      FieldsAskForNoSummary(cfg, lines, i);
      if lines[i].Field? {
        FieldAsksForNoSummary(cfg, SectionAt(lines, i), HostAt(lines, i + 1), PortAt(lines, i + 1),
                              lines[i].key, lines[i].value);
      }
      NoSummariesAppend(RequestsBefore(cfg, lines, i), RequestsAt(cfg, lines, i));
    }
  }

  lemma {:induction false} EmptyDbsAskForNoSummary(cfg: InfoConfig, lines: seq<Line>, n: nat)
    ensures NoSummaries(EmptyDbRequests(cfg, lines, n))
  {
    if n == 0 {
    } else {
      EmptyDbsAskForNoSummary(cfg, lines, n - 1);
    }
  }

  lemma {:induction false} SummariesAsked(cfg: InfoConfig, lines: seq<Line>, order: seq<string>, dbCount: nat, cmd: string)
    requires IsCommandOrder(cfg, lines, order)
    ensures Asked(InfoRequests(cfg, lines, order, dbCount), (r: Request) => IsSummaryFor(r, cmd))
         == if IsJoined(cfg, lines, cmd) then [SummaryOf(cfg, lines, cmd)] else []
  {
    var want := (r: Request) => IsSummaryFor(r, cmd);
    var a, b := RequestsBefore(cfg, lines, |lines|), AllSummaryRequests(cfg, lines, order);
    var c, d := EmptyDbRequests(cfg, lines, dbCount), ClosingRequests(lines);
    AskedAppend(a + b + c, d, want);
    AskedAppend(a + b, c, want);
    AskedAppend(a, b, want);
    FieldsAskForNoSummary(cfg, lines, |lines|);
    EmptyDbsAskForNoSummary(cfg, lines, dbCount);
    NoneAsked(a, want);
    NoneAsked(c, want);
    ClosingAsksForNoSummary(lines);
    NoneAsked(d, want);
    JoinsAsked(cfg, lines, order, cmd);
  }

  lemma {:induction false} ClosingAsksForNoSummary(lines: seq<Line>)
    ensures NoSummaries(ClosingRequests(lines))
  {
  }

  /** A scrape sends one summary for every command with a readable Latencystats
      line and a Commandstats line, namely the join of the last of each, and none
      for another command. */
  lemma {:induction false} JoinIsSent(cfg: InfoConfig, s: State, lines: seq<Line>, order: seq<string>, dbCount: nat,
                                      cmd: string)
    requires CoversInfo(s.descriptions) && IsCommandOrder(cfg, lines, order)
    requires Run(s, InfoRequests(cfg, lines, order, dbCount)).Some?
    ensures var want := (r: Request) => IsSummaryFor(r, cmd);
            var after := Run(s, InfoRequests(cfg, lines, order, dbCount)).value;
            Answered(after.sent, want) ==
            Answered(s.sent, want) + if IsJoined(cfg, lines, cmd) then [SummaryOf(cfg, lines, cmd)] else []
  {
    var requests := InfoRequests(cfg, lines, order, dbCount);
    var want := (r: Request) => IsSummaryFor(r, cmd);
    SummariesAsked(cfg, lines, order, dbCount, cmd);
    AskedMembers(requests, want);
    Delivered(s, s.descriptions, requests, want);
  }

  lemma {:induction false} AskedMembers(requests: seq<Request>, want: Request -> bool)
    ensures forall r :: r in Asked(requests, want) <==> r in requests && want(r)
  {
    if requests == [] {
    } else {
      AskedMembers(requests[1..], want);
      assert forall r :: r in requests <==> r == requests[0] || r in requests[1..];
    }
  }
}
