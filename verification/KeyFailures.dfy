/** Inputs on which the key collectors do not keep what a reader would expect of
    them: a sample that depends on another database, and a stream that panics. */
module KeyFailures {
  import opened Wrappers
  import opened GoStrings
  import opened Redis
  import opened Metrics
  import opened KeyArgs
  import opened KeyMetrics
  import opened PipelinedKeys
  import opened PipelineProofs
  import opened PipelineFailures
  import opened KeyReplies
  import opened Collectors
  import opened Streams
  import opened GroupScript
  import opened SlowLog
  import opened Scrape
  import opened Isolation

  // ----- a stale error -----

  /** Nothing in database 0, and one key of database 1 asked about: it is either
      absent or, on the broken server, answered with errors. */
  function LeakyServer(broken: bool): Server {
    Server.Server((_: string) => Status("OK"),
                  (_: Command) => Nil,
                  (db: string, cmd: Command) =>
                    if db == "1" then if broken then Err("broken") else if cmd.Type? then Status("none") else Nil
                    else if cmd.Scan? then Arr([Bulk(Itoa(0)), Arr([])]) else Nil)
  }

  /** That key is checked, and the keys matching x of database 0 are counted. */
  predicate IsLeaky(cfg: ScrapeConfig) {
    && cfg.check == CheckConfig("", "db1=k", 10, false) && cfg.countKeys == "db0=x"
    && cfg.streams.checkStreams == cfg.streams.checkSingleStreams == ""
  }

  /** The samples about database 0 of two servers that answer alike in database 0, and
      select the same databases, differ by one: on the broken server the checked key of
      database 1 leaves an error unread, which costs the count in database 0. */
  lemma {:induction false} StaleErrorCrossesDatabases(cfg: ScrapeConfig, find: Finder, dbCount: nat,
                                                      dbA: string, orderA: seq<string>, checkedA: seq<Metric>,
                                                      staleA: bool, dbB: string, orderB: seq<string>,
                                                      checkedB: seq<Metric>, staleB: bool)
    requires IsLeaky(cfg)
    requires AreChecks(LeakyServer(true), cfg, dbA, [], orderA, checkedA, staleA)
    requires AreChecks(LeakyServer(false), cfg, dbB, [], orderB, checkedB, staleB)
    ensures AgreeOn(LeakyServer(true), LeakyServer(false), "0")
    ensures var lost := Metric("keys_count", 0.0, [Label("0"), "x"]);
            && staleA && !staleB && IsAbout(lost, "0")
            && LaterSpec(LeakyServer(false), cfg, find, dbCount, staleB)[lost]
               == LaterSpec(LeakyServer(true), cfg, find, dbCount, staleA)[lost] + 1
  {
    ConfigParses(cfg);
    LeakyServersAgree();
    LeakyCheck(true, cfg, dbA, orderA, checkedA, staleA);
    LeakyCheck(false, cfg, dbB, orderB, checkedB, staleB);
    LeakyCount(cfg, find, dbCount, Metric("keys_count", 0.0, [Label("0"), "x"]));
  }

  lemma {:induction false} LeakyServersAgree()
    ensures AgreeOn(LeakyServer(true), LeakyServer(false), "0")
  {
    LeakyAnswers(true);
    LeakyAnswers(false);
  }

  lemma {:induction false} LeakyCount(cfg: ScrapeConfig, find: Finder, dbCount: nat, lost: Metric)
    requires Parse(cfg.countKeys) == Parsed([DbKey("0", "x")], None) && cfg.check.batchSize == 10
    requires AsksNoStreams(cfg.streams) && lost == Metric("keys_count", 0.0, [Label("0"), "x"])
    ensures LaterSpec(LeakyServer(false), cfg, find, dbCount, false)[lost]
         == LaterSpec(LeakyServer(true), cfg, find, dbCount, true)[lost] + 1
  {
    LeakyAnswers(true);
    LeakyAnswers(false);
    LeakyServersAgree();
    CountIsLost(LeakyServer(true), LeakyServer(false), cfg, find, dbCount, DbKey("0", "x"), lost);
  }

  lemma {:induction false} OneDigitParses(arg: string, n: nat, key: string)
    requires n < 10 && |key| == 1 && IsUnreserved(key[0]) && arg == "db" + Itoa(n) + "=" + key
    ensures Parse(arg) == Parsed([DbKey(Itoa(n), key)], None)
  {
    ParseIntItoa(n);
    var p := DbKey(Itoa(n), key);
    assert key[1..] == "" && QueryEscape(key) == [key[0]] + "" == key;
    assert arg == PrintPair(p) == Join([PrintPair(p)], ',') && PrintPairs([p]) == [PrintPair(p)];
    RoundTrip([p]);
  }

  lemma {:induction false} ConfigParses(cfg: ScrapeConfig)
    requires IsLeaky(cfg)
    ensures Parse(cfg.check.checkKeys) == Parsed([], None)
    ensures Parse(cfg.check.checkSingleKeys) == Parsed([DbKey("1", "k")], None)
    ensures Parse(cfg.countKeys) == Parsed([DbKey("0", "x")], None)
    ensures AsksNoStreams(cfg.streams)
  {
    Digits01();
    OneDigitParses(cfg.check.checkSingleKeys, 1, "k");
    OneDigitParses(cfg.countKeys, 0, "x");
  }

  lemma {:induction false} Digits01()
    ensures Itoa(0) == "0" && Itoa(1) == "1"
    ensures "db" + Itoa(0) + "=" + "x" == "db0=x" && "db" + Itoa(1) + "=" + "k" == "db1=k"
  {
  }

  predicate AsksNoStreams(cfg: StreamConfig) {
    Parse(cfg.checkStreams) == Parse(cfg.checkSingleStreams) == Parsed([], None)
  }

  lemma {:induction false} LeakyAnswers(broken: bool)
    ensures var server := LeakyServer(broken);
            && (forall db :: server.select(db) == Status("OK"))
            && !SlowLogPanics(server)
            && (if broken then server.Answer("1", Type("k")).Err? && server.Answer("1", MemoryUsage("k")).Err?
                else server.Answer("1", Type("k")) == Status("none"))
            && server.Answer("0", Scan(0, Some("x"), 10)) == EmptyPage()
  {
    assert "1" != "0" by {
      assert "1"[0] != "0"[0];
    }
  }

  function EmptyPage(): Reply {
    Arr([Bulk(Itoa(0)), Arr([])])
  }

  lemma {:induction false} LoneRun(server: Server, opts: Options, cfg: CheckConfig, db: string, k: DbKey,
                                   order: seq<string>)
    requires Parse(cfg.checkKeys) == Parsed([], None) && Parse(cfg.checkSingleKeys) == Parsed([k], None)
    requires IsTraversal(order, CheckedKeys(server, cfg, false))
    ensures PipelinedRun(server, opts, cfg, db, [], order) == RunGroup(server, opts, Wire(db, [], []), k.db, [k.key])
    ensures CheckedKeys(server, cfg, false) == [k]
  {
    assert CheckedKeys(server, cfg, false) == [k] + [] == [k];
    assert k in [k] && Databases([k]) == {k.db};
    OnlyTraversal(order, k.db);
    OneGroup(server, opts, Wire(db, [], []), k);
  }

  lemma {:induction false} OneGroup(server: Server, opts: Options, wire: Wire, k: DbKey)
    ensures RunGroups(server, opts, wire, [k], [k.db]) == RunGroup(server, opts, wire, k.db, [k.key])
  {
    assert [k][1..] == [] && KeysOf([k], k.db) == [k.key] && [k.db][1..] == [];
  }

  /** A single key to be checked leaves a stale error where its TYPE fails and its
      MEMORY USAGE too, and none where its TYPE works. */
  lemma {:induction false} LoneCheck(server: Server, cfg: ScrapeConfig, db: string, k: DbKey, order: seq<string>,
                                     checked: seq<Metric>, stale: bool)
    requires Parse(cfg.check.checkKeys) == Parsed([], None) && Parse(cfg.check.checkSingleKeys) == Parsed([k], None)
    requires AreChecks(server, cfg, db, [], order, checked, stale) && SelectWorks(server, k.db)
    ensures TypeOf(server, k.db, k.key).Some? ==> !stale
    ensures TypeOf(server, k.db, k.key).None? && server.Answer(k.db, MemoryUsage(k.key)).Err? ==> stale
  {
    LoneRun(server, cfg.opts, cfg.check, db, k, order);
    var start := Wire(db, [], []);
    if TypeOf(server, k.db, k.key).Some? {
      CleanGroup(server, cfg.opts, start, k.db, [k.key]);
    } else {
      OneUnknownKey(server, cfg.opts, start, k.db, k.key);
    }
  }

  lemma {:induction false} LeakyCheck(broken: bool, cfg: ScrapeConfig, db: string, order: seq<string>,
                                      checked: seq<Metric>, stale: bool)
    requires Parse(cfg.check.checkKeys) == Parsed([], None)
    requires Parse(cfg.check.checkSingleKeys) == Parsed([DbKey("1", "k")], None)
    requires AreChecks(LeakyServer(broken), cfg, db, [], order, checked, stale)
    ensures stale == broken
  {
    LeakyAnswers(broken);
    LoneCheck(LeakyServer(broken), cfg, db, DbKey("1", "k"), order, checked, stale);
  }

  /** A count in an empty database, which a stale error costs. */
  lemma {:induction false} LoneCount(server: Server, cfg: ScrapeConfig, k: DbKey, stale: bool)
    requires Parse(cfg.countKeys) == Parsed([k], None) && k.key != "" && !server.select(k.db).Err?
    requires server.Answer(k.db, Scan(0, Some(k.key), cfg.check.batchSize)) == EmptyPage()
    ensures CountsSpec(server, cfg, stale) == if stale then [] else [Metric("keys_count", 0.0, [Label(k.db), k.key])]
  {
    CountIsTheNumberOfItems(server, k.db, k.key, cfg.check.batchSize, [0], [[]]);
    assert [k][1..] == [];
  }

  lemma {:induction false} CountIsLost(a: Server, b: Server, cfg: ScrapeConfig, find: Finder, dbCount: nat, k: DbKey,
                                       lost: Metric)
    requires AgreeOn(a, b, k.db) && lost == Metric("keys_count", 0.0, [Label(k.db), k.key])
    requires AsksNoStreams(cfg.streams) && !SlowLogPanics(a) && !SlowLogPanics(b)
    requires Parse(cfg.countKeys) == Parsed([k], None) && k.key != "" && !a.select(k.db).Err?
    requires a.Answer(k.db, Scan(0, Some(k.key), cfg.check.batchSize)) == EmptyPage()
    ensures LaterSpec(b, cfg, find, dbCount, false)[lost] == LaterSpec(a, cfg, find, dbCount, true)[lost] + 1
  {
    LoneCount(a, cfg, k, true);
    LoneCount(b, cfg, k, false);
    NoStreams(a, cfg, StaleAtStreams(cfg, true));
    NoStreams(b, cfg, false);
    LaterCount(a, cfg, find, dbCount, true, k.db, lost);
    LaterCount(b, cfg, find, dbCount, false, k.db, lost);
    GroupsAgree(a, b, find, cfg.groups, dbCount, false, k.db, lost);
  }

  lemma {:induction false} NoStreams(server: Server, cfg: ScrapeConfig, stale: bool)
    requires AsksNoStreams(cfg.streams)
    ensures !StreamsPanic(server, cfg, stale) && StreamsSpec(server, cfg, stale) == []
  {
    assert CheckedStreams(server, cfg.streams, stale) == [];
    assert AskedStreams(server, cfg.streams, stale) == [];
  }

  // ----- a stream -----

  /** A server whose XINFO STREAM answers with the given list. */
  function StreamServer(items: seq<Reply>): Server {
    Server.Server((_: string) => Status("OK"),
                  (_: Command) => Nil,
                  (_: string, cmd: Command) => if cmd.XInfoStream? then Arr(items) else Nil)
  }

  /** A pair whose value is the text of a marker panics; the marker alone is no list
      of pairs and does not. */
  lemma {:induction false} MarkerValuePanics(cfg: StreamConfig, k: DbKey)
    requires cfg.decode.stream([Bulk("name"), Bulk("first-entry")]).Some?
    ensures Panics(StreamServer([Bulk("name"), Bulk("first-entry")]), cfg, k)
    ensures !Panics(StreamServer([Bulk("first-entry")]), cfg, k)
  {
    PanicsExactly(StreamServer([Bulk("name"), Bulk("first-entry")]), cfg, k);
    PanicsExactly(StreamServer([Bulk("first-entry")]), cfg, k);
  }
}
