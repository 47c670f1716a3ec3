/** The key-related part of a scrape: checked keys, key counts, streams, the slow
    log and key groups, one after the other on the same connection. */
module Scrape {
  import opened Redis
  import opened Metrics
  import opened KeyArgs
  import opened KeyMetrics
  import opened PipelinedKeys
  import opened PipelineProofs
  import opened Scanning
  import opened Collectors
  import opened Streams
  import opened SlowLog
  import opened GroupScript
  import opened KeyGroups
  import opened Wrappers

  datatype ScrapeConfig = ScrapeConfig(opts: Options, check: CheckConfig, countKeys: string,
                                       streams: StreamConfig, groups: GroupConfig)

  /** The scans that the collectors before the slow log may start all end. */
  ghost predicate KeyScansEnd(server: Server, cfg: ScrapeConfig) {
    && PatternsEnd(server, cfg.check.batchSize, Parse(cfg.check.checkKeys).keys)
    && CountsEnd(server, cfg.check.batchSize, Parse(cfg.countKeys).keys)
    && PatternsEnd(server, cfg.streams.batchSize, Parse(cfg.streams.checkStreams).keys)
  }

  /** The pipelined path runs clean on the keys to be checked. */
  ghost predicate ChecksClean(server: Server, cfg: ScrapeConfig) {
    ArgsParse(cfg.check) ==> Clean(server, CheckedKeys(server, cfg.check, false))
  }

  ghost function CheckSpec(server: Server, cfg: ScrapeConfig): multiset<Metric> {
    if ArgsParse(cfg.check) then Spec(server, cfg.opts, CheckedKeys(server, cfg.check, false)) else multiset{}
  }

  ghost function CountsSpec(server: Server, cfg: ScrapeConfig, stale: bool): seq<Metric> {
    if Parse(cfg.countKeys).error.Some? then []
    else CountSpec(server, cfg.check.batchSize, Surviving(Parse(cfg.countKeys).keys, stale))
  }

  ghost function StreamsSpec(server: Server, cfg: ScrapeConfig, stale: bool): seq<Metric> {
    if !StreamArgsParse(cfg.streams) then []
    else
      var asked := AskedStreams(server, cfg.streams, stale);
      StreamSpec(server, cfg.streams, BeforePanic(server, cfg.streams, asked))
  }

  /** A malformed stream reply ends the scrape, and the exporter. */
  ghost predicate StreamsPanic(server: Server, cfg: ScrapeConfig, stale: bool) {
    StreamArgsParse(cfg.streams) && AnyPanics(server, cfg.streams, AskedStreams(server, cfg.streams, stale))
  }

  predicate StaleAtStreams(cfg: ScrapeConfig, stale: bool) {
    stale && !AsksCounts(cfg.countKeys)
  }

  predicate StaleAtSlowLog(cfg: ScrapeConfig, stale: bool) {
    StaleAtStreams(cfg, stale) && !AsksStreams(cfg.streams)
  }

  ghost predicate ScrapePanics(server: Server, cfg: ScrapeConfig, stale: bool) {
    StreamsPanic(server, cfg, StaleAtStreams(cfg, stale)) || SlowLogPanics(server)
  }

  /** The slow log and the key groups: the latter never meet a stale error. */
  ghost function LastSpec(server: Server, cfg: ScrapeConfig, find: Finder, dbCount: nat, stale: bool): multiset<Metric> {
    multiset(SlowLogSpec(server, StaleAtSlowLog(cfg, stale)))
    + if SlowLogPanics(server) then multiset{} else AllDbsMetrics(server, find, cfg.groups, dbCount, false)
  }

  /** The samples of the collectors after the checked keys, in a connection with or
      without a stale error.  The error costs the first of them that runs a command:
      one pair, one expansion or the length of the slow log; the others lose nothing. */
  ghost function LaterSpec(server: Server, cfg: ScrapeConfig, find: Finder, dbCount: nat, stale: bool): multiset<Metric> {
    multiset(CountsSpec(server, cfg, stale)) + multiset(StreamsSpec(server, cfg, StaleAtStreams(cfg, stale)))
    + if StreamsPanic(server, cfg, StaleAtStreams(cfg, stale)) then multiset{}
      else LastSpec(server, cfg, find, dbCount, stale)
  }

  /** The samples of a whole scrape whose checks run clean.  Every one of them is
      read off the answers the server gives in the database named by the sample's
      own label: nothing here depends on what the connection has selected. */
  ghost function ScrapeSpec(server: Server, cfg: ScrapeConfig, find: Finder, dbCount: nat): multiset<Metric> {
    CheckSpec(server, cfg) + LaterSpec(server, cfg, find, dbCount, false)
  }

  lemma {:induction false} AddUp<T>(checked: seq<T>, counts: seq<T>, streams: seq<T>, last: multiset<T>)
    ensures multiset(checked + counts + streams) + last
         == multiset(checked) + (multiset(counts) + multiset(streams) + last)
  {
  }

  /** What the checked keys leave: a log, and perhaps a stale error. */
  ghost predicate AreChecks(server: Server, cfg: ScrapeConfig, db: string, sent: seq<Metric>, order: seq<string>,
                            checked: seq<Metric>, stale: bool)
  {
    if !ArgsParse(cfg.check) then checked == sent && !stale
    else
      var end := PipelinedRun(server, cfg.opts, cfg.check, db, sent, order);
      && IsTraversal(order, CheckedKeys(server, cfg.check, false))
      && checked == end.sent && stale == HasError(end.unread)
  }

  /** The collectors before the slow log. */
  method CollectKeys(conn: Conn, ch: Channel, cfg: ScrapeConfig)
    returns (panicked: bool, ghost order: seq<string>, ghost checked: seq<Metric>, ghost stale: bool)
    requires conn.InSync() && KeyScansEnd(conn.server, cfg) && !cfg.check.isCluster
    modifies conn, ch
    ensures conn.buffered == []
    ensures AreChecks(conn.server, cfg, old(conn.db), old(ch.sent), order, checked, stale)
    ensures ChecksClean(conn.server, cfg) ==>
              !stale && multiset(checked) == multiset(old(ch.sent)) + CheckSpec(conn.server, cfg)
    ensures panicked == StreamsPanic(conn.server, cfg, StaleAtStreams(cfg, stale))
    ensures conn.Poisoned() == StaleAtSlowLog(cfg, stale)
    ensures ch.sent == checked + CountsSpec(conn.server, cfg, stale)
                       + StreamsSpec(conn.server, cfg, StaleAtStreams(cfg, stale))
  {
    var failed;
    failed, order := ExtractCheckKeyMetrics(conn, ch, cfg.opts, cfg.check);
    checked, stale := ch.sent, conn.Poisoned();
    ExtractCountKeysMetrics(conn, ch, cfg.check.batchSize, cfg.countKeys);
    panicked := ExtractStreamMetrics(conn, ch, cfg.streams);
  }

  function Duration(milliseconds: int): multiset<Metric> {
    multiset{Metric("last_key_groups_scrape_duration_milliseconds", milliseconds as real, [])}
  }

  /** The slow log and the key groups, on whatever connection is left to them. */
  method CollectLast(conn: Conn, ch: Channel, cfg: ScrapeConfig, dbCount: nat, milliseconds: int, ghost find: Finder,
                     ghost stale: bool)
    returns (panicked: bool)
    requires conn.buffered == [] && conn.Poisoned() == StaleAtSlowLog(cfg, stale)
    requires GroupScansEnd(conn.server, cfg.groups, dbCount) && RunsScript(conn.server, find)
    modifies conn, ch
    ensures conn.buffered == []
    ensures panicked == SlowLogPanics(conn.server)
    ensures multiset(ch.sent) == multiset(old(ch.sent)) + LastSpec(conn.server, cfg, find, dbCount, stale)
                                 + if panicked then multiset{} else Duration(milliseconds)
  {
    ghost var groups := if SlowLogPanics(conn.server) then multiset{}
                        else AllDbsMetrics(conn.server, find, cfg.groups, dbCount, false);
    SentAppend(ch.sent, SlowLogSpec(conn.server, conn.Poisoned()), groups);
    panicked := ExtractSlowLog(conn, ch);
    if !panicked {
      ExtractKeyGroupMetrics(conn, ch, cfg.groups, dbCount, milliseconds, find);
    }
  }

  /** The key collectors of scrapeRedisHost, outside cluster mode, on a connection
      in sync with any database selected.  Whatever happens to the checked keys,
      all later samples are those of the databases they name, but for what one
      stale error costs; if the checks run clean, nothing is lost at all. */
  method ScrapeKeys(conn: Conn, ch: Channel, cfg: ScrapeConfig, dbCount: nat, milliseconds: int, ghost find: Finder)
    returns (panicked: bool, ghost order: seq<string>, ghost checked: seq<Metric>, ghost stale: bool)
    requires conn.InSync() && KeyScansEnd(conn.server, cfg) && !cfg.check.isCluster
    requires GroupScansEnd(conn.server, cfg.groups, dbCount) && RunsScript(conn.server, find)
    modifies conn, ch
    ensures conn.buffered == []
    ensures AreChecks(conn.server, cfg, old(conn.db), old(ch.sent), order, checked, stale)
    ensures panicked == ScrapePanics(conn.server, cfg, stale)
    ensures multiset(ch.sent) == multiset(checked) + LaterSpec(conn.server, cfg, find, dbCount, stale)
                                 + if panicked then multiset{} else Duration(milliseconds)
    ensures ChecksClean(conn.server, cfg) ==>
              !stale && multiset(ch.sent) == multiset(old(ch.sent)) + ScrapeSpec(conn.server, cfg, find, dbCount)
                                             + if panicked then multiset{} else Duration(milliseconds)
  {
    panicked, order, checked, stale := CollectKeys(conn, ch, cfg);
    ghost var last := multiset{};
    if !panicked {
      panicked := CollectLast(conn, ch, cfg, dbCount, milliseconds, find, stale);
      last := LastSpec(conn.server, cfg, find, dbCount, stale);
    }
    AddUp(checked, CountsSpec(conn.server, cfg, stale), StreamsSpec(conn.server, cfg, StaleAtStreams(cfg, stale)), last);
    if ChecksClean(conn.server, cfg) {
      RegroupBags(multiset(old(ch.sent)), CheckSpec(conn.server, cfg), LaterSpec(conn.server, cfg, find, dbCount, false));
    }
  }
}
