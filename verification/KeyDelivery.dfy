/** The log of the key collectors is what Prometheus receives: with the exporter's
    description table no sample of theirs is dropped and no lookup panics. */
module KeyDelivery {
  import opened Wrappers
  import opened GoStrings
  import opened Redis
  import opened Metrics
  import opened KeyArgs
  import opened KeyMetrics
  import opened PipelinedKeys
  import opened Scanning
  import opened Collectors
  import opened Streams
  import opened SlowLog
  import opened GroupTotals
  import opened Ranking
  import opened GroupScript
  import opened KeyGroups
  import opened Registry
  import opened Scrape

  // ----- the description table, as far as the key collectors use it -----

  predicate CoversKeys(d: Descriptions) {
    && Has(d, "key_size", 2) && Has(d, "key_memory_usage_bytes", 2) && Has(d, "key_value", 2)
    && Has(d, "key_value_as_string", 3) && Has(d, "keys_count", 2)
  }

  predicate CoversGroups(d: Descriptions) {
    && Has(d, "key_group_count", 2) && Has(d, "key_group_memory_usage_bytes", 2)
    && Has(d, "number_of_distinct_key_groups", 1) && Has(d, "last_key_groups_scrape_duration_milliseconds", 0)
  }

  predicate CoversStreams(d: Descriptions) {
    && Has(d, "stream_length", 2) && Has(d, "stream_radix_tree_keys", 2) && Has(d, "stream_radix_tree_nodes", 2)
    && Has(d, "stream_last_generated_id", 2) && Has(d, "stream_groups", 2) && Has(d, "stream_max_deleted_entry_id", 2)
    && Has(d, "stream_first_entry_id", 2) && Has(d, "stream_last_entry_id", 2)
  }

  predicate CoversStreamGroups(d: Descriptions) {
    && Has(d, "stream_group_consumers", 3) && Has(d, "stream_group_messages_pending", 3)
    && Has(d, "stream_group_last_delivered_id", 3) && Has(d, "stream_group_entries_read", 3)
    && Has(d, "stream_group_lag", 3) && Has(d, "stream_group_consumer_messages_pending", 4)
    && Has(d, "stream_group_consumer_idle_seconds", 4)
  }

  predicate CoversSlowLog(d: Descriptions) {
    Has(d, "slowlog_length", 0) && Has(d, "slowlog_last_id", 0) && Has(d, "last_slow_execution_duration_seconds", 0)
  }

  predicate CoversAll(d: Descriptions) {
    CoversKeys(d) && CoversGroups(d) && CoversStreams(d) && CoversStreamGroups(d) && CoversSlowLog(d)
  }

  predicate AllFit(d: Descriptions, metrics: seq<Metric>) {
    forall m | m in metrics :: Fits(d, m)
  }

  predicate BagFits(d: Descriptions, metrics: multiset<Metric>) {
    forall m | m in metrics :: Fits(d, m)
  }

  lemma {:induction false} AllFitAppend(d: Descriptions, a: seq<Metric>, b: seq<Metric>)
    requires AllFit(d, a) && AllFit(d, b)
    ensures AllFit(d, a + b)
  {
  }

  // ----- checked keys, on any connection -----

  lemma {:induction false} SizeMetricsFit(d: Descriptions, opts: Options, dbLabel: string, key: string, kind: KeyMetrics.Kind,
                                          q: seq<Reply>)
    requires CoversKeys(d) && |q| >= |SizeCommands(kind, key)|
    ensures AllFit(d, SizeMetrics(opts, dbLabel, key, kind, q))
  {
    if kind == Text {
      assert AllFit(d, ValueMetrics(opts, dbLabel, key, AsString(q[2]).GetOr("")));
    }
  }

  lemma {:induction false} ReadTypesFits(d: Descriptions, dbLabel: string, keys: seq<string>, types: seq<string>,
                                         q: seq<Reply>, sent: seq<Metric>)
    requires CoversKeys(d) && AllFit(d, sent)
    requires |types| <= |keys| && |q| >= 2 * (|keys| - |types|)
    ensures AllFit(d, ReadTypes(dbLabel, keys, types, q, sent).sent)
    decreases |keys| - |types|
  {
    if |types| == |keys| {
    } else {
      if AsString(q[0]).None? {
        ReadTypesFits(d, dbLabel, keys, types + [""], q[1..], sent);
      } else {
        var memory := MemoryMetrics(dbLabel, keys[|types|], q[1]);
        AllFitAppend(d, sent, memory);
        ReadTypesFits(d, dbLabel, keys, types + [AsString(q[0]).value], q[2..], sent + memory);
      }
    }
  }

  lemma {:induction false} ReadSizesFits(d: Descriptions, opts: Options, dbLabel: string, keys: seq<string>,
                                         types: seq<string>, i: nat, q: seq<Reply>, sent: seq<Metric>)
    requires CoversKeys(d) && AllFit(d, sent)
    requires i <= |keys| == |types| && |q| >= |AllSizeCommands(keys, types, i)|
    ensures AllFit(d, ReadSizes(opts, dbLabel, keys, types, i, q, sent).sent)
    decreases |keys| - i
  {
    if i == |keys| {
    } else {
      var kind := KindOf(types[i]);
      var size := SizeMetrics(opts, dbLabel, keys[i], kind, q);
      SizeMetricsFit(d, opts, dbLabel, keys[i], kind, q);
      AllFitAppend(d, sent, size);
      ReadSizesFits(d, opts, dbLabel, keys, types, i + 1, q[|SizeCommands(kind, keys[i])|..], sent + size);
    }
  }

  lemma {:induction false} RunGroupFits(d: Descriptions, server: Server, opts: Options, wire: Wire, dbNum: string,
                                        keys: seq<string>)
    requires CoversKeys(d) && AllFit(d, wire.sent)
    ensures AllFit(d, RunGroup(server, opts, wire, dbNum, keys).sent)
  {
    var cmds := [Select(dbNum)] + TypeCommands(keys, 0);
    var q := wire.unread + Replies(server, wire.db, cmds);
    if AsString(q[0]).Some? {
      ReadTypesFits(d, Label(dbNum), keys, [], q[1..], wire.sent);
      var first := ReadTypes(Label(dbNum), keys, [], q[1..], wire.sent);
      var q2 := first.rest + Replies(server, DbAfterAll(server, wire.db, cmds), AllSizeCommands(keys, first.types, 0));
      ReadSizesFits(d, opts, Label(dbNum), keys, first.types, 0, q2, first.sent);
    }
  }

  lemma {:induction false} RunGroupsFit(d: Descriptions, server: Server, opts: Options, wire: Wire, pairs: seq<DbKey>,
                                        order: seq<string>)
    requires CoversKeys(d) && AllFit(d, wire.sent)
    ensures AllFit(d, RunGroups(server, opts, wire, pairs, order).sent)
    decreases |order|
  {
    if order == [] {
    } else {
      RunGroupFits(d, server, opts, wire, order[0], KeysOf(pairs, order[0]));
      RunGroupsFit(d, server, opts, RunGroup(server, opts, wire, order[0], KeysOf(pairs, order[0])), pairs, order[1..]);
    }
  }

  // ----- counts and streams -----

  lemma {:induction false} ForEachFits(d: Descriptions, one: DbKey -> seq<Metric>, keys: seq<DbKey>)
    requires forall k :: AllFit(d, one(k))
    ensures AllFit(d, ForEach(one, keys))
  {
    if keys == [] {
    } else {
      ForEachFits(d, one, keys[1..]);
      AllFitAppend(d, one(keys[0]), ForEach(one, keys[1..]));
    }
  }

  lemma {:induction false} CountsFit(d: Descriptions, server: Server, count: int, keys: seq<DbKey>)
    requires CoversKeys(d)
    ensures AllFit(d, CountSpec(server, count, keys))
  {
    ForEachFits(d, (k: DbKey) => CountOne(server, count, k), keys);
  }

  lemma {:induction false} ConsumersFit(d: Descriptions, labels: seq<string>, consumers: seq<Consumer>)
    requires CoversStreamGroups(d) && |labels| == 3
    ensures AllFit(d, ConsumerMetrics(labels, consumers))
  {
    if consumers == [] {
    } else {
      ConsumersFit(d, labels, consumers[1..]);
    }
  }

  lemma {:induction false} StreamGroupsFit(d: Descriptions, cfg: StreamConfig, labels: seq<string>, groups: Groups)
    requires CoversStreamGroups(d) && |labels| == 2
    ensures AllFit(d, Streams.GroupMetrics(cfg, labels, groups))
  {
    if groups == [] {
    } else {
      ConsumersFit(d, labels + [groups[0].0.name], groups[0].1);
      StreamGroupsFit(d, cfg, labels, groups[1..]);
    }
  }

  lemma {:induction false} StreamFits(d: Descriptions, cfg: StreamConfig, labels: seq<string>, s: Stream)
    requires CoversStreams(d) && |labels| == 2
    ensures AllFit(d, StreamMetrics(cfg, labels, s))
  {
  }

  lemma {:induction false} StreamOneFits(d: Descriptions, server: Server, cfg: StreamConfig, k: DbKey)
    requires CoversStreams(d) && CoversStreamGroups(d)
    ensures AllFit(d, StreamOne(server, cfg, k))
  {
    var info := StreamOf(server, cfg.decode, k.db, k.key);
    if info.Found? {
      var labels := [Label(k.db), k.key];
      StreamFits(d, cfg, labels, info.stream);
      StreamGroupsFit(d, cfg, labels, info.groups);
      AllFitAppend(d, StreamMetrics(cfg, labels, info.stream), Streams.GroupMetrics(cfg, labels, info.groups));
    }
  }

  lemma {:induction false} StreamsFit(d: Descriptions, server: Server, cfg: StreamConfig, keys: seq<DbKey>)
    requires CoversStreams(d) && CoversStreamGroups(d)
    ensures AllFit(d, StreamSpec(server, cfg, keys))
  {
    forall k ensures AllFit(d, StreamOne(server, cfg, k)) {
      StreamOneFits(d, server, cfg, k);
    }
    ForEachFits(d, (k: DbKey) => StreamOne(server, cfg, k), keys);
  }

  // ----- key groups -----

  lemma {:induction false} SeriesFit(d: Descriptions, dbLabel: string, s: seq<KeyGroup>)
    requires CoversGroups(d)
    ensures BagFits(d, SeriesMetrics(dbLabel, s))
  {
    if s == [] {
    } else {
      SeriesFit(d, dbLabel, s[1..]);
    }
  }

  lemma {:induction false} DbFits(d: Descriptions, server: Server, find: Finder, cfg: GroupConfig, db: nat)
    requires CoversGroups(d)
    ensures BagFits(d, DbMetrics(server, find, cfg, db))
  {
    var booked := Booked(server, find, Itoa(db), Patterns(cfg), cfg.batchSize);
    if booked.Some? {
      SeriesFit(d, Label(Itoa(db)), Series(WrappedSummary(booked.value), cfg.limit));
    }
  }

  lemma {:induction false} SumFits(d: Descriptions, one: nat -> multiset<Metric>, n: nat)
    requires forall db :: BagFits(d, one(db))
    ensures BagFits(d, SumTo(one, n))
  {
    if n == 0 {
    } else {
      SumFits(d, one, n - 1);
      assert BagFits(d, one(n - 1));
    }
  }

  lemma {:induction false} DbsFit(d: Descriptions, server: Server, find: Finder, cfg: GroupConfig, n: nat, stale: bool)
    requires CoversGroups(d)
    ensures BagFits(d, DbsMetrics(server, find, cfg, n, stale))
  {
    var one := PerDb(server, find, cfg, stale);
    forall db ensures BagFits(d, one(db)) {
      DbFits(d, server, find, cfg, db);
    }
    SumFits(d, one, n);
  }

  // ----- all of them -----

  lemma {:induction false} SlowLogFits(d: Descriptions, server: Server, stale: bool)
    requires CoversSlowLog(d)
    ensures AllFit(d, SlowLogSpec(server, stale))
  {
  }

  lemma {:induction false} LastSamplesFit(d: Descriptions, server: Server, cfg: ScrapeConfig, find: Finder, dbCount: nat,
                                          stale: bool)
    requires CoversAll(d)
    ensures BagFits(d, LastSpec(server, cfg, find, dbCount, stale))
  {
    SlowLogFits(d, server, StaleAtSlowLog(cfg, stale));
    DbsFit(d, server, find, cfg.groups, dbCount, false);
  }

  lemma {:induction false} LaterSamplesFit(d: Descriptions, server: Server, cfg: ScrapeConfig, find: Finder, dbCount: nat,
                                           stale: bool)
    requires CoversAll(d)
    ensures BagFits(d, LaterSpec(server, cfg, find, dbCount, stale))
  {
    var beforeStreams := StaleAtStreams(cfg, stale);
    CountsFit(d, server, cfg.check.batchSize, Surviving(Parse(cfg.countKeys).keys, stale));
    assert AllFit(d, CountsSpec(server, cfg, stale));
    if StreamArgsParse(cfg.streams) {
      StreamsFit(d, server, cfg.streams,
                 BeforePanic(server, cfg.streams, AskedStreams(server, cfg.streams, beforeStreams)));
    }
    assert AllFit(d, StreamsSpec(server, cfg, beforeStreams));
    LastSamplesFit(d, server, cfg, find, dbCount, stale);
  }

  lemma {:induction false} ChecksFit(d: Descriptions, server: Server, cfg: ScrapeConfig, db: string, order: seq<string>,
                                     checked: seq<Metric>, stale: bool)
    requires CoversKeys(d)
    requires AreChecks(server, cfg, db, [], order, checked, stale)
    ensures AllFit(d, checked)
  {
    if ArgsParse(cfg.check) {
      var start := Wire(DbAfterExpand(server, db, Parse(cfg.check.checkKeys).keys, false), [], []);
      RunGroupsFit(d, server, cfg.opts, start, CheckedKeys(server, cfg.check, false), order);
    }
  }

  /** Whatever a scrape logs, in the words of Scrape.ScrapeKeys, stale error or not,
      the registry sends: every sample, in order, without a panic of its own and
      without a new description. */
  lemma {:induction false} EverySampleArrives(s: State, server: Server, cfg: ScrapeConfig, find: Finder, dbCount: nat,
                                              milliseconds: int, db: string, order: seq<string>, checked: seq<Metric>,
                                              stale: bool, panicked: bool, sent: seq<Metric>)
    requires CoversAll(s.descriptions)
    requires AreChecks(server, cfg, db, [], order, checked, stale)
    requires multiset(sent) == multiset(checked) + LaterSpec(server, cfg, find, dbCount, stale)
                               + if panicked then multiset{} else Duration(milliseconds)
    ensures AllFit(s.descriptions, sent)
    ensures (forall i | 0 <= i < |sent| :: Fits(s.descriptions, sent[i]))
            && Run(s, GaugeRequests(sent)) == Some(State(s.descriptions, s.sent + Samples(s.descriptions, sent)))
  {
    ChecksFit(s.descriptions, server, cfg, db, order, checked, stale);
    LaterSamplesFit(s.descriptions, server, cfg, find, dbCount, stale);
    forall m | m in sent ensures Fits(s.descriptions, m) {
      assert m in multiset(sent);
    }
    GaugesAreDelivered(s, sent);
  }
}
