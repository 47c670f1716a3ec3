/** Databases do not leak into each other, as long as the checked keys run clean:
    what a scrape exports under the label of a database is determined by which
    databases can be selected and by what the server answers in that one database.
    A stale error is the one thing that crosses over. */
module Isolation {
  import opened Wrappers
  import opened GoStrings
  import opened Redis
  import opened Cursors
  import opened Metrics
  import opened KeyArgs
  import opened KeyMetrics
  import opened PipelinedKeys
  import opened PipelineProofs
  import opened Scanning
  import opened Collectors
  import opened Streams
  import opened SlowLog
  import opened GroupTotals
  import opened Ranking
  import opened GroupScript
  import opened KeyGroups
  import opened Scrape

  /** Two servers that answer every SELECT alike, and everything in database d. */
  ghost predicate AgreeOn(a: Server, b: Server, d: string) {
    && (forall db :: a.select(db) == b.select(db))
    && (forall cmd :: a.run(d, cmd) == b.run(d, cmd))
  }

  /** A sample about database d. */
  predicate IsAbout(m: Metric, d: string) {
    m.labels != [] && m.labels[0] == Label(d)
  }

  lemma {:induction false} LabelInjective(d: string, e: string)
    requires Label(d) == Label(e)
    ensures d == e
  {
    assert Label(d)[2..] == d && Label(e)[2..] == e;
  }

  // ----- sums over (database, key) pairs -----

  type Collector = DbKey -> multiset<Metric>

  function PairSum(each: Collector, pairs: seq<DbKey>): multiset<Metric> {
    if pairs == [] then multiset{} else each(pairs[0]) + PairSum(each, pairs[1..])
  }

  function Only(pairs: seq<DbKey>, d: string): seq<DbKey> {
    if pairs == [] then [] else (if pairs[0].db == d then [pairs[0]] else []) + Only(pairs[1..], d)
  }

  lemma {:induction false} OnlyAppend(a: seq<DbKey>, b: seq<DbKey>, d: string)
    ensures Only(a + b, d) == Only(a, d) + Only(b, d)
  {
    if a == [] {
      assert a + b == b;
    } else {
      assert (a + b)[1..] == a[1..] + b;
      OnlyAppend(a[1..], b, d);
      Regroup(if a[0].db == d then [a[0]] else [], Only(a[1..], d), Only(b, d));
    }
  }

  /** Every sample is about the database of its pair. */
  ghost predicate KeepsToDb(each: Collector) {
    forall k: DbKey, m | m in each(k) :: IsAbout(m, k.db)
  }

  lemma {:induction false} OnlyMatters(each: Collector, pairs: seq<DbKey>, d: string, m: Metric)
    requires KeepsToDb(each) && IsAbout(m, d)
    ensures PairSum(each, pairs)[m] == PairSum(each, Only(pairs, d))[m]
  {
    if pairs == [] {
    } else {
      OnlyMatters(each, pairs[1..], d, m);
      if pairs[0].db == d {
        assert Only(pairs, d)[1..] == Only(pairs[1..], d);
      } else {
        assert Only(pairs, d) == Only(pairs[1..], d);
        if m in each(pairs[0]) {
          LabelInjective(pairs[0].db, d);
        }
      }
    }
  }

  lemma {:induction false} SameSum(e: Collector, f: Collector, pairs: seq<DbKey>, d: string)
    requires forall k: DbKey | k.db == d :: e(k) == f(k)
    ensures PairSum(e, Only(pairs, d)) == PairSum(f, Only(pairs, d))
  {
    if pairs == [] {
    } else {
      SameSum(e, f, pairs[1..], d);
      if pairs[0].db == d {
        assert Only(pairs, d)[1..] == Only(pairs[1..], d);
      } else {
        assert Only(pairs, d) == Only(pairs[1..], d);
      }
    }
  }

  lemma {:induction false} SumsAgree(e: Collector, f: Collector, p: seq<DbKey>, q: seq<DbKey>, d: string, m: Metric)
    requires KeepsToDb(e) && KeepsToDb(f) && IsAbout(m, d)
    requires forall k: DbKey | k.db == d :: e(k) == f(k)
    requires Only(p, d) == Only(q, d)
    ensures PairSum(e, p)[m] == PairSum(f, q)[m]
  {
    OnlyMatters(e, p, d, m);
    OnlyMatters(f, q, d, m);
    SameSum(e, f, p, d);
  }

  // ----- SCAN and pattern expansion -----

  lemma {:induction false} ItemsAgree(a: Server, b: Server, d: string, pattern: string, count: int,
                                      cursors: seq<int>, i: nat, found: seq<Reply>)
    requires AgreeOn(a, b, d) && i <= |cursors|
    ensures Items(a, d, pattern, count, cursors, i, found) == Items(b, d, pattern, count, cursors, i, found)
    decreases |cursors| - i
  {
    if i == |cursors| {
    } else {
      var page := ScanPage(a, d, pattern, count, cursors[i]);
      assert page == ScanPage(b, d, pattern, count, cursors[i]);
      if page.Some? {
        ItemsAgree(a, b, d, pattern, count, cursors, i + 1, found + page.value.items);
      }
    }
  }

  lemma {:induction false} ScansAgree(a: Server, b: Server, d: string, pattern: string, count: int)
    requires AgreeOn(a, b, d)
    ensures ScanSpec(a, d, pattern, count) == ScanSpec(b, d, pattern, count)
  {
    var x, y := NextPage(a, d, pattern, count), NextPage(b, d, pattern, count);
    forall cursor ensures x(cursor) == y(cursor) {
      assert a.run(d, Scan(cursor, Some(pattern), count)) == b.run(d, Scan(cursor, Some(pattern), count));
    }
    SameEnd(x, y);
    if Ends(x) {
      ItemsAgree(a, b, d, pattern, count, CourseOf(x), 0, []);
    }
  }

  lemma {:induction false} PairsOfOthers(db: string, names: seq<string>, d: string)
    requires db != d
    ensures Only(Pairs(db, names), d) == []
  {
    if names == [] {
    } else {
      assert Pairs(db, names)[1..] == Pairs(db, names[1..]);
      PairsOfOthers(db, names[1..], d);
    }
  }

  lemma {:induction false} EntriesAgree(a: Server, b: Server, d: string, count: int, k: DbKey, poisoned: bool)
    requires AgreeOn(a, b, d)
    ensures var x, y := ExpandEntry(a, count, k, poisoned), ExpandEntry(b, count, k, poisoned);
            (x.None? <==> y.None?) && (x.Some? ==> Only(x.value, d) == Only(y.value, d))
  {
    if IsGlob(k.key) && !poisoned && !a.select(k.db).Err? {
      if k.db == d {
        ScansAgree(a, b, d, k.key, count);
      } else {
        PairsOfOthers(k.db, ExpandOne(a, count, k), d);
        PairsOfOthers(k.db, ExpandOne(b, count, k), d);
      }
    }
  }

  /** An expansion fails on both servers or on none, and finds the same keys of d. */
  lemma {:induction false} ExpansionsAgree(a: Server, b: Server, d: string, count: int, keys: seq<DbKey>,
                                           p: seq<DbKey>, q: seq<DbKey>, poisoned: bool)
    requires AgreeOn(a, b, d) && Only(p, d) == Only(q, d)
    ensures var x, y := Expand(a, count, keys, p, poisoned), Expand(b, count, keys, q, poisoned);
            x.failed == y.failed && Only(x.keys, d) == Only(y.keys, d)
    decreases |keys|
  {
    if keys == [] {
    } else {
      EntriesAgree(a, b, d, count, keys[0], poisoned);
      var x, y := ExpandEntry(a, count, keys[0], poisoned), ExpandEntry(b, count, keys[0], poisoned);
      if x.Some? {
        OnlyAppend(p, x.value, d);
        OnlyAppend(q, y.value, d);
        ExpansionsAgree(a, b, d, count, keys[1..], p + x.value, q + y.value, poisoned && !IsGlob(keys[0].key));
      }
    }
  }

  // ----- checked keys -----

  function KeyCollector(server: Server, opts: Options): Collector {
    (k: DbKey) => KeySpec(server, opts, k.db, Label(k.db), k.key)
  }

  lemma {:induction false} SpecIsPairSum(server: Server, opts: Options, pairs: seq<DbKey>)
    ensures Spec(server, opts, pairs) == PairSum(KeyCollector(server, opts), pairs)
  {
    if pairs == [] {
    } else {
      SpecIsPairSum(server, opts, pairs[1..]);
    }
  }

  lemma {:induction false} SizesKeepToDb(server: Server, opts: Options, db: string, key: string, kind: Kind)
    ensures forall m | m in SizeSpec(server, opts, db, Label(db), key, kind) :: IsAbout(m, db)
  {
    if kind == Text {
      var text := AsString(server.Answer(db, Get(key))).GetOr("");
      assert forall m | m in ValueMetrics(opts, Label(db), key, text) :: IsAbout(m, db);
    }
  }

  lemma {:induction false} KeysKeepToDb(server: Server, opts: Options)
    ensures KeepsToDb(KeyCollector(server, opts))
  {
    forall k, m | m in KeyCollector(server, opts)(k) ensures IsAbout(m, k.db) {
      SizesKeepToDb(server, opts, k.db, k.key, KindOf(TypeOf(server, k.db, k.key).value));
    }
  }

  lemma {:induction false} KeysAgree(a: Server, b: Server, opts: Options, d: string, key: string)
    requires AgreeOn(a, b, d)
    ensures KeySpec(a, opts, d, Label(d), key) == KeySpec(b, opts, d, Label(d), key)
  {
    assert TypeOf(a, d, key) == TypeOf(b, d, key) by {
      assert a.run(d, Type(key)) == b.run(d, Type(key));
    }
    assert MemorySpec(a, d, Label(d), key) == MemorySpec(b, d, Label(d), key) by {
      assert a.run(d, MemoryUsage(key)) == b.run(d, MemoryUsage(key));
    }
    if TypeOf(a, d, key).Some? {
      SizesAgree(a, b, opts, d, key, KindOf(TypeOf(a, d, key).value));
    }
  }

  lemma {:induction false} SizesAgree(a: Server, b: Server, opts: Options, d: string, key: string, kind: Kind)
    requires AgreeOn(a, b, d)
    ensures SizeSpec(a, opts, d, Label(d), key, kind) == SizeSpec(b, opts, d, Label(d), key, kind)
  {
    match kind
    case NoKey =>
    case Other =>
    case Text =>
      assert a.run(d, PfCount(key)) == b.run(d, PfCount(key));
      assert a.run(d, StrLen(key)) == b.run(d, StrLen(key));
      assert a.run(d, Get(key)) == b.run(d, Get(key));
    case _ =>
      assert a.run(d, LengthCommand(kind, key)) == b.run(d, LengthCommand(kind, key));
  }

  lemma {:induction false} ChecksAgree(a: Server, b: Server, cfg: ScrapeConfig, d: string, m: Metric)
    requires AgreeOn(a, b, d) && IsAbout(m, d)
    ensures CheckSpec(a, cfg)[m] == CheckSpec(b, cfg)[m]
  {
    if ArgsParse(cfg.check) {
      var count := cfg.check.batchSize;
      var patterns, single := Parse(cfg.check.checkKeys).keys, Parse(cfg.check.checkSingleKeys).keys;
      ExpansionsAgree(a, b, d, count, patterns, [], [], false);
      var x, y := Expand(a, count, patterns, [], false), Expand(b, count, patterns, [], false);
      OnlyAppend(single, if x.failed then [] else x.keys, d);
      OnlyAppend(single, if y.failed then [] else y.keys, d);
      var p, q := CheckedKeys(a, cfg.check, false), CheckedKeys(b, cfg.check, false);
      SpecIsPairSum(a, cfg.opts, p);
      SpecIsPairSum(b, cfg.opts, q);
      KeysKeepToDb(a, cfg.opts);
      KeysKeepToDb(b, cfg.opts);
      forall k: DbKey | k.db == d ensures KeyCollector(a, cfg.opts)(k) == KeyCollector(b, cfg.opts)(k) {
        KeysAgree(a, b, cfg.opts, d, k.key);
      }
      SumsAgree(KeyCollector(a, cfg.opts), KeyCollector(b, cfg.opts), p, q, d, m);
    }
  }

  // ----- counts -----

  lemma {:induction false} ForEachIsPairSum(one: DbKey -> seq<Metric>, keys: seq<DbKey>)
    ensures multiset(ForEach(one, keys)) == PairSum((k: DbKey) => multiset(one(k)), keys)
  {
    if keys == [] {
    } else {
      ForEachIsPairSum(one, keys[1..]);
    }
  }

  ghost function CountCollector(server: Server, count: int): Collector {
    (k: DbKey) => multiset(CountOne(server, count, k))
  }

  lemma {:induction false} CountsArePairSum(server: Server, count: int, keys: seq<DbKey>)
    ensures multiset(CountSpec(server, count, keys)) == PairSum(CountCollector(server, count), keys)
  {
    var one := (k: DbKey) => CountOne(server, count, k);
    ForEachIsPairSum(one, keys);
    SamePairSum((k: DbKey) => multiset(one(k)), CountCollector(server, count), keys);
  }

  lemma {:induction false} SamePairSum(e: Collector, f: Collector, pairs: seq<DbKey>)
    requires forall k :: e(k) == f(k)
    ensures PairSum(e, pairs) == PairSum(f, pairs)
  {
    if pairs == [] {
    } else {
      SamePairSum(e, f, pairs[1..]);
    }
  }

  lemma {:induction false} CountsKeepToDb(server: Server, count: int)
    ensures KeepsToDb(CountCollector(server, count))
  {
  }

  lemma {:induction false} CountAgrees(a: Server, b: Server, count: int, k: DbKey)
    requires AgreeOn(a, b, k.db)
    ensures CountOne(a, count, k) == CountOne(b, count, k)
  {
    ScansAgree(a, b, k.db, k.key, count);
  }

  lemma {:induction false} CountsAgree(a: Server, b: Server, count: int, keys: seq<DbKey>, d: string, m: Metric)
    requires AgreeOn(a, b, d) && IsAbout(m, d)
    ensures multiset(CountSpec(a, count, keys))[m] == multiset(CountSpec(b, count, keys))[m]
  {
    var e, f := CountCollector(a, count), CountCollector(b, count);
    CountsArePairSum(a, count, keys);
    CountsArePairSum(b, count, keys);
    CountsKeepToDb(a, count);
    CountsKeepToDb(b, count);
    forall k: DbKey | k.db == d ensures e(k) == f(k) {
      CountAgrees(a, b, count, k);
    }
    SumsAgree(e, f, keys, keys, d, m);
  }

  // ----- streams -----

  function StreamCollector(server: Server, cfg: StreamConfig): Collector {
    (k: DbKey) => multiset(StreamOne(server, cfg, k))
  }

  predicate AllAbout(metrics: seq<Metric>, labels: seq<string>) {
    forall m | m in metrics :: labels <= m.labels
  }

  lemma {:induction false} ConsumersKeepLabels(labels: seq<string>, consumers: seq<Consumer>)
    ensures AllAbout(ConsumerMetrics(labels, consumers), labels)
  {
    if consumers == [] {
    } else {
      ConsumersKeepLabels(labels, consumers[1..]);
    }
  }

  lemma {:induction false} GroupsKeepLabels(cfg: StreamConfig, labels: seq<string>, groups: Groups)
    ensures AllAbout(Streams.GroupMetrics(cfg, labels, groups), labels)
  {
    if groups == [] {
    } else {
      var own := labels + [groups[0].0.name];
      ConsumersKeepLabels(own, groups[0].1);
      GroupsKeepLabels(cfg, labels, groups[1..]);
    }
  }

  lemma {:induction false} StreamKeepsLabels(cfg: StreamConfig, labels: seq<string>, s: Stream)
    ensures AllAbout(StreamMetrics(cfg, labels, s), labels)
  {
  }

  lemma {:induction false} AllAboutAppend(a: seq<Metric>, b: seq<Metric>, labels: seq<string>)
    requires AllAbout(a, labels) && AllAbout(b, labels)
    ensures AllAbout(a + b, labels)
  {
  }

  lemma {:induction false} StreamKeepsToDb(server: Server, cfg: StreamConfig, k: DbKey)
    ensures AllAbout(StreamOne(server, cfg, k), [Label(k.db), k.key])
  {
    var info := StreamOf(server, cfg.decode, k.db, k.key);
    if info.Found? {
      var labels := [Label(k.db), k.key];
      StreamKeepsLabels(cfg, labels, info.stream);
      GroupsKeepLabels(cfg, labels, info.groups);
      AllAboutAppend(StreamMetrics(cfg, labels, info.stream), Streams.GroupMetrics(cfg, labels, info.groups), labels);
    }
  }

  lemma {:induction false} StreamsKeepToDb(server: Server, cfg: StreamConfig)
    ensures KeepsToDb(StreamCollector(server, cfg))
  {
    forall k: DbKey, m | m in StreamCollector(server, cfg)(k) ensures IsAbout(m, k.db) {
      StreamKeepsToDb(server, cfg, k);
      LabelsAreAbout(StreamOne(server, cfg, k), k, m);
    }
  }

  lemma {:induction false} LabelsAreAbout(metrics: seq<Metric>, k: DbKey, m: Metric)
    requires AllAbout(metrics, [Label(k.db), k.key]) && m in multiset(metrics)
    ensures IsAbout(m, k.db)
  {
    assert [Label(k.db), k.key] <= m.labels;
    assert m.labels[0] == [Label(k.db), k.key][0];
  }

  lemma {:induction false} StreamGroupsAgree(a: Server, b: Server, decode: Decoder, d: string, key: string,
                                             items: seq<Reply>, found: Groups)
    requires AgreeOn(a, b, d)
    ensures DecodeGroups(a, decode, d, key, items, found) == DecodeGroups(b, decode, d, key, items, found)
    decreases |items|
  {
    if items == [] {
    } else {
      StreamGroupsAgree(a, b, decode, d, key, items[1..], found);
      var v := AsValues(items[0]);
      if v.Some? && ScanStruct(v.value, decode.group).Some? {
        var g := ScanStruct(v.value, decode.group).value;
        assert a.run(d, XInfoConsumers(key, g.name)) == b.run(d, XInfoConsumers(key, g.name));
        var consumers := ConsumersOf(a, decode, d, key, g.name);
        assert consumers == ConsumersOf(b, decode, d, key, g.name);
        if consumers.Some? {
          StreamGroupsAgree(a, b, decode, d, key, items[1..], found + [(g, consumers.value)]);
        }
      }
    }
  }

  lemma {:induction false} StreamAgrees(a: Server, b: Server, cfg: StreamConfig, d: string, key: string)
    requires AgreeOn(a, b, d)
    ensures StreamOne(a, cfg, DbKey(d, key)) == StreamOne(b, cfg, DbKey(d, key))
  {
    assert a.run(d, XInfoStream(key)) == b.run(d, XInfoStream(key));
    assert a.run(d, XInfoGroups(key)) == b.run(d, XInfoGroups(key));
    var items := AsValues(a.Answer(d, XInfoGroups(key)));
    if items.Some? {
      StreamGroupsAgree(a, b, cfg.decode, d, key, items.value, []);
    }
    assert GroupsOf(a, cfg.decode, d, key) == GroupsOf(b, cfg.decode, d, key);
    assert StreamOf(a, cfg.decode, d, key) == StreamOf(b, cfg.decode, d, key);
  }

  lemma {:induction false} StreamSamplesAgree(a: Server, b: Server, cfg: StreamConfig, p: seq<DbKey>, q: seq<DbKey>,
                                              d: string, m: Metric)
    requires AgreeOn(a, b, d) && IsAbout(m, d) && Only(p, d) == Only(q, d)
    ensures multiset(StreamSpec(a, cfg, p))[m] == multiset(StreamSpec(b, cfg, q))[m]
  {
    ForEachIsPairSum((k: DbKey) => StreamOne(a, cfg, k), p);
    ForEachIsPairSum((k: DbKey) => StreamOne(b, cfg, k), q);
    var e, f := (k: DbKey) => multiset(((k: DbKey) => StreamOne(a, cfg, k))(k)),
                (k: DbKey) => multiset(((k: DbKey) => StreamOne(b, cfg, k))(k));
    StreamsKeepToDb(a, cfg);
    StreamsKeepToDb(b, cfg);
    assert KeepsToDb(e) && KeepsToDb(f) by {
      assert forall k :: e(k) == StreamCollector(a, cfg)(k) && f(k) == StreamCollector(b, cfg)(k);
    }
    forall k: DbKey | k.db == d ensures e(k) == f(k) {
      StreamAgrees(a, b, cfg, d, k.key);
      assert k == DbKey(d, k.key);
    }
    SumsAgree(e, f, p, q, d, m);
  }

  lemma {:induction false} StreamsAgree(a: Server, b: Server, cfg: ScrapeConfig, d: string, m: Metric, stale: bool)
    requires AgreeOn(a, b, d) && IsAbout(m, d)
    requires !StreamsPanic(a, cfg, stale) && !StreamsPanic(b, cfg, stale)
    ensures multiset(StreamsSpec(a, cfg, stale))[m] == multiset(StreamsSpec(b, cfg, stale))[m]
  {
    if StreamArgsParse(cfg.streams) {
      AskedAgree(a, b, cfg.streams, d, stale);
      StreamSamplesAgree(a, b, cfg.streams, AskedStreams(a, cfg.streams, stale), AskedStreams(b, cfg.streams, stale), d, m);
    }
  }

  lemma {:induction false} AskedAgree(a: Server, b: Server, cfg: StreamConfig, d: string, stale: bool)
    requires AgreeOn(a, b, d)
    ensures Only(AskedStreams(a, cfg, stale), d) == Only(AskedStreams(b, cfg, stale), d)
  {
    var count, patterns, single := cfg.batchSize, Parse(cfg.checkStreams).keys, Parse(cfg.checkSingleStreams).keys;
    if HasGlob(patterns) {
      ExpansionsAgree(a, b, d, count, patterns, [], [], stale);
      var x, y := Expand(a, count, patterns, [], stale), Expand(b, count, patterns, [], stale);
      OnlyAppend(single, if x.failed then [] else x.keys, d);
      OnlyAppend(single, if y.failed then [] else y.keys, d);
    } else {
      ExpandPlainKeys(a, count, patterns, [], stale);
      ExpandPlainKeys(b, count, patterns, [], stale);
    }
  }

  // ----- key groups -----

  lemma {:induction false} BatchesAgree(a: Server, b: Server, d: string, patterns: seq<string>, count: int)
    requires AgreeOn(a, b, d)
    ensures var x, y := NextBatch(a, d, patterns, count), NextBatch(b, d, patterns, count);
            (Ends(x) <==> Ends(y)) && (Ends(x) ==> CourseOf(x) == CourseOf(y))
  {
    var x, y := NextBatch(a, d, patterns, count), NextBatch(b, d, patterns, count);
    forall cursor ensures x(cursor) == y(cursor) {
      assert a.run(d, Redis.GroupScript(cursor, count, patterns)) == b.run(d, Redis.GroupScript(cursor, count, patterns));
    }
    SameEnd(x, y);
  }

  lemma {:induction false} BookingsAgree(a: Server, b: Server, find: Finder, d: string, patterns: seq<string>,
                                         keys: seq<string>, usage: int, booked: seq<Entry>)
    requires AgreeOn(a, b, d)
    ensures Bookings(a, find, d, patterns, keys, usage, booked) == Bookings(b, find, d, patterns, keys, usage, booked)
    decreases |keys|
  {
    if keys == [] {
    } else {
      var reply := a.Answer(d, MemoryUsage(keys[0]));
      assert reply == b.Answer(d, MemoryUsage(keys[0]));
      var now := if reply.Int? then reply.n else usage;
      var group := Classify(find, patterns, keys[0]);
      if group.Some? {
        BookingsAgree(a, b, find, d, patterns, keys[1..], now, booked + [Entry(group.value, now)]);
      }
    }
  }

  lemma {:induction false} GatheringsAgree(a: Server, b: Server, find: Finder, d: string, patterns: seq<string>, count: int,
                                           cursors: seq<int>, i: nat, booked: seq<Entry>)
    requires AgreeOn(a, b, d) && i <= |cursors|
    ensures Gathered(a, find, d, patterns, count, cursors, i, booked)
         == Gathered(b, find, d, patterns, count, cursors, i, booked)
    decreases |cursors| - i
  {
    if i == |cursors| {
    } else {
      assert ScriptReply(a, d, patterns, count, cursors[i]) == ScriptReply(b, d, patterns, count, cursors[i]);
      assert a.Answer(d, Scan(cursors[i], None, count)) == b.Answer(d, Scan(cursors[i], None, count));
      var batch := ScanBatch(a, d, cursors[i], count);
      assert batch == ScanBatch(b, d, cursors[i], count);
      if batch.Some? {
        BookingsAgree(a, b, find, d, patterns, batch.value.keys, 0, []);
      }
      var booking := BatchBookings(a, find, d, patterns, cursors[i], count);
      assert booking == BatchBookings(b, find, d, patterns, cursors[i], count);
      if booking.Some? {
        GatheringsAgree(a, b, find, d, patterns, count, cursors, i + 1, booked + booking.value);
      }
    }
  }

  lemma {:induction false} DbAgrees(a: Server, b: Server, find: Finder, cfg: GroupConfig, db: nat)
    requires AgreeOn(a, b, Itoa(db))
    ensures DbMetrics(a, find, cfg, db) == DbMetrics(b, find, cfg, db)
  {
    BatchesAgree(a, b, Itoa(db), Patterns(cfg), cfg.batchSize);
    if ScriptScanEnds(a, Itoa(db), Patterns(cfg), cfg.batchSize) {
      GatheringsAgree(a, b, find, Itoa(db), Patterns(cfg), cfg.batchSize,
                      CourseOf(NextBatch(a, Itoa(db), Patterns(cfg), cfg.batchSize)), 0, []);
    }
  }

  lemma {:induction false} SeriesKeepLabel(dbLabel: string, s: seq<KeyGroup>)
    ensures forall m | m in SeriesMetrics(dbLabel, s) :: m.labels != [] && m.labels[0] == dbLabel
  {
    if s == [] {
    } else {
      SeriesKeepLabel(dbLabel, s[1..]);
    }
  }

  lemma {:induction false} DbKeepsLabel(server: Server, find: Finder, cfg: GroupConfig, db: nat)
    ensures forall m | m in DbMetrics(server, find, cfg, db) :: IsAbout(m, Itoa(db))
  {
    var booked := Booked(server, find, Itoa(db), Patterns(cfg), cfg.batchSize);
    if booked.Some? {
      SeriesKeepLabel(Label(Itoa(db)), Series(WrappedSummary(booked.value), cfg.limit));
    }
  }

  lemma {:induction false} DbSamplesAgree(a: Server, b: Server, find: Finder, cfg: GroupConfig, db: nat,
                                          d: string, m: Metric)
    requires AgreeOn(a, b, d) && IsAbout(m, d)
    ensures DbMetrics(a, find, cfg, db)[m] == DbMetrics(b, find, cfg, db)[m]
  {
    if Itoa(db) == d {
      DbAgrees(a, b, find, cfg, db);
    } else {
      DbKeepsLabel(a, find, cfg, db);
      DbKeepsLabel(b, find, cfg, db);
      if IsAbout(m, Itoa(db)) {
        LabelInjective(Itoa(db), d);
      }
    }
  }

  lemma {:induction false} SumsOverDbsAgree(e: nat -> multiset<Metric>, f: nat -> multiset<Metric>, n: nat, m: Metric)
    requires forall db :: e(db)[m] == f(db)[m]
    ensures SumTo(e, n)[m] == SumTo(f, n)[m]
  {
    if n == 0 {
    } else {
      SumsOverDbsAgree(e, f, n - 1, m);
      assert e(n - 1)[m] == f(n - 1)[m];
    }
  }

  lemma {:induction false} GroupsAgree(a: Server, b: Server, find: Finder, cfg: GroupConfig, n: nat, stale: bool,
                                       d: string, m: Metric)
    requires AgreeOn(a, b, d) && IsAbout(m, d)
    ensures DbsMetrics(a, find, cfg, n, stale)[m] == DbsMetrics(b, find, cfg, n, stale)[m]
  {
    var e, f := PerDb(a, find, cfg, stale), PerDb(b, find, cfg, stale);
    forall db ensures e(db)[m] == f(db)[m] {
      DbSamplesAgree(a, b, find, cfg, db, d, m);
    }
    SumsOverDbsAgree(e, f, n, m);
  }

  // ----- the whole scrape -----

  lemma {:induction false} SlowLogIsAboutNone(server: Server, stale: bool, d: string, m: Metric)
    requires IsAbout(m, d)
    ensures multiset(SlowLogSpec(server, stale))[m] == 0
  {
    assert forall x | x in SlowLogSpec(server, stale) :: x.labels == [];
  }

  lemma {:induction false} LaterCount(server: Server, cfg: ScrapeConfig, find: Finder, dbCount: nat, stale: bool,
                                      d: string, m: Metric)
    requires IsAbout(m, d) && !ScrapePanics(server, cfg, stale)
    ensures LaterSpec(server, cfg, find, dbCount, stale)[m] ==
            multiset(CountsSpec(server, cfg, stale))[m] + multiset(StreamsSpec(server, cfg, StaleAtStreams(cfg, stale)))[m]
            + AllDbsMetrics(server, find, cfg.groups, dbCount, false)[m]
  {
    SlowLogIsAboutNone(server, StaleAtSlowLog(cfg, stale), d, m);
  }

  lemma {:induction false} PartsAgree(a: Server, b: Server, cfg: ScrapeConfig, find: Finder, dbCount: nat,
                                      stale: bool, d: string, m: Metric)
    requires AgreeOn(a, b, d) && IsAbout(m, d)
    requires !ScrapePanics(a, cfg, stale) && !ScrapePanics(b, cfg, stale)
    ensures multiset(CountsSpec(a, cfg, stale))[m] == multiset(CountsSpec(b, cfg, stale))[m]
    ensures multiset(StreamsSpec(a, cfg, StaleAtStreams(cfg, stale)))[m]
         == multiset(StreamsSpec(b, cfg, StaleAtStreams(cfg, stale)))[m]
    ensures AllDbsMetrics(a, find, cfg.groups, dbCount, false)[m] == AllDbsMetrics(b, find, cfg.groups, dbCount, false)[m]
  {
    CountsAgree(a, b, cfg.check.batchSize, Surviving(Parse(cfg.countKeys).keys, stale), d, m);
    StreamsAgree(a, b, cfg, d, m, StaleAtStreams(cfg, stale));
    GroupsAgree(a, b, find, cfg.groups, dbCount, false, d, m);
  }

  /** The collectors after the checked keys, given a stale error or none. */
  lemma {:induction false} CollectorsAgree(a: Server, b: Server, cfg: ScrapeConfig, find: Finder, dbCount: nat,
                                           stale: bool, d: string, m: Metric)
    requires AgreeOn(a, b, d) && IsAbout(m, d)
    requires !ScrapePanics(a, cfg, stale) && !ScrapePanics(b, cfg, stale)
    ensures LaterSpec(a, cfg, find, dbCount, stale)[m] == LaterSpec(b, cfg, find, dbCount, stale)[m]
  {
    PartsAgree(a, b, cfg, find, dbCount, stale, d, m);
    LaterCount(a, cfg, find, dbCount, stale, d, m);
    LaterCount(b, cfg, find, dbCount, stale, d, m);
  }

  /** Two servers with the same databases that answer alike in database d give the
      same samples about d after the checked keys, if the checked keys leave a stale
      error on both or on none, and no reply makes one of the scrapes panic.  The
      hypothesis on the stale error is needed: it is the one thing that carries over
      from other databases (KeyFailures.StaleErrorCrossesDatabases). */
  lemma {:induction false} LaterSamplesAgree(a: Server, b: Server, cfg: ScrapeConfig, find: Finder, dbCount: nat,
                                             dbA: string, orderA: seq<string>, checkedA: seq<Metric>, staleA: bool,
                                             dbB: string, orderB: seq<string>, checkedB: seq<Metric>, staleB: bool,
                                             d: string, m: Metric)
    requires AgreeOn(a, b, d) && IsAbout(m, d)
    requires AreChecks(a, cfg, dbA, [], orderA, checkedA, staleA) && AreChecks(b, cfg, dbB, [], orderB, checkedB, staleB)
    requires staleA == staleB
    requires !ScrapePanics(a, cfg, staleA) && !ScrapePanics(b, cfg, staleB)
    ensures LaterSpec(a, cfg, find, dbCount, staleA)[m] == LaterSpec(b, cfg, find, dbCount, staleB)[m]
  {
    CollectorsAgree(a, b, cfg, find, dbCount, staleA, d, m);
  }

  lemma {:induction false} CleanChecks(server: Server, cfg: ScrapeConfig, db: string, order: seq<string>,
                                       checked: seq<Metric>, stale: bool)
    requires AreChecks(server, cfg, db, [], order, checked, stale) && ChecksClean(server, cfg)
    ensures !stale && multiset(checked) == CheckSpec(server, cfg)
  {
    if ArgsParse(cfg.check) {
      var start := Wire(DbAfterExpand(server, db, Parse(cfg.check.checkKeys).keys, false), [], []);
      PipelineMeetsSpec(server, cfg.opts, start, CheckedKeys(server, cfg.check, false), order);
    }
  }

  /** In scrapes whose checks run clean the databases are isolated: servers that
      answer alike in database d give the same samples about d, all collectors
      included, whatever they hold elsewhere. */
  lemma {:induction false} DatabasesAreIsolated(a: Server, b: Server, cfg: ScrapeConfig, find: Finder, dbCount: nat,
                                                dbA: string, orderA: seq<string>, checkedA: seq<Metric>, staleA: bool,
                                                dbB: string, orderB: seq<string>, checkedB: seq<Metric>, staleB: bool,
                                                d: string, m: Metric)
    requires AgreeOn(a, b, d) && IsAbout(m, d)
    requires AreChecks(a, cfg, dbA, [], orderA, checkedA, staleA) && AreChecks(b, cfg, dbB, [], orderB, checkedB, staleB)
    requires ChecksClean(a, cfg) && ChecksClean(b, cfg)
    requires !ScrapePanics(a, cfg, false) && !ScrapePanics(b, cfg, false)
    ensures multiset(checkedA)[m] + LaterSpec(a, cfg, find, dbCount, staleA)[m]
         == multiset(checkedB)[m] + LaterSpec(b, cfg, find, dbCount, staleB)[m]
  {
    CleanChecks(a, cfg, dbA, orderA, checkedA, staleA);
    CleanChecks(b, cfg, dbB, orderB, checkedB, staleB);
    ChecksAgree(a, b, cfg, d, m);
    CollectorsAgree(a, b, cfg, find, dbCount, false, d, m);
  }
}
