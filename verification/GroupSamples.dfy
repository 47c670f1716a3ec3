/** Conservation for the samples themselves: in the log the key-group collector leaves,
    the values of one database's group samples add up to what SCAN and MEMORY USAGE
    said in that database. */
module GroupSamples {
  import opened GoStrings
  import opened GoInts
  import opened Redis
  import opened Metrics
  import opened KeyMetrics
  import opened Cursors
  import opened GroupTotals
  import opened Ranking
  import opened GroupScript
  import opened KeyGroups
  import opened GroupProofs
  import opened Isolation
  import opened Scrape

  // ----- adding up values -----

  function ValueOf(m: Metric, name: string, d: string): real {
    if m.name == name && IsAbout(m, d) then m.value else 0.0
  }

  /** The sum of the samples of one name about one database. */
  function ValueSum(sent: seq<Metric>, name: string, d: string): real {
    if sent == [] then 0.0 else ValueOf(sent[0], name, d) + ValueSum(sent[1..], name, d)
  }

  lemma {:induction false} ValueSumAppend(a: seq<Metric>, b: seq<Metric>, name: string, d: string)
    ensures ValueSum(a + b, name, d) == ValueSum(a, name, d) + ValueSum(b, name, d)
  {
    if a == [] {
      assert a + b == b;
    } else {
      assert (a + b)[1..] == a[1..] + b;
      ValueSumAppend(a[1..], b, name, d);
    }
  }

  lemma {:induction false} ValueSumPermuted(a: seq<Metric>, b: seq<Metric>, name: string, d: string)
    requires multiset(a) == multiset(b)
    ensures ValueSum(a, name, d) == ValueSum(b, name, d)
    decreases |a|
  {
    if a == [] {
      assert |multiset(b)| == 0 && b == [];
    } else {
      var i := PullOut(a, b);
      ValueSumPermuted(a[1..], b[..i] + b[i + 1..], name, d);
      ValueSumAppend(b[..i], b[i + 1..], name, d);
      ValueSumAppend(b[..i], [a[0]] + b[i + 1..], name, d);
      assert ([a[0]] + b[i + 1..])[1..] == b[i + 1..];
    }
  }

  predicate Lists(sent: seq<Metric>, bag: multiset<Metric>) {
    multiset(sent) == bag
  }

  lemma {:induction false} HasListing(bag: multiset<Metric>)
    ensures exists sent :: Lists(sent, bag)
  {
    if bag == multiset{} {
      assert Lists([], bag);
    } else {
      var m :| m in bag;
      HasListing(bag - multiset{m});
      var later :| Lists(later, bag - multiset{m});
      ListsOneMore(m, later, bag);
    }
  }

  lemma {:induction false} ListsOneMore(m: Metric, later: seq<Metric>, bag: multiset<Metric>)
    requires m in bag && Lists(later, bag - multiset{m})
    ensures Lists([m] + later, bag)
  {
    assert multiset([m] + later) == multiset{m} + multiset(later);
  }

  ghost function Listed(bag: multiset<Metric>): (sent: seq<Metric>)
    ensures multiset(sent) == bag
  {
    HasListing(bag);
    var sent :| Lists(sent, bag);
    sent
  }

  /** The same sum over samples in any order. */
  ghost function BagSum(bag: multiset<Metric>, name: string, d: string): real {
    ValueSum(Listed(bag), name, d)
  }

  lemma {:induction false} BagSumOf(sent: seq<Metric>, name: string, d: string)
    ensures BagSum(multiset(sent), name, d) == ValueSum(sent, name, d)
  {
    ValueSumPermuted(Listed(multiset(sent)), sent, name, d);
  }

  lemma {:induction false} BagSumAdd(a: multiset<Metric>, b: multiset<Metric>, name: string, d: string)
    ensures BagSum(a + b, name, d) == BagSum(a, name, d) + BagSum(b, name, d)
  {
    assert multiset(Listed(a) + Listed(b)) == a + b;
    BagSumOf(Listed(a) + Listed(b), name, d);
    ValueSumAppend(Listed(a), Listed(b), name, d);
  }

  lemma {:induction false} ValueSumElsewhere(sent: seq<Metric>, name: string, d: string)
    requires forall m | m in sent :: m.name != name || !IsAbout(m, d)
    ensures ValueSum(sent, name, d) == 0.0
  {
    if sent == [] {
    } else {
      ValueSumElsewhere(sent[1..], name, d);
    }
  }

  lemma {:induction false} BagSumElsewhere(bag: multiset<Metric>, name: string, d: string)
    requires forall m | m in bag :: m.name != name || !IsAbout(m, d)
    ensures BagSum(bag, name, d) == 0.0
  {
    assert forall m | m in Listed(bag) :: m in multiset(Listed(bag));
    ValueSumElsewhere(Listed(bag), name, d);
  }

  // ----- one database -----

  lemma {:induction false} NamesDiffer()
    ensures COUNT != MEMORY && COUNT != DISTINCT && MEMORY != DISTINCT
    ensures DURATION != COUNT && DURATION != MEMORY
  {
    assert |COUNT| == 15 && |MEMORY| == 28 && |DISTINCT| == 29 && |DURATION| == 44;
  }

  const COUNT := "key_group_count"
  const MEMORY := "key_group_memory_usage_bytes"
  const DISTINCT := "number_of_distinct_key_groups"
  const DURATION := "last_key_groups_scrape_duration_milliseconds"

  lemma {:induction false} TwoSamples(a: Metric, b: Metric, name: string, d: string)
    ensures BagSum(multiset([a, b]), name, d) == ValueOf(a, name, d) + ValueOf(b, name, d)
  {
    assert [b][1..] == [] && ValueSum([b], name, d) == ValueOf(b, name, d);
    assert [a, b][1..] == [b];
    BagSumOf([a, b], name, d);
  }

  lemma {:induction false} GroupValues(d: string, g: KeyGroup)
    ensures BagSum(multiset(KeyGroups.GroupMetrics(Label(d), g)), COUNT, d) == g.count as real
    ensures BagSum(multiset(KeyGroups.GroupMetrics(Label(d), g)), MEMORY, d) == g.memory as real
  {
    NamesDiffer();
    var sent := KeyGroups.GroupMetrics(Label(d), g);
    TwoSamples(sent[0], sent[1], COUNT, d);
    TwoSamples(sent[0], sent[1], MEMORY, d);
    assert sent == [sent[0], sent[1]];
  }

  lemma {:induction false} SeriesStep(d: string, s: seq<KeyGroup>, name: string, here: int, later: int)
    requires s != [] && BagSum(multiset(KeyGroups.GroupMetrics(Label(d), s[0])), name, d) == here as real
    requires BagSum(SeriesMetrics(Label(d), s[1..]), name, d) == later as real
    ensures BagSum(SeriesMetrics(Label(d), s), name, d) == (here + later) as real
  {
    BagSumAdd(multiset(KeyGroups.GroupMetrics(Label(d), s[0])), SeriesMetrics(Label(d), s[1..]), name, d);
  }

  lemma {:induction false} SeriesValues(d: string, s: seq<KeyGroup>)
    ensures BagSum(SeriesMetrics(Label(d), s), COUNT, d) == CountSum(s) as real
    ensures BagSum(SeriesMetrics(Label(d), s), MEMORY, d) == MemorySum(s) as real
  {
    if s == [] {
      BagSumElsewhere(multiset{}, COUNT, d);
      BagSumElsewhere(multiset{}, MEMORY, d);
    } else {
      SeriesValues(d, s[1..]);
      GroupValues(d, s[0]);
      SeriesStep(d, s, COUNT, s[0].count, CountSum(s[1..]));
      SeriesStep(d, s, MEMORY, s[0].memory, MemorySum(s[1..]));
    }
  }

  lemma {:induction false} BookedValues(d: string, booked: seq<Entry>, limit: nat)
    ensures var bag, s := BookedMetrics(Label(d), booked, limit), Series(WrappedSummary(booked), limit);
            BagSum(bag, COUNT, d) == CountSum(s) as real && BagSum(bag, MEMORY, d) == MemorySum(s) as real
  {
    var s, gauge := Series(WrappedSummary(booked), limit), multiset{DistinctGauge(Label(d), |Names(booked)|)};
    SeriesValues(d, s);
    NamesDiffer();
    BagSumElsewhere(gauge, COUNT, d);
    BagSumElsewhere(gauge, MEMORY, d);
    BagSumAdd(SeriesMetrics(Label(d), s), gauge, COUNT, d);
    BagSumAdd(SeriesMetrics(Label(d), s), gauge, MEMORY, d);
  }

  // ----- the whole log -----

  /** Only one of the databases has samples about d. */
  lemma {:induction false} SumOverDbs(each: nat -> multiset<Metric>, n: nat, db: nat, name: string, d: string)
    requires forall i | i != db :: BagSum(each(i), name, d) == 0.0
    ensures BagSum(SumTo(each, n), name, d) == if db < n then BagSum(each(db), name, d) else 0.0
  {
    if n == 0 {
      BagSumElsewhere(multiset{}, name, d);
    } else {
      var last := n - 1;
      SumOverDbs(each, last, db, name, d);
      BagSumAdd(SumTo(each, last), each(last), name, d);
      assert last != db ==> BagSum(each(last), name, d) == 0.0;
    }
  }

  lemma {:induction false} OtherDatabase(server: Server, find: Finder, cfg: GroupConfig, i: nat, db: nat, name: string)
    requires i != db
    ensures BagSum(DbMetrics(server, find, cfg, i), name, Itoa(db)) == 0.0
  {
    DbKeepsLabel(server, find, cfg, i);
    forall m | m in DbMetrics(server, find, cfg, i) ensures !IsAbout(m, Itoa(db)) {
      if IsAbout(m, Itoa(db)) {
        LabelInjective(Itoa(i), Itoa(db));
        ItoaInjective(i, db);
      }
    }
    BagSumElsewhere(DbMetrics(server, find, cfg, i), name, Itoa(db));
  }

  /** The log of the key-group collector, on a connection in sync. */
  ghost predicate IsGroupLog(sent: seq<Metric>, server: Server, find: Finder, cfg: GroupConfig, dbCount: nat,
                             milliseconds: int)
  {
    multiset(sent) == AllDbsMetrics(server, find, cfg, dbCount, false) + Duration(milliseconds)
  }

  lemma {:induction false} LogValues(sent: seq<Metric>, server: Server, find: Finder, cfg: GroupConfig, dbCount: nat,
                                     milliseconds: int, db: nat, name: string)
    requires IsGroupLog(sent, server, find, cfg, dbCount, milliseconds)
    requires Patterns(cfg) != [] && db < dbCount && name != DURATION
    ensures ValueSum(sent, name, Itoa(db)) == BagSum(DbMetrics(server, find, cfg, db), name, Itoa(db))
  {
    var each := PerDb(server, find, cfg, false);
    forall i: nat | i != db ensures BagSum(each(i), name, Itoa(db)) == 0.0 {
      OtherDatabase(server, find, cfg, i, db, name);
    }
    SumOverDbs(each, dbCount, db, name, Itoa(db));
    BagSumElsewhere(Duration(milliseconds), name, Itoa(db));
    BagSumAdd(SumTo(each, dbCount), Duration(milliseconds), name, Itoa(db));
    BagSumOf(sent, name, Itoa(db));
  }

  /** The database could be selected and its scan gathered. */
  ghost predicate IsGathered(server: Server, find: Finder, cfg: GroupConfig, db: nat) {
    && !server.select(Itoa(db)).Err?
    && Booked(server, find, Itoa(db), Patterns(cfg), cfg.batchSize).Some?
  }

  /** The cursors of its scan. */
  ghost function Course(server: Server, find: Finder, cfg: GroupConfig, db: nat): seq<int>
    requires IsGathered(server, find, cfg, db)
  {
    CourseOf(NextBatch(server, Itoa(db), Patterns(cfg), cfg.batchSize))
  }

  lemma {:induction false} GatheredValues(sent: seq<Metric>, server: Server, find: Finder, cfg: GroupConfig, dbCount: nat,
                                          milliseconds: int, db: nat) returns (s: seq<KeyGroup>)
    requires IsGroupLog(sent, server, find, cfg, dbCount, milliseconds) && Patterns(cfg) != [] && db < dbCount
    requires IsGathered(server, find, cfg, db)
    ensures var booked := Gathered(server, find, Itoa(db), Patterns(cfg), cfg.batchSize,
                                   Course(server, find, cfg, db), 0, []);
            booked.Some? && s == Series(WrappedSummary(booked.value), cfg.limit)
    ensures ValueSum(sent, COUNT, Itoa(db)) == CountSum(s) as real
    ensures ValueSum(sent, MEMORY, Itoa(db)) == MemorySum(s) as real
  {
    var booked := Booked(server, find, Itoa(db), Patterns(cfg), cfg.batchSize).value;
    s := Series(WrappedSummary(booked), cfg.limit);
    NamesDiffer();
    LogValues(sent, server, find, cfg, dbCount, milliseconds, db, COUNT);
    LogValues(sent, server, find, cfg, dbCount, milliseconds, db, MEMORY);
    BookedValues(Itoa(db), booked, cfg.limit);
  }

  /** The counts in the log add up to the number of keys SCAN returned in the
      database, and the memory to what was reported and carried over, but for
      multiples of 2^64. */
  lemma {:induction false} SamplesConserve(sent: seq<Metric>, server: Server, find: Finder, cfg: GroupConfig,
                                           dbCount: nat, milliseconds: int, db: nat) returns (i: int, j: int)
    requires IsGroupLog(sent, server, find, cfg, dbCount, milliseconds) && Patterns(cfg) != [] && db < dbCount
    requires IsGathered(server, find, cfg, db)
    ensures var d, cursors := Itoa(db), Course(server, find, cfg, db);
            var keys := ScannedKeys(server, d, cfg.batchSize, cursors, 0);
            var reported := ReportedTotal(server, d, keys);
            var carried := CarriedInBatches(server, d, cfg.batchSize, cursors, 0);
            && ValueSum(sent, COUNT, d) == (|keys| + i * TWO_64) as real
            && ValueSum(sent, MEMORY, d) == (reported + carried + j * TWO_64) as real
  {
    var s := GatheredValues(sent, server, find, cfg, dbCount, milliseconds, db);
    i, j := DatabaseTurns(server, find, Itoa(db), Patterns(cfg), cfg.batchSize, Course(server, find, cfg, db), cfg.limit);
  }

  /** Where the totals fit an int64 they are these numbers exactly, and the memory is
      the reported one if and only if no batch carries any. */
  lemma {:induction false} SamplesConserveExactly(sent: seq<Metric>, server: Server, find: Finder, cfg: GroupConfig,
                                                  dbCount: nat, milliseconds: int, db: nat)
    requires IsGroupLog(sent, server, find, cfg, dbCount, milliseconds) && Patterns(cfg) != [] && db < dbCount
    requires IsGathered(server, find, cfg, db)
    ensures var d, count, cursors := Itoa(db), cfg.batchSize, Course(server, find, cfg, db);
            var keys := ScannedKeys(server, d, count, cursors, 0);
            var reported, carried := ReportedTotal(server, d, keys), CarriedInBatches(server, d, count, cursors, 0);
            SizesAreSizes(server, d, keys) && |keys| < TWO_63 && reported + carried < TWO_63 ==>
              && ValueSum(sent, COUNT, d) == |keys| as real
              && ValueSum(sent, MEMORY, d) == (reported + carried) as real
              && (ValueSum(sent, MEMORY, d) == reported as real <==> NoBatchCarries(server, d, count, cursors, 0))
  {
    var s := GatheredValues(sent, server, find, cfg, dbCount, milliseconds, db);
    DatabaseConservesExactly(server, find, Itoa(db), Patterns(cfg), cfg.batchSize, Course(server, find, cfg, db),
                             cfg.limit);
  }
}
