/** Key groups: one script call per SCAN batch, merged into int64 totals, cut to
    the top groups, and exported per database. */
module KeyGroups {
  import opened Wrappers
  import opened GoStrings
  import opened Redis
  import opened Cursors
  import opened Metrics
  import opened KeyMetrics
  import opened GoInts
  import opened GroupTotals
  import opened Ranking
  import opened GroupScript

  // ----- the batches of one database -----

  function ScriptReply(server: Server, db: string, patterns: seq<string>, count: int, cursor: int): Reply {
    server.Answer(db, Redis.GroupScript(cursor, count, patterns))
  }

  /** Where a script reply sends the loop; None if the call failed. */
  function NextCursor(reply: Reply): Option<int> {
    var arr :- AsValues(reply);
    if |arr| != 2 then None else Some(CursorOf(arr[0]))
  }

  /** Where the script's reply at a cursor sends the loop. */
  function NextBatch(server: Server, db: string, patterns: seq<string>, count: int): Next {
    cursor => NextCursor(ScriptReply(server, db, patterns, count, cursor))
  }

  ghost predicate ScriptScanEnds(server: Server, db: string, patterns: seq<string>, count: int) {
    Ends(NextBatch(server, db, patterns, count))
  }

  /** The bookings of all batches from cursor i onward, after those of the batches
      before; None once a call fails. */
  function Gathered(server: Server, find: Finder, db: string, patterns: seq<string>, count: int,
                    cursors: seq<int>, i: nat, booked: seq<Entry>): Option<seq<Entry>>
    requires i <= |cursors|
    decreases |cursors| - i
  {
    if i == |cursors| then Some(booked)
    else if ScriptReply(server, db, patterns, count, cursors[i]).Err? then None
    else
      var batch :- BatchBookings(server, find, db, patterns, cursors[i], count);
      Gathered(server, find, db, patterns, count, cursors, i + 1, booked + batch)
  }

  /** Everything booked in one database.  Where the cursors never lead back to 0
      this is nothing; no method is called there. */
  ghost function Booked(server: Server, find: Finder, db: string, patterns: seq<string>, count: int)
    : Option<seq<Entry>>
  {
    if !ScriptScanEnds(server, db, patterns, count) then None
    else Gathered(server, find, db, patterns, count, CourseOf(NextBatch(server, db, patterns, count)), 0, [])
  }

  // ----- the merge -----

  /** allGroups while the rows of the batch `b` are merged into the summary of
      what was booked before: the groups in `done` have had their row. */
  function Merging(booked: seq<Entry>, b: seq<Entry>, done: set<string>): map<string, KeyGroup> {
    map name | name in Names(booked) + done ::
      if name in done then WrappedGroup(booked + b, name) else WrappedGroup(booked, name)
  }

  lemma {:induction false} MergingStarts(booked: seq<Entry>, b: seq<Entry>)
    ensures Merging(booked, b, {}) == WrappedSummary(booked)
  {
  }

  lemma {:induction false} MergingEnds(booked: seq<Entry>, b: seq<Entry>)
    ensures Merging(booked, b, Names(b)) == WrappedSummary(booked + b)
  {
    assert Names(booked) + Names(b) == Names(booked + b) by {
      forall e: Entry ensures e in booked + b <==> e in booked || e in b {
      }
    }
    forall name | name !in Names(b) ensures WrappedGroup(booked + b, name) == WrappedGroup(booked, name) {
      TotalsAppend(booked, b, name);
      CountIsPositive(b, name);
    }
  }

  /** Adding one row of int64 totals, on top of what is there or afresh. */
  function MergeRow(groups: map<string, KeyGroup>, name: string, count: int, memory: int): map<string, KeyGroup> {
    if name in groups then
      groups[name := KeyGroup(name, Wrap(groups[name].count + count), Wrap(groups[name].memory + memory))]
    else groups[name := KeyGroup(name, count, memory)]
  }

  lemma {:induction false} MergedTotals(booked: seq<Entry>, b: seq<Entry>, name: string)
    ensures WrappedGroup(booked + b, name) ==
            KeyGroup(name, Wrap(WrappedGroup(booked, name).count + Wrap(CountOf(b, name))),
                     Wrap(WrappedGroup(booked, name).memory + Wrap(MemoryOf(b, name))))
  {
    TotalsAppend(booked, b, name);
    WrapBoth(CountOf(booked, name), CountOf(b, name), CountOf(booked + b, name));
    WrapBoth(MemoryOf(booked, name), MemoryOf(b, name), MemoryOf(booked + b, name));
  }

  lemma {:induction false} FreshTotals(booked: seq<Entry>, b: seq<Entry>, name: string)
    requires name !in Names(booked)
    ensures CountOf(booked + b, name) == CountOf(b, name) && MemoryOf(booked + b, name) == MemoryOf(b, name)
  {
    TotalsAppend(booked, b, name);
    CountIsPositive(booked, name);
  }

  lemma {:induction false} MergingStep(booked: seq<Entry>, b: seq<Entry>, done: set<string>, name: string)
    requires name !in done
    ensures MergeRow(Merging(booked, b, done), name, Wrap(CountOf(b, name)), Wrap(MemoryOf(b, name)))
         == Merging(booked, b, done + {name})
  {
    if name in Names(booked) {
      MergedTotals(booked, b, name);
    } else {
      FreshTotals(booked, b, name);
    }
    var count, memory := Wrap(CountOf(b, name)), Wrap(MemoryOf(b, name));
    var before, after := Merging(booked, b, done), Merging(booked, b, done + {name});
    assert after == before[name := after[name]];
    assert MergeRow(before, name, count, memory) == before[name := after[name]];
  }

  lemma {:induction false} WrapBoth(a: int, b: int, sum: int)
    requires sum == a + b
    ensures Wrap(sum) == Wrap(Wrap(a) + Wrap(b))
  {
    WrapSum(a, Wrap(b));
    WrapSum(b, a);
  }

  /** The inner loop body of gatherKeyGroupMetrics. */
  method MergeOne(allGroups: map<string, KeyGroup>, row: Reply, ghost g: KeyGroup) returns (groups: map<string, KeyGroup>)
    requires row == Row(g)
    ensures groups == MergeRow(allGroups, g.name, Wrap(g.count), Wrap(g.memory))
  {
    var metrics := AsValues(row).GetOr([]);
    var name := AsString(metrics[0]).GetOr("");
    var count := AsInt64(metrics[1]).GetOr(0);
    var memory := AsInt64(metrics[2]).GetOr(0);
    if name in allGroups {
      var current := allGroups[name];
      groups := allGroups[name := KeyGroup(name, Wrap(current.count + count), Wrap(current.memory + memory))];
    } else {
      groups := allGroups[name := KeyGroup(name, count, memory)];
    }
  }

  /** The inner loop of gatherKeyGroupMetrics. */
  method MergeRows(allGroups: map<string, KeyGroup>, rows: seq<Reply>,
                   ghost booked: seq<Entry>, ghost b: seq<Entry>, ghost names: seq<string>)
    returns (groups: map<string, KeyGroup>)
    requires allGroups == WrappedSummary(booked)
    requires Visits(names, Summary(b)) && rows == Rows(Summary(b), names)
    ensures groups == WrappedSummary(booked + b)
  {
    groups := allGroups;
    ghost var done := {};
    MergingStarts(booked, b);
    for i := 0 to |rows|
      invariant groups == Merging(booked, b, done)
      invariant forall name :: name in done <==> name in names[..i]
    {
      ghost var name := names[i];
      assert name in names && name !in names[..i];
      ghost var g := Summary(b)[name];
      groups := MergeOne(groups, rows[i], g);
      MergingStep(booked, b, done, name);
      assert names[..i + 1] == names[..i] + [name];
      done := done + {name};
    }
    assert names[..|rows|] == names;
    assert done == Names(b);
    MergingEnds(booked, b);
  }

  /** gatherKeyGroupMetrics, called right after a SELECT. */
  method GatherKeyGroupMetrics(conn: Conn, batchSize: int, keyGroups: seq<string>, ghost find: Finder)
    returns (groups: Option<map<string, KeyGroup>>)
    requires conn.InSync()
    requires ScriptScanEnds(conn.server, conn.db, keyGroups, batchSize) && RunsScript(conn.server, find)
    modifies conn
    ensures conn.InSync() && conn.db == old(conn.db)
    ensures groups == match Booked(conn.server, find, conn.db, keyGroups, batchSize)
                      case None => None
                      case Some(booked) => Some(WrappedSummary(booked))
  {
    ghost var server, db := conn.server, conn.db;
    ghost var cursors := CourseOf(NextBatch(server, db, keyGroups, batchSize));
    ghost var i, booked := 0, [];
    var allGroups, iter := map[], 0;
    assert WrappedSummary([]) == map[];
    while true
      invariant conn.InSync() && conn.db == db
      invariant 0 <= i < |cursors| && iter == cursors[i]
      invariant allGroups == WrappedSummary(booked)
      invariant Gathered(server, find, db, keyGroups, batchSize, cursors, i, booked)
             == Gathered(server, find, db, keyGroups, batchSize, cursors, 0, [])
      decreases |cursors| - i
    {
      assert i < |cursors| - 1 ==> LeadsTo(NextBatch(server, db, keyGroups, batchSize), cursors[i], cursors[i + 1]);
      var r := conn.Do(Redis.GroupScript(iter, batchSize, keyGroups));
      var arr := AsValues(r);
      assert r.Err? || IsScriptReply(server, find, db, keyGroups, iter, batchSize, r);
      if arr.None? || |arr.value| != 2 {
        return None;
      }
      ghost var b := BatchBookings(server, find, db, keyGroups, iter, batchSize).value;
      ghost var names :| Visits(names, Summary(b)) &&
        r == Arr([ScanBatch(server, db, iter, batchSize).value.next, Arr(Rows(Summary(b), names))]);
      var rows := AsValues(arr.value[1]).GetOr([]);
      allGroups := MergeRows(allGroups, rows, booked, b, names);
      booked := booked + b;
      iter := CursorOf(arr.value[0]);
      if iter == 0 {
        return Some(allGroups);
      }
      i := i + 1;
    }
  }

  // ----- the cut, per database -----

  /** The metricsSlice built from the map, whose traversal order is arbitrary. */
  method ListGroups(groups: map<string, KeyGroup>) returns (slice: seq<KeyGroup>)
    requires IsGroupMap(groups)
    ensures Lists(slice, groups)
  {
    slice := [];
    var rest := groups;
    while rest != map[]
      invariant IsGroupMap(rest)
      invariant multiset(slice) + multiset(rest.Values) == multiset(groups.Values)
      decreases |rest|
    {
      var name :| name in rest;
      WithoutOne(rest, name);
      assert rest.Keys == (rest - {name}).Keys + {name};
      slice := slice + [rest[name]];
      rest := rest - {name};
    }
  }

  lemma {:induction false} SumsSnoc(s: seq<KeyGroup>, g: KeyGroup)
    ensures Wrap(CountSum(s + [g])) == Wrap(Wrap(CountSum(s)) + g.count)
    ensures Wrap(MemorySum(s + [g])) == Wrap(Wrap(MemorySum(s)) + g.memory)
  {
    SumsAppend(s, [g]);
    assert CountSum([g]) == g.count && MemorySum([g]) == g.memory;
    WrapSum(CountSum(s), g.count);
    WrapSum(MemorySum(s), g.memory);
  }

  /** The loop that adds up the groups beyond the limit. */
  method FoldRest(rest: seq<KeyGroup>) returns (overflow: KeyGroup)
    ensures overflow == Folded(rest)
  {
    var overflowedCount, overflowedMemoryUsage := 0, 0;
    for i := 0 to |rest|
      invariant overflowedCount == Wrap(CountSum(rest[..i]))
      invariant overflowedMemoryUsage == Wrap(MemorySum(rest[..i]))
    {
      assert rest[..i + 1] == rest[..i] + [rest[i]];
      SumsSnoc(rest[..i], rest[i]);
      overflowedCount := Wrap(overflowedCount + rest[i].count);
      overflowedMemoryUsage := Wrap(overflowedMemoryUsage + rest[i].memory);
    }
    assert rest[..|rest|] == rest;
    overflow := KeyGroup(OVERFLOW, overflowedCount, overflowedMemoryUsage);
  }

  /** The part of gatherKeyGroupsMetricsForAllDatabases that deals with too many
      groups. */
  method CutGroups(groups: map<string, KeyGroup>, limit: nat) returns (top: seq<KeyGroup>, overflow: KeyGroup)
    requires IsGroupMap(groups) && |groups| > limit
    ensures top + [overflow] == Series(groups, limit)
  {
    var listed := ListGroups(groups);
    var slice := new KeyGroup[|listed|](i requires 0 <= i < |listed| => listed[i]);
    assert slice[..] == listed;
    SortSlice(slice);
    EverySortAgrees(groups, slice[..]);
    ListedOnce(slice[..], groups);
    top := slice[..limit];
    overflow := FoldRest(slice[limit..]);
  }

  // ----- what is exported -----

  datatype GroupConfig = GroupConfig(checkKeyGroups: string, csv: string -> Option<seq<string>>,
                                     batchSize: int, limit: nat)

  /** The trimmed fields that are not empty, after those already found. */
  function NonEmpty(fields: seq<string>, found: seq<string>): seq<string>
    decreases |fields|
  {
    if fields == [] then found
    else
      var v := TrimSpace(fields[0]);
      NonEmpty(fields[1..], if v == "" then found else found + [v])
  }

  /** The configured patterns, trimmed, without empty ones; none if the option
      is blank or no CSV. */
  function Patterns(cfg: GroupConfig): seq<string> {
    if TrimSpace(cfg.checkKeyGroups) == "" then [] else NonEmpty(cfg.csv(cfg.checkKeyGroups).GetOr([]), [])
  }

  function GroupMetrics(dbLabel: string, g: KeyGroup): seq<Metric> {
    [Metric("key_group_count", g.count as real, [dbLabel, g.name]),
     Metric("key_group_memory_usage_bytes", g.memory as real, [dbLabel, g.name])]
  }

  function SeriesMetrics(dbLabel: string, s: seq<KeyGroup>): multiset<Metric> {
    if s == [] then multiset{} else multiset(GroupMetrics(dbLabel, s[0])) + SeriesMetrics(dbLabel, s[1..])
  }

  function DistinctGauge(dbLabel: string, n: int): Metric {
    Metric("number_of_distinct_key_groups", n as real, [dbLabel])
  }

  /** What is exported for a database in which these bookings were made. */
  ghost function BookedMetrics(dbLabel: string, booked: seq<Entry>, limit: nat): multiset<Metric> {
    SeriesMetrics(dbLabel, Series(WrappedSummary(booked), limit)) + multiset{DistinctGauge(dbLabel, |Names(booked)|)}
  }

  /** What is exported for one database: nothing if it cannot be selected or
      its script fails. */
  ghost function DbMetrics(server: Server, find: Finder, cfg: GroupConfig, db: nat): multiset<Metric>
  {
    if server.select(Itoa(db)).Err? then multiset{}
    else
      match Booked(server, find, Itoa(db), Patterns(cfg), cfg.batchSize)
      case None => multiset{}
      case Some(booked) => BookedMetrics(Label(Itoa(db)), booked, cfg.limit)
  }

  function SumTo(one: nat -> multiset<Metric>, n: nat): multiset<Metric> {
    if n == 0 then multiset{} else SumTo(one, n - 1) + one(n - 1)
  }

  /** What each database contributes; a stale error costs exactly database 0. */
  ghost function PerDb(server: Server, find: Finder, cfg: GroupConfig, poisoned: bool): nat -> multiset<Metric>
  {
    (db: nat) => if poisoned && db == 0 then multiset{} else DbMetrics(server, find, cfg, db)
  }

  /** The databases below n. */
  ghost function DbsMetrics(server: Server, find: Finder, cfg: GroupConfig, n: nat, poisoned: bool): multiset<Metric>
  {
    SumTo(PerDb(server, find, cfg, poisoned), n)
  }

  // ----- gathering and exporting -----

  datatype DbGroups =
    | NotGathered
    | Everything(groups: map<string, KeyGroup>)
    | TopOnly(top: seq<KeyGroup>, overflow: KeyGroup, distinct: int)

  /** What the export loop will make of a result. */
  ghost function ResultMetrics(dbLabel: string, result: DbGroups): multiset<Metric> {
    match result
    case NotGathered => multiset{}
    case Everything(groups) =>
      SeriesMetrics(dbLabel, Ranked(groups)) + multiset{DistinctGauge(dbLabel, |groups|)}
    case TopOnly(top, overflow, distinct) =>
      SeriesMetrics(dbLabel, top + [overflow]) + multiset{DistinctGauge(dbLabel, distinct)}
  }

  lemma {:induction false} SummaryIsGroupMap(booked: seq<Entry>)
    ensures IsGroupMap(WrappedSummary(booked))
    ensures |WrappedSummary(booked)| == |Names(booked)|
  {
    assert WrappedSummary(booked).Keys == Names(booked);
  }

  /** The loop body of gatherKeyGroupsMetricsForAllDatabases. */
  method GatherDatabase(conn: Conn, cfg: GroupConfig, keyGroups: seq<string>, db: nat, ghost find: Finder)
    returns (result: DbGroups)
    requires conn.buffered == [] && keyGroups == Patterns(cfg)
    requires ScriptScanEnds(conn.server, Itoa(db), keyGroups, cfg.batchSize) && RunsScript(conn.server, find)
    modifies conn
    ensures conn.InSync()
    ensures ResultMetrics(Label(Itoa(db)), result) ==
            if old(conn.Poisoned()) then multiset{} else DbMetrics(conn.server, find, cfg, db)
    ensures result.Everything? ==> IsGroupMap(result.groups)
  {
    var r := conn.Do(Select(Itoa(db)));
    if r.Err? {
      return NotGathered;
    }
    var groups := GatherKeyGroupMetrics(conn, cfg.batchSize, keyGroups, find);
    if groups.None? {
      return NotGathered;
    }
    ghost var booked := Booked(conn.server, find, Itoa(db), keyGroups, cfg.batchSize).value;
    result := CutIfNeeded(groups.value, cfg.limit, booked);
    assert ResultMetrics(Label(Itoa(db)), result) == BookedMetrics(Label(Itoa(db)), booked, cfg.limit);
  }

  /** All groups of a database, or the top groups and the overflow. */
  method CutIfNeeded(groups: map<string, KeyGroup>, limit: nat, ghost booked: seq<Entry>) returns (result: DbGroups)
    requires groups == WrappedSummary(booked)
    ensures forall dbLabel :: ResultMetrics(dbLabel, result) == BookedMetrics(dbLabel, booked, limit)
    ensures result.Everything? ==> IsGroupMap(result.groups)
  {
    SummaryIsGroupMap(booked);
    RankedIsTheSortedList(groups);
    ListedOnce(Ranked(groups), groups);
    if |groups| > limit {
      var top, overflow := CutGroups(groups, limit);
      return TopOnly(top, overflow, |groups|);
    }
    return Everything(groups);
  }

  /** The strings.TrimSpace and empty-string loops over the CSV fields. */
  method ConfiguredPatterns(cfg: GroupConfig) returns (keyGroups: seq<string>)
    ensures keyGroups == Patterns(cfg)
  {
    keyGroups := [];
    if TrimSpace(cfg.checkKeyGroups) == "" {
      return;
    }
    var fields := cfg.csv(cfg.checkKeyGroups);
    if fields.None? {
      return;
    }
    for i := 0 to |fields.value|
      invariant NonEmpty(fields.value[i..], keyGroups) == NonEmpty(fields.value, [])
    {
      assert fields.value[i..][1..] == fields.value[i + 1..];
      var v := TrimSpace(fields.value[i]);
      if v != "" {
        keyGroups := keyGroups + [v];
      }
    }
  }

  /** The samples for databases 0, 1, ... together. */
  function Together<T>(one: (nat, T) -> multiset<Metric>, results: seq<T>): multiset<Metric> {
    if results == [] then multiset{}
    else
      var db := |results| - 1;
      Together(one, results[..db]) + one(db, results[db])
  }

  lemma {:induction false} TogetherSnoc<T>(one: (nat, T) -> multiset<Metric>, results: seq<T>, r: T)
    ensures Together(one, results + [r]) == Together(one, results) + one(|results|, r)
  {
    assert (results + [r])[..|results|] == results;
  }

  /** What the results for all databases will export. */
  ghost function ResultsMetrics(results: seq<DbGroups>): multiset<Metric> {
    Together((db: nat, r: DbGroups) => ResultMetrics(Label(Itoa(db)), r), results)
  }

  /** What is exported for all databases, if any pattern is configured. */
  ghost function AllDbsMetrics(server: Server, find: Finder, cfg: GroupConfig, dbCount: nat, poisoned: bool)
    : multiset<Metric>
  {
    if Patterns(cfg) == [] then multiset{} else DbsMetrics(server, find, cfg, dbCount, poisoned)
  }

  /** The cursors lead back to 0 in every database that is gathered. */
  ghost predicate GroupScansEnd(server: Server, cfg: GroupConfig, dbCount: nat) {
    forall db: nat | db < dbCount :: ScriptScanEnds(server, Itoa(db), Patterns(cfg), cfg.batchSize)
  }

  /** gatherKeyGroupsMetricsForAllDatabases */
  method GatherAllDatabases(conn: Conn, cfg: GroupConfig, dbCount: nat, ghost find: Finder)
    returns (results: seq<DbGroups>)
    requires conn.buffered == []
    requires GroupScansEnd(conn.server, cfg, dbCount) && RunsScript(conn.server, find)
    modifies conn
    ensures conn.buffered == []
    ensures forall r | r in results && r.Everything? :: IsGroupMap(r.groups)
    ensures ResultsMetrics(results) == AllDbsMetrics(conn.server, find, cfg, dbCount, old(conn.Poisoned()))
  {
    results := [];
    var keyGroups := ConfiguredPatterns(cfg);
    if |keyGroups| == 0 {
      return;
    }
    ghost var poisoned := conn.Poisoned();
    ghost var one := PerDb(conn.server, find, cfg, poisoned);
    for db := 0 to dbCount
      invariant conn.buffered == [] && |results| == db
      invariant conn.Poisoned() == (poisoned && db == 0)
      invariant forall r | r in results && r.Everything? :: IsGroupMap(r.groups)
      invariant ResultsMetrics(results) == SumTo(one, db)
    {
      var r := GatherDatabase(conn, cfg, keyGroups, db, find);
      MoreResults(one, results, r);
      results := results + [r];
    }
  }

  lemma {:induction false} MoreResults(one: nat -> multiset<Metric>, results: seq<DbGroups>, r: DbGroups)
    requires ResultsMetrics(results) == SumTo(one, |results|)
    requires ResultMetrics(Label(Itoa(|results|)), r) == one(|results|)
    ensures ResultsMetrics(results + [r]) == SumTo(one, |results| + 1)
  {
    TogetherSnoc((db: nat, r: DbGroups) => ResultMetrics(Label(Itoa(db)), r), results, r);
  }

  // ----- the export loop -----

  method RegisterGroup(ch: Channel, dbLabel: string, g: KeyGroup)
    modifies ch
    ensures ch.sent == old(ch.sent) + GroupMetrics(dbLabel, g)
  {
    ch.Gauge("key_group_count", g.count as real, [dbLabel, g.name]);
    ch.Gauge("key_group_memory_usage_bytes", g.memory as real, [dbLabel, g.name]);
  }

  method RegisterGroups(ch: Channel, dbLabel: string, s: seq<KeyGroup>)
    modifies ch
    ensures multiset(ch.sent) == multiset(old(ch.sent)) + SeriesMetrics(dbLabel, s)
  {
    for i := 0 to |s|
      invariant multiset(ch.sent) + SeriesMetrics(dbLabel, s[i..])
             == multiset(old(ch.sent)) + SeriesMetrics(dbLabel, s)
    {
      assert s[i..][1..] == s[i + 1..];
      ghost var before := ch.sent;
      RegisterGroup(ch, dbLabel, s[i]);
      SentAppend(before, GroupMetrics(dbLabel, s[i]), SeriesMetrics(dbLabel, s[i + 1..]));
    }
  }

  lemma {:induction false} SeriesAppend(dbLabel: string, a: seq<KeyGroup>, b: seq<KeyGroup>)
    ensures SeriesMetrics(dbLabel, a + b) == SeriesMetrics(dbLabel, a) + SeriesMetrics(dbLabel, b)
  {
    if a == [] {
      assert a + b == b;
    } else {
      assert (a + b)[1..] == a[1..] + b;
      SeriesAppend(dbLabel, a[1..], b);
    }
  }

  /** The order in which series are exported does not matter. */
  lemma {:induction false} SeriesPermuted(dbLabel: string, a: seq<KeyGroup>, b: seq<KeyGroup>)
    requires multiset(a) == multiset(b)
    ensures SeriesMetrics(dbLabel, a) == SeriesMetrics(dbLabel, b)
  {
    if a == [] {
      assert |b| == |multiset(b)| == |multiset(a)| == 0;
    } else {
      var i := PullOut(a, b);
      var left, right := b[..i], b[i + 1..];
      var first := multiset(GroupMetrics(dbLabel, a[0]));
      SeriesPermuted(dbLabel, a[1..], left + right);
      SeriesAppend(dbLabel, left, right);
      SeriesAppend(dbLabel, left, [a[0]] + right);
      assert ([a[0]] + right)[1..] == right;
      Exchange(first, SeriesMetrics(dbLabel, left), SeriesMetrics(dbLabel, right));
    }
  }

  lemma {:induction false} Exchange<T>(a: multiset<T>, b: multiset<T>, c: multiset<T>)
    ensures a + (b + c) == b + (a + c)
  {
  }

  /** The loop body of extractKeyGroupMetrics. */
  method ExportDatabase(ch: Channel, dbLabel: string, result: DbGroups)
    requires result.Everything? ==> IsGroupMap(result.groups)
    modifies ch
    ensures multiset(ch.sent) == multiset(old(ch.sent)) + ResultMetrics(dbLabel, result)
  {
    match result
    case NotGathered =>
    case TopOnly(top, overflow, distinct) =>
      ExportTop(ch, dbLabel, top, overflow);
      ch.Gauge("number_of_distinct_key_groups", distinct as real, [dbLabel]);
    case Everything(groups) =>
      ExportEverything(ch, dbLabel, groups);
      ch.Gauge("number_of_distinct_key_groups", |groups| as real, [dbLabel]);
  }

  /** The retained groups, then the overflow. */
  method ExportTop(ch: Channel, dbLabel: string, top: seq<KeyGroup>, overflow: KeyGroup)
    modifies ch
    ensures multiset(ch.sent) == multiset(old(ch.sent)) + SeriesMetrics(dbLabel, top + [overflow])
  {
    SeriesAppend(dbLabel, top, [overflow]);
    ghost var start := multiset(ch.sent);
    RegisterGroups(ch, dbLabel, top);
    RegisterGroups(ch, dbLabel, [overflow]);
    RegroupBags(start, SeriesMetrics(dbLabel, top), SeriesMetrics(dbLabel, [overflow]));
  }

  /** All groups, in whatever order the map is traversed. */
  method ExportEverything(ch: Channel, dbLabel: string, groups: map<string, KeyGroup>)
    requires IsGroupMap(groups)
    modifies ch
    ensures multiset(ch.sent) == multiset(old(ch.sent)) + SeriesMetrics(dbLabel, Ranked(groups))
  {
    var listed := ListGroups(groups);
    RankedIsTheSortedList(groups);
    SeriesPermuted(dbLabel, listed, Ranked(groups));
    RegisterGroups(ch, dbLabel, listed);
  }

  /** The loop of extractKeyGroupMetrics. */
  method ExportAll(ch: Channel, results: seq<DbGroups>)
    requires forall r | r in results && r.Everything? :: IsGroupMap(r.groups)
    modifies ch
    ensures multiset(ch.sent) == multiset(old(ch.sent)) + ResultsMetrics(results)
  {
    ghost var start := multiset(ch.sent);
    for db := 0 to |results|
      invariant multiset(ch.sent) == start + ResultsMetrics(results[..db])
    {
      assert results[db] in results;
      ExportedSnoc(start, results, db);
      ExportDatabase(ch, Label(Itoa(db)), results[db]);
    }
    assert results[..|results|] == results;
  }

  lemma {:induction false} ExportedSnoc(start: multiset<Metric>, results: seq<DbGroups>, db: nat)
    requires db < |results|
    ensures start + ResultsMetrics(results[..db + 1])
         == start + ResultsMetrics(results[..db]) + ResultMetrics(Label(Itoa(db)), results[db])
  {
    var one := (db: nat, r: DbGroups) => ResultMetrics(Label(Itoa(db)), r);
    assert results[..db + 1] == results[..db] + [results[db]];
    TogetherSnoc(one, results[..db], results[db]);
    RegroupBags(start, Together(one, results[..db]), one(db, results[db]));
  }

  /** extractKeyGroupMetrics; the measured duration is a parameter. */
  method ExtractKeyGroupMetrics(conn: Conn, ch: Channel, cfg: GroupConfig, dbCount: nat,
                                milliseconds: int, ghost find: Finder)
    requires conn.buffered == []
    requires GroupScansEnd(conn.server, cfg, dbCount) && RunsScript(conn.server, find)
    modifies conn, ch
    ensures conn.buffered == []
    ensures multiset(ch.sent) == multiset(old(ch.sent))
            + AllDbsMetrics(conn.server, find, cfg, dbCount, old(conn.Poisoned()))
            + multiset{Metric("last_key_groups_scrape_duration_milliseconds", milliseconds as real, [])}
  {
    var results := GatherAllDatabases(conn, cfg, dbCount, find);
    ExportAll(ch, results);
    ch.Gauge("last_key_groups_scrape_duration_milliseconds", milliseconds as real, []);
  }
}
