/** What the single pass over an INFO text guarantees about whole texts: labels
    follow the text, the latency join is a join, every database is covered once,
    and when the exporter panics. */
module InfoProofs {
  import opened Wrappers
  import opened GoStrings
  import opened Registry
  import opened InfoFields
  import opened Info

  // ----- master labels -----

  /** Two suffixes that both match begin alike after their underscore. */
  lemma {:induction false} SuffixesAgree(key: string, a: string, b: string)
    requires IsMasterField(key, a) && IsMasterField(key, b)
    requires |a| >= 2 && |b| >= 2 && !IsDigit(a[1]) && !IsDigit(b[1])
    ensures a[1] == b[1]
  {
    var rest := key[6..];
    var later := if |key| > 7 then AfterDigits(key[7..]) else "";
    assert a <= rest ==> key[7] == rest[1] == a[1];
    assert b <= rest ==> key[7] == rest[1] == b[1];
    assert a <= later ==> later[1] == a[1];
    assert b <= later ==> later[1] == b[1];
  }

  lemma {:induction false} MasterFieldsExclude(key: string)
    requires IsLinkStatus(key) || IsDirect(key)
    ensures !IsHost(key) && !IsPort(key)
  {
    if IsMasterField(key, "_link_status") {
      ExcludesHostAndPort(key, "_link_status");
    } else if IsMasterField(key, "_last_io_seconds_ago") {
      ExcludesHostAndPort(key, "_last_io_seconds_ago");
    } else if IsMasterField(key, "_sync_in_progress") {
      ExcludesHostAndPort(key, "_sync_in_progress");
    } else {
      assert key[0] == 's';
    }
  }

  lemma {:induction false} ExcludesHostAndPort(key: string, suffix: string)
    requires IsMasterField(key, suffix) && |suffix| >= 2 && suffix[1] in {'l', 's'}
    ensures !IsHost(key) && !IsPort(key)
  {
    if IsHost(key) {
      SuffixesAgree(key, suffix, "_host");
    }
    if IsPort(key) {
      SuffixesAgree(key, suffix, "_port");
    }
  }

  /** The last wanted field before i is the one at j if none follows it. */
  lemma {:induction false} LastOfAt(lines: seq<Line>, j: nat, i: nat, wanted: Wanted)
    requires j < i <= |lines| && lines[j].Field? && wanted.Accepts(lines[j].key)
    requires forall k | j < k < i :: !(lines[k].Field? && wanted.Accepts(lines[k].key))
    ensures LastOf(lines, i, wanted) == Some(lines[j].value)
  {
    if j + 1 < i {
      LastOfAt(lines, j, i - 1, wanted);
    }
  }

  function MasterName(key: string): string {
    if IsLinkStatus(key) then "master_link_up" else DirectName(key)
  }

  function MasterValue(key: string, value: string): real {
    if !IsLinkStatus(key) then ParseInt(value).IgnoringError() as real
    else if value == "up" then 1.0 else 0.0
  }

  /** A link, last-io, sync or offset line exports one sample, labelled with the
      host and the port of the last such lines before it. */
  lemma {:induction false} MasterLabelsFollowTheText(cfg: InfoConfig, lines: seq<Line>, i: nat)
    requires i < |lines| && InSection(lines, i, Replication)
    requires IsLinkStatus(lines[i].key) || IsDirect(lines[i].key)
    ensures RequestsAt(cfg, lines, i) ==
            [GaugeOf(MasterName(lines[i].key), MasterValue(lines[i].key, lines[i].value),
                     [HostAt(lines, i), PortAt(lines, i)])]
  {
    MasterFieldsExclude(lines[i].key);
    assert LastOf(lines, i + 1, Host) == LastOf(lines, i, Host);
    assert LastOf(lines, i + 1, Port) == LastOf(lines, i, Port);
  }

  /** KeyDB multi-master: where a master's block lists host and port (at h and p)
      before line i, and no other host or port line comes in between, the sample
      of line i names that master, whatever masters came before. */
  lemma {:induction false} BlockNamesItsMaster(cfg: InfoConfig, lines: seq<Line>, h: nat, p: nat, i: nat)
    requires h < i < |lines| && p < i && InSection(lines, i, Replication)
    requires IsLinkStatus(lines[i].key) || IsDirect(lines[i].key)
    requires lines[h].Field? && IsHost(lines[h].key) && lines[p].Field? && IsPort(lines[p].key)
    requires forall k | h < k < i :: !(lines[k].Field? && IsHost(lines[k].key))
    requires forall k | p < k < i :: !(lines[k].Field? && IsPort(lines[k].key))
    ensures |RequestsAt(cfg, lines, i)| == 1 && RequestsAt(cfg, lines, i)[0].Register?
    ensures RequestsAt(cfg, lines, i)[0].labels == [lines[h].value, lines[p].value]
  {
    LastOfAt(lines, h, i, Host);
    LastOfAt(lines, p, i, Port);
    MasterLabelsFollowTheText(cfg, lines, i);
  }

  // ----- panics -----

  lemma {:induction false} SafeMeansNoCrash(cfg: InfoConfig, lines: seq<Line>, n: nat)
    requires n <= |lines|
    ensures SafeBefore(cfg, lines, n) <==> forall i | 0 <= i < n :: !CrashesAt(cfg, lines, i)
  {
    if n == 0 {
    } else {
      var i := n - 1;
      SafeMeansNoCrash(cfg, lines, i);
      if SafeBefore(cfg, lines, n) {
        forall k | 0 <= k < n ensures !CrashesAt(cfg, lines, k) {
          assert k < i || k == i;
        }
      }
    }
  }

  /** A piece such as =1. */
  predicate HasEmptyName(piece: string) {
    |Split(piece, '=')| == 2 && Split(piece, '=')[0] == ""
  }

  /** A piece that is no pair at all, or one whose two numbers parse. */
  predicate IsReadable(floats: Floats, piece: string) {
    var split := Split(piece, '=');
    |split| != 2 || (split[0] != "" && floats(split[0][1..]).Some? && floats(split[1]).Some?)
  }

  ghost predicate EmptyNameAt(floats: Floats, pieces: seq<string>, k: nat)
    requires k < |pieces|
  {
    HasEmptyName(pieces[k]) && forall j | 0 <= j < k :: IsReadable(floats, pieces[j])
  }

  lemma {:induction false} EmptyNameShifts(floats: Floats, pieces: seq<string>, k: nat)
    requires 0 < k < |pieces| && IsReadable(floats, pieces[0])
    ensures EmptyNameAt(floats, pieces, k) <==> EmptyNameAt(floats, pieces[1..], k - 1)
  {
    assert forall j | 0 <= j < k - 1 :: pieces[1..][j] == pieces[j + 1];
    assert forall j | 0 < j < k :: pieces[j] == pieces[1..][j - 1];
  }

  /** A latency line crashes the exporter if and only if one of its pieces has an
      empty name before its only '=' and all pieces before that one are readable. */
  lemma {:induction false} CrashingLines(floats: Floats, pieces: seq<string>, table: map<real, real>)
    ensures ReadPercentiles(floats, pieces, table).Crashed? <==>
            exists k | 0 <= k < |pieces| :: EmptyNameAt(floats, pieces, k)
    decreases |pieces|
  {
    if pieces == [] {
    } else if HasEmptyName(pieces[0]) {
      assert EmptyNameAt(floats, pieces, 0);
    } else if IsReadable(floats, pieces[0]) {
      var first := ExtractPercentileVal(floats, pieces[0]);
      CrashingLines(floats, pieces[1..], table[first.percentile := first.value]);
      if k :| 0 <= k < |pieces[1..]| && EmptyNameAt(floats, pieces[1..], k) {
        EmptyNameShifts(floats, pieces, k + 1);
      }
      if k :| 0 <= k < |pieces| && EmptyNameAt(floats, pieces, k) {
        EmptyNameShifts(floats, pieces, k);
      }
    }
  }

  /** The replication fields under whose own names a description exists. */
  predicate IsExact(key: string) {
    HasSuffix(key, "last_io_seconds_ago") || HasSuffix(key, "sync_in_progress") || key == "slave_repl_offset"
  }

  /** The entries of the exporter's description table that INFO metrics use. */
  predicate CoversInfo(d: Descriptions) {
    && Has(d, "master_link_up", 2) && Has(d, "master_last_io_seconds_ago", 2) && Has(d, "master_sync_in_progress", 2)
    && Has(d, "slave_repl_offset", 2) && Has(d, "connected_slave_offset_bytes", 3)
    && Has(d, "connected_slave_lag_seconds", 3) && Has(d, "commands_total", 1)
    && Has(d, "commands_duration_seconds_total", 1) && Has(d, "commands_rejected_calls_total", 1)
    && Has(d, "commands_failed_calls_total", 1) && Has(d, "errors_total", 1) && Has(d, "db_keys", 1)
    && Has(d, "db_keys_expiring", 1) && Has(d, "db_keys_cached", 1) && Has(d, "db_avg_ttl_seconds", 1)
    && Has(d, "sentinel_master_status", 3) && Has(d, "sentinel_master_slaves", 2)
    && Has(d, "sentinel_master_sentinels", 2) && Has(d, "latency_percentiles_usec", 1) && Has(d, "slave_info", 3)
  }

  /** A field of the Replication section that matches the open-ended pattern
      without being one of the described names. */
  predicate IsInexact(lines: seq<Line>, i: nat)
    requires i < |lines|
  {
    InSection(lines, i, Replication) && !IsLinkStatus(lines[i].key) && IsDirect(lines[i].key) && !IsExact(lines[i].key)
  }

  lemma {:induction false} ReplicationIsSafe(cfg: InfoConfig, d: Descriptions, host: string, port: string,
                                             key: string, value: string)
    requires CoversInfo(d) && (IsLinkStatus(key) || !IsDirect(key) || IsExact(key))
    ensures var r := ReplicationRequests(cfg, host, port, key, value);
            r.Some? ==> AllSafe(d, r.value)
  {
  }

  lemma {:induction false} PlainIsSafe(cfg: InfoConfig, d: Descriptions, key: string, value: string)
    ensures AllSafe(d, GenericRequests(cfg, key, value)) && AllSafe(d, ServerRequests(cfg, key, value))
  {
    assert forall r | r in GenericRequests(cfg, key, value) :: r.Register? && r.labels == [];
    assert forall r | r in ServerRequests(cfg, key, value) :: r.Register? && r.labels == [];
  }

  lemma {:induction false} SentinelIsSafe(cfg: InfoConfig, d: Descriptions, key: string, value: string)
    requires CoversInfo(d)
    ensures AllSafe(d, SentinelRequests(cfg, key, value))
  {
  }

  lemma {:induction false} StatsAreSafe(cfg: InfoConfig, d: Descriptions, key: string, value: string, stats: CommandStats)
    requires CoversInfo(d)
    ensures AllSafe(d, CommandRequests(stats)) && AllSafe(d, ErrorRequests(cfg, key, value))
  {
  }

  lemma {:induction false} DbLineIsSafe(d: Descriptions, key: string, stats: DbStats)
    requires CoversInfo(d)
    ensures AllSafe(d, DbRequests(key, stats))
  {
  }

  lemma {:induction false} AllSafeAppend(d: Descriptions, a: seq<Request>, b: seq<Request>)
    requires AllSafe(d, a) && AllSafe(d, b)
    ensures AllSafe(d, a + b)
  {
  }

  lemma {:induction false} FieldIsSafe(cfg: InfoConfig, d: Descriptions, section: Section, host: string, port: string,
                                       key: string, value: string)
    requires CoversInfo(d)
    requires section == Replication ==> IsLinkStatus(key) || !IsDirect(key) || IsExact(key)
    ensures AllSafe(d, FieldRequests(cfg, section, host, port, key, value))
  {
    PlainIsSafe(cfg, d, key, value);
    match section
    case Replication => ReplicationIsSafe(cfg, d, host, port, key, value);
    case Server => AllSafeAppend(d, ServerRequests(cfg, key, value), GenericRequests(cfg, key, value));
    case Commandstats => StatsAreSafe(cfg, d, key, value, CommandStatsOf(cfg.floats, key, value));
    case Latencystats =>
    case Errorstats => StatsAreSafe(cfg, d, key, value, CommandStatsOf(cfg.floats, key, value));
    case Keyspace =>
      if KeyspaceOf(cfg.floats, key, value).Some? {
        DbLineIsSafe(d, key, KeyspaceOf(cfg.floats, key, value).value);
      }
    case Sentinel =>
      SentinelIsSafe(cfg, d, key, value);
      AllSafeAppend(d, SentinelRequests(cfg, key, value), GenericRequests(cfg, key, value));
    case Unknown =>
  }

  /** The lookup for line i fails, with the descriptions there are by then. */
  predicate LookupFailsAt(cfg: InfoConfig, s: State, lines: seq<Line>, i: nat)
    requires i < |lines|
  {
    && IsInexact(lines, i)
    && var before := Run(s, RequestsBefore(cfg, lines, i));
       before.Some? && DirectName(lines[i].key) !in before.value.descriptions
  }

  lemma {:induction false} LinePanics(cfg: InfoConfig, s: State, lines: seq<Line>, i: nat, before: State)
    requires i < |lines| && CoversInfo(s.descriptions)
    requires Run(s, RequestsBefore(cfg, lines, i)) == Some(before)
    ensures Run(before, RequestsAt(cfg, lines, i)).None? <==> LookupFailsAt(cfg, s, lines, i)
  {
    RunExtends(s, RequestsBefore(cfg, lines, i));
    if IsInexact(lines, i) {
      MasterLabelsFollowTheText(cfg, lines, i);
      var r := RequestsAt(cfg, lines, i)[0];
      assert RequestsAt(cfg, lines, i) == [r] && [r][1..] == [];
      assert Run(before, [r]).None? <==> Step(before, r).None?;
    } else {
      if lines[i].Field? {
        FieldIsSafe(cfg, s.descriptions, SectionAt(lines, i), HostAt(lines, i + 1), PortAt(lines, i + 1),
                    lines[i].key, lines[i].value);
      }
      SafeRun(before, s.descriptions, RequestsAt(cfg, lines, i));
    }
  }

  predicate AnyLookupFails(cfg: InfoConfig, s: State, lines: seq<Line>, n: nat)
    requires n <= |lines|
  {
    exists i | 0 <= i < n :: LookupFailsAt(cfg, s, lines, i)
  }

  lemma {:induction false} AnyLookupStep(cfg: InfoConfig, s: State, lines: seq<Line>, i: nat)
    requires i < |lines|
    ensures AnyLookupFails(cfg, s, lines, i + 1) <==> AnyLookupFails(cfg, s, lines, i) || LookupFailsAt(cfg, s, lines, i)
  {
    if j :| 0 <= j < i + 1 && LookupFailsAt(cfg, s, lines, j) {
      assert j < i || j == i;
    }
  }

  lemma {:induction false} LinesPanic(cfg: InfoConfig, s: State, lines: seq<Line>, n: nat)
    requires n <= |lines| && CoversInfo(s.descriptions)
    ensures Run(s, RequestsBefore(cfg, lines, n)).None? <==> AnyLookupFails(cfg, s, lines, n)
  {
    if n == 0 {
    } else {
      var i := n - 1;
      LinesPanic(cfg, s, lines, i);
      AnyLookupStep(cfg, s, lines, i);
      RunAppend(s, RequestsBefore(cfg, lines, i), RequestsAt(cfg, lines, i));
      if Run(s, RequestsBefore(cfg, lines, i)).Some? {
        LinePanics(cfg, s, lines, i, Run(s, RequestsBefore(cfg, lines, i)).value);
      }
    }
  }

  /** Line i asks for a name that neither the table nor any line before has. */
  predicate IsUndescribed(cfg: InfoConfig, d: Descriptions, lines: seq<Line>, i: nat)
    requires i < |lines|
  {
    && IsInexact(lines, i)
    && DirectName(lines[i].key) !in d
    && forall r | r in RequestsBefore(cfg, lines, i) :: !Describes(r, DirectName(lines[i].key))
  }

  lemma {:induction false} LookupsFailByText(cfg: InfoConfig, s: State, lines: seq<Line>)
    requires CoversInfo(s.descriptions)
    ensures (exists i | 0 <= i < |lines| :: LookupFailsAt(cfg, s, lines, i)) <==>
            exists i | 0 <= i < |lines| :: IsUndescribed(cfg, s.descriptions, lines, i)
  {
    if i :| 0 <= i < |lines| && LookupFailsAt(cfg, s, lines, i) {
      DescribedAfter(s, RequestsBefore(cfg, lines, i), DirectName(lines[i].key));
      assert IsUndescribed(cfg, s.descriptions, lines, i);
    }
    if i :| 0 <= i < |lines| && IsUndescribed(cfg, s.descriptions, lines, i) {
      LinesPanic(cfg, s, lines, i);
      if Run(s, RequestsBefore(cfg, lines, i)).Some? {
        DescribedAfter(s, RequestsBefore(cfg, lines, i), DirectName(lines[i].key));
        assert LookupFailsAt(cfg, s, lines, i);
      }
    }
  }

  lemma {:induction false} SummariesAreSafe(cfg: InfoConfig, d: Descriptions, lines: seq<Line>, order: seq<string>)
    requires CoversInfo(d)
    ensures AllSafe(d, AllSummaryRequests(cfg, lines, order))
    decreases |order|
  {
    if order == [] {
    } else {
      SummariesAreSafe(cfg, d, lines, order[..|order| - 1]);
    }
  }

  lemma {:induction false} EmptyDbsAreSafe(cfg: InfoConfig, d: Descriptions, lines: seq<Line>, n: nat)
    requires CoversInfo(d)
    ensures AllSafe(d, EmptyDbRequests(cfg, lines, n))
  {
    if n == 0 {
    } else {
      EmptyDbsAreSafe(cfg, d, lines, n - 1);
    }
  }

  lemma {:induction false} ClosingNeverPanics(s: State, d: Descriptions, lines: seq<Line>)
    requires CoversInfo(d) && Extends(d, s.descriptions)
    ensures Run(s, ClosingRequests(lines)).Some?
  {
    var requests := ClosingRequests(lines);
    var next := Step(s, requests[0]).value;
    assert "instance_info" in next.descriptions;
    var rest := requests[1..];
    assert rest[0] == GaugeOf("instance_info", 1.0, ValuesAt(lines, InstanceLabels(lines)));
    var last := Step(next, rest[0]).value;
    assert Extends(d, last.descriptions);
    assert forall r | r in rest[1..] :: r.Register? && r.name == "slave_info";
    SafeRun(last, d, rest[1..]);
  }

  /** Given the exporter's description table, a scrape of INFO dies on a missing
      description if and only if some replication field that matches the
      open-ended pattern has a name that is neither in the table nor created by
      a line before it. */
  lemma {:induction false} InfoPanicsExactly(cfg: InfoConfig, s: State, lines: seq<Line>, order: seq<string>, dbCount: nat)
    requires CoversInfo(s.descriptions)
    ensures Run(s, InfoRequests(cfg, lines, order, dbCount)).None? <==>
            exists i | 0 <= i < |lines| :: IsUndescribed(cfg, s.descriptions, lines, i)
  {
    var a, b := RequestsBefore(cfg, lines, |lines|), AllSummaryRequests(cfg, lines, order);
    var c, d := EmptyDbRequests(cfg, lines, dbCount), ClosingRequests(lines);
    LinesPanic(cfg, s, lines, |lines|);
    LookupsFailByText(cfg, s, lines);
    RunAppend(s, a + b + c, d);
    RunAppend(s, a + b, c);
    RunAppend(s, a, b);
    if Run(s, a).Some? {
      RunExtends(s, a);
      SummariesAreSafe(cfg, s.descriptions, lines, order);
      SafeRun(Run(s, a).value, s.descriptions, b);
      RunExtends(Run(s, a).value, b);
      var afterB := Run(Run(s, a).value, b).value;
      EmptyDbsAreSafe(cfg, s.descriptions, lines, dbCount);
      SafeRun(afterB, s.descriptions, c);
      RunExtends(afterB, c);
      ClosingNeverPanics(Run(afterB, c).value, s.descriptions, lines);
    }
  }

  // ----- keyspace coverage -----

  predicate IsDbKeys(r: Request, db: string) {
    r.Register? && r.name == "db_keys" && r.labels == [db]
  }

  /** How often db_keys is requested for a database. */
  function DbKeysCount(requests: seq<Request>, db: string): nat {
    if requests == [] then 0 else (if IsDbKeys(requests[0], db) then 1 else 0) + DbKeysCount(requests[1..], db)
  }

  lemma {:induction false} DbKeysAppend(a: seq<Request>, b: seq<Request>, db: string)
    ensures DbKeysCount(a + b, db) == DbKeysCount(a, db) + DbKeysCount(b, db)
  {
    if a == [] {
      assert a + b == b;
    } else {
      assert (a + b)[1..] == a[1..] + b;
      DbKeysAppend(a[1..], b, db);
    }
  }

  predicate NoneIsDbKeys(requests: seq<Request>, db: string) {
    forall r | r in requests :: !IsDbKeys(r, db)
  }

  lemma {:induction false} NoDbKeys(requests: seq<Request>, db: string)
    requires NoneIsDbKeys(requests, db)
    ensures DbKeysCount(requests, db) == 0
  {
    if requests == [] {
    } else {
      NoDbKeys(requests[1..], db);
    }
  }

  lemma {:induction false} PlainRequestsHaveNoLabels(cfg: InfoConfig, key: string, value: string, db: string)
    ensures NoneIsDbKeys(GenericRequests(cfg, key, value), db)
    ensures NoneIsDbKeys(ServerRequests(cfg, key, value), db)
  {
    assert forall r | r in GenericRequests(cfg, key, value) :: r.labels == [];
    assert forall r | r in ServerRequests(cfg, key, value) :: r.labels == [];
  }

  lemma {:induction false} ReplicationRequestsAreOthers(cfg: InfoConfig, host: string, port: string,
                                                        key: string, value: string, db: string)
    ensures NoneIsDbKeys(ReplicationRequests(cfg, host, port, key, value).GetOr([]), db)
  {
    assert forall r | r in ReplicationRequests(cfg, host, port, key, value).GetOr([]) :: |r.labels| >= 2;
  }

  lemma {:induction false} SentinelRequestsAreOthers(cfg: InfoConfig, key: string, value: string, db: string)
    ensures NoneIsDbKeys(SentinelRequests(cfg, key, value), db)
  {
    assert forall r | r in SentinelRequests(cfg, key, value) :: |r.labels| != 1;
  }

  lemma {:induction false} StatsRequestsAreOthers(cfg: InfoConfig, stats: CommandStats, key: string, value: string,
                                                  db: string)
    ensures NoneIsDbKeys(CommandRequests(stats), db)
    ensures NoneIsDbKeys(ErrorRequests(cfg, key, value), db)
  {
    assert forall r | r in CommandRequests(stats) :: r.name[0] == 'c';
    assert forall r | r in ErrorRequests(cfg, key, value) :: r.name[0] == 'e';
  }

  lemma {:induction false} OnlyKeyspaceCounts(cfg: InfoConfig, section: Section, host: string, port: string,
                                              key: string, value: string, db: string)
    requires section != Keyspace || KeyspaceOf(cfg.floats, key, value).None?
    ensures NoneIsDbKeys(FieldRequests(cfg, section, host, port, key, value), db)
  {
    PlainRequestsHaveNoLabels(cfg, key, value, db);
    ReplicationRequestsAreOthers(cfg, host, port, key, value, db);
    SentinelRequestsAreOthers(cfg, key, value, db);
    StatsRequestsAreOthers(cfg, CommandStatsOf(cfg.floats, key, value), key, value, db);
    var generic, special := GenericRequests(cfg, key, value), ServerRequests(cfg, key, value);
    var sentinel := SentinelRequests(cfg, key, value);
    assert NoneIsDbKeys(special + generic, db) && NoneIsDbKeys(sentinel + generic, db);
  }

  lemma {:induction false} DbLineCounts(key: string, stats: DbStats, db: string)
    ensures DbKeysCount(DbRequests(key, stats), db) == if key == db then 1 else 0
  {
    var requests := DbRequests(key, stats);
    assert requests[0] == GaugeOf("db_keys", stats.keys, [key]);
    assert IsDbKeys(requests[0], db) <==> key == db;
    assert forall r | r in requests[1..] :: r.name in {"db_keys_expiring", "db_keys_cached", "db_avg_ttl_seconds"};
    NoDbKeys(requests[1..], db);
  }

  /** The number of parsed keyspace lines for a database before line n. */
  function DbLines(cfg: InfoConfig, lines: seq<Line>, n: nat, db: string): nat
    requires n <= |lines|
  {
    if n == 0 then 0
    else DbLines(cfg, lines, n - 1, db) + if IsDbLine(cfg, lines, n - 1) && lines[n - 1].key == db then 1 else 0
  }

  lemma {:induction false} LinesRequestDbKeys(cfg: InfoConfig, lines: seq<Line>, n: nat, db: string)
    requires n <= |lines|
    ensures DbKeysCount(RequestsBefore(cfg, lines, n), db) == DbLines(cfg, lines, n, db)
    ensures DbLines(cfg, lines, n, db) > 0 <==> IsHandled(cfg, lines, n, db)
  {
    if n > 0 {
      var i := n - 1;
      LinesRequestDbKeys(cfg, lines, i, db);
      DbKeysAppend(RequestsBefore(cfg, lines, i), RequestsAt(cfg, lines, i), db);
      if IsDbLine(cfg, lines, i) {
        DbLineCounts(lines[i].key, KeyspaceOf(cfg.floats, lines[i].key, lines[i].value).value, db);
      } else {
        if lines[i].Field? {
          OnlyKeyspaceCounts(cfg, SectionAt(lines, i), HostAt(lines, i + 1), PortAt(lines, i + 1),
                             lines[i].key, lines[i].value, db);
        }
        NoDbKeys(RequestsAt(cfg, lines, i), db);
      }
      if j :| 0 <= j < n && IsDbLine(cfg, lines, j) && lines[j].key == db {
        assert j < i || j == i;
      }
    }
  }

  lemma {:induction false} DbNameInjective(m: nat, n: nat)
    requires DbName(m) == DbName(n)
    ensures m == n
  {
    assert DbName(m)[2..] == Itoa(m) && DbName(n)[2..] == Itoa(n);
    ItoaInjective(m, n);
  }

  /** db is one of db0 to db(n-1). */
  predicate IsNumberedDb(db: string, n: nat) {
    exists i | 0 <= i < n :: DbName(i) == db
  }

  lemma {:induction false} NumberedStep(db: string, i: nat)
    ensures IsNumberedDb(db, i + 1) <==> IsNumberedDb(db, i) || DbName(i) == db
    ensures DbName(i) == db ==> !IsNumberedDb(db, i)
  {
    if j :| 0 <= j < i + 1 && DbName(j) == db {
      assert j < i || j == i;
    }
    if DbName(i) == db {
      if j :| 0 <= j < i && DbName(j) == db {
        DbNameInjective(i, j);
      }
    }
  }

  function ZeroRequests(name: string): seq<Request> {
    [GaugeOf("db_keys", 0.0, [name]), GaugeOf("db_keys_expiring", 0.0, [name])]
  }

  lemma {:induction false} ZeroRequestsCount(name: string, db: string)
    ensures DbKeysCount(ZeroRequests(name), db) == if name == db then 1 else 0
  {
    var zero := ZeroRequests(name);
    assert zero[1..] == [zero[1]] && !IsDbKeys(zero[1], db);
    NoDbKeys([zero[1]], db);
  }

  lemma {:induction false} EmptyDbsRequestDbKeys(cfg: InfoConfig, lines: seq<Line>, n: nat, db: string)
    requires cfg.emptyDatabases
    ensures DbKeysCount(EmptyDbRequests(cfg, lines, n), db) ==
            if IsNumberedDb(db, n) && !IsHandled(cfg, lines, |lines|, db) then 1 else 0
  {
    if n == 0 {
    } else {
      var i := n - 1;
      EmptyDbsRequestDbKeys(cfg, lines, i, db);
      NumberedStep(db, i);
      ZeroRequestsCount(DbName(i), db);
      var added := if IsHandled(cfg, lines, |lines|, DbName(i)) then [] else ZeroRequests(DbName(i));
      assert EmptyDbRequests(cfg, lines, n) == EmptyDbRequests(cfg, lines, i) + added;
      DbKeysAppend(EmptyDbRequests(cfg, lines, i), added, db);
    }
  }

  lemma {:induction false} SummariesRequestNoDbKeys(cfg: InfoConfig, lines: seq<Line>, order: seq<string>, db: string)
    ensures NoneIsDbKeys(AllSummaryRequests(cfg, lines, order), db)
    decreases |order|
  {
    if order == [] {
    } else {
      SummariesRequestNoDbKeys(cfg, lines, order[..|order| - 1], db);
    }
  }

  lemma {:induction false} ClosingRequestsNoDbKeys(lines: seq<Line>, db: string)
    ensures NoneIsDbKeys(ClosingRequests(lines), db)
  {
    assert forall r | r in ClosingRequests(lines) :: r.name in {"instance_info", "slave_info"};
  }

  /** The number of db_keys samples a scrape of INFO requests for a database: one
      for every parsed keyspace line, and one for a numbered database without. */
  lemma {:induction false} DbKeysRequested(cfg: InfoConfig, lines: seq<Line>, order: seq<string>, dbCount: nat, db: string)
    requires cfg.emptyDatabases
    ensures DbKeysCount(InfoRequests(cfg, lines, order, dbCount), db) ==
            DbLines(cfg, lines, |lines|, db)
            + if IsNumberedDb(db, dbCount) && !IsHandled(cfg, lines, |lines|, db) then 1 else 0
  {
    var a, b := RequestsBefore(cfg, lines, |lines|), AllSummaryRequests(cfg, lines, order);
    var c, d := EmptyDbRequests(cfg, lines, dbCount), ClosingRequests(lines);
    LinesRequestDbKeys(cfg, lines, |lines|, db);
    SummariesRequestNoDbKeys(cfg, lines, order, db);
    NoDbKeys(b, db);
    EmptyDbsRequestDbKeys(cfg, lines, dbCount, db);
    ClosingRequestsNoDbKeys(lines, db);
    NoDbKeys(d, db);
    DbKeysAppend(a, b, db);
    DbKeysAppend(a + b, c, db);
    DbKeysAppend(a + b + c, d, db);
  }

  /** No two parsed keyspace lines are for one database. */
  predicate DistinctDbLines(cfg: InfoConfig, lines: seq<Line>) {
    forall i, j | 0 <= i < j < |lines| ::
      IsDbLine(cfg, lines, i) && IsDbLine(cfg, lines, j) ==> lines[i].key != lines[j].key
  }

  lemma {:induction false} DistinctLinesCountOnce(cfg: InfoConfig, lines: seq<Line>, n: nat, db: string)
    requires n <= |lines| && DistinctDbLines(cfg, lines)
    ensures DbLines(cfg, lines, n, db) <= 1
  {
    if n == 0 {
    } else {
      DistinctLinesCountOnce(cfg, lines, n - 1, db);
      if IsDbLine(cfg, lines, n - 1) && lines[n - 1].key == db {
        LinesRequestDbKeys(cfg, lines, n - 1, db);
        assert !IsHandled(cfg, lines, n - 1, db);
      }
    }
  }

  /** Keyspace coverage: with distinct keyspace lines, db_keys is requested exactly
      once for every database the text lists and for db0 to db(dbCount - 1), and
      for no other. */
  lemma {:induction false} EveryDatabaseOnce(cfg: InfoConfig, lines: seq<Line>, order: seq<string>, dbCount: nat, db: string)
    requires cfg.emptyDatabases && DistinctDbLines(cfg, lines)
    ensures DbKeysCount(InfoRequests(cfg, lines, order, dbCount), db) ==
            if IsHandled(cfg, lines, |lines|, db) || IsNumberedDb(db, dbCount) then 1 else 0
  {
    DbKeysRequested(cfg, lines, order, dbCount, db);
    DistinctLinesCountOnce(cfg, lines, |lines|, db);
    LinesRequestDbKeys(cfg, lines, |lines|, db);
  }

  /** Zero is reported only for databases the text does not list. */
  lemma {:induction false} ZeroOnlyIfUnlisted(cfg: InfoConfig, lines: seq<Line>, n: nat, r: Request)
    requires r in EmptyDbRequests(cfg, lines, n)
    ensures r.Register? && r.value == 0.0 && |r.labels| == 1
    ensures IsNumberedDb(r.labels[0], n) && !IsHandled(cfg, lines, |lines|, r.labels[0])
  {
    if r in EmptyDbRequests(cfg, lines, n - 1) {
      ZeroOnlyIfUnlisted(cfg, lines, n - 1, r);
    } else {
      assert DbName(n - 1) == r.labels[0];
    }
  }

  // ----- the latency join -----

  /** A summary is requested for a command. */
  predicate IsSummaryFor(r: Request, cmd: string) {
    r.Summary? && r.labels == [cmd]
  }

  /** The join: a summary is requested for exactly the commands with a readable
      Latencystats line and a Commandstats line, with the table of the last such
      line, and the count and sum of the last Commandstats line. */
  lemma {:induction false} SummariesAreTheJoin(cfg: InfoConfig, lines: seq<Line>, order: seq<string>, r: Request)
    requires IsCommandOrder(cfg, lines, order) && r.Summary?
    ensures r in AllSummaryRequests(cfg, lines, order) <==>
            exists cmd ::
              var table, stats := LatencyBefore(cfg, lines, |lines|, cmd), StatsBefore(cfg, lines, |lines|, cmd);
              table.Some? && stats.Some?
              && r == Summary("latency_percentiles_usec", cfg.toUint64(stats.value.calls), stats.value.usec,
                              table.value, [cmd])
  {
    SummaryMembers(cfg, lines, order, r);
    if cmd :| cmd in order && r in SummaryRequests(cfg, lines, cmd) {
      assert StatsBefore(cfg, lines, |lines|, cmd).Some?;
    }
    if cmd :| var table, stats := LatencyBefore(cfg, lines, |lines|, cmd), StatsBefore(cfg, lines, |lines|, cmd);
              table.Some? && stats.Some?
              && r == Summary("latency_percentiles_usec", cfg.toUint64(stats.value.calls), stats.value.usec,
                              table.value, [cmd]) {
      assert cmd in order && r in SummaryRequests(cfg, lines, cmd);
    }
  }

  lemma {:induction false} SummaryMembers(cfg: InfoConfig, lines: seq<Line>, order: seq<string>, r: Request)
    ensures r in AllSummaryRequests(cfg, lines, order) <==>
            exists cmd :: cmd in order && r in SummaryRequests(cfg, lines, cmd)
    decreases |order|
  {
    if order == [] {
    } else {
      var front, last := order[..|order| - 1], order[|order| - 1];
      SummaryMembers(cfg, lines, front, r);
      assert order == front + [last];
    }
  }

  function SummaryCount(requests: seq<Request>, cmd: string): nat {
    if requests == [] then 0
    else (if IsSummaryFor(requests[0], cmd) then 1 else 0) + SummaryCount(requests[1..], cmd)
  }

  lemma {:induction false} SummaryCountAppend(a: seq<Request>, b: seq<Request>, cmd: string)
    ensures SummaryCount(a + b, cmd) == SummaryCount(a, cmd) + SummaryCount(b, cmd)
  {
    if a == [] {
      assert a + b == b;
    } else {
      assert (a + b)[1..] == a[1..] + b;
      SummaryCountAppend(a[1..], b, cmd);
    }
  }

  predicate IsJoined(cfg: InfoConfig, lines: seq<Line>, cmd: string) {
    LatencyBefore(cfg, lines, |lines|, cmd).Some? && StatsBefore(cfg, lines, |lines|, cmd).Some?
  }

  lemma {:induction false} OwnSummaryOnly(cfg: InfoConfig, lines: seq<Line>, own: string, cmd: string)
    ensures SummaryCount(SummaryRequests(cfg, lines, own), cmd) == if own == cmd && IsJoined(cfg, lines, cmd) then 1 else 0
  {
    var requests := SummaryRequests(cfg, lines, own);
    if requests != [] {
      var last := [requests[1]];
      assert requests[1..] == last && last[1..] == [];
      assert IsSummaryFor(last[0], cmd) <==> own == cmd;
      assert SummaryCount(requests, cmd) == SummaryCount(last, cmd);
    }
  }

  /** No command is summarised twice. */
  lemma {:induction false} OneSummaryPerCommand(cfg: InfoConfig, lines: seq<Line>, order: seq<string>, cmd: string)
    requires forall i, j | 0 <= i < j < |order| :: order[i] != order[j]
    ensures SummaryCount(AllSummaryRequests(cfg, lines, order), cmd) ==
            if cmd in order && IsJoined(cfg, lines, cmd) then 1 else 0
    decreases |order|
  {
    if order == [] {
    } else {
      var front, last := order[..|order| - 1], order[|order| - 1];
      OneSummaryPerCommand(cfg, lines, front, cmd);
      SummaryCountAppend(AllSummaryRequests(cfg, lines, front), SummaryRequests(cfg, lines, last), cmd);
      OwnSummaryOnly(cfg, lines, last, cmd);
      assert order == front + [last];
    }
  }

  /** A block of lines that opens a section of its own. */
  predicate IsBlock(lines: seq<Line>) {
    lines == [] || lines[0].Header?
  }

  lemma {:induction false} SectionInBlock(a: seq<Line>, b: seq<Line>, k: nat)
    requires IsBlock(b) && 0 < k <= |b|
    ensures SectionAt(a + b, |a| + k) == SectionAt(b, k)
  {
    assert (a + b)[|a| + k - 1] == b[k - 1];
    if k > 1 {
      SectionInBlock(a, b, k - 1);
    }
  }

  lemma {:induction false} SectionInFront(a: seq<Line>, b: seq<Line>, k: nat)
    requires k <= |a|
    ensures SectionAt(a + b, k) == SectionAt(a, k)
  {
    if k == 0 {
    } else {
      SectionInFront(a, b, k - 1);
    }
  }

  lemma {:induction false} LatencyInFront(cfg: InfoConfig, a: seq<Line>, b: seq<Line>, k: nat, cmd: string)
    requires k <= |a|
    ensures LatencyBefore(cfg, a + b, k, cmd) == LatencyBefore(cfg, a, k, cmd)
  {
    if k == 0 {
    } else {
      LatencyInFront(cfg, a, b, k - 1, cmd);
      SectionInFront(a, b, k - 1);
      assert (a + b)[k - 1] == a[k - 1];
    }
  }

  lemma {:induction false} StatsInFront(cfg: InfoConfig, a: seq<Line>, b: seq<Line>, k: nat, cmd: string)
    requires k <= |a|
    ensures StatsBefore(cfg, a + b, k, cmd) == StatsBefore(cfg, a, k, cmd)
  {
    if k == 0 {
    } else {
      StatsInFront(cfg, a, b, k - 1, cmd);
      SectionInFront(a, b, k - 1);
      assert (a + b)[k - 1] == a[k - 1];
    }
  }

  function Later<T>(front: Option<T>, block: Option<T>): Option<T> {
    if block.Some? then block else front
  }

  /** A later block overrides, command by command. */
  lemma {:induction false} LatencyOverBlock(cfg: InfoConfig, a: seq<Line>, b: seq<Line>, k: nat, cmd: string)
    requires IsBlock(b) && k <= |b|
    ensures LatencyBefore(cfg, a + b, |a| + k, cmd) ==
            Later(LatencyBefore(cfg, a, |a|, cmd), LatencyBefore(cfg, b, k, cmd))
    ensures StatsBefore(cfg, a + b, |a| + k, cmd) ==
            Later(StatsBefore(cfg, a, |a|, cmd), StatsBefore(cfg, b, k, cmd))
  {
    if k == 0 {
      LatencyInFront(cfg, a, b, |a|, cmd);
      StatsInFront(cfg, a, b, |a|, cmd);
    } else {
      LatencyOverBlock(cfg, a, b, k - 1, cmd);
      assert (a + b)[|a| + k - 1] == b[k - 1];
      if k > 1 {
        SectionInBlock(a, b, k - 1);
      }
    }
  }

  /** The text made of some first lines and a list of blocks. */
  function Text(front: seq<Line>, blocks: seq<seq<Line>>): seq<Line> {
    if blocks == [] then front else Text(front, blocks[..|blocks| - 1]) + blocks[|blocks| - 1]
  }

  function Overridden<T>(front: Option<T>, blocks: seq<Option<T>>): Option<T> {
    if blocks == [] then front else Later(Overridden(front, blocks[..|blocks| - 1]), blocks[|blocks| - 1])
  }

  function LatencyIn(cfg: InfoConfig, lines: seq<Line>, cmd: string): Option<map<real, real>> {
    LatencyBefore(cfg, lines, |lines|, cmd)
  }

  function StatsIn(cfg: InfoConfig, lines: seq<Line>, cmd: string): Option<CommandStats> {
    StatsBefore(cfg, lines, |lines|, cmd)
  }

  function Latencies(cfg: InfoConfig, blocks: seq<seq<Line>>, cmd: string): seq<Option<map<real, real>>> {
    seq(|blocks|, i requires 0 <= i < |blocks| => LatencyIn(cfg, blocks[i], cmd))
  }

  function Statistics(cfg: InfoConfig, blocks: seq<seq<Line>>, cmd: string): seq<Option<CommandStats>> {
    seq(|blocks|, i requires 0 <= i < |blocks| => StatsIn(cfg, blocks[i], cmd))
  }

  lemma {:induction false} BlocksSnoc(cfg: InfoConfig, blocks: seq<seq<Line>>, cmd: string)
    requires blocks != []
    ensures var n := |blocks| - 1;
            && Latencies(cfg, blocks, cmd)[..n] == Latencies(cfg, blocks[..n], cmd)
            && Statistics(cfg, blocks, cmd)[..n] == Statistics(cfg, blocks[..n], cmd)
  {
  }

  lemma {:induction false} BlocksOverride(cfg: InfoConfig, front: seq<Line>, blocks: seq<seq<Line>>, cmd: string)
    requires forall b | b in blocks :: IsBlock(b)
    ensures LatencyIn(cfg, Text(front, blocks), cmd)
         == Overridden(LatencyIn(cfg, front, cmd), Latencies(cfg, blocks, cmd))
    ensures StatsIn(cfg, Text(front, blocks), cmd)
         == Overridden(StatsIn(cfg, front, cmd), Statistics(cfg, blocks, cmd))
  {
    if blocks == [] {
    } else {
      var n := |blocks| - 1;
      BlocksOverride(cfg, front, blocks[..n], cmd);
      LatencyOverBlock(cfg, Text(front, blocks[..n]), blocks[n], |blocks[n]|, cmd);
      BlocksSnoc(cfg, blocks, cmd);
    }
  }

  predicate AtMostOne<T>(xs: seq<Option<T>>) {
    forall i, j | 0 <= i < j < |xs| :: xs[i].None? || xs[j].None?
  }

  lemma {:induction false} OverriddenBy<T>(front: Option<T>, xs: seq<Option<T>>)
    ensures var r := Overridden(front, xs);
            if exists x | x in xs :: x.Some? then r in xs && r.Some? else r == front
  {
    if xs == [] {
    } else {
      var before, last := xs[..|xs| - 1], xs[|xs| - 1];
      OverriddenBy(front, before);
      assert xs == before + [last];
    }
  }

  lemma {:induction false} OrderDoesNotOverride<T(!new)>(front: Option<T>, xs: seq<Option<T>>, ys: seq<Option<T>>)
    requires AtMostOne(xs) && forall x :: x in xs <==> x in ys
    ensures Overridden(front, xs) == Overridden(front, ys)
  {
    OverriddenBy(front, xs);
    OverriddenBy(front, ys);
    if x :| x in xs && x.Some? {
      var a, b := Overridden(front, xs), Overridden(front, ys);
      var i :| 0 <= i < |xs| && xs[i] == a;
      var j :| 0 <= j < |xs| && xs[j] == b;
      assert i == j;
    }
  }

  /** No command has latency lines in two of the blocks, nor command lines in two. */
  ghost predicate CommandsApart(cfg: InfoConfig, blocks: seq<seq<Line>>) {
    forall cmd :: AtMostOne(Latencies(cfg, blocks, cmd)) && AtMostOne(Statistics(cfg, blocks, cmd))
  }

  lemma {:induction false} SameMembers(cfg: InfoConfig, b: seq<seq<Line>>, c: seq<seq<Line>>, cmd: string)
    requires multiset(b) == multiset(c)
    ensures forall x :: x in Latencies(cfg, b, cmd) ==> x in Latencies(cfg, c, cmd)
    ensures forall x :: x in Statistics(cfg, b, cmd) ==> x in Statistics(cfg, c, cmd)
  {
    forall i | 0 <= i < |b|
      ensures Latencies(cfg, b, cmd)[i] in Latencies(cfg, c, cmd)
      ensures Statistics(cfg, b, cmd)[i] in Statistics(cfg, c, cmd)
    {
      assert b[i] in multiset(b) && b[i] in c;
      var j :| 0 <= j < |c| && c[j] == b[i];
      assert Latencies(cfg, c, cmd)[j] == Latencies(cfg, b, cmd)[i];
      assert Statistics(cfg, c, cmd)[j] == Statistics(cfg, b, cmd)[i];
    }
  }

  /** Reordering whole section blocks in any way does not change the summaries,
      as long as no command appears in two of them for the same purpose. */
  lemma {:induction false} BlockOrderDoesNotMatter(cfg: InfoConfig, front: seq<Line>, b: seq<seq<Line>>,
                                                   c: seq<seq<Line>>, order: seq<string>)
    requires forall block | block in b :: IsBlock(block)
    requires CommandsApart(cfg, b) && multiset(b) == multiset(c)
    ensures IsCommandOrder(cfg, Text(front, b), order) <==> IsCommandOrder(cfg, Text(front, c), order)
    ensures AllSummaryRequests(cfg, Text(front, b), order) == AllSummaryRequests(cfg, Text(front, c), order)
  {
    var l, m := Text(front, b), Text(front, c);
    assert forall block :: block in c <==> block in multiset(b);
    forall cmd
      ensures LatencyBefore(cfg, l, |l|, cmd) == LatencyBefore(cfg, m, |m|, cmd)
      ensures StatsBefore(cfg, l, |l|, cmd) == StatsBefore(cfg, m, |m|, cmd)
    {
      BlocksOverride(cfg, front, b, cmd);
      BlocksOverride(cfg, front, c, cmd);
      SameMembers(cfg, b, c, cmd);
      SameMembers(cfg, c, b, cmd);
      OrderDoesNotOverride(LatencyIn(cfg, front, cmd), Latencies(cfg, b, cmd), Latencies(cfg, c, cmd));
      OrderDoesNotOverride(StatsIn(cfg, front, cmd), Statistics(cfg, b, cmd), Statistics(cfg, c, cmd));
    }
    SameSummaries(cfg, l, m, order);
  }

  lemma {:induction false} SameSummaries(cfg: InfoConfig, l: seq<Line>, m: seq<Line>, order: seq<string>)
    requires forall cmd :: LatencyBefore(cfg, l, |l|, cmd) == LatencyBefore(cfg, m, |m|, cmd)
    requires forall cmd :: StatsBefore(cfg, l, |l|, cmd) == StatsBefore(cfg, m, |m|, cmd)
    ensures AllSummaryRequests(cfg, l, order) == AllSummaryRequests(cfg, m, order)
    decreases |order|
  {
    if order == [] {
    } else {
      SameSummaries(cfg, l, m, order[..|order| - 1]);
    }
  }
}
