/** extractInfoMetrics: one pass over the INFO text that keeps the current
    section, the current master and several maps, and joins the maps at the end.

    The specification has no such state.  What a line contributes is stated by
    its position: the last header before it, and the last host and port lines. */
module Info {
  import opened Wrappers
  import opened GoStrings
  import opened Registry
  import opened InfoFields

  datatype InfoConfig = InfoConfig(floats: Floats, gauges: map<string, string>, counters: map<string, string>,
                                   emptyDatabases: bool, now: real, toUint64: real -> int)

  datatype Section = Replication | Server | Commandstats | Latencystats | Errorstats | Keyspace | Sentinel | Unknown

  function SectionOf(name: string): Section {
    if name == "Replication" then Replication
    else if name == "Server" then Server
    else if name == "Commandstats" then Commandstats
    else if name == "Latencystats" then Latencystats
    else if name == "Errorstats" then Errorstats
    else if name == "Keyspace" then Keyspace
    else if name == "Sentinel" then Sentinel
    else Unknown
  }

  // ----- what one field requests -----

  function GaugeOf(name: string, value: real, labels: seq<string>): Request {
    Register(name, value, Gauge, labels)
  }

  function CounterOf(name: string, value: real, labels: seq<string>): Request {
    Register(name, value, Counter, labels)
  }

  function Sanitize(name: string): string {
    seq(|name|, i requires 0 <= i < |name| =>
      if 'a' <= name[i] <= 'z' || 'A' <= name[i] <= 'Z' || IsDigit(name[i]) then name[i] else '_')
  }

  /** includeMetric */
  predicate Included(cfg: InfoConfig, key: string) {
    HasPrefix(key, "db") || HasPrefix(key, "cmdstat_") || HasPrefix(key, "cluster_")
    || key in cfg.gauges || key in cfg.counters
  }

  /** parseAndRegisterConstMetric, where the field is included. */
  function GenericRequests(cfg: InfoConfig, key: string, value: string): seq<Request> {
    if !Included(cfg, key) then []
    else
      var original := Sanitize(key);
      var name := if original in cfg.gauges then cfg.gauges[original]
                  else if original in cfg.counters then cfg.counters[original] else original;
      var kind := if original in cfg.counters && cfg.counters[original] != "" then Counter else Gauge;
      var parsed := if value in {"ok", "true"} then Some(1.0)
                    else if value in {"err", "fail", "false"} then Some(0.0)
                    else cfg.floats(value);
      match parsed
      case None => []
      case Some(v) =>
        if name == "latest_fork_usec" then [Register("latest_fork_seconds", v / 1000000.0, kind, [])]
        else [Register(name, v, kind, [])]
  }

  /** The name under which a matching replication field is exported. */
  function DirectName(key: string): string {
    if HasSuffix(key, "last_io_seconds_ago") then "master_last_io_seconds_ago"
    else if HasSuffix(key, "sync_in_progress") then "master_sync_in_progress"
    else key
  }

  function ReplicaRequests(r: Replica): seq<Request> {
    [GaugeOf("connected_slave_offset_bytes", r.offset, [r.ip, r.port, r.state])]
    + if r.lag > -1.0 then [GaugeOf("connected_slave_lag_seconds", r.lag, [r.ip, r.port, r.state])] else []
  }

  /** handleMetricsReplication; None if the field is none of its own. */
  function ReplicationRequests(cfg: InfoConfig, host: string, port: string, key: string, value: string)
    : Option<seq<Request>>
  {
    if IsLinkStatus(key) then
      Some([GaugeOf("master_link_up", if value == "up" then 1.0 else 0.0, [host, port])])
    else if IsDirect(key) then
      Some([GaugeOf(DirectName(key), ParseInt(value).IgnoringError() as real, [host, port])])
    else
      match ReplicaOf(cfg.floats, key, value)
      case Some(r) => Some(ReplicaRequests(r))
      case None => None
  }

  /** handleMetricsServer */
  function ServerRequests(cfg: InfoConfig, key: string, value: string): seq<Request> {
    if key == "uptime_in_seconds" then
      match cfg.floats(value)
      case Some(uptime) => [GaugeOf("start_time_seconds", cfg.now - uptime, [])]
      case None => []
    else if key in {"configured_hz", "hz"} && ParseInt(value).Value? then
      [GaugeOf(key, ParseInt(value).n as real, [])]
    else []
  }

  /** handleMetricsCommandStats */
  function CommandRequests(stats: CommandStats): seq<Request> {
    if !stats.valid then []
    else
      [Create("commands_total", ["cmd"]), Create("commands_duration_seconds_total", ["cmd"]),
       CounterOf("commands_total", stats.calls, [stats.cmd]),
       CounterOf("commands_duration_seconds_total", stats.usec / 1000000.0, [stats.cmd])]
      + if !stats.extended then []
        else [Create("commands_rejected_calls_total", ["cmd"]), Create("commands_failed_calls_total", ["cmd"]),
              CounterOf("commands_rejected_calls_total", stats.rejected, [stats.cmd]),
              CounterOf("commands_failed_calls_total", stats.failed, [stats.cmd])]
  }

  /** handleMetricsErrorStats */
  function ErrorRequests(cfg: InfoConfig, key: string, value: string): seq<Request> {
    match ErrorCountOf(cfg.floats, key, value)
    case Some(count) => [CounterOf("errors_total", count, [TrimPrefix(key, "errorstat_")])]
    case None => []
  }

  function DbRequests(db: string, s: DbStats): seq<Request> {
    [GaugeOf("db_keys", s.keys, [db]), GaugeOf("db_keys_expiring", s.expiring, [db])]
    + (if s.cached > -1.0 then [GaugeOf("db_keys_cached", s.cached, [db])] else [])
    + (if s.avgTtl > -1.0 then [GaugeOf("db_avg_ttl_seconds", s.avgTtl, [db])] else [])
  }

  /** handleMetricsSentinel */
  function SentinelRequests(cfg: InfoConfig, key: string, value: string): seq<Request> {
    if key in {"sentinel_masters", "sentinel_tilt", "sentinel_running_scripts", "sentinel_scripts_queue_length",
               "sentinel_simulate_failure_flags"} then
      [GaugeOf(key, ParseInt(value).IgnoringError() as real, [])]
    else
      match SentinelMasterOf(cfg.floats, key, value)
      case None => []
      case Some(m) =>
        [GaugeOf("sentinel_master_status", if m.status == "ok" then 1.0 else 0.0, [m.name, m.address, m.status]),
         GaugeOf("sentinel_master_slaves", m.slaves, [m.name, m.address]),
         GaugeOf("sentinel_master_sentinels", m.sentinels, [m.name, m.address])]
  }

  /** Everything one field requests, given its section and the current master. */
  function FieldRequests(cfg: InfoConfig, section: Section, host: string, port: string, key: string, value: string)
    : seq<Request>
  {
    match section
    case Replication => ReplicationRequests(cfg, host, port, key, value).GetOr(GenericRequests(cfg, key, value))
    case Server => ServerRequests(cfg, key, value) + GenericRequests(cfg, key, value)
    case Commandstats => CommandRequests(CommandStatsOf(cfg.floats, key, value))
    case Latencystats => []
    case Errorstats => ErrorRequests(cfg, key, value)
    case Keyspace =>
      (match KeyspaceOf(cfg.floats, key, value)
       case Some(s) => DbRequests(key, s)
       case None => GenericRequests(cfg, key, value))
    case Sentinel => SentinelRequests(cfg, key, value) + GenericRequests(cfg, key, value)
    case Unknown => GenericRequests(cfg, key, value)
  }

  // ----- what a position in the text determines -----

  /** The section line i belongs to: the last header before it. */
  function SectionAt(lines: seq<Line>, i: nat): Section
    requires i <= |lines|
  {
    if i == 0 then Unknown
    else if lines[i - 1].Header? then SectionOf(lines[i - 1].name)
    else SectionAt(lines, i - 1)
  }

  /** Which fields a search through the text is after. */
  datatype Wanted = Host | Port | Named(key: string) {
    predicate Accepts(key: string) {
      match this
      case Host => IsHost(key)
      case Port => IsPort(key)
      case Named(name) => key == name
    }
  }

  /** The value of the last wanted field before line i. */
  function LastOf(lines: seq<Line>, i: nat, wanted: Wanted): Option<string>
    requires i <= |lines|
  {
    if i == 0 then None
    else if lines[i - 1].Field? && wanted.Accepts(lines[i - 1].key) then Some(lines[i - 1].value)
    else LastOf(lines, i - 1, wanted)
  }

  function HostAt(lines: seq<Line>, i: nat): string
    requires i <= |lines|
  {
    LastOf(lines, i, Host).GetOr("")
  }

  function PortAt(lines: seq<Line>, i: nat): string
    requires i <= |lines|
  {
    LastOf(lines, i, Port).GetOr("")
  }

  function RequestsAt(cfg: InfoConfig, lines: seq<Line>, i: nat): seq<Request>
    requires i < |lines|
  {
    if !lines[i].Field? then []
    else FieldRequests(cfg, SectionAt(lines, i), HostAt(lines, i + 1), PortAt(lines, i + 1), lines[i].key, lines[i].value)
  }

  function RequestsBefore(cfg: InfoConfig, lines: seq<Line>, i: nat): seq<Request>
    requires i <= |lines|
  {
    if i == 0 then [] else RequestsBefore(cfg, lines, i - 1) + RequestsAt(cfg, lines, i - 1)
  }

  predicate InSection(lines: seq<Line>, i: nat, section: Section)
    requires i < |lines|
  {
    lines[i].Field? && SectionAt(lines, i) == section
  }

  /** The latency table of a command: that of its last readable line. */
  function LatencyBefore(cfg: InfoConfig, lines: seq<Line>, i: nat, cmd: string): Option<map<real, real>>
    requires i <= |lines|
  {
    if i == 0 then None
    else
      var line := lines[i - 1];
      if InSection(lines, i - 1, Latencystats) && LatencyOf(cfg.floats, line.key, line.value).Accepted?
         && TrimPrefix(line.key, LATENCY_PREFIX) == cmd
      then Some(LatencyOf(cfg.floats, line.key, line.value).table)
      else LatencyBefore(cfg, lines, i - 1, cmd)
  }

  /** The count and sum of a command: those of its last line, readable or not. */
  function StatsBefore(cfg: InfoConfig, lines: seq<Line>, i: nat, cmd: string): Option<CommandStats>
    requires i <= |lines|
  {
    if i == 0 then None
    else
      var line := lines[i - 1];
      if InSection(lines, i - 1, Commandstats) && CommandStatsOf(cfg.floats, line.key, line.value).cmd == cmd
      then Some(CommandStatsOf(cfg.floats, line.key, line.value))
      else StatsBefore(cfg, lines, i - 1, cmd)
  }

  /** Line i makes the exporter slice an empty percentile name. */
  predicate CrashesAt(cfg: InfoConfig, lines: seq<Line>, i: nat)
    requires i < |lines|
  {
    InSection(lines, i, Latencystats) && LatencyOf(cfg.floats, lines[i].key, lines[i].value).Crashed?
  }

  /** No line before i does. */
  predicate SafeBefore(cfg: InfoConfig, lines: seq<Line>, i: nat)
    requires i <= |lines|
  {
    i == 0 || (SafeBefore(cfg, lines, i - 1) && !CrashesAt(cfg, lines, i - 1))
  }

  /** Line i is a keyspace line that parses. */
  predicate IsDbLine(cfg: InfoConfig, lines: seq<Line>, i: nat)
    requires i < |lines|
  {
    InSection(lines, i, Keyspace) && KeyspaceOf(cfg.floats, lines[i].key, lines[i].value).Some?
  }

  predicate IsHandled(cfg: InfoConfig, lines: seq<Line>, i: nat, db: string)
    requires i <= |lines|
  {
    exists j | 0 <= j < i :: IsDbLine(cfg, lines, j) && lines[j].key == db
  }

  // ----- after the last line -----

  function SummaryRequests(cfg: InfoConfig, lines: seq<Line>, cmd: string): seq<Request> {
    match (LatencyBefore(cfg, lines, |lines|, cmd), StatsBefore(cfg, lines, |lines|, cmd))
    case (Some(table), Some(stats)) =>
      [Create("latency_percentiles_usec", ["cmd"]),
       Summary("latency_percentiles_usec", cfg.toUint64(stats.calls), stats.usec, table, [cmd])]
    case _ => []
  }

  function AllSummaryRequests(cfg: InfoConfig, lines: seq<Line>, order: seq<string>): seq<Request> {
    if order == [] then []
    else AllSummaryRequests(cfg, lines, order[..|order| - 1]) + SummaryRequests(cfg, lines, order[|order| - 1])
  }

  /** An order in which the commands with a latency table may be visited. */
  ghost predicate IsCommandOrder(cfg: InfoConfig, lines: seq<Line>, order: seq<string>) {
    && (forall i, j | 0 <= i < j < |order| :: order[i] != order[j])
    && (forall cmd :: cmd in order <==> LatencyBefore(cfg, lines, |lines|, cmd).Some?)
  }

  function DbName(i: nat): string {
    "db" + Itoa(i)
  }

  function EmptyDbRequests(cfg: InfoConfig, lines: seq<Line>, n: nat): seq<Request> {
    if n == 0 || !cfg.emptyDatabases then []
    else
      EmptyDbRequests(cfg, lines, n - 1) +
      if IsHandled(cfg, lines, |lines|, DbName(n - 1)) then []
      else [GaugeOf("db_keys", 0.0, [DbName(n - 1)]), GaugeOf("db_keys_expiring", 0.0, [DbName(n - 1)])]
  }

  function ValueAt(lines: seq<Line>, key: string): Option<string> {
    LastOf(lines, |lines|, Named(key))
  }

  function RoleOf(lines: seq<Line>): string {
    ValueAt(lines, "role").GetOr("")
  }

  const INSTANCE_LABELS := ["role", "redis_version", "redis_build_id", "redis_mode", "os", "maxmemory_policy",
                            "tcp_port", "run_id", "process_id", "master_replid"]

  function ValuesAt(lines: seq<Line>, keys: seq<string>): seq<string> {
    seq(|keys|, i requires 0 <= i < |keys| => ValueAt(lines, keys[i]).GetOr(""))
  }

  /** The instance_info labels: two more where the server is a Valkey. */
  function InstanceLabels(lines: seq<Line>): seq<string> {
    INSTANCE_LABELS
    + (if ValueAt(lines, "valkey_version").Some? then ["valkey_version"] else [])
    + (if ValueAt(lines, "valkey_release_stage").Some? then ["valkey_release_stage"] else [])
  }

  function ClosingRequests(lines: seq<Line>): seq<Request> {
    [Create("instance_info", InstanceLabels(lines)),
     GaugeOf("instance_info", 1.0, ValuesAt(lines, InstanceLabels(lines)))]
    + if RoleOf(lines) == "slave"
      then [GaugeOf("slave_info", 1.0, ValuesAt(lines, ["master_host", "master_port", "slave_read_only"]))] else []
  }

  /** All requests of a scrape of INFO. */
  function InfoRequests(cfg: InfoConfig, lines: seq<Line>, order: seq<string>, dbCount: nat): seq<Request> {
    RequestsBefore(cfg, lines, |lines|) + AllSummaryRequests(cfg, lines, order)
    + EmptyDbRequests(cfg, lines, dbCount) + ClosingRequests(lines)
  }

  // ----- the maps the pass keeps -----

  ghost predicate TracksValues(keyValues: map<string, string>, lines: seq<Line>, i: nat)
    requires i <= |lines|
  {
    forall key :: LastOf(lines, i, Named(key)) == if key in keyValues then Some(keyValues[key]) else None
  }

  ghost predicate TracksDbs(handled: set<string>, cfg: InfoConfig, lines: seq<Line>, i: nat)
    requires i <= |lines|
  {
    forall db :: db in handled <==> IsHandled(cfg, lines, i, db)
  }

  ghost predicate TracksLatency(latency: map<string, map<real, real>>, cfg: InfoConfig, lines: seq<Line>, i: nat)
    requires i <= |lines|
  {
    forall cmd :: LatencyBefore(cfg, lines, i, cmd) == if cmd in latency then Some(latency[cmd]) else None
  }

  /** The two maps always have one domain. */
  ghost predicate TracksStats(cmdCount: map<string, int>, cmdSum: map<string, real>,
                              cfg: InfoConfig, lines: seq<Line>, i: nat)
    requires i <= |lines|
  {
    && cmdCount.Keys == cmdSum.Keys
    && forall cmd ::
         var stats := StatsBefore(cfg, lines, i, cmd);
         && (cmd in cmdCount <==> stats.Some?)
         && (cmd in cmdCount ==> cmdCount[cmd] == cfg.toUint64(stats.value.calls) && cmdSum[cmd] == stats.value.usec)
  }

  // ----- the pass -----

  /** handleMetricsReplication, as a method that consults the slave parser. */
  method HandleReplication(cfg: InfoConfig, host: string, port: string, key: string, value: string)
    returns (r: Option<seq<Request>>)
    ensures r == ReplicationRequests(cfg, host, port, key, value)
  {
    if IsLinkStatus(key) {
      return Some([GaugeOf("master_link_up", if value == "up" then 1.0 else 0.0, [host, port])]);
    }
    if IsDirect(key) {
      return Some([GaugeOf(DirectName(key), ParseInt(value).IgnoringError() as real, [host, port])]);
    }
    var replica := ParseConnectedSlaveString(cfg.floats, key, value);
    if replica.None? {
      return None;
    }
    var labels := [replica.value.ip, replica.value.port, replica.value.state];
    var requests := [GaugeOf("connected_slave_offset_bytes", replica.value.offset, labels)];
    if replica.value.lag > -1.0 {
      requests := requests + [GaugeOf("connected_slave_lag_seconds", replica.value.lag, labels)];
    }
    assert requests == ReplicaRequests(replica.value);
    return Some(requests);
  }

  /** The state of the loop of extractInfoMetrics. */
  class Pass {
    var section: Section
    var masterHost: string
    var masterPort: string
    var keyValues: map<string, string>
    var handled: set<string>
    var cmdCount: map<string, int>
    var cmdSum: map<string, real>
    var latency: map<string, map<real, real>>
    var requests: seq<Request>

    constructor ()
      ensures section == Unknown && masterHost == "" && masterPort == ""
      ensures keyValues == map[] && handled == {} && cmdCount == map[] && cmdSum == map[] && latency == map[]
      ensures requests == []
    {
      section, masterHost, masterPort, keyValues := Unknown, "", "", map[];
      handled, cmdCount, cmdSum, latency, requests := {}, map[], map[], map[], [];
    }

    ghost predicate TracksPlace(lines: seq<Line>, i: nat)
      requires i <= |lines|
      reads this
    {
      && section == SectionAt(lines, i)
      && masterHost == HostAt(lines, i) && masterPort == PortAt(lines, i)
      && TracksValues(keyValues, lines, i)
    }

    ghost predicate TracksMaps(cfg: InfoConfig, lines: seq<Line>, i: nat)
      requires i <= |lines|
      reads this
    {
      && TracksDbs(handled, cfg, lines, i)
      && TracksLatency(latency, cfg, lines, i)
      && TracksStats(cmdCount, cmdSum, cfg, lines, i)
    }

    /** The state is what the lines before i determine. */
    ghost predicate Tracks(cfg: InfoConfig, lines: seq<Line>, i: nat)
      requires i <= |lines|
      reads this
    {
      TracksPlace(lines, i) && TracksMaps(cfg, lines, i) && requests == RequestsBefore(cfg, lines, i)
    }

    /** A header or a line that is no field. */
    method Skip(cfg: InfoConfig, lines: seq<Line>, i: nat)
      requires i < |lines| && !lines[i].Field? && Tracks(cfg, lines, i)
      modifies this
      ensures Tracks(cfg, lines, i + 1)
    {
      if lines[i].Header? {
        section := SectionOf(lines[i].name);
      }
      NoFieldNoChange(cfg, lines, i);
    }

    /** What the loop does with a field before its switch. */
    method Remember(lines: seq<Line>, i: nat)
      requires i < |lines| && lines[i].Field? && TracksPlace(lines, i)
      modifies this`keyValues, this`masterHost, this`masterPort
      ensures TracksPlace(lines, i + 1)
    {
      var key, value := lines[i].key, lines[i].value;
      keyValues := keyValues[key := value];
      if IsHost(key) {
        masterHost := value;
      }
      if IsPort(key) {
        masterPort := value;
      }
    }

    /** The Commandstats case. */
    method HandleCommandStats(cfg: InfoConfig, lines: seq<Line>, i: nat)
      requires i < |lines| && InSection(lines, i, Commandstats) && TracksMaps(cfg, lines, i)
      modifies this`cmdCount, this`cmdSum, this`requests
      ensures TracksMaps(cfg, lines, i + 1)
      ensures requests == old(requests) + RequestsAt(cfg, lines, i)
    {
      var stats := CommandStatsOf(cfg.floats, lines[i].key, lines[i].value);
      cmdCount := cmdCount[stats.cmd := cfg.toUint64(stats.calls)];
      cmdSum := cmdSum[stats.cmd := stats.usec];
      requests := requests + CommandRequests(stats);
      MapsStep(cfg, lines, i);
    }

    /** The Latencystats case; crashed is the panic on an empty percentile name. */
    method HandleLatencyStats(cfg: InfoConfig, lines: seq<Line>, i: nat) returns (crashed: bool)
      requires i < |lines| && InSection(lines, i, Latencystats) && TracksMaps(cfg, lines, i)
      modifies this`latency
      ensures crashed <==> CrashesAt(cfg, lines, i)
      ensures !crashed ==> TracksMaps(cfg, lines, i + 1)
    {
      MapsStep(cfg, lines, i);
      var r := ParseMetricsLatencyStats(cfg.floats, lines[i].key, lines[i].value);
      if r.Accepted? {
        latency := latency[TrimPrefix(lines[i].key, LATENCY_PREFIX) := r.table];
      }
      return r.Crashed?;
    }

    /** The Keyspace case. */
    method HandleKeyspace(cfg: InfoConfig, lines: seq<Line>, i: nat)
      requires i < |lines| && InSection(lines, i, Keyspace) && TracksMaps(cfg, lines, i)
      modifies this`handled, this`requests
      ensures TracksMaps(cfg, lines, i + 1)
      ensures requests == old(requests) + RequestsAt(cfg, lines, i)
    {
      MapsStep(cfg, lines, i);
      var key := lines[i].key;
      var stats := KeyspaceOf(cfg.floats, key, lines[i].value);
      if stats.Some? {
        requests := requests + DbRequests(key, stats.value);
        handled := handled + {key};
      } else {
        requests := requests + GenericRequests(cfg, key, lines[i].value);
      }
    }

    /** The cases that only register metrics. */
    method HandlePlain(cfg: InfoConfig, lines: seq<Line>, i: nat)
      requires i < |lines| && lines[i].Field? && TracksPlace(lines, i + 1) && TracksMaps(cfg, lines, i)
      requires section !in {Commandstats, Latencystats, Keyspace}
      modifies this`requests
      ensures TracksMaps(cfg, lines, i + 1)
      ensures requests == old(requests) + RequestsAt(cfg, lines, i)
    {
      MapsStep(cfg, lines, i);
      var more := PlainRequests(cfg, lines[i].key, lines[i].value);
      requests := requests + more;
    }

    /** The cases of the switch that keep no map. */
    method PlainRequests(cfg: InfoConfig, key: string, value: string) returns (more: seq<Request>)
      requires section !in {Commandstats, Latencystats, Keyspace}
      ensures more == FieldRequests(cfg, section, masterHost, masterPort, key, value)
    {
      if section == Replication {
        var own := HandleReplication(cfg, masterHost, masterPort, key, value);
        more := if own.Some? then own.value else GenericRequests(cfg, key, value);
      } else if section == Server {
        more := ServerRequests(cfg, key, value) + GenericRequests(cfg, key, value);
      } else if section == Errorstats {
        more := ErrorRequests(cfg, key, value);
      } else if section == Sentinel {
        more := SentinelRequests(cfg, key, value) + GenericRequests(cfg, key, value);
      } else {
        more := GenericRequests(cfg, key, value);
      }
    }

    /** One field. */
    method Handle(cfg: InfoConfig, lines: seq<Line>, i: nat) returns (crashed: bool)
      requires i < |lines| && lines[i].Field? && Tracks(cfg, lines, i)
      modifies this
      ensures crashed <==> CrashesAt(cfg, lines, i)
      ensures if crashed then requests == RequestsBefore(cfg, lines, i) else Tracks(cfg, lines, i + 1)
    {
      crashed := false;
      Remember(lines, i);
      if section == Commandstats {
        HandleCommandStats(cfg, lines, i);
      } else if section == Latencystats {
        crashed := HandleLatencyStats(cfg, lines, i);
        assert RequestsAt(cfg, lines, i) == [];
      } else if section == Keyspace {
        HandleKeyspace(cfg, lines, i);
      } else {
        HandlePlain(cfg, lines, i);
      }
    }

    /** The loop body of extractInfoMetrics. */
    method Read(cfg: InfoConfig, lines: seq<Line>, i: nat) returns (crashed: bool)
      requires i < |lines| && Tracks(cfg, lines, i)
      modifies this
      ensures crashed <==> CrashesAt(cfg, lines, i)
      ensures if crashed then requests == RequestsBefore(cfg, lines, i) else Tracks(cfg, lines, i + 1)
    {
      crashed := false;
      if lines[i].Field? {
        crashed := Handle(cfg, lines, i);
      } else {
        Skip(cfg, lines, i);
      }
    }
  }

  /** How the maps' specifications grow with one field. */
  lemma {:induction false} MapsStep(cfg: InfoConfig, lines: seq<Line>, i: nat)
    requires i < |lines| && lines[i].Field?
    ensures forall db :: IsHandled(cfg, lines, i + 1, db) <==>
                         IsHandled(cfg, lines, i, db) || (IsDbLine(cfg, lines, i) && lines[i].key == db)
    ensures SectionAt(lines, i) != Latencystats ==>
              forall cmd :: LatencyBefore(cfg, lines, i + 1, cmd) == LatencyBefore(cfg, lines, i, cmd)
    ensures SectionAt(lines, i) != Commandstats ==>
              forall cmd :: StatsBefore(cfg, lines, i + 1, cmd) == StatsBefore(cfg, lines, i, cmd)
  {
    forall db
      ensures IsHandled(cfg, lines, i + 1, db) <==>
              IsHandled(cfg, lines, i, db) || (IsDbLine(cfg, lines, i) && lines[i].key == db)
    {
      if j :| 0 <= j < i + 1 && IsDbLine(cfg, lines, j) && lines[j].key == db {
        assert j < i || j == i;
      }
    }
  }

  lemma {:induction false} NoFieldNoChange(cfg: InfoConfig, lines: seq<Line>, i: nat)
    requires i < |lines| && !lines[i].Field?
    ensures forall wanted :: LastOf(lines, i + 1, wanted) == LastOf(lines, i, wanted)
    ensures forall db :: IsHandled(cfg, lines, i + 1, db) <==> IsHandled(cfg, lines, i, db)
    ensures forall cmd :: LatencyBefore(cfg, lines, i + 1, cmd) == LatencyBefore(cfg, lines, i, cmd)
    ensures forall cmd :: StatsBefore(cfg, lines, i + 1, cmd) == StatsBefore(cfg, lines, i, cmd)
    ensures RequestsBefore(cfg, lines, i + 1) == RequestsBefore(cfg, lines, i)
  {
  }

  /** The loop over cmdLatencyMap in generateCommandLatencySummaries; `order` is
      the order in which it happened to be visited. */
  method GenerateSummaries(pass: Pass, cfg: InfoConfig, lines: seq<Line>)
    returns (requests: seq<Request>, ghost order: seq<string>)
    requires pass.Tracks(cfg, lines, |lines|)
    ensures IsCommandOrder(cfg, lines, order)
    ensures requests == AllSummaryRequests(cfg, lines, order)
  {
    requests, order := [], [];
    var todo := pass.latency.Keys;
    while todo != {}
      invariant todo <= pass.latency.Keys
      invariant forall cmd :: cmd in order <==> cmd in pass.latency.Keys - todo
      invariant forall i, j | 0 <= i < j < |order| :: order[i] != order[j]
      invariant requests == AllSummaryRequests(cfg, lines, order)
      decreases |todo|
    {
      var cmd :| cmd in todo;
      assert cmd !in order;
      var more := Summarise(pass, cfg, lines, cmd);
      OneMoreSummary(cfg, lines, order, cmd);
      todo, order, requests := todo - {cmd}, order + [cmd], requests + more;
    }
  }

  lemma {:induction false} OneMoreSummary(cfg: InfoConfig, lines: seq<Line>, order: seq<string>, cmd: string)
    ensures AllSummaryRequests(cfg, lines, order + [cmd])
         == AllSummaryRequests(cfg, lines, order) + SummaryRequests(cfg, lines, cmd)
  {
    assert (order + [cmd])[..|order|] == order;
  }

  /** The loop body, for a command with a latency table. */
  method Summarise(pass: Pass, cfg: InfoConfig, lines: seq<Line>, cmd: string) returns (requests: seq<Request>)
    requires TracksLatency(pass.latency, cfg, lines, |lines|)
    requires TracksStats(pass.cmdCount, pass.cmdSum, cfg, lines, |lines|)
    requires cmd in pass.latency
    ensures requests == SummaryRequests(cfg, lines, cmd)
  {
    assert LatencyBefore(cfg, lines, |lines|, cmd) == Some(pass.latency[cmd]);
    if cmd in pass.cmdCount && cmd in pass.cmdSum {
      return [Create("latency_percentiles_usec", ["cmd"]),
              Summary("latency_percentiles_usec", pass.cmdCount[cmd], pass.cmdSum[cmd], pass.latency[cmd], [cmd])];
    }
    return [];
  }

  /** The loop over the database numbers. */
  method EmptyDatabases(pass: Pass, cfg: InfoConfig, lines: seq<Line>, dbCount: nat) returns (requests: seq<Request>)
    requires pass.Tracks(cfg, lines, |lines|)
    ensures requests == EmptyDbRequests(cfg, lines, dbCount)
  {
    requests := [];
    if !cfg.emptyDatabases {
      return;
    }
    for i := 0 to dbCount
      invariant requests == EmptyDbRequests(cfg, lines, i)
    {
      var db := DbName(i);
      if db !in pass.handled {
        requests := requests + [GaugeOf("db_keys", 0.0, [db]), GaugeOf("db_keys_expiring", 0.0, [db])];
      } else {
        assert requests + [] == requests;
      }
    }
  }

  /** The instance_info and slave_info part. */
  method Closing(pass: Pass, lines: seq<Line>) returns (requests: seq<Request>)
    requires TracksValues(pass.keyValues, lines, |lines|)
    ensures requests == ClosingRequests(lines)
  {
    var labels := INSTANCE_LABELS;
    var values := LookupAll(pass, lines, labels);
    if "valkey_version" in pass.keyValues {
      labels, values := labels + ["valkey_version"], values + [pass.keyValues["valkey_version"]];
    }
    if "valkey_release_stage" in pass.keyValues {
      labels, values := labels + ["valkey_release_stage"], values + [pass.keyValues["valkey_release_stage"]];
    }
    assert labels == InstanceLabels(lines);
    assert values == ValuesAt(lines, labels);
    requests := [Create("instance_info", labels), GaugeOf("instance_info", 1.0, values)];
    if Lookup(pass.keyValues, "role") == "slave" {
      var master := LookupAll(pass, lines, ["master_host", "master_port", "slave_read_only"]);
      requests := requests + [GaugeOf("slave_info", 1.0, master)];
    }
  }

  method LookupAll(pass: Pass, lines: seq<Line>, keys: seq<string>) returns (values: seq<string>)
    requires TracksValues(pass.keyValues, lines, |lines|)
    ensures values == ValuesAt(lines, keys)
  {
    values := seq(|keys|, i requires 0 <= i < |keys| reads pass => Lookup(pass.keyValues, keys[i]));
  }

  /** Lines before n are read; the one at n, if there is one, crashes. */
  ghost predicate ReadsUpTo(cfg: InfoConfig, lines: seq<Line>, n: nat) {
    n <= |lines| && SafeBefore(cfg, lines, n) && (n < |lines| ==> CrashesAt(cfg, lines, n))
  }

  method NewPass(cfg: InfoConfig, lines: seq<Line>) returns (pass: Pass)
    ensures fresh(pass) && pass.Tracks(cfg, lines, 0)
  {
    pass := new Pass();
  }

  /** The loop over the lines, which ends early only by a crash. */
  method ReadLines(cfg: InfoConfig, lines: seq<Line>) returns (pass: Pass, n: nat)
    ensures ReadsUpTo(cfg, lines, n)
    ensures pass.requests == RequestsBefore(cfg, lines, n)
    ensures n == |lines| ==> pass.Tracks(cfg, lines, n)
    ensures n == |lines| <==> SafeBefore(cfg, lines, |lines|)
  {
    pass := NewPass(cfg, lines);
    n := 0;
    while n < |lines|
      invariant n <= |lines| && pass.Tracks(cfg, lines, n) && SafeBefore(cfg, lines, n)
    {
      var crashed := pass.Read(cfg, lines, n);
      if crashed {
        CrashIsFinal(cfg, lines, n, |lines|);
        return;
      }
      n := n + 1;
    }
  }

  lemma {:induction false} CrashIsFinal(cfg: InfoConfig, lines: seq<Line>, i: nat, n: nat)
    requires i < n <= |lines| && CrashesAt(cfg, lines, i)
    ensures !SafeBefore(cfg, lines, n)
  {
    if i + 1 < n {
      CrashIsFinal(cfg, lines, i, n - 1);
    }
  }

  /** The part of extractInfoMetrics after the loop. */
  method Finish(pass: Pass, cfg: InfoConfig, lines: seq<Line>, dbCount: nat)
    returns (role: string, requests: seq<Request>, ghost order: seq<string>)
    requires pass.Tracks(cfg, lines, |lines|)
    ensures role == RoleOf(lines)
    ensures IsCommandOrder(cfg, lines, order)
    ensures requests == InfoRequests(cfg, lines, order, dbCount)
  {
    var summaries, empty, closing;
    summaries, order := GenerateSummaries(pass, cfg, lines);
    empty := EmptyDatabases(pass, cfg, lines, dbCount);
    closing := Closing(pass, lines);
    role, requests := Lookup(pass.keyValues, "role"), pass.requests + summaries + empty + closing;
  }

  /** Everything extractInfoMetrics asks of the registry, in order; no role stands
      for the crash of a line, which cuts the requests short. */
  method CollectRequests(cfg: InfoConfig, info: string, dbCount: nat)
    returns (role: Option<string>, requests: seq<Request>, ghost order: seq<string>, ghost n: nat)
    ensures ReadsUpTo(cfg, Lines(info), n)
    ensures role.Some? <==> SafeBefore(cfg, Lines(info), |Lines(info)|)
    ensures role.Some? ==>
              && role.value == RoleOf(Lines(info)) && IsCommandOrder(cfg, Lines(info), order)
              && requests == InfoRequests(cfg, Lines(info), order, dbCount)
    ensures role.None? ==> n < |Lines(info)| && requests == RequestsBefore(cfg, Lines(info), n)
  {
    var lines := Lines(info);
    var pass, read := ReadLines(cfg, lines);
    n := read;
    if read < |lines| {
      return None, pass.requests, [], n;
    }
    var r;
    r, requests, order := Finish(pass, cfg, lines, dbCount);
    role := Some(r);
  }

  /** extractInfoMetrics; no role stands for the panic, of a line or of a lookup.
      What was served before it stays served. */
  method ExtractInfoMetrics(e: Exporter, cfg: InfoConfig, info: string, dbCount: nat)
    returns (role: Option<string>, ghost order: seq<string>, ghost n: nat)
    modifies e
    ensures ReadsUpTo(cfg, Lines(info), n)
    ensures n == |Lines(info)| ==>
              var requests := InfoRequests(cfg, Lines(info), order, dbCount);
              && IsCommandOrder(cfg, Lines(info), order)
              && role == (if Run(old(e.Value()), requests).None? then None else Some(RoleOf(Lines(info))))
              && e.Value() == Survived(old(e.Value()), requests)
    ensures n < |Lines(info)| ==>
              role.None? && e.Value() == Survived(old(e.Value()), RequestsBefore(cfg, Lines(info), n))
  {
    var requests;
    role, requests, order, n := CollectRequests(cfg, info, dbCount);
    if n < |Lines(info)| && SafeBefore(cfg, Lines(info), |Lines(info)|) {
      CrashIsFinal(cfg, Lines(info), n, |Lines(info)|);
    }
    var panicked := e.Serve(requests);
    if panicked {
      role := None;
    }
  }
}
