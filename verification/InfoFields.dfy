/** The fields of an INFO text: how a line splits, which names the regular
    expressions of info.go accept, and what the value parsers make of a value. */
module InfoFields {
  import opened Wrappers
  import opened GoStrings

  type Floats = string -> Option<real>   // strconv.ParseFloat, finite values only

  // ----- lines -----

  datatype Line = Header(name: string) | Field(key: string, value: string) | Other

  function IndexOf(s: string, c: char): (i: nat)
    requires c in s
    ensures i < |s| && s[i] == c && c !in s[..i]
  {
    if s[0] == c then 0
    else
      var j := IndexOf(s[1..], c);
      assert s[..j + 1] == [s[0]] + s[1..][..j];
      j + 1
  }

  /** The part of the loop of extractInfoMetrics that takes a line apart. */
  function ParseLine(raw: string): Line {
    var line := TrimSpace(raw);
    if HasPrefix(line, "# ") then Header(line[2..])
    else if |line| < 2 || ':' !in line then Other
    else Field(line[..IndexOf(line, ':')], line[IndexOf(line, ':') + 1..])
  }

  function ParseLines(raws: seq<string>): seq<Line> {
    seq(|raws|, i requires 0 <= i < |raws| => ParseLine(raws[i]))
  }

  function Lines(info: string): seq<Line> {
    ParseLines(Split(info, '\n'))
  }

  // ----- names -----

  function AfterDigits(s: string): string {
    if s != "" && IsDigit(s[0]) then AfterDigits(s[1..]) else s
  }

  /** The regular expression ^master(_[0-9]+)? followed by the suffix, open at the end. */
  predicate IsMasterField(key: string, suffix: string) {
    HasPrefix(key, "master")
    && (|| HasPrefix(key[6..], suffix)
        || (|key| > 7 && key[6] == '_' && IsDigit(key[7]) && HasPrefix(AfterDigits(key[7..]), suffix)))
  }

  predicate IsHost(key: string) {
    IsMasterField(key, "_host")
  }

  predicate IsPort(key: string) {
    IsMasterField(key, "_port")
  }

  predicate IsLinkStatus(key: string) {
    IsMasterField(key, "_link_status")
  }

  /** reMasterDirect */
  predicate IsDirect(key: string) {
    IsMasterField(key, "_last_io_seconds_ago") || IsMasterField(key, "_sync_in_progress")
    || HasPrefix(key, "slave_repl_offset")
  }

  /** The regular expression ^name\d+ for a literal name. */
  predicate IsNumbered(key: string, name: string) {
    HasPrefix(key, name) && |key| > |name| && IsDigit(key[|name|])
  }

  // ----- values -----

  /** extractVal */
  function ExtractVal(floats: Floats, s: string): Option<real> {
    var split := Split(s, '=');
    if |split| != 2 then None else floats(split[1])
  }

  datatype Percentile = Crash | Invalid | Pair(percentile: real, value: real)

  /** extractPercentileVal; a piece without exactly one '=' reads as percentile 0
      with value 0, and an empty name is sliced out of bounds. */
  function ExtractPercentileVal(floats: Floats, s: string): Percentile {
    var split := Split(s, '=');
    if |split| != 2 then Pair(0.0, 0.0)
    else if split[0] == "" then Crash
    else
      match (floats(split[0][1..]), floats(split[1]))
      case (Some(p), Some(v)) => Pair(p, v)
      case _ => Invalid
  }

  datatype Percentiles = Crashed | Rejected | Accepted(table: map<real, real>)

  function ReadPercentiles(floats: Floats, pieces: seq<string>, table: map<real, real>): Percentiles
    decreases |pieces|
  {
    if pieces == [] then Accepted(table)
    else
      match ExtractPercentileVal(floats, pieces[0])
      case Crash => Crashed
      case Invalid => Rejected
      case Pair(p, v) => ReadPercentiles(floats, pieces[1..], table[p := v])
  }

  const LATENCY_PREFIX := "latency_percentiles_usec_"
  const COMMAND_PREFIX := "cmdstat_"

  /** parseMetricsLatencyStats, whose command is the key without the prefix. */
  function LatencyOf(floats: Floats, key: string, value: string): Percentiles {
    if !HasPrefix(key, LATENCY_PREFIX) then Rejected
    else ReadPercentiles(floats, Split(value, ','), map[])
  }

  /** What handleMetricsCommandStats returns is used by its caller even when the
      line is invalid; what was not read is zero. */
  datatype CommandStats = CommandStats(cmd: string, calls: real, usec: real, rejected: real, failed: real,
                                       extended: bool, valid: bool)

  /** parseMetricsCommandStats */
  function CommandStatsOf(floats: Floats, key: string, value: string): CommandStats {
    if !HasPrefix(key, COMMAND_PREFIX) then CommandStats("", 0.0, 0.0, 0.0, 0.0, false, false)
    else
      var none := CommandStats(TrimPrefix(key, COMMAND_PREFIX), 0.0, 0.0, 0.0, 0.0, false, false);
      var split := Split(value, ',');
      if |split| < 3 then none
      else
        match ExtractVal(floats, split[0])
        case None => none
        case Some(calls) =>
          match ExtractVal(floats, split[1])
          case None => none.(calls := calls)
          case Some(usec) =>
            var short := none.(calls := calls, usec := usec);
            if |split| < 5 then short.(valid := true)
            else
              match ExtractVal(floats, split[3])
              case None => short
              case Some(rejected) =>
                match ExtractVal(floats, split[4])
                case None => short.(rejected := rejected)
                case Some(failed) => short.(rejected := rejected, failed := failed, extended := true, valid := true)
  }

  datatype DbStats = DbStats(keys: real, expiring: real, avgTtl: real, cached: real)

  /** parseDBKeyspaceString; -1 marks a missing part. */
  function KeyspaceOf(floats: Floats, key: string, value: string): Option<DbStats> {
    var split := Split(value, ',');
    if !HasPrefix(key, "db") || |split| < 2 || |split| > 4 then None
    else
      var keys :- ExtractVal(floats, split[0]);
      var expiring :- ExtractVal(floats, split[1]);
      if |split| == 2 then Some(DbStats(keys, expiring, -1.0, -1.0))
      else
        var ttl :- ExtractVal(floats, split[2]);
        if |split| == 3 then Some(DbStats(keys, expiring, ttl / 1000.0, -1.0))
        else
          var cached :- ExtractVal(floats, split[3]);
          Some(DbStats(keys, expiring, ttl / 1000.0, cached))
  }

  /** parseMetricsErrorStats */
  function ErrorCountOf(floats: Floats, key: string, value: string): Option<real> {
    if !HasPrefix(key, "errorstat_") then None else ExtractVal(floats, value)
  }

  /** The key=value pairs among the pieces; None at the first that is no pair. */
  function ReadPairs(pieces: seq<string>, table: map<string, string>): Option<map<string, string>>
    decreases |pieces|
  {
    if pieces == [] then Some(table)
    else
      var x := Split(pieces[0], '=');
      if |x| != 2 then None else ReadPairs(pieces[1..], table[x[0] := x[1]])
  }

  function Lookup(table: map<string, string>, key: string): string {
    if key in table then table[key] else ""
  }

  datatype Replica = Replica(offset: real, ip: string, port: string, state: string, lag: real)

  /** parseConnectedSlaveString */
  function ReplicaOf(floats: Floats, key: string, value: string): Option<Replica> {
    if !IsNumbered(key, "slave") then None
    else
      var table :- ReadPairs(Split(value, ','), map[]);
      var offset :- floats(Lookup(table, "offset"));
      var lag :- if "lag" in table then floats(table["lag"]) else Some(-1.0);
      Some(Replica(offset, Lookup(table, "ip"), Lookup(table, "port"), Lookup(table, "state"), lag))
  }

  /** The same loop in parseSentinelMasterString skips what is no pair. */
  function ReadSentinelPairs(pieces: seq<string>, table: map<string, string>): map<string, string>
    decreases |pieces|
  {
    if pieces == [] then table
    else
      var x := Split(pieces[0], '=');
      ReadSentinelPairs(pieces[1..], if |x| == 2 then table[x[0] := x[1]] else table)
  }

  datatype SentinelMaster = SentinelMaster(name: string, status: string, address: string, slaves: real, sentinels: real)

  /** parseSentinelMasterString */
  function SentinelMasterOf(floats: Floats, key: string, value: string): Option<SentinelMaster> {
    if !IsNumbered(key, "master") then None
    else
      var table := ReadSentinelPairs(Split(value, ','), map[]);
      var slaves :- floats(Lookup(table, "slaves"));
      var sentinels :- floats(Lookup(table, "sentinels"));
      Some(SentinelMaster(Lookup(table, "name"), Lookup(table, "status"), Lookup(table, "address"), slaves, sentinels))
  }

  // ----- the loops -----

  /** parseMetricsLatencyStats */
  method ParseMetricsLatencyStats(floats: Floats, key: string, value: string) returns (r: Percentiles)
    ensures r == LatencyOf(floats, key, value)
  {
    if !HasPrefix(key, LATENCY_PREFIX) {
      return Rejected;
    }
    var pieces := Split(value, ',');
    var table: map<real, real> := map[];
    for i := 0 to |pieces|
      invariant ReadPercentiles(floats, pieces[i..], table) == ReadPercentiles(floats, pieces, map[])
    {
      assert pieces[i..][1..] == pieces[i + 1..];
      match ExtractPercentileVal(floats, pieces[i])
      case Crash => return Crashed;
      case Invalid => return Rejected;
      case Pair(p, v) => table := table[p := v];
    }
    return Accepted(table);
  }

  /** parseConnectedSlaveString */
  method ParseConnectedSlaveString(floats: Floats, key: string, value: string) returns (r: Option<Replica>)
    ensures r == ReplicaOf(floats, key, value)
  {
    if !IsNumbered(key, "slave") {
      return None;
    }
    var pieces := Split(value, ',');
    var table: map<string, string> := map[];
    for i := 0 to |pieces|
      invariant ReadPairs(pieces[i..], table) == ReadPairs(pieces, map[])
    {
      assert pieces[i..][1..] == pieces[i + 1..];
      var x := Split(pieces[i], '=');
      if |x| != 2 {
        return None;
      }
      table := table[x[0] := x[1]];
    }
    var offset := floats(Lookup(table, "offset"));
    if offset.None? {
      return None;
    }
    var lag := Some(-1.0);
    if "lag" in table {
      lag := floats(table["lag"]);
      if lag.None? {
        return None;
      }
    }
    return Some(Replica(offset.value, Lookup(table, "ip"), Lookup(table, "port"), Lookup(table, "state"), lag.value));
  }

  /** parseSentinelMasterString */
  method ParseSentinelMasterString(floats: Floats, key: string, value: string) returns (r: Option<SentinelMaster>)
    ensures r == SentinelMasterOf(floats, key, value)
  {
    if !IsNumbered(key, "master") {
      return None;
    }
    var pieces := Split(value, ',');
    var table: map<string, string> := map[];
    for i := 0 to |pieces|
      invariant ReadSentinelPairs(pieces[i..], table) == ReadSentinelPairs(pieces, map[])
    {
      assert pieces[i..][1..] == pieces[i + 1..];
      var x := Split(pieces[i], '=');
      if |x| != 2 {
        continue;
      }
      table := table[x[0] := x[1]];
    }
    var slaves, sentinels := floats(Lookup(table, "slaves")), floats(Lookup(table, "sentinels"));
    if slaves.None? || sentinels.None? {
      return None;
    }
    return Some(SentinelMaster(Lookup(table, "name"), Lookup(table, "status"), Lookup(table, "address"),
                               slaves.value, sentinels.value));
  }
}
