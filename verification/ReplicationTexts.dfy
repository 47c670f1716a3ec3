/** The sections of INFO that describe the instance and its peers, as text: master and
    replicas, sentinel, server, and what is told about the instance at the end. */
module ReplicationTexts {
  import opened Wrappers
  import opened GoStrings
  import opened Registry
  import opened InfoFields
  import opened Info
  import opened InfoTexts

  // ----- the master of a replica -----

  /** `master`, or `master_3` where there are several. */
  function Master(n: Option<nat>): string {
    match n
    case None => "master"
    case Some(i) => "master_" + Itoa(i)
  }

  lemma {:induction false} DigitsEnd(digits: string, rest: string)
    requires forall i | 0 <= i < |digits| :: IsDigit(digits[i])
    requires rest != "" && !IsDigit(rest[0])
    ensures AfterDigits(digits + rest) == rest
  {
    if digits == "" {
      assert digits + rest == rest;
    } else {
      assert (digits + rest)[1..] == digits[1..] + rest;
      DigitsEnd(digits[1..], rest);
    }
  }

  /** A suffix that says what a line about a master is about. */
  predicate IsSuffix(suffix: string) {
    |suffix| > 2 && suffix[0] == '_' && !IsDigit(suffix[1])
  }

  lemma {:induction false} MasterField(n: Option<nat>, suffix: string)
    requires IsSuffix(suffix)
    ensures IsMasterField(Master(n) + suffix, suffix)
  {
    var key := Master(n) + suffix;
    if n.None? {
      assert key[..6] == "master" && key[6..] == suffix;
    } else {
      assert key == "master_" + (Itoa(n.value) + suffix);
      assert key[..6] == "master" && key[6] == '_' && key[7..] == Itoa(n.value) + suffix;
      DigitsEnd(Itoa(n.value), suffix);
    }
  }

  /** Two suffixes found in one key begin alike. */
  lemma {:induction false} SuffixesBeginAlike(key: string, a: string, b: string)
    requires IsSuffix(a) && IsSuffix(b) && IsMasterField(key, a) && IsMasterField(key, b)
    ensures a[..3] == b[..3]
  {
    var rest := key[6..];
    var later := if |key| > 7 then AfterDigits(key[7..]) else "";
    assert (a <= rest ==> key[7] == a[1]) && (b <= rest ==> key[7] == b[1]);
    assert a <= rest || a <= later;
    assert a <= rest ==> b <= rest;
    assert b <= rest ==> a <= rest;
  }

  lemma {:induction false} OtherSuffix(n: Option<nat>, suffix: string, other: string)
    requires IsSuffix(suffix) && IsSuffix(other) && suffix[..3] != other[..3]
    ensures !IsMasterField(Master(n) + suffix, other)
  {
    MasterField(n, suffix);
    if IsMasterField(Master(n) + suffix, other) {
      SuffixesBeginAlike(Master(n) + suffix, suffix, other);
    }
  }

  /** Which lines name the host and the port of a master, and which of them do not. */
  lemma {:induction false} HostAndPortNames(n: Option<nat>)
    ensures IsHost(Master(n) + "_host") && !IsPort(Master(n) + "_host")
    ensures IsPort(Master(n) + "_port") && !IsHost(Master(n) + "_port")
  {
    var host, port := "_host", "_port";
    MasterField(n, host);
    MasterField(n, port);
    assert host[..3][1] != port[..3][1];
    OtherSuffix(n, host, port);
    OtherSuffix(n, port, host);
  }

  /** master_link_status:up */
  lemma {:induction false} LinkText(cfg: InfoConfig, host: string, port: string, n: Option<nat>, value: string)
    ensures FieldRequests(cfg, Replication, host, port, Master(n) + "_link_status", value)
         == [Register("master_link_up", if value == "up" then 1.0 else 0.0, Gauge, [host, port])]
  {
    MasterField(n, "_link_status");
  }

  lemma {:induction false} DirectText(cfg: InfoConfig, host: string, port: string, key: string, x: nat)
    requires !IsLinkStatus(key) && IsDirect(key) && x <= MAX_INT64
    ensures FieldRequests(cfg, Replication, host, port, key, Itoa(x))
         == [Register(DirectName(key), x as real, Gauge, [host, port])]
  {
    ParseIntItoa(x);
  }

  lemma {:induction false} LastOne(front: string, last: string, other: string)
    requires last != "" && other != "" && last[|last| - 1] != other[|other| - 1]
    ensures HasSuffix(front + last, last) && !HasSuffix(front + last, other)
  {
    var s := front + last;
    assert s[|s| - |last|..] == last;
    if |other| <= |s| {
      assert s[|s| - |other|..][|other| - 1] == s[|s| - 1] == last[|last| - 1];
    }
  }

  lemma {:induction false} NoLink(n: Option<nat>, suffix: string)
    requires IsSuffix(suffix) && (suffix[1] != 'l' || suffix[2] != 'i')
    ensures !IsLinkStatus(Master(n) + suffix)
  {
    var link := "_link_status";
    assert link[..3][1] == 'l' && link[..3][2] == 'i';
    assert suffix[..3][1] == suffix[1] && suffix[..3][2] == suffix[2];
    OtherSuffix(n, suffix, link);
  }

  lemma {:induction false} Ending(front: string, suffix: string, last: string, other: string)
    requires suffix == "_" + last && last != "" && other != "" && last[|last| - 1] != other[|other| - 1]
    ensures HasSuffix(front + suffix, last) && !HasSuffix(front + suffix, other)
  {
    assert front + suffix == (front + "_") + last;
    LastOne(front + "_", last, other);
  }

  lemma {:induction false} LastIoEnding(front: string, suffix: string)
    requires suffix == "_last_io_seconds_ago"
    ensures DirectName(front + suffix) == "master_last_io_seconds_ago"
  {
    assert suffix == "_" + "last_io_seconds_ago";
    Ending(front, suffix, "last_io_seconds_ago", "sync_in_progress");
  }

  lemma {:induction false} SyncEnding(front: string, suffix: string)
    requires suffix == "_sync_in_progress"
    ensures DirectName(front + suffix) == "master_sync_in_progress"
  {
    assert suffix == "_" + "sync_in_progress";
    Ending(front, suffix, "sync_in_progress", "last_io_seconds_ago");
  }

  lemma {:induction false} DirectKey(n: Option<nat>, suffix: string)
    requires suffix == "_last_io_seconds_ago" || suffix == "_sync_in_progress"
    ensures !IsLinkStatus(Master(n) + suffix) && IsDirect(Master(n) + suffix)
  {
    MasterField(n, suffix);
    assert suffix[2] == 'a' || suffix[1] == 's';
    NoLink(n, suffix);
  }

  /** master_last_io_seconds_ago:7 */
  lemma {:induction false} LastIoText(cfg: InfoConfig, host: string, port: string, n: Option<nat>, x: nat)
    requires x <= MAX_INT64
    ensures FieldRequests(cfg, Replication, host, port, Master(n) + "_last_io_seconds_ago", Itoa(x))
         == [Register("master_last_io_seconds_ago", x as real, Gauge, [host, port])]
  {
    DirectKey(n, "_last_io_seconds_ago");
    LastIoEnding(Master(n), "_last_io_seconds_ago");
    DirectText(cfg, host, port, Master(n) + "_last_io_seconds_ago", x);
  }

  /** master_sync_in_progress:1 */
  lemma {:induction false} SyncText(cfg: InfoConfig, host: string, port: string, n: Option<nat>, x: nat)
    requires x <= MAX_INT64
    ensures FieldRequests(cfg, Replication, host, port, Master(n) + "_sync_in_progress", Itoa(x))
         == [Register("master_sync_in_progress", x as real, Gauge, [host, port])]
  {
    DirectKey(n, "_sync_in_progress");
    SyncEnding(Master(n), "_sync_in_progress");
    DirectText(cfg, host, port, Master(n) + "_sync_in_progress", x);
  }

  /** slave_repl_offset:42 */
  lemma {:induction false} OffsetText(cfg: InfoConfig, host: string, port: string, x: nat)
    requires x <= MAX_INT64
    ensures FieldRequests(cfg, Replication, host, port, "slave_repl_offset", Itoa(x))
         == [Register("slave_repl_offset", x as real, Gauge, [host, port])]
  {
    var key := "slave_repl_offset";
    assert key[0] == 's';
    LastOne("", key, "last_io_seconds_ago");
    LastOne("", key, "sync_in_progress");
    assert "" + key == key;
    DirectText(cfg, host, port, key, x);
  }

  // ----- replicas -----

  /** The last text given for a name. */
  function LastText(pieces: Pieces, name: string): Option<string> {
    if pieces == [] then None
    else
      var last := pieces[|pieces| - 1];
      if last.0 == name then Some(last.1) else LastText(pieces[..|pieces| - 1], name)
  }

  ghost predicate IsTable(pieces: Pieces, table: map<string, string>) {
    forall name :: LastText(pieces, name) == if name in table then Some(table[name]) else None
  }

  lemma {:induction false} TableSnoc(done: Pieces, piece: (string, string), table: map<string, string>)
    requires IsTable(done, table)
    ensures IsTable(done + [piece], table[piece.0 := piece.1])
  {
    assert (done + [piece])[..|done|] == done;
  }

  lemma {:induction false} PairsAreRead(pieces: Pieces, done: Pieces, table: map<string, string>)
    requires AreSeparate(pieces) && IsTable(done, table)
    ensures ReadPairs(PieceTexts(pieces), table).Some?
    ensures IsTable(done + pieces, ReadPairs(PieceTexts(pieces), table).value)
    ensures ReadSentinelPairs(PieceTexts(pieces), table) == ReadPairs(PieceTexts(pieces), table).value
    decreases |pieces|
  {
    if pieces == [] {
      assert done + pieces == done;
    } else {
      var first := pieces[0];
      PieceParts(first.0, first.1);
      assert PieceTexts(pieces)[0] == first.0 + "=" + first.1;
      assert PieceTexts(pieces)[1..] == PieceTexts(pieces[1..]);
      assert done + [first] + pieces[1..] == done + pieces;
      TableSnoc(done, first, table);
      PairsAreRead(pieces[1..], done + [first], table[first.0 := first.1]);
    }
  }

  lemma {:induction false} TextTable(pieces: Pieces) returns (table: map<string, string>)
    requires pieces != [] && AreSeparate(pieces)
    ensures IsTable(pieces, table)
    ensures ReadPairs(Split(Text(pieces), ','), map[]) == Some(table)
    ensures ReadSentinelPairs(Split(Text(pieces), ','), map[]) == table
  {
    TextParts(pieces);
    PairsAreRead(pieces, [], map[]);
    assert [] + pieces == pieces;
    table := ReadSentinelPairs(PieceTexts(pieces), map[]);
  }

  function TextOf(pieces: Pieces, name: string): string {
    LastText(pieces, name).GetOr("")
  }

  /** slave0:ip=i,port=p,state=s,offset=o,lag=l, in any order, with or without a lag. */
  function ReplicaSamples(pieces: Pieces, offset: real, lag: Option<real>): seq<Request> {
    var labels := [TextOf(pieces, "ip"), TextOf(pieces, "port"), TextOf(pieces, "state")];
    [Register("connected_slave_offset_bytes", offset, Gauge, labels)]
    + if lag.Some? && lag.value > -1.0 then [Register("connected_slave_lag_seconds", lag.value, Gauge, labels)] else []
  }

  lemma {:induction false} ReplicaName(n: nat, key: string)
    requires key == "slave" + Itoa(n)
    ensures IsNumbered(key, "slave") && !IsLinkStatus(key) && !IsDirect(key)
  {
    assert key[..5] == "slave" && key[5] == Itoa(n)[0];
    assert key[0] == 's';
    assert "slave_repl_offset"[5] == '_';
  }

  lemma {:induction false} ReplicaIs(floats: Floats, n: nat, pieces: Pieces)
    requires pieces != [] && AreSeparate(pieces)
    ensures var r, offset := ReplicaOf(floats, "slave" + Itoa(n), Text(pieces)), floats(TextOf(pieces, "offset"));
            var lag := LastText(pieces, "lag");
            if offset.None? || (lag.Some? && floats(lag.value).None?) then r == None
            else
              r == Some(Replica(offset.value, TextOf(pieces, "ip"), TextOf(pieces, "port"), TextOf(pieces, "state"),
                                if lag.Some? then floats(lag.value).value else -1.0))
  {
    ReplicaName(n, "slave" + Itoa(n));
    var table := TextTable(pieces);
    assert forall name :: Lookup(table, name) == TextOf(pieces, name);
    assert "lag" in table <==> LastText(pieces, "lag").Some?;
  }

  /** The samples of a replica, or none of them where a number is missing or none. */
  lemma {:induction false} ReplicaText(cfg: InfoConfig, host: string, port: string, n: nat, pieces: Pieces)
    requires pieces != [] && AreSeparate(pieces)
    ensures var requests := FieldRequests(cfg, Replication, host, port, "slave" + Itoa(n), Text(pieces));
            var offset, lag := cfg.floats(TextOf(pieces, "offset")), LastText(pieces, "lag");
            if offset.None? || (lag.Some? && cfg.floats(lag.value).None?)
            then requests == GenericRequests(cfg, "slave" + Itoa(n), Text(pieces))
            else requests == ReplicaSamples(pieces, offset.value, if lag.Some? then cfg.floats(lag.value) else None)
  {
    ReplicaName(n, "slave" + Itoa(n));
    ReplicaIs(cfg.floats, n, pieces);
  }

  /** Without a number a field is no replica and no watched master. */
  lemma {:induction false} Unnumbered(floats: Floats, rest: string, text: string)
    requires rest == "" || !IsDigit(rest[0])
    ensures ReplicaOf(floats, "slave" + rest, text) == None
    ensures SentinelMasterOf(floats, "master" + rest, text) == None
  {
  }

  // ----- sentinel -----

  lemma {:induction false} SentinelIs(floats: Floats, key: string, n: nat, pieces: Pieces)
    requires pieces != [] && AreSeparate(pieces) && key == "master" + Itoa(n)
    ensures var m := SentinelMasterOf(floats, key, Text(pieces));
            var slaves, sentinels := floats(TextOf(pieces, "slaves")), floats(TextOf(pieces, "sentinels"));
            if slaves.None? || sentinels.None? then m == None
            else m == Some(SentinelMaster(TextOf(pieces, "name"), TextOf(pieces, "status"), TextOf(pieces, "address"),
                                          slaves.value, sentinels.value))
  {
    assert key[..6] == "master" && key[6] == Itoa(n)[0];
    var table := TextTable(pieces);
    assert forall name :: Lookup(table, name) == TextOf(pieces, name);
  }

  /** The plain numbers of the section have other names. */
  lemma {:induction false} NoCounter(key: string)
    requires key != "" && key[0] == 'm'
    ensures key !in {"sentinel_masters", "sentinel_tilt", "sentinel_running_scripts", "sentinel_scripts_queue_length",
                     "sentinel_simulate_failure_flags"}
  {
  }

  /** master0:name=a,status=ok,address=h:p,slaves=x,sentinels=y, in any order. */
  lemma {:induction false} SentinelText(cfg: InfoConfig, host: string, port: string, n: nat, pieces: Pieces)
    requires pieces != [] && AreSeparate(pieces)
    requires cfg.floats(TextOf(pieces, "slaves")).Some? && cfg.floats(TextOf(pieces, "sentinels")).Some?
    ensures var labels := [TextOf(pieces, "name"), TextOf(pieces, "address")];
            var status := TextOf(pieces, "status");
            FieldRequests(cfg, Sentinel, host, port, "master" + Itoa(n), Text(pieces)) ==
            [Register("sentinel_master_status", if status == "ok" then 1.0 else 0.0, Gauge, labels + [status]),
             Register("sentinel_master_slaves", cfg.floats(TextOf(pieces, "slaves")).value, Gauge, labels),
             Register("sentinel_master_sentinels", cfg.floats(TextOf(pieces, "sentinels")).value, Gauge, labels)]
            + GenericRequests(cfg, "master" + Itoa(n), Text(pieces))
  {
    var key, status := "master" + Itoa(n), TextOf(pieces, "status");
    NoCounter(key);
    SentinelIs(cfg.floats, key, n, pieces);
    assert [TextOf(pieces, "name"), TextOf(pieces, "address")] + [status]
        == [TextOf(pieces, "name"), TextOf(pieces, "address"), status];
  }

  // ----- server -----

  /** uptime_in_seconds:t */
  lemma {:induction false} UptimeText(cfg: InfoConfig, host: string, port: string, text: string)
    requires cfg.floats(text).Some?
    ensures FieldRequests(cfg, Server, host, port, "uptime_in_seconds", text) ==
            [Register("start_time_seconds", cfg.now - cfg.floats(text).value, Gauge, [])]
            + GenericRequests(cfg, "uptime_in_seconds", text)
  {
  }

  /** hz:10 and configured_hz:10 */
  lemma {:induction false} HertzText(cfg: InfoConfig, host: string, port: string, key: string, x: nat)
    requires key == "hz" || key == "configured_hz"
    requires x <= MAX_INT64
    ensures FieldRequests(cfg, Server, host, port, key, Itoa(x))
         == [Register(key, x as real, Gauge, [])] + GenericRequests(cfg, key, Itoa(x))
  {
    ParseIntItoa(x);
    assert |key| != |"uptime_in_seconds"|;
  }

  // ----- any other field -----

  /** The number a text stands for. */
  predicate StandsFor(floats: Floats, text: string, v: real) {
    if text in {"ok", "true"} then v == 1.0
    else if text in {"err", "fail", "false"} then v == 0.0
    else floats(text) == Some(v)
  }

  /** A field listed among the gauges or the counters is exported under the name listed
      there, and a listed counter is one. */
  lemma {:induction false} ListedField(cfg: InfoConfig, key: string, text: string, v: real)
    requires Sanitize(key) == key && (key in cfg.gauges || key in cfg.counters) && StandsFor(cfg.floats, text, v)
    ensures var name := if key in cfg.gauges then cfg.gauges[key] else cfg.counters[key];
            var kind := if key in cfg.counters && cfg.counters[key] != "" then Counter else Gauge;
            GenericRequests(cfg, key, text) ==
            if name == "latest_fork_usec" then [Register("latest_fork_seconds", v / 1000000.0, kind, [])]
            else [Register(name, v, kind, [])]
  {
  }

  /** Any other field of a database, a command or the cluster under its own name. */
  lemma {:induction false} PrefixedField(cfg: InfoConfig, key: string, text: string, v: real)
    requires Sanitize(key) == key && key !in cfg.gauges && key !in cfg.counters && StandsFor(cfg.floats, text, v)
    requires HasPrefix(key, "db") || HasPrefix(key, "cmdstat_") || HasPrefix(key, "cluster_")
    ensures GenericRequests(cfg, key, text) == [Register(key, v, Gauge, [])]
  {
    assert key[0] == 'd' || key[0] == 'c';
    assert "latest_fork_usec"[0] == 'l';
  }

  /** Letters and digits stay in a name, and everything else becomes an underscore. */
  lemma {:induction false} SanitizedName(name: string, i: nat)
    requires i < |name|
    ensures |Sanitize(name)| == |name|
    ensures var c := name[i];
            Sanitize(name)[i] ==
            if ('a' <= c && c <= 'z') || ('A' <= c && c <= 'Z') || ('0' <= c && c <= '9') then c else '_'
  {
  }

  /** A field that is listed nowhere, and is no database, command or cluster field, is
      not exported. */
  lemma {:induction false} UnlistedField(cfg: InfoConfig, key: string, text: string)
    requires key !in cfg.gauges && key !in cfg.counters
    requires !HasPrefix(key, "db") && !HasPrefix(key, "cmdstat_") && !HasPrefix(key, "cluster_")
    ensures GenericRequests(cfg, key, text) == []
  {
  }

  // ----- the instance -----

  /** instance_info carries the last value of each of its fields, in the order of its
      labels; slave_info is sent for a replica only. */
  lemma {:induction false} InstanceText(lines: seq<Line>)
    ensures var closing := ClosingRequests(lines);
            var fields := ["role", "redis_version", "redis_build_id", "redis_mode", "os", "maxmemory_policy",
                           "tcp_port", "run_id", "process_id", "master_replid"]
                          + (if ValueAt(lines, "valkey_version").Some? then ["valkey_version"] else [])
                          + (if ValueAt(lines, "valkey_release_stage").Some? then ["valkey_release_stage"] else []);
            && |closing| == (if ValueAt(lines, "role") == Some("slave") then 3 else 2)
            && closing[0] == Create("instance_info", fields)
            && closing[1].Register? && closing[1].name == "instance_info" && closing[1].value == 1.0
            && |closing[1].labels| == |fields|
            && (forall i | 0 <= i < |fields| :: closing[1].labels[i] == ValueAt(lines, fields[i]).GetOr(""))
            && (ValueAt(lines, "role") == Some("slave") ==>
                  closing[2] == Register("slave_info", 1.0, Gauge,
                                         [ValueAt(lines, "master_host").GetOr(""), ValueAt(lines, "master_port").GetOr(""),
                                          ValueAt(lines, "slave_read_only").GetOr("")]))
  {
    assert "slave" != "" by {
      assert |"slave"| == 5;
    }
  }

  /** The value of a field is that of its last line. */
  lemma {:induction false} LastValue(lines: seq<Line>, i: nat, n: nat, key: string)
    requires i < n <= |lines| && lines[i].Field? && lines[i].key == key
    requires forall j | i < j < n :: !(lines[j].Field? && lines[j].key == key)
    ensures LastOf(lines, n, Named(key)) == Some(lines[i].value)
  {
    if i == n - 1 {
    } else {
      LastValue(lines, i, n - 1, key);
    }
  }
}
