/** The slow log, which is asked for between the streams and the key groups: its two
    round trips take whatever stale error the collectors before have left. */
module SlowLog {
  import opened Wrappers
  import opened Redis
  import opened Metrics

  datatype Slow = Slow(id: int, micros: int)

  /** The last entry of the reply to SLOWLOG GET 1, zeros if there is none or it is
      no list.  None stands for the panic when a number in it is none. */
  function LastSlow(values: seq<Reply>): Option<Slow> {
    if values == [] then Some(Slow(0, 0))
    else
      var entry := AsValues(values[0]).GetOr([]);
      if entry == [] then Some(Slow(0, 0))
      else if !entry[0].Int? then None
      else if |entry| <= 2 then Some(Slow(entry[0].n, 0))
      else if !entry[2].Int? then None
      else Some(Slow(entry[0].n, entry[2].n))
  }

  function LengthMetrics(server: Server): seq<Metric> {
    match AsInt64(server.slowLog(SlowLogLen))
    case None => []
    case Some(n) => [Metric("slowlog_length", n as real, [])]
  }

  function LastMetrics(server: Server): seq<Metric> {
    match AsValues(server.slowLog(SlowLogGet(1)))
    case None => []
    case Some(values) =>
      match LastSlow(values)
      case None => []
      case Some(slow) =>
        [Metric("slowlog_last_id", slow.id as real, []),
         Metric("last_slow_execution_duration_seconds", slow.micros as real / 1000000.0, [])]
  }

  /** A stale error costs exactly the length. */
  function SlowLogSpec(server: Server, stale: bool): seq<Metric> {
    (if stale then [] else LengthMetrics(server)) + LastMetrics(server)
  }

  /** The last entry is a list with something else where a number belongs. */
  predicate SlowLogPanics(server: Server) {
    var entries := AsValues(server.slowLog(SlowLogGet(1))).GetOr([]);
    entries != []
    && var entry := AsValues(entries[0]).GetOr([]);
       entry != [] && (!entry[0].Int? || (|entry| > 2 && !entry[2].Int?))
  }

  /** extractSlowLogMetrics: whatever was unread before, the connection is in sync
      afterwards. */
  method ExtractSlowLog(conn: Conn, ch: Channel) returns (panicked: bool)
    requires conn.buffered == []
    modifies conn, ch
    ensures conn.InSync() && conn.db == old(conn.db)
    ensures panicked == SlowLogPanics(conn.server)
    ensures ch.sent == old(ch.sent) + SlowLogSpec(conn.server, old(conn.Poisoned()))
  {
    var r := conn.Do(SlowLogLen);
    var length := AsInt64(r);
    if length.Some? {
      ch.Gauge("slowlog_length", length.value as real, []);
    }
    r := conn.Do(SlowLogGet(1));
    var values := AsValues(r);
    if values.None? {
      return false;
    }
    var slow := LastSlow(values.value);
    if slow.None? {
      return true;
    }
    ch.Gauge("slowlog_last_id", slow.value.id as real, []);
    ch.Gauge("last_slow_execution_duration_seconds", slow.value.micros as real / 1000000.0, []);
    return false;
  }

  /** An entry of the slow log is a list of its id, a time stamp and the microseconds it
      took, and perhaps more. */
  lemma {:induction false} EntryIsReported(server: Server, n: int, id: int, time: Reply, micros: int, more: seq<Reply>)
    requires server.slowLog(SlowLogLen) == Int(n)
    requires server.slowLog(SlowLogGet(1)) == Arr([Arr([Int(id), time, Int(micros)] + more)])
    ensures !SlowLogPanics(server)
    ensures SlowLogSpec(server, false) ==
            [Metric("slowlog_length", n as real, []), Metric("slowlog_last_id", id as real, []),
             Metric("last_slow_execution_duration_seconds", micros as real / 1000000.0, [])]
  {
    var entry := [Int(id), time, Int(micros)] + more;
    assert entry[0] == Int(id) && entry[2] == Int(micros) && |entry| > 2;
    assert LastSlow([Arr(entry)]) == Some(Slow(id, micros));
  }

  /** Without an entry both numbers are 0. */
  lemma {:induction false} EmptyLogIsReported(server: Server)
    requires server.slowLog(SlowLogGet(1)) == Arr([])
    ensures !SlowLogPanics(server)
    ensures SlowLogSpec(server, true) ==
            [Metric("slowlog_last_id", 0.0, []), Metric("last_slow_execution_duration_seconds", 0.0, [])]
  {
  }
}
