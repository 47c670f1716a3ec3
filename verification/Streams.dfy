/** Stream metrics: SELECT, then a tree of XINFO queries. */
module Streams {
  import opened Wrappers
  import opened GoStrings
  import opened Redis
  import opened Metrics
  import opened KeyArgs
  import opened KeyMetrics
  import opened Scanning
  import opened Collectors

  datatype Consumer = Consumer(name: string, pending: int, idle: int)

  datatype Group = Group(name: string, consumers: int, pending: int, lastDeliveredId: string,
                         entriesRead: int, lag: int)

  datatype Stream = Stream(length: int, radixTreeKeys: int, radixTreeNodes: int, lastGeneratedId: string,
                           groups: int, maxDeletedEntryId: string, firstEntryId: string, lastEntryId: string)

  /** What redis.ScanStruct does with the name-value pairs of the three structs. */
  datatype Decoder = Decoder(stream: seq<Reply> -> Option<Stream>,
                             group: seq<Reply> -> Option<Group>,
                             consumer: seq<Reply> -> Option<Consumer>)

  datatype StreamConfig = StreamConfig(checkStreams: string, checkSingleStreams: string, batchSize: int,
                                       excludeConsumers: bool, decode: Decoder, opts: Options)

  /** redis.ScanStruct: a list that is no list of pairs is rejected first. */
  function ScanStruct<T>(values: seq<Reply>, decode: seq<Reply> -> Option<T>): Option<T> {
    if |values| % 2 != 0 then None else decode(values)
  }

  // ----- what XINFO reports, asked in one database -----

  /** The consumers among the items, after those already found. */
  function DecodeConsumers(decode: Decoder, items: seq<Reply>, found: seq<Consumer>): seq<Consumer> {
    if items == [] then found
    else
      match AsValues(items[0])
      case None => DecodeConsumers(decode, items[1..], found)
      case Some(v) =>
        match ScanStruct(v, decode.consumer)
        case None => DecodeConsumers(decode, items[1..], found)
        case Some(c) => DecodeConsumers(decode, items[1..], found + [c])
  }

  function ConsumersOf(server: Server, decode: Decoder, db: string, key: string, group: string)
    : Option<seq<Consumer>>
  {
    var items :- AsValues(server.Answer(db, XInfoConsumers(key, group)));
    Some(DecodeConsumers(decode, items, []))
  }

  type Groups = seq<(Group, seq<Consumer>)>

  /** A group that does not decode is skipped; one whose consumers cannot be
      asked for fails the stream. */
  function DecodeGroups(server: Server, decode: Decoder, db: string, key: string, items: seq<Reply>,
                        found: Groups): Option<Groups>
    decreases |items|
  {
    if items == [] then Some(found)
    else
      match AsValues(items[0])
      case None => DecodeGroups(server, decode, db, key, items[1..], found)
      case Some(v) =>
        match ScanStruct(v, decode.group)
        case None => DecodeGroups(server, decode, db, key, items[1..], found)
        case Some(g) =>
          var consumers :- ConsumersOf(server, decode, db, key, g.name);
          DecodeGroups(server, decode, db, key, items[1..], found + [(g, consumers)])
  }

  /** getStreamEntryId, for an index that exists. */
  function EntryId(r: Reply): string {
    if r.Arr? && |r.items| >= 2 && r.items[0].Bulk? then r.items[0].text else ""
  }

  /** The loop of getStreamInfo over the reply: the entry after each of the two
      markers.  None stands for the panic when nothing follows a marker. */
  function WithEntries(values: seq<Reply>, s: Stream): Option<Stream>
    decreases |values|
  {
    if values == [] then Some(s)
    else if values[0] == Bulk("first-entry") then
      if |values| == 1 then None else WithEntries(values[1..], s.(firstEntryId := EntryId(values[1])))
    else if values[0] == Bulk("last-entry") then
      if |values| == 1 then None else WithEntries(values[1..], s.(lastEntryId := EntryId(values[1])))
    else WithEntries(values[1..], s)
  }

  /** Only a marker in the very last place makes that loop panic. */
  lemma {:induction false} DanglingMarkerPanics(values: seq<Reply>, s: Stream)
    ensures WithEntries(values, s).None? <==>
            values != [] && values[|values| - 1] in {Bulk("first-entry"), Bulk("last-entry")}
    decreases |values|
  {
    if |values| > 1 {
      var next := if values[0] == Bulk("first-entry") then s.(firstEntryId := EntryId(values[1]))
                  else if values[0] == Bulk("last-entry") then s.(lastEntryId := EntryId(values[1])) else s;
      DanglingMarkerPanics(values[1..], next);
    } else if |values| == 1 {
      assert WithEntries(values[1..], s) == Some(s);
    }
  }

  datatype StreamInfo = Failed | Panicked | Found(stream: Stream, groups: Groups)

  function StreamOf(server: Server, decode: Decoder, db: string, key: string): StreamInfo {
    match AsValues(server.Answer(db, XInfoStream(key)))
    case None => Failed
    case Some(values) =>
      match ScanStruct(values, decode.stream)
      case None => Failed
      case Some(plain) =>
        match WithEntries(values, plain)
        case None => Panicked
        case Some(stream) =>
          match GroupsOf(server, decode, db, key)
          case None => Failed
          case Some(groups) => Found(stream, groups)
  }

  function GroupsOf(server: Server, decode: Decoder, db: string, key: string): Option<Groups> {
    var items :- AsValues(server.Answer(db, XInfoGroups(key)));
    DecodeGroups(server, decode, db, key, items, [])
  }

  // ----- the samples -----

  /** parseStreamItemId */
  function ItemId(opts: Options, id: string): real {
    if TrimSpace(id) == "" then 0.0 else opts.parseFloat(Split(id, '-')[0]).GetOr(0.0)
  }

  function ConsumerMetrics(labels: seq<string>, consumers: seq<Consumer>): seq<Metric> {
    if consumers == [] then []
    else
      var c := consumers[0];
      [Metric("stream_group_consumer_messages_pending", c.pending as real, labels + [c.name]),
       Metric("stream_group_consumer_idle_seconds", c.idle as real / 1000.0, labels + [c.name])]
      + ConsumerMetrics(labels, consumers[1..])
  }

  function GroupMetrics(cfg: StreamConfig, labels: seq<string>, groups: Groups): seq<Metric> {
    if groups == [] then []
    else
      var (g, consumers) := groups[0];
      var own := labels + [g.name];
      [Metric("stream_group_consumers", g.consumers as real, own),
       Metric("stream_group_messages_pending", g.pending as real, own),
       Metric("stream_group_last_delivered_id", ItemId(cfg.opts, g.lastDeliveredId), own),
       Metric("stream_group_entries_read", g.entriesRead as real, own),
       Metric("stream_group_lag", g.lag as real, own)]
      + (if cfg.excludeConsumers then [] else ConsumerMetrics(own, consumers))
      + GroupMetrics(cfg, labels, groups[1..])
  }

  function StreamMetrics(cfg: StreamConfig, labels: seq<string>, s: Stream): seq<Metric> {
    [Metric("stream_length", s.length as real, labels),
     Metric("stream_radix_tree_keys", s.radixTreeKeys as real, labels),
     Metric("stream_radix_tree_nodes", s.radixTreeNodes as real, labels),
     Metric("stream_last_generated_id", ItemId(cfg.opts, s.lastGeneratedId), labels),
     Metric("stream_groups", s.groups as real, labels),
     Metric("stream_max_deleted_entry_id", ItemId(cfg.opts, s.maxDeletedEntryId), labels),
     Metric("stream_first_entry_id", ItemId(cfg.opts, s.firstEntryId), labels),
     Metric("stream_last_entry_id", ItemId(cfg.opts, s.lastEntryId), labels)]
  }

  function StreamOne(server: Server, cfg: StreamConfig, k: DbKey): seq<Metric> {
    if server.select(k.db).Err? then []
    else
      match StreamOf(server, cfg.decode, k.db, k.key)
      case Failed => []
      case Panicked => []
      case Found(s, groups) =>
        StreamMetrics(cfg, [Label(k.db), k.key], s) + GroupMetrics(cfg, [Label(k.db), k.key], groups)
  }

  /** The reply about this stream makes the exporter panic. */
  predicate Panics(server: Server, cfg: StreamConfig, k: DbKey) {
    !server.select(k.db).Err? && StreamOf(server, cfg.decode, k.db, k.key).Panicked?
  }

  /** A stream makes the exporter panic if and only if its database can be selected
      and XINFO answers with a list of pairs that decodes and whose last value, of
      all things, is the name of one of the two markers. */
  lemma {:induction false} PanicsExactly(server: Server, cfg: StreamConfig, k: DbKey)
    ensures Panics(server, cfg, k) <==>
            && !server.select(k.db).Err?
            && var values := AsValues(server.Answer(k.db, XInfoStream(k.key))).GetOr([]);
               && values != [] && |values| % 2 == 0 && cfg.decode.stream(values).Some?
               && values[|values| - 1] in {Bulk("first-entry"), Bulk("last-entry")}
  {
    var values := AsValues(server.Answer(k.db, XInfoStream(k.key)));
    if values.Some? {
      var plain := ScanStruct(values.value, cfg.decode.stream);
      if plain.Some? {
        DanglingMarkerPanics(values.value, plain.value);
      }
    }
  }

  predicate AnyPanics(server: Server, cfg: StreamConfig, keys: seq<DbKey>) {
    Any((k: DbKey) => Panics(server, cfg, k), keys)
  }

  /** The streams before the first that makes it panic. */
  function BeforePanic(server: Server, cfg: StreamConfig, keys: seq<DbKey>): (before: seq<DbKey>)
    ensures !AnyPanics(server, cfg, keys) ==> before == keys
  {
    Until((k: DbKey) => Panics(server, cfg, k), keys)
  }

  predicate Any(bad: DbKey -> bool, keys: seq<DbKey>) {
    exists k | k in keys :: bad(k)
  }

  function Until(bad: DbKey -> bool, keys: seq<DbKey>): (before: seq<DbKey>)
    ensures !Any(bad, keys) ==> before == keys
  {
    if keys == [] || bad(keys[0]) then []
    else
      assert Any(bad, keys[1..]) ==> Any(bad, keys);
      [keys[0]] + Until(bad, keys[1..])
  }

  function StreamSpec(server: Server, cfg: StreamConfig, keys: seq<DbKey>): seq<Metric> {
    ForEach((k: DbKey) => StreamOne(server, cfg, k), keys)
  }

  // ----- the methods -----

  /** scanStreamGroupConsumers */
  method ScanStreamGroupConsumers(conn: Conn, decode: Decoder, key: string, group: string)
    returns (consumers: Option<seq<Consumer>>)
    requires conn.InSync()
    modifies conn
    ensures conn.InSync() && conn.db == old(conn.db)
    ensures consumers == ConsumersOf(conn.server, decode, conn.db, key, group)
  {
    var r := conn.Do(XInfoConsumers(key, group));
    var items := AsValues(r);
    if items.None? {
      return None;
    }
    var result := [];
    for i := 0 to |items.value|
      invariant conn.InSync() && conn.db == old(conn.db)
      invariant DecodeConsumers(decode, items.value[i..], result) == DecodeConsumers(decode, items.value, [])
    {
      assert items.value[i..][1..] == items.value[i + 1..];
      var v := AsValues(items.value[i]);
      if v.Some? {
        var c := ScanStruct(v.value, decode.consumer);
        if c.Some? {
          result := result + [c.value];
        }
      }
    }
    return Some(result);
  }

  /** scanStreamGroups */
  method ScanStreamGroups(conn: Conn, decode: Decoder, key: string)
    returns (groups: Option<Groups>)
    requires conn.InSync()
    modifies conn
    ensures conn.InSync() && conn.db == old(conn.db)
    ensures groups == GroupsOf(conn.server, decode, conn.db, key)
  {
    var r := conn.Do(XInfoGroups(key));
    var items := AsValues(r);
    if items.None? {
      return None;
    }
    var result := [];
    for i := 0 to |items.value|
      invariant conn.InSync() && conn.db == old(conn.db)
      invariant DecodeGroups(conn.server, decode, conn.db, key, items.value[i..], result)
             == DecodeGroups(conn.server, decode, conn.db, key, items.value, [])
    {
      assert items.value[i..][1..] == items.value[i + 1..];
      var v := AsValues(items.value[i]);
      if v.None? {
        continue;
      }
      var g := ScanStruct(v.value, decode.group);
      if g.None? {
        continue;
      }
      var consumers := ScanStreamGroupConsumers(conn, decode, key, g.value.name);
      if consumers.None? {
        return None;
      }
      result := result + [(g.value, consumers.value)];
    }
    return Some(result);
  }

  /** The loop of getStreamInfo that looks for the first and the last entry. */
  method FindEntries(values: seq<Reply>, plain: Stream) returns (stream: Option<Stream>)
    ensures stream == WithEntries(values, plain)
  {
    var s := plain;
    for idx := 0 to |values|
      invariant WithEntries(values[idx..], s) == WithEntries(values, plain)
    {
      assert values[idx..][1..] == values[idx + 1..];
      if values[idx] == Bulk("first-entry") {
        if idx + 1 == |values| {
          return None;
        }
        s := s.(firstEntryId := EntryId(values[idx + 1]));
      } else if values[idx] == Bulk("last-entry") {
        if idx + 1 == |values| {
          return None;
        }
        s := s.(lastEntryId := EntryId(values[idx + 1]));
      }
    }
    return Some(s);
  }

  /** getStreamInfo */
  method GetStreamInfo(conn: Conn, decode: Decoder, key: string) returns (info: StreamInfo)
    requires conn.InSync()
    modifies conn
    ensures conn.InSync() && conn.db == old(conn.db)
    ensures info == StreamOf(conn.server, decode, conn.db, key)
  {
    var r := conn.Do(XInfoStream(key));
    var values := AsValues(r);
    if values.None? {
      return Failed;
    }
    var plain := ScanStruct(values.value, decode.stream);
    if plain.None? {
      return Failed;
    }
    var stream := FindEntries(values.value, plain.value);
    if stream.None? {
      return Panicked;
    }
    var groups := ScanStreamGroups(conn, decode, key);
    if groups.None? {
      return Failed;
    }
    return Found(stream.value, groups.value);
  }

  method EmitAll(ch: Channel, metrics: seq<Metric>)
    modifies ch
    ensures ch.sent == old(ch.sent) + metrics
  {
    for i := 0 to |metrics|
      invariant ch.sent == old(ch.sent) + metrics[..i]
    {
      ch.Gauge(metrics[i].name, metrics[i].value, metrics[i].labels);
    }
  }

  /** The loop body of extractStreamMetrics. */
  method ExtractStream(conn: Conn, ch: Channel, cfg: StreamConfig, k: DbKey) returns (panicked: bool)
    requires conn.buffered == []
    modifies conn, ch
    ensures conn.InSync()
    ensures panicked <==> !old(conn.Poisoned()) && Panics(conn.server, cfg, k)
    ensures ch.sent == old(ch.sent) + if old(conn.Poisoned()) then [] else StreamOne(conn.server, cfg, k)
  {
    var r := conn.Do(Select(k.db));
    if r.Err? {
      return false;
    }
    var info := GetStreamInfo(conn, cfg.decode, k.key);
    if info.Found? {
      EmitAll(ch, StreamMetrics(cfg, [Label(k.db), k.key], info.stream)
                  + GroupMetrics(cfg, [Label(k.db), k.key], info.groups));
    }
    return info.Panicked?;
  }

  /** The streams to ask for, single ones first. */
  ghost function CheckedStreams(server: Server, cfg: StreamConfig, poisoned: bool): seq<DbKey>
  {
    var expanded := Expand(server, cfg.batchSize, Parse(cfg.checkStreams).keys, [], poisoned);
    Parse(cfg.checkSingleStreams).keys + if expanded.failed then [] else expanded.keys
  }

  /** Those that are in fact asked for: a stale error that no pattern's SELECT has
      drained costs the first. */
  ghost function AskedStreams(server: Server, cfg: StreamConfig, poisoned: bool): seq<DbKey>
  {
    Surviving(CheckedStreams(server, cfg, poisoned), poisoned && !HasGlob(Parse(cfg.checkStreams).keys))
  }

  predicate StreamArgsParse(cfg: StreamConfig) {
    Parse(cfg.checkStreams).error.None? && Parse(cfg.checkSingleStreams).error.None?
  }

  /** Whether any database is selected for a stream. */
  predicate AsksStreams(cfg: StreamConfig) {
    StreamArgsParse(cfg) && (Parse(cfg.checkStreams).keys != [] || Parse(cfg.checkSingleStreams).keys != [])
  }

  /** The first half of extractStreamMetrics: which streams are asked for. */
  method AllStreams(conn: Conn, cfg: StreamConfig) returns (streams: Option<seq<DbKey>>)
    requires conn.buffered == [] && PatternsEnd(conn.server, cfg.batchSize, Parse(cfg.checkStreams).keys)
    modifies conn
    ensures conn.buffered == []
    ensures if streams.Some? && HasGlob(Parse(cfg.checkStreams).keys) then conn.InSync()
            else conn.unread == old(conn.unread)
    ensures streams.Some? <==> StreamArgsParse(cfg)
    ensures streams.Some? ==> streams.value == CheckedStreams(conn.server, cfg, old(conn.Poisoned()))
  {
    var keys, error := ParseKeyArg(cfg.checkStreams);
    if error.Some? {
      return None;
    }
    var allStreams;
    allStreams, error := ParseKeyArg(cfg.checkSingleStreams);
    if error.Some? {
      return None;
    }
    assert Parse(cfg.checkStreams) == Parsed(keys, None);
    assert Parse(cfg.checkSingleStreams) == Parsed(allStreams, None);
    var scanned, failed := GetKeysFromPatterns(conn, keys, cfg.batchSize);
    if !failed {
      allStreams := allStreams + scanned;
    }
    return Some(allStreams);
  }

  /** The second half: one stream after the other, up to a panic. */
  method EmitStreams(conn: Conn, ch: Channel, cfg: StreamConfig, streams: seq<DbKey>) returns (panicked: bool)
    requires conn.buffered == []
    modifies conn, ch
    ensures conn.buffered == []
    ensures if streams == [] then conn.unread == old(conn.unread) else conn.InSync()
    ensures var asked := Surviving(streams, old(conn.Poisoned()));
            && panicked == AnyPanics(conn.server, cfg, asked)
            && ch.sent == old(ch.sent) + StreamSpec(conn.server, cfg, BeforePanic(conn.server, cfg, asked))
  {
    ghost var stale := conn.Poisoned();
    ghost var one := (k: DbKey) => StreamOne(conn.server, cfg, k);
    ghost var bad := (k: DbKey) => Panics(conn.server, cfg, k);
    ghost var asked := Surviving(streams, stale);
    for i := 0 to |streams|
      invariant conn.buffered == []
      invariant if i == 0 then conn.unread == old(conn.unread) else conn.InSync()
      invariant conn.Poisoned() == (stale && i == 0)
      invariant Any(bad, Surviving(streams[i..], stale && i == 0)) == Any(bad, asked)
      invariant ch.sent + ForEach(one, Until(bad, Surviving(streams[i..], stale && i == 0)))
             == old(ch.sent) + ForEach(one, Until(bad, asked))
    {
      ghost var sent := ch.sent;
      assert streams[i..][1..] == streams[i + 1..];
      StreamStep(bad, one, streams[i..], stale && i == 0, sent);
      panicked := ExtractStream(conn, ch, cfg, streams[i]);
      if panicked {
        return;
      }
    }
    assert streams[|streams|..] == [];
    panicked := false;
  }

  lemma {:induction false} StreamStep(bad: DbKey -> bool, one: DbKey -> seq<Metric>, keys: seq<DbKey>, stale: bool,
                                      sent: seq<Metric>)
    requires keys != []
    ensures var asked := Surviving(keys, stale);
            if !stale && bad(keys[0]) then Any(bad, asked) && Until(bad, asked) == []
            else
              && Any(bad, asked) == Any(bad, keys[1..])
              && sent + ForEach(one, Until(bad, asked))
                 == sent + (if stale then [] else one(keys[0])) + ForEach(one, Until(bad, keys[1..]))
  {
    if !stale {
      assert keys == [keys[0]] + keys[1..];
      if !bad(keys[0]) {
        ForEachStep(one, [keys[0]] + Until(bad, keys[1..]), false, sent);
      }
    }
  }

  /** extractStreamMetrics: a stale error that no pattern's SELECT has drained
      costs the first stream. */
  method ExtractStreamMetrics(conn: Conn, ch: Channel, cfg: StreamConfig) returns (panicked: bool)
    requires conn.buffered == [] && PatternsEnd(conn.server, cfg.batchSize, Parse(cfg.checkStreams).keys)
    modifies conn, ch
    ensures conn.buffered == []
    ensures if AsksStreams(cfg) then conn.InSync() else conn.unread == old(conn.unread)
    ensures !StreamArgsParse(cfg) ==> !panicked && ch.sent == old(ch.sent)
    ensures StreamArgsParse(cfg) ==>
              var asked := AskedStreams(conn.server, cfg, old(conn.Poisoned()));
              && panicked == AnyPanics(conn.server, cfg, asked)
              && ch.sent == old(ch.sent) + StreamSpec(conn.server, cfg, BeforePanic(conn.server, cfg, asked))
  {
    ghost var poisoned := conn.Poisoned();
    var streams := AllStreams(conn, cfg);
    if streams.None? {
      return false;
    }
    if !HasGlob(Parse(cfg.checkStreams).keys) {
      ExpandPlainKeys(conn.server, cfg.batchSize, Parse(cfg.checkStreams).keys, [], poisoned);
    }
    panicked := EmitStreams(conn, ch, cfg, streams.value);
  }
}
