/** What is exported about one key, stated once and independently of how the
    replies are gathered, and the one-command-at-a-time path that follows it. */
module KeyMetrics {
  import opened Wrappers
  import opened Redis
  import opened Metrics
  import opened KeyArgs

  datatype Options = Options(disableKeyValues: bool, parseFloat: string -> Option<real>)

  function Label(db: string): string {
    "db" + db
  }

  function SizeMetric(dbLabel: string, key: string, n: int): Metric {
    Metric("key_size", n as real, [dbLabel, key])
  }

  function MemoryMetric(dbLabel: string, key: string, n: int): Metric {
    Metric("key_memory_usage_bytes", n as real, [dbLabel, key])
  }

  /** The value of a string key: a number where it reads as one, else a label. */
  function ValueMetrics(opts: Options, dbLabel: string, key: string, text: string): seq<Metric> {
    if opts.disableKeyValues || text == "" then []
    else
      match opts.parseFloat(text)
      case Some(v) => [Metric("key_value", v, [dbLabel, key])]
      case None => [Metric("key_value_as_string", 1.0, [dbLabel, key, text])]
  }

  /** The cases of the `switch keyType` statements. */
  datatype Kind = NoKey | Text | List | Set | SortedSet | Hash | Stream | Other {
    predicate IsCollection() {
      List? || Set? || SortedSet? || Hash? || Stream?
    }
  }

  function KindOf(t: string): Kind {
    if t == "none" then NoKey
    else if t == "string" then Text
    else if t == "list" then List
    else if t == "set" then Set
    else if t == "zset" then SortedSet
    else if t == "hash" then Hash
    else if t == "stream" then Stream
    else Other
  }

  function LengthCommand(kind: Kind, key: string): Command
    requires kind.IsCollection()
  {
    match kind
    case List => LLen(key)
    case Set => SCard(key)
    case SortedSet => ZCard(key)
    case Hash => HLen(key)
    case Stream => XLen(key)
  }

  // ----- the specification: a multiset of samples per key -----

  /** A HyperLogLog answers PFCOUNT and has no value worth exporting; any other
      string answers STRLEN and may. */
  function StringSpec(opts: Options, dbLabel: string, key: string, hll: Reply, len: Reply, text: Reply)
    : multiset<Metric>
  {
    if AsInt64(hll).Some? then multiset{SizeMetric(dbLabel, key, AsInt64(hll).value)}
    else if AsInt64(len).Some? then
      multiset{SizeMetric(dbLabel, key, AsInt64(len).value)}
      + multiset(ValueMetrics(opts, dbLabel, key, AsString(text).GetOr("")))
    else multiset{}
  }

  function LengthSpec(dbLabel: string, key: string, len: Reply): multiset<Metric> {
    if AsInt64(len).Some? then multiset{SizeMetric(dbLabel, key, AsInt64(len).value)} else multiset{}
  }

  function SizeSpec(server: Server, opts: Options, db: string, dbLabel: string, key: string, kind: Kind)
    : multiset<Metric>
  {
    match kind
    case NoKey => multiset{SizeMetric(dbLabel, key, 0)}
    case Text => StringSpec(opts, dbLabel, key, server.Answer(db, PfCount(key)),
                            server.Answer(db, StrLen(key)), server.Answer(db, Get(key)))
    case Other => multiset{}
    case _ => LengthSpec(dbLabel, key, server.Answer(db, LengthCommand(kind, key)))
  }

  function MemorySpec(server: Server, db: string, dbLabel: string, key: string): multiset<Metric> {
    match AsInt64(server.Answer(db, MemoryUsage(key)))
    case Some(n) => multiset{MemoryMetric(dbLabel, key, n)}
    case None => multiset{}
  }

  function TypeOf(server: Server, db: string, key: string): Option<string> {
    AsString(server.Answer(db, Type(key)))
  }

  /** Everything exported about one key of one database. */
  function KeySpec(server: Server, opts: Options, db: string, dbLabel: string, key: string): multiset<Metric> {
    match TypeOf(server, db, key)
    case None => multiset{}
    case Some(t) => MemorySpec(server, db, dbLabel, key) + SizeSpec(server, opts, db, dbLabel, key, KindOf(t))
  }

  /** The keys of a list, each looked up in its own database. */
  function Spec(server: Server, opts: Options, pairs: seq<DbKey>): multiset<Metric> {
    if pairs == [] then multiset{}
    else KeySpec(server, opts, pairs[0].db, Label(pairs[0].db), pairs[0].key)
         + Spec(server, opts, pairs[1..])
  }

  /** A cluster has one database, labelled db0 whatever the argument said. */
  function InDb0(pairs: seq<DbKey>): seq<DbKey> {
    seq(|pairs|, i requires 0 <= i < |pairs| => DbKey("0", pairs[i].key))
  }

  // ----- one command at a time -----

  /** The value part both paths share. */
  method EmitValue(ch: Channel, opts: Options, dbLabel: string, key: string, text: string)
    modifies ch
    ensures ch.sent == old(ch.sent) + ValueMetrics(opts, dbLabel, key, text)
  {
    if !opts.disableKeyValues && text != "" {
      match opts.parseFloat(text)
      case Some(v) => ch.Gauge("key_value", v, [dbLabel, key]);
      case None => ch.Gauge("key_value_as_string", 1.0, [dbLabel, key, text]);
    }
  }

  /** getStringInfoNotPipelined and the metrics that follow from it. */
  method GetStringInfo(conn: Conn, ch: Channel, opts: Options, dbLabel: string, key: string)
    requires conn.InSync()
    modifies conn, ch
    ensures conn.InSync() && conn.db == old(conn.db)
    ensures multiset(ch.sent) ==
            multiset(old(ch.sent)) + SizeSpec(conn.server, opts, conn.db, dbLabel, key, Text)
  {
    var r := conn.Do(Get(key));
    var text := AsString(r).GetOr("");
    r := conn.Do(PfCount(key));
    var size := AsInt64(r);
    if size.Some? {
      ch.Gauge("key_size", size.value as real, [dbLabel, key]);
      return;
    }
    r := conn.Do(StrLen(key));
    size := AsInt64(r);
    if size.Some? {
      ch.Gauge("key_size", size.value as real, [dbLabel, key]);
      EmitValue(ch, opts, dbLabel, key, text);
    }
  }

  /** getKeyInfo */
  method GetKeyInfo(conn: Conn, ch: Channel, opts: Options, dbLabel: string, t: string, key: string)
    requires conn.InSync()
    modifies conn, ch
    ensures conn.InSync() && conn.db == old(conn.db)
    ensures multiset(ch.sent) ==
            multiset(old(ch.sent)) + SizeSpec(conn.server, opts, conn.db, dbLabel, key, KindOf(t))
  {
    var kind := KindOf(t);
    match kind
    case NoKey =>
      ch.Gauge("key_size", 0.0, [dbLabel, key]);
    case Text =>
      GetStringInfo(conn, ch, opts, dbLabel, key);
    case Other =>
    case _ =>
      var r := conn.Do(LengthCommand(kind, key));
      var size := AsInt64(r);
      if size.Some? {
        ch.Gauge("key_size", size.value as real, [dbLabel, key]);
      }
  }

  /** The loop body of extractCheckKeyMetricsNotPipelined. */
  method GatherKey(conn: Conn, ch: Channel, opts: Options, dbLabel: string, key: string)
    requires conn.InSync()
    modifies conn, ch
    ensures conn.InSync() && conn.db == old(conn.db)
    ensures multiset(ch.sent) ==
            multiset(old(ch.sent)) + KeySpec(conn.server, opts, conn.db, dbLabel, key)
  {
    var r := conn.Do(Type(key));
    var t := AsString(r);
    if t.None? {
      return;
    }
    r := conn.Do(MemoryUsage(key));
    var memory := AsInt64(r);
    if memory.Some? {
      ch.Gauge("key_memory_usage_bytes", memory.value as real, [dbLabel, key]);
    }
    GetKeyInfo(conn, ch, opts, dbLabel, t.value, key);
  }

  /** extractCheckKeyMetricsNotPipelined, on a connection with database 0
      selected (a cluster has no other). */
  method ExtractNotPipelined(conn: Conn, ch: Channel, opts: Options, allKeys: seq<DbKey>)
    requires conn.InSync() && conn.db == "0"
    modifies conn, ch
    ensures conn.InSync() && conn.db == "0"
    ensures multiset(ch.sent) == multiset(old(ch.sent)) + Spec(conn.server, opts, InDb0(allKeys))
  {
    ghost var todo := InDb0(allKeys);
    for i := 0 to |allKeys|
      invariant conn.InSync() && conn.db == "0"
      invariant multiset(ch.sent) + Spec(conn.server, opts, todo[i..])
             == multiset(old(ch.sent)) + Spec(conn.server, opts, todo)
    {
      var key := allKeys[i].key;
      assert todo[i..][0] == DbKey("0", key) && todo[i..][1..] == todo[i + 1..];
      GatherKey(conn, ch, opts, Label("0"), key);
    }
  }
}
