/** The pipelined path: commands for a whole database are sent before any reply
    is read, so the code must know how many replies each key is owed.

    The first half of this module describes, as functions on the queue of unread
    replies, what the receive loops make of any queue, aligned or not, and proves
    the methods against them.  PipelineProofs shows what that amounts to. */
module PipelinedKeys {
  import opened Wrappers
  import opened Redis
  import opened Metrics
  import opened KeyArgs
  import opened KeyMetrics

  // ----- what is sent for the keys from i onward -----

  function TypeCommands(keys: seq<string>, i: nat): (cmds: seq<Command>)
    requires i <= |keys|
    ensures |cmds| == 2 * (|keys| - i)
    decreases |keys| - i
  {
    if i == |keys| then [] else [Type(keys[i]), MemoryUsage(keys[i])] + TypeCommands(keys, i + 1)
  }

  function SizeCommands(kind: Kind, key: string): seq<Command> {
    match kind
    case NoKey => []
    case Text => [PfCount(key), StrLen(key), Get(key)]
    case Other => []
    case _ => [LengthCommand(kind, key)]
  }

  function AllSizeCommands(keys: seq<string>, types: seq<string>, i: nat): seq<Command>
    requires i <= |keys| == |types|
    decreases |keys| - i
  {
    if i == |keys| then []
    else SizeCommands(KindOf(types[i]), keys[i]) + AllSizeCommands(keys, types, i + 1)
  }

  lemma {:induction false} TypeCommandsSelectNothing(keys: seq<string>, i: nat)
    requires i <= |keys|
    ensures !HasSelect(TypeCommands(keys, i))
    decreases |keys| - i
  {
    if i == |keys| {
    } else {
      TypeCommandsSelectNothing(keys, i + 1);
    }
  }

  lemma {:induction false} SizeCommandsSelectNothing(keys: seq<string>, types: seq<string>, i: nat)
    requires i <= |keys| == |types|
    ensures !HasSelect(AllSizeCommands(keys, types, i))
    decreases |keys| - i
  {
    if i == |keys| {
    } else {
      SizeCommandsSelectNothing(keys, types, i + 1);
      assert !HasSelect(SizeCommands(KindOf(types[i]), keys[i]));
    }
  }

  // ----- what is made of the replies, from key i onward -----

  function MemoryMetrics(dbLabel: string, key: string, r: Reply): seq<Metric> {
    if AsInt64(r).Some? then [MemoryMetric(dbLabel, key, AsInt64(r).value)] else []
  }

  datatype TypesRead = TypesRead(types: seq<string>, rest: seq<Reply>, sent: seq<Metric>)

  /** The first receive loop, having filled in `types` and emitted `sent`: a key
      takes one reply off the queue when that is no TYPE answer, else two. */
  function ReadTypes(dbLabel: string, keys: seq<string>, types: seq<string>, q: seq<Reply>, sent: seq<Metric>)
    : (r: TypesRead)
    requires |types| <= |keys| && |q| >= 2 * (|keys| - |types|)
    ensures |r.types| == |keys|
    ensures |q| - 2 * (|keys| - |types|) <= |r.rest| <= |q|
    decreases |keys| - |types|
  {
    if |types| == |keys| then TypesRead(types, q, sent)
    else if AsString(q[0]).None? then ReadTypes(dbLabel, keys, types + [""], q[1..], sent)
    else ReadTypes(dbLabel, keys, types + [AsString(q[0]).value], q[2..],
                   sent + MemoryMetrics(dbLabel, keys[|types|], q[1]))
  }

  /** The second receive loop, for one key. */
  function SizeMetrics(opts: Options, dbLabel: string, key: string, kind: Kind, q: seq<Reply>): seq<Metric>
    requires |q| >= |SizeCommands(kind, key)|
  {
    match kind
    case NoKey => [SizeMetric(dbLabel, key, 0)]
    case Text =>
      if AsInt64(q[0]).Some? then [SizeMetric(dbLabel, key, AsInt64(q[0]).value)]
      else if AsInt64(q[1]).Some? then
        ValueMetrics(opts, dbLabel, key, AsString(q[2]).GetOr(""))
        + [SizeMetric(dbLabel, key, AsInt64(q[1]).value)]
      else []
    case Other => []
    case _ => if AsInt64(q[0]).Some? then [SizeMetric(dbLabel, key, AsInt64(q[0]).value)] else []
  }

  datatype SizesRead = SizesRead(rest: seq<Reply>, sent: seq<Metric>)

  function ReadSizes(opts: Options, dbLabel: string, keys: seq<string>, types: seq<string>, i: nat,
                     q: seq<Reply>, sent: seq<Metric>): (r: SizesRead)
    requires i <= |keys| == |types|
    requires |q| >= |AllSizeCommands(keys, types, i)|
    ensures |r.rest| == |q| - |AllSizeCommands(keys, types, i)|
    decreases |keys| - i
  {
    if i == |keys| then SizesRead(q, sent)
    else
      var kind := KindOf(types[i]);
      ReadSizes(opts, dbLabel, keys, types, i + 1, q[|SizeCommands(kind, keys[i])|..],
                sent + SizeMetrics(opts, dbLabel, keys[i], kind, q))
  }

  // ----- one database, and all of them -----

  /** The connection between two groups: the selected database, the replies
      nobody has received, and what has been emitted. */
  datatype Wire = Wire(db: string, unread: seq<Reply>, sent: seq<Metric>)

  function RunGroup(server: Server, opts: Options, wire: Wire, dbNum: string, keys: seq<string>): Wire {
    var cmds := [Select(dbNum)] + TypeCommands(keys, 0);
    var db := DbAfterAll(server, wire.db, cmds);
    var q := wire.unread + Replies(server, wire.db, cmds);
    if AsString(q[0]).None? then Wire(db, q[1..], wire.sent)
    else
      var first := ReadTypes(Label(dbNum), keys, [], q[1..], wire.sent);
      var q2 := first.rest + Replies(server, db, AllSizeCommands(keys, first.types, 0));
      var second := ReadSizes(opts, Label(dbNum), keys, first.types, 0, q2, first.sent);
      Wire(db, second.rest, second.sent)
  }

  /** The keys listed for one database, in the order of the list. */
  function KeysOf(pairs: seq<DbKey>, db: string): seq<string> {
    if pairs == [] then []
    else (if pairs[0].db == db then [pairs[0].key] else []) + KeysOf(pairs[1..], db)
  }

  lemma {:induction false} KeysOfAppend(a: seq<DbKey>, b: seq<DbKey>, db: string)
    ensures KeysOf(a + b, db) == KeysOf(a, db) + KeysOf(b, db)
  {
    if a == [] {
      assert a + b == b;
    } else {
      assert (a + b)[1..] == a[1..] + b;
      KeysOfAppend(a[1..], b, db);
    }
  }

  /** All groups, in the order in which the map is traversed. */
  function RunGroups(server: Server, opts: Options, wire: Wire, pairs: seq<DbKey>, order: seq<string>): Wire
    decreases |order|
  {
    if order == [] then wire
    else RunGroups(server, opts, RunGroup(server, opts, wire, order[0], KeysOf(pairs, order[0])), pairs, order[1..])
  }

  lemma {:induction false} RunGroupsAppend(server: Server, opts: Options, wire: Wire, pairs: seq<DbKey>,
                                           order: seq<string>, db: string)
    ensures RunGroups(server, opts, wire, pairs, order + [db]) ==
            RunGroup(server, opts, RunGroups(server, opts, wire, pairs, order), db, KeysOf(pairs, db))
    decreases |order|
  {
    if order == [] {
      assert [] + [db] == [db] && [db][1..] == [];
    } else {
      assert (order + [db])[1..] == order[1..] + [db];
      RunGroupsAppend(server, opts, RunGroup(server, opts, wire, order[0], KeysOf(pairs, order[0])),
                      pairs, order[1..], db);
    }
  }

  lemma {:induction false} RunOneMore(server: Server, opts: Options, start: Wire, pairs: seq<DbKey>, order: seq<string>,
                                      db: string, now: Wire, next: Wire)
    requires now == RunGroups(server, opts, start, pairs, order)
    requires next == RunGroup(server, opts, now, db, KeysOf(pairs, db))
    ensures next == RunGroups(server, opts, start, pairs, order + [db])
  {
    RunGroupsAppend(server, opts, start, pairs, order, db);
  }

  function Databases(pairs: seq<DbKey>): set<string> {
    set p | p in pairs :: p.db
  }

  /** The members of a set in some order, each of them once. */
  predicate IsListing(order: seq<string>, dbs: set<string>) {
    && (forall i, j | 0 <= i < j < |order| :: order[i] != order[j])
    && (set db | db in order) == dbs
  }

  lemma {:induction false} ListingAppend(order: seq<string>, dbs: set<string>, db: string)
    requires IsListing(order, dbs) && db !in dbs
    ensures IsListing(order + [db], dbs + {db})
  {
    assert db in (set d | d in order) <==> db in order;
  }

  lemma {:induction false} ListingNext(order: seq<string>, dbs: set<string>, todo: set<string>, db: string)
    requires IsListing(order, dbs - todo) && db in todo && todo <= dbs
    ensures IsListing(order + [db], dbs - (todo - {db}))
  {
    ListingAppend(order, dbs - todo, db);
    assert dbs - (todo - {db}) == dbs - todo + {db};
  }

  /** A traversal of the databases named in a key list. */
  predicate IsTraversal(order: seq<string>, pairs: seq<DbKey>) {
    IsListing(order, Databases(pairs))
  }

  // ----- the methods -----

  lemma {:induction false} KeysOfDatabases(pairs: seq<DbKey>, db: string)
    ensures KeysOf(pairs, db) != [] <==> db in Databases(pairs)
  {
    if pairs == [] {
    } else {
      KeysOfDatabases(pairs[1..], db);
      assert pairs == [pairs[0]] + pairs[1..];
    }
  }

  /** keysByDb after the pairs have been filed: no empty group, none missing. */
  ghost predicate IsGrouping(keysByDb: map<string, seq<string>>, pairs: seq<DbKey>) {
    forall db :: KeysOf(pairs, db) == (if db in keysByDb then keysByDb[db] else [])
                 && (db in keysByDb ==> keysByDb[db] != [])
  }

  /** The grouping loop. */
  method GroupByDb(allKeys: seq<DbKey>) returns (keysByDb: map<string, seq<string>>)
    ensures keysByDb.Keys == Databases(allKeys)
    ensures forall db | db in keysByDb :: keysByDb[db] == KeysOf(allKeys, db)
  {
    keysByDb := map[];
    for i := 0 to |allKeys|
      invariant IsGrouping(keysByDb, allKeys[..i])
    {
      var k := allKeys[i];
      assert allKeys[..i + 1] == allKeys[..i] + [k];
      forall db
        ensures KeysOf(allKeys[..i + 1], db) == KeysOf(allKeys[..i], db) + if k.db == db then [k.key] else []
      {
        KeysOfAppend(allKeys[..i], [k], db);
        assert [k][1..] == [];
      }
      if k.db in keysByDb {
        keysByDb := keysByDb[k.db := keysByDb[k.db] + [k.key]];
      } else {
        keysByDb := keysByDb[k.db := [k.key]];
      }
    }
    assert allKeys[..|allKeys|] == allKeys;
    forall db {
      KeysOfDatabases(allKeys, db);
    }
  }

  /** The loop that sends TYPE and MEMORY USAGE for every key of a group. */
  method SendTypes(conn: Conn, keys: seq<string>)
    modifies conn`buffered
    ensures conn.buffered == old(conn.buffered) + TypeCommands(keys, 0)
  {
    for i := 0 to |keys|
      invariant conn.buffered + TypeCommands(keys, i) == old(conn.buffered) + TypeCommands(keys, 0)
    {
      ghost var before, pair := conn.buffered, [Type(keys[i]), MemoryUsage(keys[i])];
      conn.Send(Type(keys[i]));
      conn.Send(MemoryUsage(keys[i]));
      assert conn.buffered == before + pair;
      Regroup(before, pair, TypeCommands(keys, i + 1));
    }
  }

  /** The loop that fills keyTypes and emits the memory samples. */
  method ReceiveTypes(conn: Conn, ch: Channel, dbLabel: string, keys: seq<string>)
    returns (keyTypes: array<string>)
    requires |conn.unread| >= 2 * |keys|
    modifies conn`unread, ch
    ensures fresh(keyTypes)
    ensures TypesRead(keyTypes[..], conn.unread, ch.sent)
         == ReadTypes(dbLabel, keys, [], old(conn.unread), old(ch.sent))
  {
    keyTypes := new string[|keys|](_ => "");
    for i := 0 to |keys|
      invariant |conn.unread| >= 2 * (|keys| - i)
      invariant ReadTypes(dbLabel, keys, keyTypes[..i], conn.unread, ch.sent)
             == ReadTypes(dbLabel, keys, [], old(conn.unread), old(ch.sent))
      invariant forall j | i <= j < |keys| :: keyTypes[j] == ""
    {
      ghost var q, sent, done := conn.unread, ch.sent, keyTypes[..i];
      var r := conn.Receive();
      var t := AsString(r);
      if t.None? {
        assert keyTypes[..i + 1] == done + [""];
        continue;
      }
      keyTypes[i] := t.value;
      assert keyTypes[..i + 1] == done + [t.value];
      r := conn.Receive();
      assert conn.unread == q[2..];
      var memory := AsInt64(r);
      if memory.None? {
        assert sent + MemoryMetrics(dbLabel, keys[i], r) == sent;
        continue;
      }
      ch.Gauge("key_memory_usage_bytes", memory.value as real, [dbLabel, keys[i]]);
    }
    assert keyTypes[..] == keyTypes[..|keys|];
  }

  /** The sending half of getKeyInfoPipelined, for one key. */
  method SendSize(conn: Conn, key: string, kind: Kind)
    modifies conn`buffered
    ensures conn.buffered == old(conn.buffered) + SizeCommands(kind, key)
  {
    match kind
    case NoKey =>
    case Text =>
      conn.Send(PfCount(key));
      conn.Send(StrLen(key));
      conn.Send(Get(key));
    case Other =>
    case _ =>
      conn.Send(LengthCommand(kind, key));
  }

  /** The receiving half of getKeyInfoPipelined, for one key. */
  method ReceiveSize(conn: Conn, ch: Channel, opts: Options, dbLabel: string, key: string, kind: Kind)
    requires |conn.unread| >= |SizeCommands(kind, key)|
    modifies conn`unread, ch
    ensures ch.sent == old(ch.sent) + SizeMetrics(opts, dbLabel, key, kind, old(conn.unread))
    ensures conn.unread == old(conn.unread)[|SizeCommands(kind, key)|..]
  {
    match kind
    case NoKey =>
      ch.Gauge("key_size", 0.0, [dbLabel, key]);
    case Text =>
      var r := conn.Receive();
      var hllSize := AsInt64(r);
      r := conn.Receive();
      var strSize := AsInt64(r);
      r := conn.Receive();
      var text := AsString(r).GetOr("");
      if hllSize.Some? {
        ch.Gauge("key_size", hllSize.value as real, [dbLabel, key]);
      } else if strSize.Some? {
        EmitValue(ch, opts, dbLabel, key, text);
        ch.Gauge("key_size", strSize.value as real, [dbLabel, key]);
      }
    case Other =>
    case _ =>
      var r := conn.Receive();
      var size := AsInt64(r);
      if size.Some? {
        ch.Gauge("key_size", size.value as real, [dbLabel, key]);
      }
  }

  /** getKeyInfoPipelined: one loop that sends, one that receives. */
  method GetKeyInfoPipelined(conn: Conn, ch: Channel, opts: Options, dbLabel: string,
                             keys: seq<string>, keyTypes: seq<string>)
    requires |keys| == |keyTypes|
    requires conn.buffered == []
    modifies conn, ch
    ensures conn.buffered == [] && conn.db == old(conn.db)
    ensures var cmds := AllSizeCommands(keys, keyTypes, 0);
            SizesRead(conn.unread, ch.sent) ==
            ReadSizes(opts, dbLabel, keys, keyTypes, 0,
                      old(conn.unread) + Replies(conn.server, conn.db, cmds), old(ch.sent))
  {
    SendSizes(conn, keys, keyTypes);
    SizeCommandsSelectNothing(keys, keyTypes, 0);
    RepliesWithoutSelect(conn.server, conn.db, AllSizeCommands(keys, keyTypes, 0));
    conn.Flush();
    ReceiveSizes(conn, ch, opts, dbLabel, keys, keyTypes);
  }

  method SendSizes(conn: Conn, keys: seq<string>, keyTypes: seq<string>)
    requires |keys| == |keyTypes|
    requires conn.buffered == []
    modifies conn`buffered
    ensures conn.buffered == AllSizeCommands(keys, keyTypes, 0)
  {
    for i := 0 to |keys|
      invariant conn.buffered + AllSizeCommands(keys, keyTypes, i) == AllSizeCommands(keys, keyTypes, 0)
    {
      Regroup(conn.buffered, SizeCommands(KindOf(keyTypes[i]), keys[i]), AllSizeCommands(keys, keyTypes, i + 1));
      SendSize(conn, keys[i], KindOf(keyTypes[i]));
    }
  }

  method ReceiveSizes(conn: Conn, ch: Channel, opts: Options, dbLabel: string,
                      keys: seq<string>, keyTypes: seq<string>)
    requires |keys| == |keyTypes|
    requires |conn.unread| >= |AllSizeCommands(keys, keyTypes, 0)|
    modifies conn`unread, ch
    ensures SizesRead(conn.unread, ch.sent) ==
            ReadSizes(opts, dbLabel, keys, keyTypes, 0, old(conn.unread), old(ch.sent))
  {
    for i := 0 to |keys|
      invariant |conn.unread| >= |AllSizeCommands(keys, keyTypes, i)|
      invariant ReadSizes(opts, dbLabel, keys, keyTypes, i, conn.unread, ch.sent)
             == ReadSizes(opts, dbLabel, keys, keyTypes, 0, old(conn.unread), old(ch.sent))
    {
      ReceiveSize(conn, ch, opts, dbLabel, keys[i], KindOf(keyTypes[i]));
    }
  }

  /** The body of extractCheckKeyMetricsPipelined's loop over the databases. */
  method ExtractGroup(conn: Conn, ch: Channel, opts: Options, dbNum: string, keys: seq<string>)
    requires conn.buffered == []
    modifies conn, ch
    ensures conn.buffered == []
    ensures Wire(conn.db, conn.unread, ch.sent) ==
            RunGroup(conn.server, opts, Wire(old(conn.db), old(conn.unread), old(ch.sent)), dbNum, keys)
  {
    conn.Send(Select(dbNum));
    SendTypes(conn, keys);
    assert conn.buffered == [Select(dbNum)] + TypeCommands(keys, 0);
    conn.Flush();
    var r := conn.Receive();
    if AsString(r).None? {
      return;
    }
    var keyTypes := ReceiveTypes(conn, ch, Label(dbNum), keys);
    GetKeyInfoPipelined(conn, ch, opts, Label(dbNum), keys, keyTypes[..]);
  }

  /** The loop body of extractCheckKeyMetricsPipelined: one more group of the run that began in `start`. */
  method ExtractNext(conn: Conn, ch: Channel, opts: Options, dbNum: string, keys: seq<string>,
                     ghost start: Wire, ghost allKeys: seq<DbKey>, ghost order: seq<string>)
    requires conn.buffered == [] && keys == KeysOf(allKeys, dbNum)
    requires Wire(conn.db, conn.unread, ch.sent) == RunGroups(conn.server, opts, start, allKeys, order)
    modifies conn, ch
    ensures conn.buffered == []
    ensures Wire(conn.db, conn.unread, ch.sent) == RunGroups(conn.server, opts, start, allKeys, order + [dbNum])
  {
    ghost var now := Wire(conn.db, conn.unread, ch.sent);
    ExtractGroup(conn, ch, opts, dbNum, keys);
    RunOneMore(conn.server, opts, start, allKeys, order, dbNum, now, Wire(conn.db, conn.unread, ch.sent));
  }

  /** extractCheckKeyMetricsPipelined; `order` is the order in which the map
      happened to be traversed. */
  method ExtractPipelined(conn: Conn, ch: Channel, opts: Options, allKeys: seq<DbKey>)
    returns (ghost order: seq<string>)
    requires conn.buffered == []
    modifies conn, ch
    ensures conn.buffered == []
    ensures IsTraversal(order, allKeys)
    ensures Wire(conn.db, conn.unread, ch.sent) ==
            RunGroups(conn.server, opts, Wire(old(conn.db), old(conn.unread), old(ch.sent)), allKeys, order)
  {
    var keysByDb := GroupByDb(allKeys);
    ghost var start := Wire(conn.db, conn.unread, ch.sent);
    var todo := keysByDb.Keys;
    order := [];
    while todo != {}
      invariant todo <= keysByDb.Keys && IsListing(order, keysByDb.Keys - todo)
      invariant conn.buffered == []
      invariant Wire(conn.db, conn.unread, ch.sent) == RunGroups(conn.server, opts, start, allKeys, order)
      decreases |todo|
    {
      var dbNum :| dbNum in todo;
      ListingNext(order, keysByDb.Keys, todo, dbNum);
      ExtractNext(conn, ch, opts, dbNum, keysByDb[dbNum], start, allKeys, order);
      todo, order := todo - {dbNum}, order + [dbNum];
    }
  }
}
