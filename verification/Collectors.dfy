/** The collectors that share one connection during a scrape: checked keys, key
    counts and streams.  What each emits is stated per (database, key) pair, by
    asking the server in that database, whatever the connection had selected. */
module Collectors {
  import opened Wrappers
  import opened Redis
  import opened Metrics
  import opened KeyArgs
  import opened KeyMetrics
  import opened PipelinedKeys
  import opened PipelineProofs
  import opened Scanning

  // ----- checked keys -----

  datatype CheckConfig = CheckConfig(checkKeys: string, checkSingleKeys: string, batchSize: int, isCluster: bool)

  /** The keys to check: single keys first, then the expanded patterns, which
      are all dropped if a SELECT fails on the way. */
  ghost function CheckedKeys(server: Server, cfg: CheckConfig, poisoned: bool): seq<DbKey>
  {
    var expanded := Expand(server, cfg.batchSize, Parse(cfg.checkKeys).keys, [], poisoned);
    Parse(cfg.checkSingleKeys).keys + if expanded.failed then [] else expanded.keys
  }

  predicate ArgsParse(cfg: CheckConfig) {
    Parse(cfg.checkKeys).error.None? && Parse(cfg.checkSingleKeys).error.None?
  }

  /** A cluster node knows database 0 only. */
  ghost predicate OnlyDb0(server: Server) {
    forall db :: db != "0" ==> server.select(db).Err?
  }

  /** The connection after the pipelined path, started in sync with database db
      selected, and the log it leaves. */
  ghost function PipelinedRun(server: Server, opts: Options, cfg: CheckConfig, db: string, sent: seq<Metric>,
                              order: seq<string>): Wire
  {
    var start := Wire(DbAfterExpand(server, db, Parse(cfg.checkKeys).keys, false), [], sent);
    RunGroups(server, opts, start, CheckedKeys(server, cfg, false), order)
  }

  /** extractCheckKeyMetrics, for a connection in sync (in cluster mode, a
      cluster connection).  The state it ends in is known in every case; the
      samples are those of the specification by the one-at-a-time path always,
      and by the pipelined path if it runs clean. */
  method ExtractCheckKeyMetrics(conn: Conn, ch: Channel, opts: Options, cfg: CheckConfig)
    returns (failed: bool, ghost order: seq<string>)
    requires conn.InSync() && PatternsEnd(conn.server, cfg.batchSize, Parse(cfg.checkKeys).keys)
    requires cfg.isCluster ==> conn.db == "0" && OnlyDb0(conn.server)
    modifies conn, ch
    ensures conn.buffered == []
    ensures failed <==> !ArgsParse(cfg)
    ensures failed ==> conn.InSync() && conn.db == old(conn.db) && ch.sent == old(ch.sent)
    ensures !failed && cfg.isCluster ==>
              && conn.InSync()
              && multiset(ch.sent) == multiset(old(ch.sent))
                                      + Spec(conn.server, opts, InDb0(CheckedKeys(conn.server, cfg, false)))
    ensures !failed && !cfg.isCluster ==>
              && IsTraversal(order, CheckedKeys(conn.server, cfg, false))
              && Wire(conn.db, conn.unread, ch.sent)
                 == PipelinedRun(conn.server, opts, cfg, old(conn.db), old(ch.sent), order)
    ensures !failed && !cfg.isCluster ==>
              var keys := CheckedKeys(conn.server, cfg, false);
              && (conn.InSync() <==> Clean(conn.server, keys))
              && (Clean(conn.server, keys) ==>
                    multiset(ch.sent) == multiset(old(ch.sent)) + Spec(conn.server, opts, keys))
  {
    order := [];
    var keys, error := ParseKeyArg(cfg.checkKeys);
    if error.Some? {
      return true, [];
    }
    var singleKeys;
    singleKeys, error := ParseKeyArg(cfg.checkSingleKeys);
    if error.Some? {
      return true, [];
    }
    assert Parse(cfg.checkKeys) == Parsed(keys, None) && Parse(cfg.checkSingleKeys) == Parsed(singleKeys, None);
    var allKeys := singleKeys;
    var scannedKeys, expansionFailed := GetKeysFromPatterns(conn, keys, cfg.batchSize);
    if !expansionFailed {
      allKeys := allKeys + scannedKeys;
    }
    assert allKeys == CheckedKeys(conn.server, cfg, false);
    if cfg.isCluster {
      ExtractNotPipelined(conn, ch, opts, allKeys);
    } else {
      ghost var start := Wire(conn.db, conn.unread, ch.sent);
      order := ExtractPipelined(conn, ch, opts, allKeys);
      PipelineMeetsSpec(conn.server, opts, start, allKeys, order);
    }
    failed := false;
  }

  // ----- key counts -----

  /** One count, asked in the pair's own database. */
  ghost function CountOne(server: Server, batchSize: int, k: DbKey): seq<Metric>
  {
    if server.select(k.db).Err? then []
    else
      match ScanSpec(server, k.db, k.key, batchSize)
      case None => []
      case Some(items) => [Metric("keys_count", |items| as real, [Label(k.db), k.key])]
  }

  /** The samples of all pairs, one pair after the other. */
  function ForEach(one: DbKey -> seq<Metric>, keys: seq<DbKey>): seq<Metric> {
    if keys == [] then [] else one(keys[0]) + ForEach(one, keys[1..])
  }

  lemma {:induction false} ForEachOne(one: DbKey -> seq<Metric>, k: DbKey)
    ensures ForEach(one, [k]) == one(k) && ForEach(one, []) == []
  {
    assert [k][1..] == [] && one(k) + [] == one(k);
  }

  ghost function CountSpec(server: Server, batchSize: int, keys: seq<DbKey>): seq<Metric> {
    ForEach((k: DbKey) => CountOne(server, batchSize, k), keys)
  }

  /** The scans that counting these pairs may start all end. */
  ghost predicate CountsEnd(server: Server, batchSize: int, keys: seq<DbKey>) {
    forall k | k in keys && k.key != "" :: ScanEnds(server, k.db, k.key, batchSize)
  }

  /** A stale error costs exactly the first pair that asks for a database. */
  function Surviving(keys: seq<DbKey>, poisoned: bool): seq<DbKey> {
    if poisoned && keys != [] then keys[1..] else keys
  }

  lemma {:induction false} ForEachStep(one: DbKey -> seq<Metric>, keys: seq<DbKey>, stale: bool, sent: seq<Metric>)
    requires keys != []
    ensures sent + ForEach(one, Surviving(keys, stale))
         == sent + (if stale then [] else one(keys[0])) + ForEach(one, keys[1..])
  {
    if !stale {
      Regroup(sent, one(keys[0]), ForEach(one, keys[1..]));
    }
  }

  /** The loop of extractCountKeysMetrics. */
  method EmitCounts(conn: Conn, ch: Channel, batchSize: int, keys: seq<DbKey>)
    requires conn.buffered == [] && CountsEnd(conn.server, batchSize, keys)
    modifies conn, ch
    ensures conn.buffered == []
    ensures if keys == [] then conn.unread == old(conn.unread) else conn.InSync()
    ensures ch.sent == old(ch.sent) + CountSpec(conn.server, batchSize, Surviving(keys, old(conn.Poisoned())))
  {
    ghost var stale := conn.Poisoned();
    ghost var one := (k: DbKey) => CountOne(conn.server, batchSize, k);
    for i := 0 to |keys|
      invariant conn.buffered == []
      invariant if i == 0 then conn.unread == old(conn.unread) else conn.InSync()
      invariant conn.Poisoned() == (stale && i == 0)
      invariant ch.sent + ForEach(one, Surviving(keys[i..], stale && i == 0))
             == old(ch.sent) + ForEach(one, Surviving(keys, stale))
    {
      ghost var sent := ch.sent;
      assert keys[i] in keys && keys[i..][1..] == keys[i + 1..];
      CountOneKey(conn, ch, batchSize, keys[i]);
      ForEachStep(one, keys[i..], stale && i == 0, sent);
    }
    assert keys[|keys|..] == [];
  }

  /** Whether any count is asked for. */
  predicate AsksCounts(countKeys: string) {
    Parse(countKeys).error.None? && Parse(countKeys).keys != []
  }

  /** extractCountKeysMetrics on any connection without half-sent commands. */
  method ExtractCountKeysMetrics(conn: Conn, ch: Channel, batchSize: int, countKeys: string)
    requires conn.buffered == [] && CountsEnd(conn.server, batchSize, Parse(countKeys).keys)
    modifies conn, ch
    ensures conn.buffered == []
    ensures if AsksCounts(countKeys) then conn.InSync() else conn.unread == old(conn.unread)
    ensures ch.sent == old(ch.sent) +
            if Parse(countKeys).error.Some? then []
            else CountSpec(conn.server, batchSize, Surviving(Parse(countKeys).keys, old(conn.Poisoned())))
  {
    var keys, error := ParseKeyArg(countKeys);
    assert Parse(countKeys) == Parsed(keys, error);
    if error.None? {
      EmitCounts(conn, ch, batchSize, keys);
    }
  }

  /** The loop body of extractCountKeysMetrics. */
  method CountOneKey(conn: Conn, ch: Channel, batchSize: int, k: DbKey)
    requires conn.buffered == [] && CountsEnd(conn.server, batchSize, [k])
    modifies conn, ch
    ensures conn.InSync()
    ensures ch.sent == old(ch.sent) + if old(conn.Poisoned()) then [] else CountOne(conn.server, batchSize, k)
  {
    var r := conn.Do(Select(k.db));
    if r.Err? {
      return;
    }
    assert k in [k];
    var keys := ScanKeys(conn, k.key, batchSize);
    if keys.None? {
      return;
    }
    ch.Gauge("keys_count", |keys.value| as real, [Label(k.db), k.key]);
  }
}
