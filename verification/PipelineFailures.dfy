/** What the pipelined path does outside the condition of PipelineMeetsSpec: the
    promise that both paths stay equivalent does not survive a failing TYPE or
    SELECT, because the replies owed to it are not received. */
module PipelineFailures {
  import opened Wrappers
  import opened Redis
  import opened Metrics
  import opened KeyArgs
  import opened KeyMetrics
  import opened PipelinedKeys
  import opened PipelineProofs

  /** A key whose type was not learned gets no commands and takes no replies. */
  lemma {:induction false} UnknownKeyIsSkipped(opts: Options, dbLabel: string, keys: seq<string>, types: seq<string>, i: nat,
                            q: seq<Reply>, sent: seq<Metric>)
    requires i < |keys| == |types| && types[i] == ""
    requires |q| >= |AllSizeCommands(keys, types, i + 1)|
    ensures AllSizeCommands(keys, types, i) == AllSizeCommands(keys, types, i + 1)
    ensures ReadSizes(opts, dbLabel, keys, types, i, q, sent)
         == ReadSizes(opts, dbLabel, keys, types, i + 1, q, sent)
  {
    assert KindOf("") == Other;
    assert q[0..] == q && sent + [] == sent;
  }

  /** TYPE of the second key fails: its MEMORY USAGE reply m stays in the queue. */
  lemma {:induction false} TypesAfterError(dbLabel: string, a: string, b: string, t: string, q: seq<Reply>,
                                           sent: seq<Metric>)
    requires |q| == 4 && AsString(q[0]) == Some(t) && AsString(q[2]).None?
    ensures ReadTypes(dbLabel, [a, b], [], q, sent)
         == TypesRead([t, ""], [q[3]], sent + MemoryMetrics(dbLabel, a, q[1]))
  {
    var sent1 := sent + MemoryMetrics(dbLabel, a, q[1]);
    assert [] + [t] == [t] && [t] + [""] == [t, ""];
    assert q[2..][1..] == [q[3]];
    assert ReadTypes(dbLabel, [a, b], [t], q[2..], sent1)
        == ReadTypes(dbLabel, [a, b], [t, ""], [q[3]], sent1);
  }

  /** A list key a followed by a key b whose TYPE fails: the reply to MEMORY
      USAGE b is exported as the size of a, and a's true length is left unread. */
  lemma {:induction false} TypeErrorMisreportsSize(server: Server, opts: Options, wire: Wire, db: string,
                                                   a: string, b: string, m: int)
    requires wire.unread == [] && SelectWorks(server, db)
    requires TypeOf(server, db, a) == Some("list") && TypeOf(server, db, b).None?
    requires server.Answer(db, MemoryUsage(b)) == Int(m)
    ensures RunGroup(server, opts, wire, db, [a, b]) ==
            Wire(db, [server.Answer(db, LLen(a))],
                 wire.sent + MemoryMetrics(Label(db), a, server.Answer(db, MemoryUsage(a)))
                 + [SizeMetric(Label(db), a, m)])
  {
    var sent := wire.sent + MemoryMetrics(Label(db), a, server.Answer(db, MemoryUsage(a)));
    TypesOfTwo(server, db, a, b, wire.sent);
    SizesAfterError(server, opts, db, a, b, m, sent);
    GroupFrom(server, opts, wire, db, [a, b], TypesRead(["list", ""], [Int(m)], sent),
              SizesRead([server.Answer(db, LLen(a))], sent + [SizeMetric(Label(db), a, m)]));
  }

  /** Then the paths disagree, unless the two numbers happen to be equal. */
  lemma {:induction false} UncleanRunsCanDisagree(server: Server, opts: Options, db: string, a: string, b: string,
                                                  m: int, n: int)
    requires SelectWorks(server, db) && m != n
    requires TypeOf(server, db, a) == Some("list") && TypeOf(server, db, b).None?
    requires server.Answer(db, MemoryUsage(b)) == Int(m) && server.Answer(db, LLen(a)) == Int(n)
    ensures multiset(RunGroup(server, opts, Wire(db, [], []), db, [a, b]).sent)
         != Spec(server, opts, [DbKey(db, a), DbKey(db, b)])
  {
    TypeErrorMisreportsSize(server, opts, Wire(db, [], []), db, a, b, m);
    LastIsSent([] + MemoryMetrics(Label(db), a, server.Answer(db, MemoryUsage(a))), SizeMetric(Label(db), a, m));
    TrueSizeOnly(server, opts, db, a, m, n);
    SpecOfTwo(server, opts, DbKey(db, a), DbKey(db, b));
  }

  lemma {:induction false} LastIsSent(sent: seq<Metric>, last: Metric)
    ensures last in multiset(sent + [last])
  {
    assert last in sent + [last];
  }

  lemma {:induction false} SpecOfTwo(server: Server, opts: Options, p: DbKey, q: DbKey)
    requires TypeOf(server, q.db, q.key).None?
    ensures Spec(server, opts, [p, q]) == KeySpec(server, opts, p.db, Label(p.db), p.key)
  {
    assert [q][1..] == [] && Spec(server, opts, [q]) == multiset{};
    assert [p, q][1..] == [q];
  }

  lemma {:induction false} TrueSizeOnly(server: Server, opts: Options, db: string, a: string, m: int, n: int)
    requires TypeOf(server, db, a) == Some("list") && server.Answer(db, LLen(a)) == Int(n) && m != n
    ensures SizeMetric(Label(db), a, m) !in KeySpec(server, opts, db, Label(db), a)
  {
    assert KindOf("list") == List;
    assert SizeMetric(Label(db), a, m).value != SizeMetric(Label(db), a, n).value;
    assert "key_size" != "key_memory_usage_bytes" by {
      assert |"key_size"| != |"key_memory_usage_bytes"|;
    }
  }

  lemma {:induction false} TypesOfTwo(server: Server, db: string, a: string, b: string, sent: seq<Metric>)
    requires TypeOf(server, db, a).Some? && TypeOf(server, db, b).None?
    ensures ReadTypes(Label(db), [a, b], [], Answers(server, db, TypeCommands([a, b], 0)), sent) ==
            TypesRead([TypeOf(server, db, a).value, ""], [server.Answer(db, MemoryUsage(b))],
                      sent + MemoryMetrics(Label(db), a, server.Answer(db, MemoryUsage(a))))
  {
    TypeAnswers(server, db, [a, b], 0);
    TypeAnswers(server, db, [a, b], 1);
    TypesAfterError(Label(db), a, b, TypeOf(server, db, a).value, Answers(server, db, TypeCommands([a, b], 0)), sent);
  }

  lemma {:induction false} GroupFrom(server: Server, opts: Options, wire: Wire, db: string, keys: seq<string>,
                                     first: TypesRead, second: SizesRead)
    requires wire.unread == [] && SelectWorks(server, db)
    requires first == ReadTypes(Label(db), keys, [], Answers(server, db, TypeCommands(keys, 0)), wire.sent)
    requires second == ReadSizes(opts, Label(db), keys, first.types, 0,
                                 first.rest + Answers(server, db, AllSizeCommands(keys, first.types, 0)), first.sent)
    ensures RunGroup(server, opts, wire, db, keys) == Wire(db, second.rest, second.sent)
  {
    SelectedGroup(server, opts, wire, db, keys);
  }

  lemma {:induction false} SizesAfterError(server: Server, opts: Options, db: string, a: string, b: string, m: int,
                                           sent: seq<Metric>)
    ensures AllSizeCommands([a, b], ["list", ""], 0) == [LLen(a)]
    ensures ReadSizes(opts, Label(db), [a, b], ["list", ""], 0, [Int(m)] + Answers(server, db, [LLen(a)]), sent)
         == SizesRead([server.Answer(db, LLen(a))], sent + [SizeMetric(Label(db), a, m)])
  {
    var q := [Int(m), server.Answer(db, LLen(a))];
    UnknownKeyIsSkipped(opts, Label(db), [a, b], ["list", ""], 1, q[1..], sent + [SizeMetric(Label(db), a, m)]);
    assert KindOf("list") == List;
    assert [Int(m)] + Answers(server, db, [LLen(a)]) == q;
    assert q[1..] == [server.Answer(db, LLen(a))];
  }

  /** A failed SELECT for a one-key group silences the first key of the next
      group: its SELECT reply is mistaken for a TYPE answer, and three replies
      stay unread. */
  lemma {:induction false} SelectErrorSilencesNextGroup(server: Server, opts: Options, wire: Wire,
                                     db1: string, key1: string, db2: string, key2: string)
    requires wire.unread == []
    requires server.select(db1).Err?
    requires TypeOf(server, wire.db, key1).Some?
    requires AsString(server.Answer(wire.db, MemoryUsage(key1))).None?
    ensures var g := RunGroup(server, opts, RunGroup(server, opts, wire, db1, [key1]), db2, [key2]);
            g.sent == wire.sent && |g.unread| == 3
  {
    FirstBatch(server, wire, db1, [key1]);
    TypeAnswers(server, wire.db, [key1], 0);
    var t1, m1 := server.Answer(wire.db, Type(key1)), server.Answer(wire.db, MemoryUsage(key1));
    var g1 := RunGroup(server, opts, wire, db1, [key1]);
    assert g1 == Wire(wire.db, [t1, m1], wire.sent);
    FirstBatch(server, g1, db2, [key2]);
    var more := Replies(server, g1.db, [Select(db2)] + TypeCommands([key2], 0));
    var q := [t1, m1] + more;
    assert [] + [""] == [""];
    assert ReadTypes(Label(db2), [key2], [], q[1..], wire.sent) == TypesRead([""], q[1..][1..], wire.sent);
    UnknownKeyIsSkipped(opts, Label(db2), [key2], [""], 0, q[1..][1..], wire.sent);
    assert q[1..][1..] + [] == q[1..][1..];
  }

  /** A queue that starts one reply late: the first key's type is no string, and
      the second key is given somebody else's type and memory. */
  lemma {:induction false} TypesMisread(dbLabel: string, a: string, b: string, t: string, m: int, q: seq<Reply>,
                                        sent: seq<Metric>)
    requires |q| >= 4 && AsString(q[0]).None? && AsString(q[1]) == Some(t) && q[2] == Int(m)
    ensures ReadTypes(dbLabel, [a, b], [], q, sent)
         == TypesRead(["", t], q[3..], sent + [MemoryMetric(dbLabel, b, m)])
  {
    var sent1 := sent + [MemoryMetric(dbLabel, b, m)];
    assert [] + [""] == [""] && [""] + [t] == ["", t];
    assert q[1..][2..] == q[3..];
    assert ReadTypes(dbLabel, [a, b], [""], q[1..], sent) == ReadTypes(dbLabel, [a, b], ["", t], q[3..], sent1);
  }

  /** The sizes of two keys of which the first has no type. */
  lemma {:induction false} SecondSize(opts: Options, dbLabel: string, a: string, b: string, t: string, q: seq<Reply>,
                                      sent: seq<Metric>)
    requires |q| >= |AllSizeCommands([a, b], ["", t], 0)|
    ensures |q| >= |SizeCommands(KindOf(t), b)|
    ensures ReadSizes(opts, dbLabel, [a, b], ["", t], 0, q, sent).sent
         == sent + SizeMetrics(opts, dbLabel, b, KindOf(t), q)
  {
    assert AllSizeCommands([a, b], ["", t], 1) == SizeCommands(KindOf(t), b);
    UnknownKeyIsSkipped(opts, dbLabel, [a, b], ["", t], 0, q, sent);
  }

  lemma {:induction false} RefusedGroup(server: Server, opts: Options, wire: Wire, db: string, a: string, b: string)
    requires wire.unread == [] && server.select(db).Err?
    ensures RunGroup(server, opts, wire, db, [a, b]) ==
            Wire(wire.db, [server.Answer(wire.db, Type(a)), server.Answer(wire.db, MemoryUsage(a)),
                           server.Answer(wire.db, Type(b)), server.Answer(wire.db, MemoryUsage(b))], wire.sent)
  {
    FirstBatch(server, wire, db, [a, b]);
    TypeAnswers(server, wire.db, [a, b], 0);
    TypeAnswers(server, wire.db, [a, b], 1);
  }

  /** A sample taken from another database.  SELECT db1 fails, so the commands for its
      keys are answered in the database selected before, and nobody receives the
      answers; of these the group of db2 takes the memory of k2 for that of its own
      key b, whatever db2 holds. */
  lemma {:induction false} SampleFromAnotherDatabase(server: Server, opts: Options, wire: Wire,
                                                     db1: string, k1: string, k2: string,
                                                     db2: string, a: string, b: string, t: string, m: int)
    requires wire.unread == [] && server.select(db1).Err?
    requires TypeOf(server, wire.db, k1).Some? && server.Answer(wire.db, MemoryUsage(k1)).Int?
    requires TypeOf(server, wire.db, k2) == Some(t) && server.Answer(wire.db, MemoryUsage(k2)) == Int(m)
    ensures var g := RunGroup(server, opts, RunGroup(server, opts, wire, db1, [k1, k2]), db2, [a, b]);
            && wire.sent + [MemoryMetric(Label(db2), b, m)] <= g.sent
            && (t == "none" ==>
                  g.sent == wire.sent + [MemoryMetric(Label(db2), b, m), SizeMetric(Label(db2), b, 0)])
  {
    RefusedGroup(server, opts, wire, db1, k1, k2);
    var g1 := RunGroup(server, opts, wire, db1, [k1, k2]);
    var cmds := [Select(db2)] + TypeCommands([a, b], 0);
    var now := DbAfterAll(server, g1.db, cmds);
    var q := g1.unread + Replies(server, g1.db, cmds);
    var sent := wire.sent + [MemoryMetric(Label(db2), b, m)];
    TypesMisread(Label(db2), a, b, t, m, q[1..], wire.sent);
    var q2 := q[1..][3..] + Replies(server, now, AllSizeCommands([a, b], ["", t], 0));
    SecondSize(opts, Label(db2), a, b, t, q2, sent);
    if t == "none" {
      assert KindOf(t) == NoKey;
      assert sent + [SizeMetric(Label(db2), b, 0)]
          == wire.sent + [MemoryMetric(Label(db2), b, m), SizeMetric(Label(db2), b, 0)];
    }
  }

  /** Agreement of the samples alone does not take a clean run: with one key whose
      TYPE fails neither path emits anything, but the pipelined one leaves a reply
      unread for whoever uses the connection next. */
  lemma {:induction false} UncleanRunsCanAgree(server: Server, opts: Options, db: string, key: string, order: seq<string>)
    requires TypeOf(server, "0", key).None? && IsTraversal(order, [DbKey("0", key)])
    ensures var pairs := [DbKey("0", key)];
            var end := RunGroups(server, opts, Wire(db, [], []), pairs, order);
            && !Clean(server, pairs) && end.unread != []
            && multiset(end.sent) == Spec(server, opts, InDb0(pairs)) == multiset{}
  {
    var pairs := [DbKey("0", key)];
    var wire := Wire(db, [], []);
    assert DbKey("0", key) in pairs && Databases(pairs) == {"0"};
    OnlyTraversal(order, "0");
    assert KeysOf(pairs, "0") == [key] && order[1..] == [];
    PathsAgree(server, opts, db, pairs, order);
    OneUnknownKey(server, opts, wire, "0", key);
    assert InDb0(pairs) == pairs && pairs[1..] == [];
  }

  lemma {:induction false} OnlyTraversal(order: seq<string>, db: string)
    requires IsListing(order, {db})
    ensures order == [db]
  {
    var listed := set d | d in order;
    assert db in listed;
    assert |order| > 1 ==> order[0] != order[1];
    forall i | 0 <= i < |order| ensures order[i] == db {
      assert order[i] in listed;
    }
  }

  /** One key whose TYPE fails: what the server says of its memory stays unread. */
  lemma {:induction false} OneUnknownKey(server: Server, opts: Options, wire: Wire, db: string, key: string)
    requires wire.unread == [] && TypeOf(server, db, key).None?
    ensures var g := RunGroup(server, opts, wire, db, [key]);
            && g.sent == wire.sent && g.unread != []
            && (SelectWorks(server, db) ==> g.unread == [server.Answer(db, MemoryUsage(key))])
  {
    if SelectWorks(server, db) {
      SelectedGroup(server, opts, wire, db, [key]);
      TypeAnswers(server, db, [key], 0);
      var q := Answers(server, db, TypeCommands([key], 0));
      assert [] + [""] == [""];
      assert ReadTypes(Label(db), [key], [], q, wire.sent) == TypesRead([""], q[1..], wire.sent);
      UnknownKeyIsSkipped(opts, Label(db), [key], [""], 0, q[1..], wire.sent);
      assert q[1..] + [] == q[1..];
    } else {
      FirstBatch(server, wire, db, [key]);
    }
  }
}
