/** The pipelined path emits what the one-at-a-time path emits, in whatever order
    the databases are visited, and leaves no reply behind, exactly when every
    SELECT succeeds and every TYPE is answered by a string. */
module PipelineProofs {
  import opened Wrappers
  import opened Redis
  import opened Metrics
  import opened KeyArgs
  import opened KeyMetrics
  import opened PipelinedKeys

  // ----- sums of multisets -----

  lemma {:induction false} Shuffle<T>(a: multiset<T>, b: multiset<T>, c: multiset<T>, d: multiset<T>)
    ensures (a + b) + (c + d) == (a + c) + (b + d)
  {
  }

  lemma {:induction false} Rotate<T>(a: multiset<T>, b: multiset<T>, c: multiset<T>)
    ensures (a + b) + c == (b + c) + a
  {
  }

  // ----- the first receive loop -----

  /** The unread replies when the first receive loop reaches key i. */
  function QueueAt(n: nat, i: nat, q: seq<Reply>): (r: seq<Reply>)
    requires i <= n && |q| >= 2 * n
    ensures |q| - 2 * i <= |r| <= |q| - i
  {
    if i == 0 then q
    else
      var before := QueueAt(n, i - 1, q);
      if AsString(before[0]).None? then before[1..] else before[2..]
  }

  predicate TypesKnown(server: Server, db: string, keys: seq<string>, from: nat, to: nat)
    requires from <= to <= |keys|
  {
    forall j | from <= j < to :: TypeOf(server, db, keys[j]).Some?
  }

  lemma {:induction false} TypeAnswers(server: Server, db: string, keys: seq<string>, i: nat)
    requires i < |keys|
    ensures Answers(server, db, TypeCommands(keys, i))
         == [server.Answer(db, Type(keys[i])), server.Answer(db, MemoryUsage(keys[i]))]
            + Answers(server, db, TypeCommands(keys, i + 1))
  {
  }

  lemma {:induction false} OwedReplies(server: Server, db: string, keys: seq<string>, i: nat, rest: seq<Reply>)
    requires i < |keys|
    ensures Answers(server, db, TypeCommands(keys, i)) + rest
         == [server.Answer(db, Type(keys[i])), server.Answer(db, MemoryUsage(keys[i]))]
            + (Answers(server, db, TypeCommands(keys, i + 1)) + rest)
  {
    TypeAnswers(server, db, keys, i);
  }

  /** One turn of the loop, where the replies t and m are owed to the key and b to
      those after it. */
  lemma {:induction false} AlignedStep(before: seq<Reply>, after: seq<Reply>, t: Reply, m: Reply, b: seq<Reply>, known: bool)
    requires |before| >= 2 && after == if AsString(before[0]).None? then before[1..] else before[2..]
    requires before == [t, m] + b <==> known
    requires !known ==> |before| > |b| + 2
    ensures after == b <==> known && AsString(t).Some?
    ensures !(known && AsString(t).Some?) ==> |after| > |b|
  {
    if known {
      assert before[2..] == b;
    }
  }

  lemma {:induction false} AlignedTurn(server: Server, db: string, keys: seq<string>, i: nat, rest: seq<Reply>,
                                       before: seq<Reply>, after: seq<Reply>)
    requires i < |keys| && |before| >= 2
    requires after == if AsString(before[0]).None? then before[1..] else before[2..]
    requires before == Answers(server, db, TypeCommands(keys, i)) + rest <==> TypesKnown(server, db, keys, 0, i)
    requires !TypesKnown(server, db, keys, 0, i) ==> |before| > 2 * (|keys| - i) + |rest|
    ensures after == Answers(server, db, TypeCommands(keys, i + 1)) + rest <==> TypesKnown(server, db, keys, 0, i + 1)
    ensures !TypesKnown(server, db, keys, 0, i + 1) ==> |after| > 2 * (|keys| - i - 1) + |rest|
  {
    var later := Answers(server, db, TypeCommands(keys, i + 1)) + rest;
    OwedReplies(server, db, keys, i, rest);
    assert |later| == 2 * (|keys| - i - 1) + |rest|;
    AlignedStep(before, after, server.Answer(db, Type(keys[i])), server.Answer(db, MemoryUsage(keys[i])), later,
                TypesKnown(server, db, keys, 0, i));
  }

  /** Alignment at every key: on reaching key i the queue holds exactly the
      replies owed to the keys from i onward, in order, if and only if no key
      before i had a failing TYPE. */
  lemma {:induction false} AlignedAtKey(server: Server, db: string, keys: seq<string>, i: nat, rest: seq<Reply>)
    requires i <= |keys|
    ensures var q := QueueAt(|keys|, i, Answers(server, db, TypeCommands(keys, 0)) + rest);
            q == Answers(server, db, TypeCommands(keys, i)) + rest <==> TypesKnown(server, db, keys, 0, i)
    ensures var q := QueueAt(|keys|, i, Answers(server, db, TypeCommands(keys, 0)) + rest);
            !TypesKnown(server, db, keys, 0, i) ==> |q| > 2 * (|keys| - i) + |rest|
  {
    if i == 0 {
    } else {
      var start := Answers(server, db, TypeCommands(keys, 0)) + rest;
      AlignedAtKey(server, db, keys, i - 1, rest);
      AlignedTurn(server, db, keys, i - 1, rest, QueueAt(|keys|, i - 1, start), QueueAt(|keys|, i, start));
    }
  }

  /** The loop of PipelinedKeys and QueueAt follow the same replies. */
  lemma {:induction false} ReadTypesQueue(dbLabel: string, keys: seq<string>, types: seq<string>,
                                          q: seq<Reply>, sent: seq<Metric>, q0: seq<Reply>)
    requires |types| <= |keys| && |q| >= 2 * (|keys| - |types|) && |q0| >= 2 * |keys|
    requires q == QueueAt(|keys|, |types|, q0)
    ensures ReadTypes(dbLabel, keys, types, q, sent).rest == QueueAt(|keys|, |keys|, q0)
    decreases |keys| - |types|
  {
    if |types| == |keys| {
    } else {
      if AsString(q[0]).None? {
        ReadTypesQueue(dbLabel, keys, types + [""], q[1..], sent, q0);
      } else {
        ReadTypesQueue(dbLabel, keys, types + [AsString(q[0]).value], q[2..],
                       sent + MemoryMetrics(dbLabel, keys[|types|], q[1]), q0);
      }
    }
  }

  function MemorySum(server: Server, db: string, dbLabel: string, keys: seq<string>, i: nat): multiset<Metric>
    requires i <= |keys|
    decreases |keys| - i
  {
    if i == |keys| then multiset{}
    else MemorySpec(server, db, dbLabel, keys[i]) + MemorySum(server, db, dbLabel, keys, i + 1)
  }

  predicate AreTypes(server: Server, db: string, keys: seq<string>, types: seq<string>) {
    |types| <= |keys| && forall j | 0 <= j < |types| :: TypeOf(server, db, keys[j]) == Some(types[j])
  }

  /** The first receive loop from key i onward, started in alignment. */
  function AlignedTypes(server: Server, db: string, dbLabel: string, keys: seq<string>, types: seq<string>,
                        rest: seq<Reply>, sent: seq<Metric>): TypesRead
    requires |types| <= |keys|
  {
    ReadTypes(dbLabel, keys, types, Answers(server, db, TypeCommands(keys, |types|)) + rest, sent)
  }

  /** One turn of it. */
  lemma {:induction false} TypeStep(server: Server, db: string, dbLabel: string, keys: seq<string>, types: seq<string>,
                                    rest: seq<Reply>, sent: seq<Metric>) returns (t: string, memory: seq<Metric>)
    requires |types| < |keys| && TypeOf(server, db, keys[|types|]).Some?
    ensures Some(t) == TypeOf(server, db, keys[|types|])
    ensures multiset(memory) == MemorySpec(server, db, dbLabel, keys[|types|])
    ensures AlignedTypes(server, db, dbLabel, keys, types, rest, sent)
         == AlignedTypes(server, db, dbLabel, keys, types + [t], rest, sent + memory)
  {
    var i := |types|;
    var q := Answers(server, db, TypeCommands(keys, i)) + rest;
    TypeAnswers(server, db, keys, i);
    assert q[2..] == Answers(server, db, TypeCommands(keys, i + 1)) + rest;
    t, memory := TypeOf(server, db, keys[i]).value, MemoryMetrics(dbLabel, keys[i], q[1]);
  }

  lemma {:induction false} AlignedTypesEnd(server: Server, db: string, dbLabel: string, keys: seq<string>,
                                           types: seq<string>, rest: seq<Reply>, sent: seq<Metric>)
    requires |types| == |keys|
    ensures AlignedTypes(server, db, dbLabel, keys, types, rest, sent) == TypesRead(types, rest, sent)
  {
    assert Answers(server, db, TypeCommands(keys, |types|)) + rest == rest;
  }

  /** Read in alignment, the first phase learns every type, emits every memory
      sample, and takes its own replies only; from any key onward. */
  lemma {:induction false} TypesAligned(server: Server, db: string, dbLabel: string, keys: seq<string>,
                                        types: seq<string>, rest: seq<Reply>, sent: seq<Metric>, end: TypesRead)
    requires AreTypes(server, db, keys, types)
    requires TypesKnown(server, db, keys, |types|, |keys|)
    requires end == AlignedTypes(server, db, dbLabel, keys, types, rest, sent)
    ensures |end.types| == |keys| && AreTypes(server, db, keys, end.types) && end.rest == rest
    ensures multiset(end.sent) == multiset(sent) + MemorySum(server, db, dbLabel, keys, |types|)
    decreases |keys| - |types|
  {
    if |types| == |keys| {
      AlignedTypesEnd(server, db, dbLabel, keys, types, rest, sent);
    } else {
      var t, memory := TypeStep(server, db, dbLabel, keys, types, rest, sent);
      TypesAligned(server, db, dbLabel, keys, types + [t], rest, sent + memory, end);
      SentAppend(sent, memory, MemorySum(server, db, dbLabel, keys, |types| + 1));
    }
  }

  // ----- the second receive loop -----

  function SizeSum(server: Server, opts: Options, db: string, dbLabel: string,
                   keys: seq<string>, types: seq<string>, i: nat): multiset<Metric>
    requires i <= |keys| == |types|
    decreases |keys| - i
  {
    if i == |keys| then multiset{}
    else SizeSpec(server, opts, db, dbLabel, keys[i], KindOf(types[i]))
         + SizeSum(server, opts, db, dbLabel, keys, types, i + 1)
  }

  lemma {:induction false} AnswersAppend(server: Server, db: string, a: seq<Command>, b: seq<Command>, rest: seq<Reply>)
    ensures Answers(server, db, a + b) + rest == Answers(server, db, a) + (Answers(server, db, b) + rest)
  {
  }

  lemma {:induction false} SizeAligned(server: Server, opts: Options, db: string, dbLabel: string, key: string, kind: Kind,
                    rest: seq<Reply>)
    ensures var cmds := SizeCommands(kind, key);
            var q := Answers(server, db, cmds) + rest;
            && multiset(SizeMetrics(opts, dbLabel, key, kind, q)) == SizeSpec(server, opts, db, dbLabel, key, kind)
            && q[|cmds|..] == rest
  {
  }

  /** The second receive loop, started in alignment. */
  function AlignedSizes(server: Server, opts: Options, db: string, dbLabel: string, keys: seq<string>,
                        types: seq<string>, i: nat, rest: seq<Reply>, sent: seq<Metric>): SizesRead
    requires i <= |keys| == |types|
  {
    ReadSizes(opts, dbLabel, keys, types, i, Answers(server, db, AllSizeCommands(keys, types, i)) + rest, sent)
  }

  /** One turn of it. */
  lemma {:induction false} SizeStep(server: Server, opts: Options, db: string, dbLabel: string, keys: seq<string>,
                 types: seq<string>, i: nat, rest: seq<Reply>, sent: seq<Metric>) returns (emitted: seq<Metric>)
    requires i < |keys| == |types|
    ensures multiset(emitted) == SizeSpec(server, opts, db, dbLabel, keys[i], KindOf(types[i]))
    ensures AlignedSizes(server, opts, db, dbLabel, keys, types, i, rest, sent)
         == AlignedSizes(server, opts, db, dbLabel, keys, types, i + 1, rest, sent + emitted)
  {
    var kind := KindOf(types[i]);
    var later := Answers(server, db, AllSizeCommands(keys, types, i + 1)) + rest;
    AnswersAppend(server, db, SizeCommands(kind, keys[i]), AllSizeCommands(keys, types, i + 1), rest);
    SizeAligned(server, opts, db, dbLabel, keys[i], kind, later);
    emitted := SizeMetrics(opts, dbLabel, keys[i], kind, Answers(server, db, SizeCommands(kind, keys[i])) + later);
  }

  lemma {:induction false} AlignedSizesEnd(server: Server, opts: Options, db: string, dbLabel: string,
                                           keys: seq<string>, types: seq<string>, rest: seq<Reply>, sent: seq<Metric>)
    requires |keys| == |types|
    ensures AlignedSizes(server, opts, db, dbLabel, keys, types, |keys|, rest, sent) == SizesRead(rest, sent)
  {
    assert Answers(server, db, AllSizeCommands(keys, types, |keys|)) + rest == rest;
  }

  /** From any key onward: whatever the loop ends in is determined by the specification. */
  lemma {:induction false} SizesFrom(server: Server, opts: Options, db: string, dbLabel: string,
                                     keys: seq<string>, types: seq<string>, i: nat,
                                     rest: seq<Reply>, sent: seq<Metric>, end: SizesRead) returns (emitted: seq<Metric>)
    requires i <= |keys| == |types|
    requires end == AlignedSizes(server, opts, db, dbLabel, keys, types, i, rest, sent)
    ensures end == SizesRead(rest, sent + emitted)
    ensures multiset(emitted) == SizeSum(server, opts, db, dbLabel, keys, types, i)
    decreases |keys| - i
  {
    if i == |keys| {
      AlignedSizesEnd(server, opts, db, dbLabel, keys, types, rest, sent);
      emitted := [];
      assert sent + emitted == sent;
    } else {
      var first := SizeStep(server, opts, db, dbLabel, keys, types, i, rest, sent);
      var later := SizesFrom(server, opts, db, dbLabel, keys, types, i + 1, rest, sent + first, end);
      emitted := first + later;
      Regroup(sent, first, later);
    }
  }

  /** The two switches agree: the replies sent for are the replies taken. */
  lemma {:induction false} SizesAligned(server: Server, opts: Options, db: string, dbLabel: string,
                                        keys: seq<string>, types: seq<string>,
                                        rest: seq<Reply>, sent: seq<Metric>) returns (emitted: seq<Metric>)
    requires |keys| == |types|
    ensures AlignedSizes(server, opts, db, dbLabel, keys, types, 0, rest, sent) == SizesRead(rest, sent + emitted)
    ensures multiset(emitted) == SizeSum(server, opts, db, dbLabel, keys, types, 0)
  {
    emitted := SizesFrom(server, opts, db, dbLabel, keys, types, 0, rest, sent,
                         AlignedSizes(server, opts, db, dbLabel, keys, types, 0, rest, sent));
  }

  // ----- one database -----

  predicate SelectWorks(server: Server, db: string) {
    AsString(server.select(db)).Some?
  }

  predicate GroupClean(server: Server, db: string, keys: seq<string>) {
    SelectWorks(server, db) && TypesKnown(server, db, keys, 0, |keys|)
  }

  /** What is exported about a key of a database. */
  function PerKey(server: Server, opts: Options): (string, string) -> multiset<Metric> {
    (db, key) => KeySpec(server, opts, db, Label(db), key)
  }

  function KeySum(each: (string, string) -> multiset<Metric>, db: string, keys: seq<string>, i: nat): multiset<Metric>
    requires i <= |keys|
    decreases |keys| - i
  {
    if i == |keys| then multiset{} else each(db, keys[i]) + KeySum(each, db, keys, i + 1)
  }

  lemma {:induction false} KeySpecSplits(server: Server, opts: Options, db: string, dbLabel: string, key: string, t: string)
    requires TypeOf(server, db, key) == Some(t)
    ensures KeySpec(server, opts, db, dbLabel, key)
         == MemorySpec(server, db, dbLabel, key) + SizeSpec(server, opts, db, dbLabel, key, KindOf(t))
  {
  }

  lemma {:induction false} KeySumSplits(server: Server, opts: Options, db: string, keys: seq<string>,
                                        types: seq<string>, i: nat)
    requires i <= |keys| == |types| && AreTypes(server, db, keys, types)
    ensures KeySum(PerKey(server, opts), db, keys, i) ==
            MemorySum(server, db, Label(db), keys, i) + SizeSum(server, opts, db, Label(db), keys, types, i)
    decreases |keys| - i
  {
    if i == |keys| {
    } else {
      var memory := MemorySpec(server, db, Label(db), keys[i]);
      var size := SizeSpec(server, opts, db, Label(db), keys[i], KindOf(types[i]));
      var memories := MemorySum(server, db, Label(db), keys, i + 1);
      var sizes := SizeSum(server, opts, db, Label(db), keys, types, i + 1);
      calc {
        KeySum(PerKey(server, opts), db, keys, i);
        { KeySpecSplits(server, opts, db, Label(db), keys[i], types[i]); }
        (memory + size) + KeySum(PerKey(server, opts), db, keys, i + 1);
        { KeySumSplits(server, opts, db, keys, types, i + 1); }
        (memory + size) + (memories + sizes);
        { Shuffle(memory, size, memories, sizes); }
        (memory + memories) + (size + sizes);
      }
    }
  }

  lemma {:induction false} FirstBatch(server: Server, wire: Wire, db: string, keys: seq<string>)
    ensures var cmds := [Select(db)] + TypeCommands(keys, 0);
            var now := if server.select(db).Err? then wire.db else db;
            DbAfterAll(server, wire.db, cmds) == now
            && Replies(server, wire.db, cmds) == [server.select(db)] + Answers(server, now, TypeCommands(keys, 0))
  {
    var cmds := [Select(db)] + TypeCommands(keys, 0);
    assert cmds[1..] == TypeCommands(keys, 0);
    TypeCommandsSelectNothing(keys, 0);
    RepliesWithoutSelect(server, DbAfter(server, wire.db, cmds[0]), TypeCommands(keys, 0));
  }

  lemma {:induction false} SecondBatch(server: Server, db: string, keys: seq<string>, types: seq<string>)
    requires |keys| == |types|
    ensures var cmds := AllSizeCommands(keys, types, 0);
            Replies(server, db, cmds) == Answers(server, db, cmds)
  {
    SizeCommandsSelectNothing(keys, types, 0);
    RepliesWithoutSelect(server, db, AllSizeCommands(keys, types, 0));
  }

  /** A group that starts in sync and gets its database. */
  lemma {:induction false} SelectedGroup(server: Server, opts: Options, wire: Wire, db: string, keys: seq<string>)
    requires wire.unread == [] && SelectWorks(server, db)
    ensures var first := ReadTypes(Label(db), keys, [], Answers(server, db, TypeCommands(keys, 0)), wire.sent);
            var q2 := first.rest + Answers(server, db, AllSizeCommands(keys, first.types, 0));
            var second := ReadSizes(opts, Label(db), keys, first.types, 0, q2, first.sent);
            RunGroup(server, opts, wire, db, keys) == Wire(db, second.rest, second.sent)
  {
    FirstBatch(server, wire, db, keys);
    var q := Answers(server, db, TypeCommands(keys, 0));
    assert [] + ([server.select(db)] + q) == [server.select(db)] + q;
    SecondBatch(server, db, keys, ReadTypes(Label(db), keys, [], q, wire.sent).types);
  }

  /** A group that starts in sync and runs clean does what the specification
      says of its keys and ends in sync, with its own database selected. */
  lemma {:induction false} CleanGroup(server: Server, opts: Options, wire: Wire, db: string, keys: seq<string>)
    requires wire.unread == [] && GroupClean(server, db, keys)
    ensures var g := RunGroup(server, opts, wire, db, keys);
            g.db == db && g.unread == []
            && multiset(g.sent) == multiset(wire.sent) + KeySum(PerKey(server, opts), db, keys, 0)
  {
    SelectedGroup(server, opts, wire, db, keys);
    var q := Answers(server, db, TypeCommands(keys, 0));
    assert q + [] == q;
    var first := ReadTypes(Label(db), keys, [], q, wire.sent);
    TypesAligned(server, db, Label(db), keys, [], [], wire.sent, first);
    var emitted := SizesAligned(server, opts, db, Label(db), keys, first.types, [], first.sent);
    KeySumSplits(server, opts, db, keys, first.types, 0);
    var q2 := Answers(server, db, AllSizeCommands(keys, first.types, 0));
    assert [] + q2 == q2 + [];
  }

  /** No group ever receives more than was sent for it. */
  lemma {:induction false} GroupOnlyAddsLeftovers(server: Server, opts: Options, wire: Wire, db: string, keys: seq<string>)
    ensures |RunGroup(server, opts, wire, db, keys).unread| >= |wire.unread|
  {
  }

  /** A group that starts in sync leaves replies behind unless it runs clean. */
  lemma {:induction false} UncleanGroup(server: Server, opts: Options, wire: Wire, db: string, keys: seq<string>)
    requires wire.unread == [] && keys != [] && !GroupClean(server, db, keys)
    ensures RunGroup(server, opts, wire, db, keys).unread != []
  {
    if SelectWorks(server, db) {
      SelectedGroup(server, opts, wire, db, keys);
      var q := Answers(server, db, TypeCommands(keys, 0));
      assert q + [] == q;
      AlignedAtKey(server, db, keys, |keys|, []);
      ReadTypesQueue(Label(db), keys, [], q, wire.sent, q);
    } else {
      FirstBatch(server, wire, db, keys);
    }
  }

  // ----- all databases -----

  predicate RunClean(server: Server, pairs: seq<DbKey>, order: seq<string>) {
    forall db | db in order :: GroupClean(server, db, KeysOf(pairs, db))
  }

  function OrderSum(each: (string, string) -> multiset<Metric>, pairs: seq<DbKey>, order: seq<string>): multiset<Metric> {
    if order == [] then multiset{}
    else KeySum(each, order[0], KeysOf(pairs, order[0]), 0) + OrderSum(each, pairs, order[1..])
  }

  lemma {:induction false} LeftoversOnlyGrow(server: Server, opts: Options, wire: Wire, pairs: seq<DbKey>,
                                             order: seq<string>)
    ensures |RunGroups(server, opts, wire, pairs, order).unread| >= |wire.unread|
    decreases |order|
  {
    if order == [] {
    } else {
      var g := RunGroup(server, opts, wire, order[0], KeysOf(pairs, order[0]));
      GroupOnlyAddsLeftovers(server, opts, wire, order[0], KeysOf(pairs, order[0]));
      LeftoversOnlyGrow(server, opts, g, pairs, order[1..]);
    }
  }

  lemma {:induction false} RunInSync(server: Server, opts: Options, wire: Wire, pairs: seq<DbKey>, order: seq<string>)
    requires wire.unread == []
    requires forall db | db in order :: KeysOf(pairs, db) != []
    ensures var end := RunGroups(server, opts, wire, pairs, order);
            && (end.unread == [] <==> RunClean(server, pairs, order))
            && (RunClean(server, pairs, order) ==>
                  multiset(end.sent) == multiset(wire.sent) + OrderSum(PerKey(server, opts), pairs, order))
    decreases |order|
  {
    if order == [] {
    } else {
      var db, keys := order[0], KeysOf(pairs, order[0]);
      assert db in order && order == [db] + order[1..];
      var g := RunGroup(server, opts, wire, db, keys);
      if GroupClean(server, db, keys) {
        CleanGroup(server, opts, wire, db, keys);
        RunInSync(server, opts, g, pairs, order[1..]);
      } else {
        UncleanGroup(server, opts, wire, db, keys);
        LeftoversOnlyGrow(server, opts, g, pairs, order[1..]);
      }
    }
  }

  // ----- grouping loses nothing -----

  lemma {:induction false} KeySumShift(each: (string, string) -> multiset<Metric>, db: string, key: string,
                                       keys: seq<string>, i: nat)
    requires i <= |keys|
    ensures KeySum(each, db, [key] + keys, i + 1) == KeySum(each, db, keys, i)
    decreases |keys| - i
  {
    if i == |keys| {
    } else {
      assert ([key] + keys)[i + 1] == keys[i];
      KeySumShift(each, db, key, keys, i + 1);
    }
  }

  /** A database visited once: its key in front of the others. */
  lemma {:induction false} OrderSumHere(each: (string, string) -> multiset<Metric>, p: DbKey, pairs: seq<DbKey>,
                                        order: seq<string>)
    requires order != [] && order[0] == p.db
    requires OrderSum(each, [p] + pairs, order[1..]) == OrderSum(each, pairs, order[1..])
    ensures OrderSum(each, [p] + pairs, order) == OrderSum(each, pairs, order) + each(p.db, p.key)
  {
    var db, later := order[0], OrderSum(each, pairs, order[1..]);
    var here, added := KeySum(each, db, KeysOf(pairs, db), 0), each(p.db, p.key);
    assert ([p] + pairs)[1..] == pairs;
    assert KeysOf([p] + pairs, db) == [p.key] + KeysOf(pairs, db);
    KeySumShift(each, db, p.key, KeysOf(pairs, db), 0);
    Rotate(added, here, later);
  }

  /** Any other database, before the rest. */
  lemma {:induction false} OrderSumElsewhere(each: (string, string) -> multiset<Metric>, p: DbKey, pairs: seq<DbKey>,
                                             order: seq<string>, extra: multiset<Metric>)
    requires order != [] && order[0] != p.db
    requires OrderSum(each, [p] + pairs, order[1..]) == OrderSum(each, pairs, order[1..]) + extra
    ensures OrderSum(each, [p] + pairs, order) == OrderSum(each, pairs, order) + extra
  {
    var db := order[0];
    assert ([p] + pairs)[1..] == pairs;
    assert KeysOf([p] + pairs, db) == [] + KeysOf(pairs, db) == KeysOf(pairs, db);
    RegroupBags(KeySum(each, db, KeysOf(pairs, db), 0), OrderSum(each, pairs, order[1..]), extra);
  }

  /** Putting one pair in front of the list adds what is exported about it, once
      if the traversal visits its database and never otherwise. */
  lemma {:induction false} OrderSumStep(each: (string, string) -> multiset<Metric>, p: DbKey, pairs: seq<DbKey>,
                                        order: seq<string>)
    requires forall i, j | 0 <= i < j < |order| :: order[i] != order[j]
    ensures OrderSum(each, [p] + pairs, order) == OrderSum(each, pairs, order)
            + if p.db in order then each(p.db, p.key) else multiset{}
  {
    if order == [] {
    } else {
      OrderSumStep(each, p, pairs, order[1..]);
      if order[0] == p.db {
        assert p.db !in order[1..];
        OrderSumHere(each, p, pairs, order);
      } else {
        assert p.db in order <==> p.db in order[1..];
        OrderSumElsewhere(each, p, pairs, order, if p.db in order then each(p.db, p.key) else multiset{});
      }
    }
  }

  lemma {:induction false} OrderSumNothing(each: (string, string) -> multiset<Metric>, order: seq<string>)
    ensures OrderSum(each, [], order) == multiset{}
  {
    if order == [] {
    } else {
      OrderSumNothing(each, order[1..]);
    }
  }

  lemma {:induction false} OrderSumIsSpec(server: Server, opts: Options, pairs: seq<DbKey>, order: seq<string>)
    requires forall i, j | 0 <= i < j < |order| :: order[i] != order[j]
    requires forall p | p in pairs :: p.db in order
    ensures OrderSum(PerKey(server, opts), pairs, order) == Spec(server, opts, pairs)
  {
    var each := PerKey(server, opts);
    if pairs == [] {
      OrderSumNothing(each, order);
    } else {
      assert pairs == [pairs[0]] + pairs[1..];
      OrderSumStep(each, pairs[0], pairs[1..], order);
      OrderSumIsSpec(server, opts, pairs[1..], order);
    }
  }

  // ----- the main results -----

  /** What the pipelined path needs of the server. */
  predicate Clean(server: Server, pairs: seq<DbKey>) {
    forall p | p in pairs :: SelectWorks(server, p.db) && TypeOf(server, p.db, p.key).Some?
  }

  lemma {:induction false} KeysOfMembers(pairs: seq<DbKey>, db: string)
    ensures forall k :: k in KeysOf(pairs, db) <==> DbKey(db, k) in pairs
  {
    if pairs == [] {
    } else {
      KeysOfMembers(pairs[1..], db);
      assert pairs == [pairs[0]] + pairs[1..];
    }
  }

  lemma {:induction false} CleanRuns(server: Server, pairs: seq<DbKey>, order: seq<string>)
    requires IsTraversal(order, pairs)
    ensures Clean(server, pairs) <==> RunClean(server, pairs, order)
    ensures forall p | p in pairs :: p.db in order
    ensures forall db | db in order :: KeysOf(pairs, db) != []
  {
    forall p | p in pairs ensures p.db in order && p.key in KeysOf(pairs, p.db) {
      assert p.db in Databases(pairs);
      KeysOfMembers(pairs, p.db);
      assert p == DbKey(p.db, p.key);
    }
    forall db | db in order ensures KeysOf(pairs, db) != [] {
      assert db in (set d | d in order);
      KeysOfDatabases(pairs, db);
    }
    if Clean(server, pairs) {
      forall db | db in order ensures GroupClean(server, db, KeysOf(pairs, db)) {
        KeysOfMembers(pairs, db);
        assert DbKey(db, KeysOf(pairs, db)[0]) in pairs;
        forall j | 0 <= j < |KeysOf(pairs, db)| ensures TypeOf(server, db, KeysOf(pairs, db)[j]).Some? {
          assert DbKey(db, KeysOf(pairs, db)[j]) in pairs;
        }
      }
    }
  }

  /** Started in sync, the pipelined path ends in sync if and only if every
      SELECT works and every TYPE is answered by a string; and then it emits
      exactly what the specification says of all the (database, key) pairs,
      whatever order the databases are visited in. */
  lemma {:induction false} PipelineMeetsSpec(server: Server, opts: Options, wire: Wire, pairs: seq<DbKey>,
                                             order: seq<string>)
    requires wire.unread == [] && IsTraversal(order, pairs)
    ensures var end := RunGroups(server, opts, wire, pairs, order);
            && (end.unread == [] <==> Clean(server, pairs))
            && (Clean(server, pairs) ==>
                  multiset(end.sent) == multiset(wire.sent) + Spec(server, opts, pairs))
  {
    CleanRuns(server, pairs, order);
    RunInSync(server, opts, wire, pairs, order);
    OrderSumIsSpec(server, opts, pairs, order);
  }

  /** For keys of database 0: the pipelined path emits what the one-at-a-time path
      emits and ends in sync if and only if every SELECT works and every TYPE is a
      string. */
  lemma {:induction false} PathsAgree(server: Server, opts: Options, db: string, pairs: seq<DbKey>, order: seq<string>)
    requires IsTraversal(order, pairs)
    requires forall p | p in pairs :: p.db == "0"
    ensures var end := RunGroups(server, opts, Wire(db, [], []), pairs, order);
            multiset(end.sent) == Spec(server, opts, InDb0(pairs)) && end.unread == [] <==> Clean(server, pairs)
  {
    PipelineMeetsSpec(server, opts, Wire(db, [], []), pairs, order);
    assert InDb0(pairs) == pairs;
  }
}
