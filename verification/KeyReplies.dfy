/** From replies to samples: what the key collectors export where Redis answers in
    given words, with the commands and the samples written out. */
module KeyReplies {
  import opened Wrappers
  import opened GoStrings
  import opened Redis
  import opened Metrics
  import opened KeyArgs
  import opened KeyMetrics
  import opened PipelinedKeys
  import opened PipelineProofs
  import opened Scanning
  import opened Collectors

  // ----- checked keys -----

  /** Redis says that the key has the type, and how many members. */
  predicate Counts(server: Server, db: string, key: string, t: string, n: int) {
    || (t == "list" && server.Answer(db, LLen(key)) == Int(n))
    || (t == "set" && server.Answer(db, SCard(key)) == Int(n))
    || (t == "zset" && server.Answer(db, ZCard(key)) == Int(n))
    || (t == "hash" && server.Answer(db, HLen(key)) == Int(n))
    || (t == "stream" && server.Answer(db, XLen(key)) == Int(n))
  }

  predicate HasType(server: Server, db: string, key: string, t: string) {
    server.Answer(db, Type(key)) == Status(t)
  }

  /** The memory sample, where Redis gives a number. */
  function MemorySample(server: Server, db: string, key: string): multiset<Metric> {
    match server.Answer(db, MemoryUsage(key))
    case Int(m) => multiset{Metric("key_memory_usage_bytes", m as real, ["db" + db, key])}
    case _ => multiset{}
  }

  /** MEMORY USAGE answers with a number, or not at all. */
  predicate SaysMemory(server: Server, db: string, key: string) {
    var r := server.Answer(db, MemoryUsage(key));
    r.Int? || r.Nil? || r.Err?
  }

  function SizeSample(db: string, key: string, n: int): multiset<Metric> {
    multiset{Metric("key_size", n as real, ["db" + db, key])}
  }

  lemma {:induction false} MemoryIsSampled(server: Server, db: string, key: string)
    requires SaysMemory(server, db, key)
    ensures MemorySpec(server, db, "db" + db, key) == MemorySample(server, db, key)
  {
  }

  lemma {:induction false} TypeTexts(t: string)
    ensures t == "list" ==> KindOf(t) == List
    ensures t == "set" ==> KindOf(t) == Set
    ensures t == "zset" ==> KindOf(t) == SortedSet
    ensures t == "hash" ==> KindOf(t) == Hash
    ensures t == "stream" ==> KindOf(t) == Stream
    ensures t == "string" ==> KindOf(t) == Text
    ensures t == "none" ==> KindOf(t) == NoKey
    ensures t !in {"list", "set", "zset", "hash", "stream", "string", "none"} ==> KindOf(t) == Other
  {
  }

  lemma {:induction false} KeySamples(server: Server, opts: Options, db: string, key: string, t: string, kind: Kind,
                                      size: multiset<Metric>)
    requires HasType(server, db, key, t) && SaysMemory(server, db, key) && KindOf(t) == kind
    requires SizeSpec(server, opts, db, "db" + db, key, kind) == size
    ensures KeySpec(server, opts, db, "db" + db, key) == MemorySample(server, db, key) + size
  {
    MemoryIsSampled(server, db, key);
  }

  lemma {:induction false} TextIsSampled(opts: Options, db: string, key: string, text: string)
    ensures multiset(ValueMetrics(opts, "db" + db, key, text)) == TextSample(opts, db, key, text)
  {
  }

  /** A list, set, sorted set, hash or stream: its memory and its number of members. */
  lemma {:induction false} CollectionSamples(server: Server, opts: Options, db: string, key: string, t: string, n: int)
    requires HasType(server, db, key, t) && SaysMemory(server, db, key) && Counts(server, db, key, t, n)
    ensures KeySpec(server, opts, db, "db" + db, key) == MemorySample(server, db, key) + SizeSample(db, key, n)
  {
    TypeTexts(t);
    KeySamples(server, opts, db, key, t, KindOf(t), SizeSample(db, key, n));
  }

  /** A HyperLogLog has the size PFCOUNT says, whatever else is asked. */
  lemma {:induction false} HyperLogLogSamples(server: Server, opts: Options, db: string, key: string, n: int)
    requires HasType(server, db, key, "string") && SaysMemory(server, db, key)
    requires server.Answer(db, PfCount(key)) == Int(n)
    ensures KeySpec(server, opts, db, "db" + db, key) == MemorySample(server, db, key) + SizeSample(db, key, n)
  {
    TypeTexts("string");
    KeySamples(server, opts, db, key, "string", Text, SizeSample(db, key, n));
  }

  /** What is exported of the text of a string: a number as such, any other text as
      a label, nothing of an empty one or if values are not wanted. */
  function TextSample(opts: Options, db: string, key: string, text: string): multiset<Metric> {
    if opts.disableKeyValues || text == "" then multiset{}
    else
      match opts.parseFloat(text)
      case Some(v) => multiset{Metric("key_value", v, ["db" + db, key])}
      case None => multiset{Metric("key_value_as_string", 1.0, ["db" + db, key, text])}
  }

  /** Any other string: the length STRLEN says, and the text GET says. */
  lemma {:induction false} StringSamples(server: Server, opts: Options, db: string, key: string, n: int, text: string)
    requires HasType(server, db, key, "string") && SaysMemory(server, db, key)
    requires server.Answer(db, PfCount(key)).Err?
    requires server.Answer(db, StrLen(key)) == Int(n) && server.Answer(db, Get(key)) == Bulk(text)
    ensures KeySpec(server, opts, db, "db" + db, key)
         == MemorySample(server, db, key) + (SizeSample(db, key, n) + TextSample(opts, db, key, text))
  {
    TypeTexts("string");
    TextIsSampled(opts, db, key, text);
    KeySamples(server, opts, db, key, "string", Text, SizeSample(db, key, n) + TextSample(opts, db, key, text));
  }

  /** A key that does not exist has size 0, and one of another type none. */
  lemma {:induction false} OtherSamples(server: Server, opts: Options, db: string, key: string, t: string)
    requires HasType(server, db, key, t) && SaysMemory(server, db, key)
    requires t !in {"list", "set", "zset", "hash", "stream", "string"}
    ensures KeySpec(server, opts, db, "db" + db, key)
         == MemorySample(server, db, key) + if t == "none" then SizeSample(db, key, 0) else multiset{}
  {
    TypeTexts(t);
    KeySamples(server, opts, db, key, t, KindOf(t), if t == "none" then SizeSample(db, key, 0) else multiset{});
  }

  lemma {:induction false} SpecHas(server: Server, opts: Options, pairs: seq<DbKey>, p: DbKey)
    requires p in pairs
    ensures KeySpec(server, opts, p.db, "db" + p.db, p.key) <= Spec(server, opts, pairs)
  {
    if pairs[0] == p {
    } else {
      assert p in pairs[1..];
      SpecHas(server, opts, pairs[1..], p);
    }
  }

  /** In any clean pipelined run, and in any run one at a time (in database 0), the
      members of every listed collection are reported. */
  lemma {:induction false} CollectionsAreReported(server: Server, opts: Options, wire: Wire, pairs: seq<DbKey>,
                                                  order: seq<string>, db: string, key: string, t: string, n: int)
    requires DbKey(db, key) in pairs && HasType(server, db, key, t) && SaysMemory(server, db, key)
    requires Counts(server, db, key, t, n)
    requires wire.unread == [] && IsTraversal(order, pairs)
    ensures var end := RunGroups(server, opts, wire, pairs, order);
            end.unread == [] ==>
              MemorySample(server, db, key) + SizeSample(db, key, n) <= multiset(end.sent)
    ensures db == "0" ==> MemorySample(server, db, key) + SizeSample(db, key, n) <= Spec(server, opts, InDb0(pairs))
  {
    CollectionSamples(server, opts, db, key, t, n);
    PipelineMeetsSpec(server, opts, wire, pairs, order);
    SpecHas(server, opts, pairs, DbKey(db, key));
    if db == "0" {
      InDb0Has(pairs, key);
      SpecHas(server, opts, InDb0(pairs), DbKey("0", key));
    }
  }

  /** A run for one key, either way: the log gains what is specified for the key. */
  lemma {:induction false} OneKey(server: Server, opts: Options, wire: Wire, db: string, key: string, order: seq<string>,
                                  samples: multiset<Metric>)
    requires server.select(db) == Status("OK") && TypeOf(server, db, key).Some?
    requires KeySpec(server, opts, db, "db" + db, key) == samples
    requires wire.unread == [] && IsTraversal(order, [DbKey(db, key)])
    ensures var end := RunGroups(server, opts, wire, [DbKey(db, key)], order);
            end.unread == [] && multiset(end.sent) == multiset(wire.sent) + samples
    ensures db == "0" ==> Spec(server, opts, InDb0([DbKey(db, key)])) == samples
  {
    var k := DbKey(db, key);
    PipelineMeetsSpec(server, opts, wire, [k], order);
    assert [k][1..] == [] && Spec(server, opts, [k]) == samples + multiset{};
    assert db == "0" ==> InDb0([k]) == [k];
  }

  /** The members of one collection, on either path. */
  lemma {:induction false} OneCollection(server: Server, opts: Options, wire: Wire, db: string, key: string,
                                         order: seq<string>, t: string, n: int)
    requires server.select(db) == Status("OK") && wire.unread == [] && IsTraversal(order, [DbKey(db, key)])
    requires HasType(server, db, key, t) && SaysMemory(server, db, key) && Counts(server, db, key, t, n)
    ensures var end := RunGroups(server, opts, wire, [DbKey(db, key)], order);
            && end.unread == []
            && multiset(end.sent) == multiset(wire.sent) + (MemorySample(server, db, key) + SizeSample(db, key, n))
    ensures db == "0" ==>
              Spec(server, opts, InDb0([DbKey(db, key)])) == MemorySample(server, db, key) + SizeSample(db, key, n)
  {
    CollectionSamples(server, opts, db, key, t, n);
    OneKey(server, opts, wire, db, key, order, MemorySample(server, db, key) + SizeSample(db, key, n));
  }

  /** One string, on either path. */
  lemma {:induction false} OneString(server: Server, opts: Options, wire: Wire, db: string, key: string,
                                     order: seq<string>, n: int, text: string)
    requires server.select(db) == Status("OK") && wire.unread == [] && IsTraversal(order, [DbKey(db, key)])
    requires HasType(server, db, key, "string") && SaysMemory(server, db, key)
    requires server.Answer(db, PfCount(key)).Err?
    requires server.Answer(db, StrLen(key)) == Int(n) && server.Answer(db, Get(key)) == Bulk(text)
    ensures var end := RunGroups(server, opts, wire, [DbKey(db, key)], order);
            var samples := MemorySample(server, db, key) + (SizeSample(db, key, n) + TextSample(opts, db, key, text));
            && end.unread == [] && multiset(end.sent) == multiset(wire.sent) + samples
            && (db == "0" ==> Spec(server, opts, InDb0([DbKey(db, key)])) == samples)
  {
    StringSamples(server, opts, db, key, n, text);
    OneKey(server, opts, wire, db, key, order,
           MemorySample(server, db, key) + (SizeSample(db, key, n) + TextSample(opts, db, key, text)));
  }

  lemma {:induction false} InDb0Has(pairs: seq<DbKey>, key: string)
    requires DbKey("0", key) in pairs
    ensures DbKey("0", key) in InDb0(pairs)
  {
    var i :| 0 <= i < |pairs| && pairs[i] == DbKey("0", key);
    assert InDb0(pairs)[i] == DbKey("0", key);
  }

  // ----- scans -----

  /** A scan in replies: SCAN at each cursor is answered by the next cursor, in
      decimal, and a page of items; the last page sends the scan back to 0. */
  predicate AnswersScan(server: Server, db: string, pattern: string, count: int, cursors: seq<int>,
                        pages: seq<seq<Reply>>)
  {
    && |cursors| == |pages| > 0 && cursors[0] == 0
    && (forall i | 0 < i < |cursors| :: 0 < cursors[i] <= MAX_INT64)
    && forall i | 0 <= i < |cursors| ::
         server.Answer(db, Scan(cursors[i], Some(pattern), count))
         == Arr([Bulk(Itoa(NextOf(cursors, i))), Arr(pages[i])])
  }

  function NextOf(cursors: seq<int>, i: nat): (next: nat)
    requires i < |cursors| && forall j | 0 < j < |cursors| :: 0 < cursors[j] <= MAX_INT64
    ensures next <= MAX_INT64
  {
    if i + 1 < |cursors| then cursors[i + 1] else 0
  }

  function Joined(pages: seq<seq<Reply>>): seq<Reply> {
    if pages == [] then [] else pages[0] + Joined(pages[1..])
  }

  lemma {:induction false} PageIs(server: Server, db: string, pattern: string, count: int, cursors: seq<int>,
                                  pages: seq<seq<Reply>>, i: nat)
    requires AnswersScan(server, db, pattern, count, cursors, pages) && i < |cursors|
    ensures ScanPage(server, db, pattern, count, cursors[i]) == Some(Page(pages[i], NextOf(cursors, i)))
  {
    CursorRoundTrip(NextOf(cursors, i));
  }

  lemma {:induction false} RepliesAreACourse(server: Server, db: string, pattern: string, count: int, cursors: seq<int>,
                                             pages: seq<seq<Reply>>)
    requires AnswersScan(server, db, pattern, count, cursors, pages)
    ensures IsChain(server, db, pattern, count, cursors)
  {
    forall i | 0 <= i < |cursors|
      ensures NextPage(server, db, pattern, count)(cursors[i]) == Some(NextOf(cursors, i))
    {
      PageIs(server, db, pattern, count, cursors, pages, i);
    }
  }

  lemma {:induction false} ItemsAreThePages(server: Server, db: string, pattern: string, count: int, cursors: seq<int>,
                                            pages: seq<seq<Reply>>, i: nat, found: seq<Reply>)
    requires AnswersScan(server, db, pattern, count, cursors, pages) && i <= |cursors|
    ensures Items(server, db, pattern, count, cursors, i, found) == Some(found + Joined(pages[i..]))
    decreases |cursors| - i
  {
    if i == |cursors| {
      assert pages[i..] == [] && found + [] == found;
    } else {
      PageIs(server, db, pattern, count, cursors, pages, i);
      ItemsAreThePages(server, db, pattern, count, cursors, pages, i + 1, found + pages[i]);
      assert pages[i..][1..] == pages[i + 1..];
      Regroup(found, pages[i], Joined(pages[i + 1..]));
    }
  }

  /** The scan finds the items of all pages, in order. */
  lemma {:induction false} ScanFindsThePages(server: Server, db: string, pattern: string, count: int, cursors: seq<int>,
                                             pages: seq<seq<Reply>>)
    requires pattern != "" && AnswersScan(server, db, pattern, count, cursors, pages)
    ensures ScanEnds(server, db, pattern, count)
    ensures ScanSpec(server, db, pattern, count) == Some(Joined(pages))
  {
    RepliesAreACourse(server, db, pattern, count, cursors, pages);
    ChainIsUnique(server, db, pattern, count, cursors, ChainOf(server, db, pattern, count));
    ItemsAreThePages(server, db, pattern, count, cursors, pages, 0, []);
    assert pages[0..] == pages && [] + Joined(pages) == Joined(pages);
  }

  /** Counting keys: one sample, the number of items on all pages. */
  lemma {:induction false} CountIsTheNumberOfItems(server: Server, db: string, pattern: string, count: int,
                                                   cursors: seq<int>, pages: seq<seq<Reply>>)
    requires pattern != "" && AnswersScan(server, db, pattern, count, cursors, pages) && !server.select(db).Err?
    ensures CountSpec(server, count, [DbKey(db, pattern)])
         == [Metric("keys_count", |Joined(pages)| as real, ["db" + db, pattern])]
  {
    ScanFindsThePages(server, db, pattern, count, cursors, pages);
    ForEachOne((k: DbKey) => CountOne(server, count, k), DbKey(db, pattern));
  }

  /** The names of the keys on a page. */
  function Named(names: seq<string>): seq<Reply> {
    seq(|names|, i requires 0 <= i < |names| => Bulk(names[i]))
  }

  lemma {:induction false} NamesAreStrings(names: seq<string>)
    ensures AsStrings(Named(names)) == Some(names)
  {
    if names == [] {
    } else {
      assert Named(names)[1..] == Named(names[1..]);
      NamesAreStrings(names[1..]);
      assert [names[0]] + names[1..] == names;
    }
  }

  /** A missing name counts as the empty one, and any other reply spoils the page. */
  lemma {:induction false} OddNames(names: seq<string>, odd: Reply)
    ensures AsStrings(Named(names) + [Nil]) == Some(names + [""])
    ensures odd.Int? || odd.Arr? || odd.Err? ==> AsStrings(Named(names) + [odd]) == None
  {
    if names == [] {
      assert Named(names) + [Nil] == [Nil] && [Nil][1..] == [] && names + [""] == [""] + [];
      assert Named(names) + [odd] == [odd];
    } else {
      OddNames(names[1..], odd);
      assert (Named(names) + [Nil])[1..] == Named(names[1..]) + [Nil];
      assert (Named(names) + [odd])[1..] == Named(names[1..]) + [odd];
      assert [names[0]] + (names[1..] + [""]) == names + [""];
    }
  }

  /** A key with one of ? * [ ] ^ in it stands for the keys the scan of its database
      finds, in order; any other key for itself. */
  lemma {:induction false} PatternsStandForKeys(server: Server, db: string, key: string, count: int, cursors: seq<int>,
                                                pages: seq<seq<Reply>>, names: seq<string>)
    requires AnswersScan(server, db, key, count, cursors, pages) && !server.select(db).Err?
    requires Joined(pages) == Named(names)
    ensures '?' in key || '*' in key || '[' in key || ']' in key || '^' in key ==>
              Expand(server, count, [DbKey(db, key)], [], false)
              == Expanded(seq(|names|, i requires 0 <= i < |names| => DbKey(db, names[i])), false)
    ensures '?' !in key && '*' !in key && '[' !in key && ']' !in key && '^' !in key ==>
              Expand(server, count, [DbKey(db, key)], [], false) == Expanded([DbKey(db, key)], false)
  {
    var k := DbKey(db, key);
    assert [k][1..] == [];
    if IsGlob(key) {
      ScanFindsThePages(server, db, key, count, cursors, pages);
      NamesAreStrings(names);
      assert ExpandEntry(server, count, k, false) == Some(Pairs(db, names));
      assert [] + Pairs(db, names) == seq(|names|, i requires 0 <= i < |names| => DbKey(db, names[i]));
    } else {
      assert [] + [k] == [k];
    }
  }

  /** A reply that is no list of two ends the scan without a result. */
  lemma {:induction false} BrokenPage(server: Server, db: string, pattern: string, count: int)
    requires var r := server.Answer(db, Scan(0, Some(pattern), count)); !r.Arr? || |r.items| != 2
    ensures ScanSpec(server, db, pattern, count) == None
  {
    if pattern != "" && ScanEnds(server, db, pattern, count) {
      assert ScanPage(server, db, pattern, count, 0) == None;
    }
  }
}
