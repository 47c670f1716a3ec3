/** Streams from replies to samples: which entry of a reply, and which field of what
    it decodes to, becomes which sample. */
module StreamReplies {
  import opened Wrappers
  import opened GoStrings
  import opened Redis
  import opened Metrics
  import opened KeyArgs
  import opened KeyMetrics
  import opened Scanning
  import opened Streams

  // ----- entries -----

  /** Nothing in the reply names the entry. */
  predicate Unnamed(values: seq<Reply>, marker: string) {
    forall i | 0 <= i < |values| :: values[i] != Bulk(marker)
  }

  /** The marker stands at i, for the last time, and an entry with this id follows. */
  predicate Names(values: seq<Reply>, marker: string, i: nat, id: string) {
    && i + 1 < |values| && values[i] == Bulk(marker)
    && (forall j | i < j < |values| :: values[j] != Bulk(marker))
    && values[i + 1].Arr? && |values[i + 1].items| >= 2 && values[i + 1].items[0] == Bulk(id)
  }

  lemma {:induction false} UnnamedKeeps(values: seq<Reply>, s: Stream)
    requires WithEntries(values, s).Some?
    ensures Unnamed(values, "first-entry") ==> WithEntries(values, s).value.firstEntryId == s.firstEntryId
    ensures Unnamed(values, "last-entry") ==> WithEntries(values, s).value.lastEntryId == s.lastEntryId
    ensures var t := WithEntries(values, s).value;
            t.(firstEntryId := s.firstEntryId, lastEntryId := s.lastEntryId) == s
    decreases |values|
  {
    if values == [] {
    } else {
      Markers();
      UnnamedKeeps(values[1..], AfterValue(values, s));
    }
  }

  lemma {:induction false} Markers()
    ensures "first-entry" != "last-entry"
  {
    assert |"first-entry"| != |"last-entry"|;
  }

  /** The stream after the first value of a reply. */
  function AfterValue(values: seq<Reply>, s: Stream): Stream
    requires values != []
  {
    if |values| == 1 then s
    else if values[0] == Bulk("first-entry") then s.(firstEntryId := EntryId(values[1]))
    else if values[0] == Bulk("last-entry") then s.(lastEntryId := EntryId(values[1])) else s
  }

  lemma {:induction false} FirstEntryIsFound(values: seq<Reply>, s: Stream, i: nat, id: string)
    requires Names(values, "first-entry", i, id) && WithEntries(values, s).Some?
    ensures WithEntries(values, s).value.firstEntryId == id
    decreases |values|
  {
    Markers();
    if i == 0 {
      assert Unnamed(values[1..], "first-entry");
      UnnamedKeeps(values[1..], AfterValue(values, s));
    } else {
      FirstEntryIsFound(values[1..], AfterValue(values, s), i - 1, id);
    }
  }

  lemma {:induction false} LastEntryIsFound(values: seq<Reply>, s: Stream, i: nat, id: string)
    requires Names(values, "last-entry", i, id) && WithEntries(values, s).Some?
    ensures WithEntries(values, s).value.lastEntryId == id
    decreases |values|
  {
    Markers();
    if i == 0 {
      assert Unnamed(values[1..], "last-entry");
      UnnamedKeeps(values[1..], AfterValue(values, s));
    } else {
      LastEntryIsFound(values[1..], AfterValue(values, s), i - 1, id);
    }
  }

  /** An id counts with the number before its dash; a blank one is 0. */
  lemma {:induction false} IdNumber(opts: Options, time: string, sequence: string, v: real)
    requires IsPlain(time) && time != "" && '-' !in time && opts.parseFloat(time) == Some(v)
    ensures ItemId(opts, time + "-" + sequence) == v
    ensures AreBlanks(sequence) ==> ItemId(opts, sequence) == 0.0
  {
    var id := time + "-" + sequence;
    SplitAppend(time, sequence, '-');
    SplitWithoutSeparator(time, '-');
    assert IsGraphic(id[0]);
    NotBlank(id);
    if AreBlanks(sequence) {
      TrimBlanks(sequence, "", "");
      assert sequence + "" + "" == sequence;
    }
  }

  lemma {:induction false} NotBlank(s: string)
    requires s != "" && IsGraphic(s[0])
    ensures TrimSpace(s) != ""
  {
    GraphicIsNotSpace(s);
    KeepsFirst(s);
  }

  lemma {:induction false} KeepsFirst(s: string)
    requires s != "" && IsGraphic(s[0])
    ensures TrimRight(s) != "" && TrimRight(s)[0] == s[0]
    decreases |s|
  {
    var n := TrailingSpaceWidth(s);
    if n == 0 {
    } else {
      FirstIsNoSpace(s, n);
      KeepsFirst(s[..|s| - n]);
    }
  }

  lemma {:induction false} FirstIsNoSpace(s: string, n: nat)
    requires s != "" && IsGraphic(s[0]) && n == TrailingSpaceWidth(s)
    ensures n < |s|
  {
    GraphicIsNotSpace(s);
    assert s[0..] == s;
  }

  // ----- which streams -----

  /** Single streams come first, whatever the patterns stand for; if no pattern is
      used, the keys of the other option follow as they are. */
  lemma {:induction false} StreamsAskedFor(server: Server, cfg: StreamConfig)
    ensures Parse(cfg.checkSingleStreams).keys <= CheckedStreams(server, cfg, false)
    ensures AskedStreams(server, cfg, false) == CheckedStreams(server, cfg, false)
    ensures !HasGlob(Parse(cfg.checkStreams).keys) ==>
              AskedStreams(server, cfg, false) == Parse(cfg.checkSingleStreams).keys + Parse(cfg.checkStreams).keys
  {
    if !HasGlob(Parse(cfg.checkStreams).keys) {
      ExpandPlainKeys(server, cfg.batchSize, Parse(cfg.checkStreams).keys, [], false);
      assert [] + Parse(cfg.checkStreams).keys == Parse(cfg.checkStreams).keys;
    }
  }

  // ----- samples -----

  /** A stream: its eight samples and those of its groups. */
  lemma {:induction false} StreamSamples(server: Server, cfg: StreamConfig, db: string, key: string,
                                         values: seq<Reply>, plain: Stream, s: Stream, groups: Groups)
    requires !server.select(db).Err? && server.Answer(db, XInfoStream(key)) == Arr(values) && |values| % 2 == 0
    requires cfg.decode.stream(values) == Some(plain) && WithEntries(values, plain) == Some(s)
    requires GroupsOf(server, cfg.decode, db, key) == Some(groups)
    ensures StreamOne(server, cfg, DbKey(db, key)) ==
            [Metric("stream_length", plain.length as real, ["db" + db, key]),
             Metric("stream_radix_tree_keys", plain.radixTreeKeys as real, ["db" + db, key]),
             Metric("stream_radix_tree_nodes", plain.radixTreeNodes as real, ["db" + db, key]),
             Metric("stream_last_generated_id", ItemId(cfg.opts, plain.lastGeneratedId), ["db" + db, key]),
             Metric("stream_groups", plain.groups as real, ["db" + db, key]),
             Metric("stream_max_deleted_entry_id", ItemId(cfg.opts, plain.maxDeletedEntryId), ["db" + db, key]),
             Metric("stream_first_entry_id", ItemId(cfg.opts, s.firstEntryId), ["db" + db, key]),
             Metric("stream_last_entry_id", ItemId(cfg.opts, s.lastEntryId), ["db" + db, key])]
            + GroupMetrics(cfg, ["db" + db, key], groups)
  {
    UnnamedKeeps(values, plain);
  }

  /** The group and its consumers as XINFO GROUPS and XINFO CONSUMERS list them. */
  predicate Lists(server: Server, decode: Decoder, db: string, key: string, g: Group, consumers: seq<Consumer>,
                  v: seq<Reply>, items: seq<seq<Reply>>)
  {
    && server.Answer(db, XInfoGroups(key)) == Arr([Arr(v)]) && |v| % 2 == 0 && decode.group(v) == Some(g)
    && server.Answer(db, XInfoConsumers(key, g.name)) == Arr(Arrays(items)) && |items| == |consumers|
    && forall i | 0 <= i < |items| :: |items[i]| % 2 == 0 && decode.consumer(items[i]) == Some(consumers[i])
  }

  function Arrays(items: seq<seq<Reply>>): seq<Reply> {
    seq(|items|, i requires 0 <= i < |items| => Arr(items[i]))
  }

  lemma {:induction false} ConsumersAreListed(decode: Decoder, items: seq<seq<Reply>>, consumers: seq<Consumer>,
                                              found: seq<Consumer>)
    requires |items| == |consumers|
    requires forall i | 0 <= i < |items| :: |items[i]| % 2 == 0 && decode.consumer(items[i]) == Some(consumers[i])
    ensures DecodeConsumers(decode, Arrays(items), found) == found + consumers
    decreases |items|
  {
    if items == [] {
      assert found + consumers == found;
    } else {
      assert Arrays(items)[1..] == Arrays(items[1..]);
      ConsumersAreListed(decode, items[1..], consumers[1..], found + [consumers[0]]);
      assert found + [consumers[0]] + consumers[1..] == found + consumers;
    }
  }

  /** Such a group is found. */
  lemma {:induction false} GroupIsFound(server: Server, decode: Decoder, db: string, key: string,
                                        g: Group, consumers: seq<Consumer>, v: seq<Reply>, items: seq<seq<Reply>>)
    requires Lists(server, decode, db, key, g, consumers, v, items)
    ensures GroupsOf(server, decode, db, key) == Some([(g, consumers)])
  {
    ConsumersAreListed(decode, items, consumers, []);
    assert [] + consumers == consumers;
    assert ConsumersOf(server, decode, db, key, g.name) == Some(consumers);
    LastGroup(server, decode, db, key, [Arr(v)], g, consumers);
  }

  lemma {:induction false} LastGroup(server: Server, decode: Decoder, db: string, key: string, replies: seq<Reply>,
                                     g: Group, consumers: seq<Consumer>)
    requires |replies| == 1 && replies[0].Arr? && ScanStruct(replies[0].items, decode.group) == Some(g)
    requires ConsumersOf(server, decode, db, key, g.name) == Some(consumers)
    ensures DecodeGroups(server, decode, db, key, replies, []) == Some([(g, consumers)])
  {
    assert [] + [(g, consumers)] == [(g, consumers)];
    assert DecodeGroups(server, decode, db, key, replies[1..], [(g, consumers)]) == Some([(g, consumers)]);
  }

  /** Its samples: five of its own and, if wanted, two for every consumer; those of the
      other groups follow. */
  lemma {:induction false} GroupIsReported(cfg: StreamConfig, db: string, key: string, g: Group,
                                           consumers: seq<Consumer>, later: Groups)
    ensures var labels := ["db" + db, key, g.name];
            GroupMetrics(cfg, ["db" + db, key], [(g, consumers)] + later) ==
            [Metric("stream_group_consumers", g.consumers as real, labels),
             Metric("stream_group_messages_pending", g.pending as real, labels),
             Metric("stream_group_last_delivered_id", ItemId(cfg.opts, g.lastDeliveredId), labels),
             Metric("stream_group_entries_read", g.entriesRead as real, labels),
             Metric("stream_group_lag", g.lag as real, labels)]
            + (if cfg.excludeConsumers then [] else ConsumerMetrics(labels, consumers))
            + GroupMetrics(cfg, ["db" + db, key], later)
  {
    assert ["db" + db, key] + [g.name] == ["db" + db, key, g.name];
    assert ([(g, consumers)] + later)[1..] == later;
  }

  /** What every consumer has pending, and for how many seconds it has been idle. */
  lemma {:induction false} ConsumerIsReported(labels: seq<string>, consumers: seq<Consumer>, i: nat)
    requires i < |consumers|
    ensures |ConsumerMetrics(labels, consumers)| == 2 * |consumers|
    ensures ConsumerMetrics(labels, consumers)[2 * i]
         == Metric("stream_group_consumer_messages_pending", consumers[i].pending as real, labels + [consumers[i].name])
    ensures ConsumerMetrics(labels, consumers)[2 * i + 1]
         == Metric("stream_group_consumer_idle_seconds", consumers[i].idle as real / 1000.0, labels + [consumers[i].name])
    decreases |consumers|
  {
    if |consumers| == 1 {
      assert consumers[1..] == [];
    } else {
      ConsumerIsReported(labels, consumers[1..], if i == 0 then 0 else i - 1);
    }
  }
}
