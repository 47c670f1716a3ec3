/** Key groups in the words of the configuration and of the keys: which patterns are
    configured, which keys make up a group, and which samples are sent about it. */
module GroupReplies {
  import opened Wrappers
  import opened GoStrings
  import opened GoInts
  import opened Redis
  import opened Metrics
  import opened GroupTotals
  import opened Ranking
  import opened GroupScript
  import opened KeyGroups
  import opened GroupProofs
  import opened GroupSamples
  import opened KeyReplies

  // ----- the patterns -----

  function NotEmpty(texts: seq<string>): seq<string> {
    if texts == [] then [] else (if texts[0] == "" then [] else [texts[0]]) + NotEmpty(texts[1..])
  }

  /** Each field is a text with blanks around it. */
  predicate AreFields(fields: seq<string>, before: seq<string>, texts: seq<string>, after: seq<string>) {
    && |fields| == |before| == |texts| == |after|
    && forall i | 0 <= i < |fields| ::
         AreBlanks(before[i]) && IsTrimmed(texts[i]) && AreBlanks(after[i]) && fields[i] == before[i] + texts[i] + after[i]
  }

  lemma {:induction false} FieldsAreTrimmed(fields: seq<string>, before: seq<string>, texts: seq<string>,
                                            after: seq<string>, found: seq<string>)
    requires AreFields(fields, before, texts, after)
    ensures NonEmpty(fields, found) == found + NotEmpty(texts)
    decreases |fields|
  {
    if fields == [] {
      assert found + [] == found;
    } else {
      TrimBlanks(before[0], texts[0], after[0]);
      FieldsAreTrimmed(fields[1..], before[1..], texts[1..], after[1..],
                       if texts[0] == "" then found else found + [texts[0]]);
      Regroup(found, if texts[0] == "" then [] else [texts[0]], NotEmpty(texts[1..]));
      assert found + [] == found;
    }
  }

  /** The patterns are the fields without the blanks around them, in order, empty ones
      left out; an option of blanks has none. */
  lemma {:induction false} ConfiguredText(cfg: GroupConfig, fields: seq<string>, before: seq<string>,
                                          texts: seq<string>, after: seq<string>)
    requires cfg.csv(cfg.checkKeyGroups) == Some(fields) && AreFields(fields, before, texts, after)
    ensures cfg.checkKeyGroups != "" && IsTrimmed(cfg.checkKeyGroups) ==> Patterns(cfg) == NotEmpty(texts)
    ensures AreBlanks(cfg.checkKeyGroups) ==> Patterns(cfg) == []
  {
    FieldsAreTrimmed(fields, before, texts, after, []);
    assert [] + NotEmpty(texts) == NotEmpty(texts);
    if IsTrimmed(cfg.checkKeyGroups) {
      TrimBlanks("", cfg.checkKeyGroups, "");
      assert "" + cfg.checkKeyGroups + "" == cfg.checkKeyGroups;
    }
    if AreBlanks(cfg.checkKeyGroups) {
      TrimBlanks(cfg.checkKeyGroups, "", "");
      assert cfg.checkKeyGroups + "" + "" == cfg.checkKeyGroups;
    }
  }

  // ----- the members of a group -----

  /** How many of the keys belong to the group. */
  ghost function Members(find: Finder, patterns: seq<string>, keys: seq<string>, g: string): nat {
    if keys == [] then 0
    else (if BelongsTo(find, patterns, keys[0], g) then 1 else 0) + Members(find, patterns, keys[1..], g)
  }

  /** The memory Redis gives for a key, as a number. */
  function MemoryReply(server: Server, db: string, key: string): int {
    match server.Answer(db, MemoryUsage(key))
    case Int(n) => n
    case _ => 0
  }

  ghost function MembersMemory(server: Server, find: Finder, db: string, patterns: seq<string>, keys: seq<string>,
                               g: string): int
    decreases |keys|
  {
    if keys == [] then 0
    else (if BelongsTo(find, patterns, keys[0], g) then MemoryReply(server, db, keys[0]) else 0)
         + MembersMemory(server, find, db, patterns, keys[1..], g)
  }

  lemma {:induction false} MembersAreCounted(find: Finder, patterns: seq<string>, keys: seq<string>, g: string)
    ensures KeyCount(find, patterns, keys, g) == Members(find, patterns, keys, g)
  {
    if keys == [] {
    } else {
      ClassifiesExactly(find, patterns, keys[0]);
      MembersAreCounted(find, patterns, keys[1..], g);
    }
  }

  lemma {:induction false} MembersAreWeighed(server: Server, find: Finder, db: string, patterns: seq<string>,
                                             keys: seq<string>, g: string)
    ensures KeyMemory(server, find, db, patterns, keys, g) == MembersMemory(server, find, db, patterns, keys, g)
    decreases |keys|
  {
    if keys == [] {
    } else {
      ClassifiesExactly(find, patterns, keys[0]);
      MembersAreWeighed(server, find, db, patterns, keys[1..], g);
    }
  }

  // ----- the samples of a group -----

  lemma {:induction false} SeriesHas(dbLabel: string, s: seq<KeyGroup>, g: KeyGroup)
    requires g in s
    ensures Metric("key_group_count", g.count as real, [dbLabel, g.name]) in SeriesMetrics(dbLabel, s)
    ensures Metric("key_group_memory_usage_bytes", g.memory as real, [dbLabel, g.name]) in SeriesMetrics(dbLabel, s)
  {
    if s[0] == g {
      var own := KeyGroups.GroupMetrics(dbLabel, g);
      assert own[0] in own && own[1] in own;
    } else {
      assert g in s[1..];
      SeriesHas(dbLabel, s[1..], g);
    }
  }

  /** Groups that are few enough are exported, and so are the first of too many. */
  lemma {:induction false} GroupIsKept(groups: map<string, KeyGroup>, limit: nat, name: string)
    requires IsGroupMap(groups) && name in groups
    requires |groups| <= limit || |AheadOf(groups, name)| < limit
    ensures groups[name] in Series(groups, limit)
  {
    var ranked := Ranked(groups);
    RankedIsTheSortedList(groups);
    ListedOnce(ranked, groups);
    if |groups| > limit {
      RetainedExactly(groups, limit, name);
      var i :| 0 <= i < limit && ranked[..limit][i].name == name;
      assert ranked[i] == groups[name] && Cut(ranked, limit)[i] == ranked[i];
    }
  }

  predicate IsKept(booked: seq<Entry>, limit: nat, g: string) {
    && g in Names(booked)
    && (|Names(booked)| <= limit || |AheadOf(WrappedSummary(booked), g)| < limit)
  }

  lemma {:induction false} BookedGroup(dbLabel: string, booked: seq<Entry>, limit: nat, g: string)
    ensures Metric("number_of_distinct_key_groups", |Names(booked)| as real, [dbLabel])
            in BookedMetrics(dbLabel, booked, limit)
    ensures IsKept(booked, limit, g) ==>
              && Metric("key_group_count", Wrap(CountOf(booked, g)) as real, [dbLabel, g])
                 in BookedMetrics(dbLabel, booked, limit)
              && Metric("key_group_memory_usage_bytes", Wrap(MemoryOf(booked, g)) as real, [dbLabel, g])
                 in BookedMetrics(dbLabel, booked, limit)
  {
    SummaryIsGroupMap(booked);
    if IsKept(booked, limit, g) {
      GroupIsKept(WrappedSummary(booked), limit, g);
      SeriesHas(dbLabel, Series(WrappedSummary(booked), limit), WrappedGroup(booked, g));
    }
  }

  /** What a database sends about a group that is not folded: the number of keys SCAN
      returned that belong to it, and, if Redis gives the memory of every key, the
      memory of these, in int64 arithmetic; and how many groups there are. */
  lemma {:induction false} GroupIsReported(server: Server, find: Finder, cfg: GroupConfig, db: nat, g: string)
    requires IsGathered(server, find, cfg, db)
    ensures var keys := ScannedKeys(server, Itoa(db), cfg.batchSize, Course(server, find, cfg, db), 0);
            var booked := Booked(server, find, Itoa(db), Patterns(cfg), cfg.batchSize).value;
            var n := Members(find, Patterns(cfg), keys, g);
            && (g in Names(booked) <==> n > 0)
            && Metric("number_of_distinct_key_groups", |Names(booked)| as real, ["db" + Itoa(db)])
               in DbMetrics(server, find, cfg, db)
            && (IsKept(booked, cfg.limit, g) ==>
                  && Metric("key_group_count", Wrap(n) as real, ["db" + Itoa(db), g]) in DbMetrics(server, find, cfg, db)
                  && (MemoryKnown(server, Itoa(db), keys) ==>
                        Metric("key_group_memory_usage_bytes",
                               Wrap(MembersMemory(server, find, Itoa(db), Patterns(cfg), keys, g)) as real,
                               ["db" + Itoa(db), g]) in DbMetrics(server, find, cfg, db)))
  {
    var d, cursors := Itoa(db), Course(server, find, cfg, db);
    var booked := GatheredTotals(server, find, d, Patterns(cfg), cfg.batchSize, cursors);
    var keys := ScannedKeys(server, d, cfg.batchSize, cursors, 0);
    MembersAreCounted(find, Patterns(cfg), keys, g);
    MembersAreWeighed(server, find, d, Patterns(cfg), keys, g);
    CountIsPositive(booked, g);
    BookedGroup("db" + d, booked, cfg.limit, g);
  }

  /** What is folded goes out as one more group, called overflow. */
  lemma {:induction false} OverflowIsReported(booked: seq<Entry>, limit: nat, dbLabel: string, ranked: seq<KeyGroup>)
    requires ranked == Ranked(WrappedSummary(booked)) && |ranked| > limit
    ensures Metric("key_group_count", Wrap(CountSum(ranked[limit..])) as real, [dbLabel, "overflow"])
            in BookedMetrics(dbLabel, booked, limit)
    ensures Metric("key_group_memory_usage_bytes", Wrap(MemorySum(ranked[limit..])) as real, [dbLabel, "overflow"])
            in BookedMetrics(dbLabel, booked, limit)
  {
    var s := Cut(ranked, limit);
    assert s[limit] == KeyGroup("overflow", Wrap(CountSum(ranked[limit..])), Wrap(MemorySum(ranked[limit..])));
    SeriesHas(dbLabel, s, s[limit]);
  }

  // ----- one run of the script -----

  lemma {:induction false} PageNames(names: seq<string>)
    ensures KeyNames(Named(names)) == Some(names)
  {
    if names == [] {
    } else {
      assert Named(names)[1..] == Named(names[1..]);
      PageNames(names[1..]);
      assert [names[0]] + names[1..] == names;
    }
  }

  lemma {:induction false} BookingsFailExactly(server: Server, find: Finder, db: string, patterns: seq<string>,
                                               keys: seq<string>, usage: int, booked: seq<Entry>)
    ensures Bookings(server, find, db, patterns, keys, usage, booked).None? <==>
            exists k | k in keys :: IsRejected(find, patterns, k)
    decreases |keys|
  {
    if keys == [] {
    } else {
      ClassifiesExactly(find, patterns, keys[0]);
      assert keys == [keys[0]] + keys[1..];
      var group := Classify(find, patterns, keys[0]);
      if group.Some? {
        var reply := server.Answer(db, MemoryUsage(keys[0]));
        var now := if reply.Int? then reply.n else usage;
        BookingsFailExactly(server, find, db, patterns, keys[1..], now, booked + [Entry(group.value, now)]);
      }
    }
  }

  /** Where SCAN answers with a cursor and a page of names, a run fails if and only if
      a pattern is malformed when tried on a blank, or on a key no pattern before it
      matches; otherwise every key of the page is booked once, in order, under the
      group it belongs to, and the cursor is passed on. */
  lemma {:induction false} PageIsBooked(server: Server, find: Finder, db: string, patterns: seq<string>, cursor: int,
                                        count: int, next: Reply, names: seq<string>)
    requires server.Answer(db, Scan(cursor, None, count)) == Arr([next, Arr(Named(names))])
    ensures ScanBatch(server, db, cursor, count) == Some(Batch(next, names))
    ensures var booked := BatchBookings(server, find, db, patterns, cursor, count);
            && (booked.None? <==>
                  || (exists p | p in patterns :: find(" ", p).Malformed?)
                  || (exists k | k in names :: IsRejected(find, patterns, k)))
            && (booked.Some? ==>
                  && |booked.value| == |names|
                  && forall i | 0 <= i < |names| :: BelongsTo(find, patterns, names[i], booked.value[i].group))
  {
    PageNames(names);
    BookingsFailExactly(server, find, db, patterns, names, 0, []);
    var booked := BatchBookings(server, find, db, patterns, cursor, count);
    if booked.Some? {
      BookingsAreOnePass(server, find, db, patterns, [], names, 0, []);
      assert [] + names == names;
      forall i | 0 <= i < |names| ensures BelongsTo(find, patterns, names[i], booked.value[i].group) {
        ClassifiesExactly(find, patterns, names[i]);
      }
    }
  }
}
