/** Laws of the key-group collector over whole scans: nothing is lost between
    SCAN and the exported series, and neither the batching nor the order of the
    scan shows in the result. */
module GroupProofs {
  import opened Wrappers
  import opened Redis
  import opened GoInts
  import opened GroupTotals
  import opened Ranking
  import opened GroupScript
  import opened KeyGroups

  // ----- from bookings to series -----

  function NamesOf(s: seq<KeyGroup>): seq<string> {
    seq(|s|, i requires 0 <= i < |s| => s[i].name)
  }

  /** s lists the int64 totals of the groups it names. */
  predicate AreWrapped(s: seq<KeyGroup>, entries: seq<Entry>) {
    forall i | 0 <= i < |s| :: s[i] == WrappedGroup(entries, s[i].name)
  }

  lemma {:induction false} WrappedSums(s: seq<KeyGroup>, entries: seq<Entry>)
    requires AreWrapped(s, entries)
    ensures Wrap(CountSum(s)) == Wrap(CountSum(GroupsFor(entries, NamesOf(s))))
    ensures Wrap(MemorySum(s)) == Wrap(MemorySum(GroupsFor(entries, NamesOf(s))))
  {
    if s == [] {
    } else {
      var exact := GroupsFor(entries, NamesOf(s));
      assert exact[1..] == GroupsFor(entries, NamesOf(s[1..]));
      WrappedSums(s[1..], entries);
      WrapBoth(exact[0].count, CountSum(exact[1..]), CountSum(exact));
      WrapBoth(s[0].count, CountSum(s[1..]), CountSum(s));
      WrapBoth(exact[0].memory, MemorySum(exact[1..]), MemorySum(exact));
      WrapBoth(s[0].memory, MemorySum(s[1..]), MemorySum(s));
      assert s[0] == WrappedGroup(entries, s[0].name);
    }
  }

  lemma {:induction false} RankedNames(entries: seq<Entry>, ranked: seq<KeyGroup>)
    requires ranked == Ranked(WrappedSummary(entries))
    ensures forall e | e in entries :: e.group in NamesOf(ranked)
  {
    var groups := WrappedSummary(entries);
    SummaryIsGroupMap(entries);
    RankedIsTheSortedList(groups);
    ListedOnce(ranked, groups);
    forall e | e in entries ensures e.group in NamesOf(ranked) {
      assert e.group in Names(entries);
      assert groups[e.group] in ranked;
      var i :| 0 <= i < |ranked| && ranked[i] == groups[e.group];
      assert NamesOf(ranked)[i] == e.group;
    }
  }

  lemma {:induction false} RankedSummary(entries: seq<Entry>) returns (ranked: seq<KeyGroup>)
    ensures ranked == Ranked(WrappedSummary(entries))
    ensures AreWrapped(ranked, entries)
    ensures NamesDistinct(ranked) && |ranked| == |Names(entries)|
    ensures forall i, j | 0 <= i < j < |NamesOf(ranked)| :: NamesOf(ranked)[i] != NamesOf(ranked)[j]
    ensures forall e | e in entries :: e.group in NamesOf(ranked)
  {
    var groups := WrappedSummary(entries);
    ranked := Ranked(groups);
    SummaryIsGroupMap(entries);
    RankedIsTheSortedList(groups);
    ListedOnce(ranked, groups);
    RankedNames(entries, ranked);
  }

  /** Conservation: the exported counts add up to the number of keys, and the
      exported memory to the memory booked, both modulo 2^64, whether or not
      groups were folded into the overflow. */
  lemma {:induction false} SeriesConserve(entries: seq<Entry>, limit: nat)
    ensures var s := Series(WrappedSummary(entries), limit);
            Wrap(CountSum(s)) == Wrap(|entries|) && Wrap(MemorySum(s)) == Wrap(MemoryTotal(entries))
  {
    var ranked := RankedSummary(entries);
    CutConserves(ranked, limit);
    WrappedSums(ranked, entries);
    GroupsPartitionTheKeys(entries, NamesOf(ranked));
  }

  predicate NonNegative(s: seq<KeyGroup>) {
    forall i | 0 <= i < |s| :: s[i].count >= 0 && s[i].memory >= 0
  }

  lemma {:induction false} SumsNonNegative(s: seq<KeyGroup>)
    requires NonNegative(s)
    ensures CountSum(s) >= 0 && MemorySum(s) >= 0
    ensures forall i | 0 <= i < |s| :: s[i].count <= CountSum(s) && s[i].memory <= MemorySum(s)
  {
    if s == [] {
    } else {
      SumsNonNegative(s[1..]);
      assert s == [s[0]] + s[1..];
      forall i | 0 < i < |s| ensures s[i].count <= CountSum(s) && s[i].memory <= MemorySum(s) {
        assert s[i] == s[1..][i - 1];
      }
    }
  }

  lemma {:induction false} BookedMemoryIsPartOfTotal(entries: seq<Entry>, name: string)
    requires forall i | 0 <= i < |entries| :: entries[i].usage >= 0
    ensures 0 <= MemoryOf(entries, name) <= MemoryTotal(entries)
    ensures CountOf(entries, name) <= |entries|
  {
    if entries == [] {
    } else {
      BookedMemoryIsPartOfTotal(entries[1..], name);
    }
  }

  lemma {:induction false} CutConservesExactly(ranked: seq<KeyGroup>, limit: nat)
    requires NonNegative(ranked) && CountSum(ranked) < TWO_63 && MemorySum(ranked) < TWO_63
    ensures CountSum(Cut(ranked, limit)) == CountSum(ranked)
    ensures MemorySum(Cut(ranked, limit)) == MemorySum(ranked)
  {
    if |ranked| > limit {
      var top, rest := ranked[..limit], ranked[limit..];
      assert ranked == top + rest;
      SumsAppend(top, rest);
      SumsAppend(top, [Folded(rest)]);
      SumsNonNegative(top);
      SumsNonNegative(rest);
      assert CountSum([Folded(rest)]) == CountSum(rest) && MemorySum([Folded(rest)]) == MemorySum(rest);
    }
  }

  lemma {:induction false} ExactGroup(entries: seq<Entry>, name: string)
    requires forall i | 0 <= i < |entries| :: entries[i].usage >= 0
    requires |entries| < TWO_63 && MemoryTotal(entries) < TWO_63
    ensures WrappedGroup(entries, name) == KeyGroup(name, CountOf(entries, name), MemoryOf(entries, name))
    ensures MemoryOf(entries, name) >= 0
  {
    BookedMemoryIsPartOfTotal(entries, name);
  }

  /** No int64 overflow, no modulus: when the totals fit, they are exact. */
  lemma {:induction false} SeriesConserveExactly(entries: seq<Entry>, limit: nat)
    requires forall i | 0 <= i < |entries| :: entries[i].usage >= 0
    requires |entries| < TWO_63 && MemoryTotal(entries) < TWO_63
    ensures var s := Series(WrappedSummary(entries), limit);
            CountSum(s) == |entries| && MemorySum(s) == MemoryTotal(entries)
  {
    var ranked := RankedSummary(entries);
    var exact := GroupsFor(entries, NamesOf(ranked));
    forall i | 0 <= i < |ranked|
      ensures ranked[i] == exact[i] && ranked[i].count >= 0 && ranked[i].memory >= 0
    {
      ExactGroup(entries, ranked[i].name);
    }
    assert ranked == exact;
    GroupsPartitionTheKeys(entries, NamesOf(ranked));
    CutConservesExactly(ranked, limit);
  }

  /** The exported series of a database: at most limit + 1, as many groups as
      classes were seen if they fit.  Their labels are distinct unless the classes
      do not fit, one of them is itself called overflow, and fewer than limit
      classes come before it. */
  lemma {:induction false} ExportIsBounded(entries: seq<Entry>, limit: nat)
    ensures var s := Series(WrappedSummary(entries), limit);
            && |s| == (if |Names(entries)| <= limit then |Names(entries)| else limit + 1)
            && (NamesDistinct(s) <==>
                  |Names(entries)| <= limit || OVERFLOW !in Names(entries)
                  || |AheadOf(WrappedSummary(entries), OVERFLOW)| >= limit)
  {
    SummaryIsGroupMap(entries);
    SeriesAreBounded(WrappedSummary(entries), limit);
  }

  // ----- from the scan to the bookings -----

  /** The keys of the batch at a cursor. */
  function BatchKeys(server: Server, db: string, count: int, cursor: int): seq<string> {
    match ScanBatch(server, db, cursor, count) case None => [] case Some(batch) => batch.keys
  }

  /** The keys along the cursors, in the order in which they were returned. */
  function ScannedKeys(server: Server, db: string, count: int, cursors: seq<int>, i: nat): seq<string>
    requires i <= |cursors|
    decreases |cursors| - i
  {
    if i == |cursors| then []
    else
      BatchKeys(server, db, count, cursors[i]) + ScannedKeys(server, db, count, cursors, i + 1)
  }

  predicate MemoryKnown(server: Server, db: string, keys: seq<string>) {
    forall k | k in keys :: server.Answer(db, MemoryUsage(k)).Int?
  }

  /** The entries are the keys, each under its own class, in order. */
  predicate Classified(find: Finder, patterns: seq<string>, keys: seq<string>, entries: seq<Entry>) {
    && |entries| == |keys|
    && forall i | 0 <= i < |keys| :: Classify(find, patterns, keys[i]) == Some(entries[i].group)
  }

  /** Each with its own MEMORY USAGE reply as well. */
  predicate OwnMemory(server: Server, db: string, keys: seq<string>, entries: seq<Entry>) {
    && |entries| == |keys|
    && forall i | 0 <= i < |keys| :: server.Answer(db, MemoryUsage(keys[i])) == Int(entries[i].usage)
  }

  lemma {:induction false} BookingsAreOnePass(server: Server, find: Finder, db: string, patterns: seq<string>,
                                              done: seq<string>, keys: seq<string>, usage: int, booked: seq<Entry>)
    requires Classified(find, patterns, done, booked)
    requires Bookings(server, find, db, patterns, keys, usage, booked).Some?
    ensures var entries := Bookings(server, find, db, patterns, keys, usage, booked).value;
            && Classified(find, patterns, done + keys, entries)
            && (OwnMemory(server, db, done, booked) && MemoryKnown(server, db, keys) ==>
                  OwnMemory(server, db, done + keys, entries))
    decreases |keys|
  {
    if keys == [] {
      assert done + keys == done;
    } else {
      assert done + [keys[0]] + keys[1..] == done + keys;
      var reply := server.Answer(db, MemoryUsage(keys[0]));
      var now := if reply.Int? then reply.n else usage;
      var e := Entry(Classify(find, patterns, keys[0]).value, now);
      BookingsAreOnePass(server, find, db, patterns, done + [keys[0]], keys[1..], now, booked + [e]);
    }
  }

  lemma {:induction false} BookingsAppend(server: Server, find: Finder, db: string, patterns: seq<string>, keys: seq<string>,
                       usage: int, booked: seq<Entry>)
    ensures Bookings(server, find, db, patterns, keys, usage, booked) ==
            match Bookings(server, find, db, patterns, keys, usage, [])
            case None => None
            case Some(batch) => Some(booked + batch)
    decreases |keys|
  {
    if keys == [] {
      assert booked + [] == booked;
    } else {
      var reply := server.Answer(db, MemoryUsage(keys[0]));
      var now := if reply.Int? then reply.n else usage;
      var group := Classify(find, patterns, keys[0]);
      if group.Some? {
        var e := Entry(group.value, now);
        BookingsAppend(server, find, db, patterns, keys[1..], now, booked + [e]);
        BookingsAppend(server, find, db, patterns, keys[1..], now, [] + [e]);
        var batch := Bookings(server, find, db, patterns, keys[1..], now, []);
        if batch.Some? {
          assert (booked + [e]) + batch.value == booked + (([] + [e]) + batch.value);
        }
      }
    }
  }

  /** The two-level group-by over batches books what one pass over all returned
      keys books. */
  lemma {:induction false} GatheredIsOnePass(server: Server, find: Finder, db: string, patterns: seq<string>,
                                             count: int, cursors: seq<int>, i: nat,
                                             done: seq<string>, booked: seq<Entry>)
    requires i <= |cursors|
    requires Classified(find, patterns, done, booked)
    requires Gathered(server, find, db, patterns, count, cursors, i, booked).Some?
    ensures var keys := ScannedKeys(server, db, count, cursors, i);
            var entries := Gathered(server, find, db, patterns, count, cursors, i, booked).value;
            && Classified(find, patterns, done + keys, entries)
            && (OwnMemory(server, db, done, booked) && MemoryKnown(server, db, keys) ==>
                  OwnMemory(server, db, done + keys, entries))
    decreases |cursors| - i
  {
    if i == |cursors| {
      assert done + [] == done;
    } else {
      var keys := ScanBatch(server, db, cursors[i], count).value.keys;
      var later := ScannedKeys(server, db, count, cursors, i + 1);
      assert done + keys + later == done + (keys + later);
      BookingsAppend(server, find, db, patterns, keys, 0, booked);
      BookingsAreOnePass(server, find, db, patterns, done, keys, 0, booked);
      var batch := BatchBookings(server, find, db, patterns, cursors[i], count).value;
      GatheredIsOnePass(server, find, db, patterns, count, cursors, i + 1, done + keys, booked + batch);
    }
  }

  // ----- the one-pass group-by -----

  /** How many of the keys are of a class, each tried on its own. */
  function KeyCount(find: Finder, patterns: seq<string>, keys: seq<string>, name: string): nat {
    if keys == [] then 0
    else (if Classify(find, patterns, keys[0]) == Some(name) then 1 else 0) + KeyCount(find, patterns, keys[1..], name)
  }

  function ReportedMemory(server: Server, db: string, key: string): int {
    var reply := server.Answer(db, MemoryUsage(key));
    if reply.Int? then reply.n else 0
  }

  /** How much memory the server reports for the keys of a class. */
  function KeyMemory(server: Server, find: Finder, db: string, patterns: seq<string>, keys: seq<string>,
                     name: string): int
    decreases |keys|
  {
    if keys == [] then 0
    else (if Classify(find, patterns, keys[0]) == Some(name) then ReportedMemory(server, db, keys[0]) else 0)
         + KeyMemory(server, find, db, patterns, keys[1..], name)
  }

  lemma {:induction false} CountsAreKeyCounts(find: Finder, patterns: seq<string>, keys: seq<string>,
                                              entries: seq<Entry>, name: string)
    requires Classified(find, patterns, keys, entries)
    ensures CountOf(entries, name) == KeyCount(find, patterns, keys, name)
  {
    if keys == [] {
    } else {
      CountsAreKeyCounts(find, patterns, keys[1..], entries[1..], name);
    }
  }

  lemma {:induction false} MemoryIsKeyMemory(server: Server, find: Finder, db: string, patterns: seq<string>,
                                             keys: seq<string>, entries: seq<Entry>, name: string)
    requires Classified(find, patterns, keys, entries) && OwnMemory(server, db, keys, entries)
    ensures MemoryOf(entries, name) == KeyMemory(server, find, db, patterns, keys, name)
    decreases |keys|
  {
    if keys == [] {
    } else {
      MemoryIsKeyMemory(server, find, db, patterns, keys[1..], entries[1..], name);
    }
  }

  lemma {:induction false} KeyTotalsAppend(server: Server, find: Finder, db: string, patterns: seq<string>,
                                           a: seq<string>, b: seq<string>, name: string)
    ensures KeyCount(find, patterns, a + b, name) == KeyCount(find, patterns, a, name) + KeyCount(find, patterns, b, name)
    ensures KeyMemory(server, find, db, patterns, a + b, name) ==
            KeyMemory(server, find, db, patterns, a, name) + KeyMemory(server, find, db, patterns, b, name)
    decreases |a|
  {
    if a == [] {
      assert a + b == b;
    } else {
      assert (a + b)[1..] == a[1..] + b;
      KeyTotalsAppend(server, find, db, patterns, a[1..], b, name);
    }
  }

  lemma {:induction false} KeyTotalsPermuted(server: Server, find: Finder, db: string, patterns: seq<string>,
                                             a: seq<string>, b: seq<string>, name: string)
    requires multiset(a) == multiset(b)
    ensures KeyCount(find, patterns, a, name) == KeyCount(find, patterns, b, name)
    ensures KeyMemory(server, find, db, patterns, a, name) == KeyMemory(server, find, db, patterns, b, name)
    decreases |a|
  {
    if a == [] {
      assert |b| == |multiset(b)| == |multiset(a)| == 0;
    } else {
      var i := PullOut(a, b);
      var left, right := b[..i], b[i + 1..];
      KeyTotalsPermuted(server, find, db, patterns, a[1..], left + right, name);
      KeyTotalsAppend(server, find, db, patterns, left, right, name);
      KeyTotalsAppend(server, find, db, patterns, left, [a[0]] + right, name);
      assert ([a[0]] + right)[1..] == right;
    }
  }

  lemma {:induction false} NamesByCount(a: seq<Entry>, b: seq<Entry>)
    requires forall name :: CountOf(a, name) == CountOf(b, name)
    ensures Names(a) == Names(b)
  {
    forall name ensures name in Names(a) <==> name in Names(b) {
      CountIsPositive(a, name);
      CountIsPositive(b, name);
    }
  }

  /** Everything gathered from a database, in terms of the keys SCAN returned:
      one booking per key, counted under its own class, whatever the replies to
      MEMORY USAGE; and with its own memory if those are numbers. */
  lemma {:induction false} GatheredTotals(server: Server, find: Finder, db: string, patterns: seq<string>, count: int,
                                          cursors: seq<int>) returns (entries: seq<Entry>)
    requires Gathered(server, find, db, patterns, count, cursors, 0, []).Some?
    ensures entries == Gathered(server, find, db, patterns, count, cursors, 0, []).value
    ensures var keys := ScannedKeys(server, db, count, cursors, 0);
            && |entries| == |keys|
            && (forall name :: CountOf(entries, name) == KeyCount(find, patterns, keys, name))
            && (MemoryKnown(server, db, keys) ==>
                  forall name :: MemoryOf(entries, name) == KeyMemory(server, find, db, patterns, keys, name))
  {
    var keys := ScannedKeys(server, db, count, cursors, 0);
    entries := Gathered(server, find, db, patterns, count, cursors, 0, []).value;
    GatheredIsOnePass(server, find, db, patterns, count, cursors, 0, [], []);
    assert [] + keys == keys;
    forall name ensures CountOf(entries, name) == KeyCount(find, patterns, keys, name) {
      CountsAreKeyCounts(find, patterns, keys, entries, name);
    }
    if MemoryKnown(server, db, keys) {
      forall name ensures MemoryOf(entries, name) == KeyMemory(server, find, db, patterns, keys, name) {
        MemoryIsKeyMemory(server, find, db, patterns, keys, entries, name);
      }
    }
  }

  /** Batching does not matter: two scans that return the same keys, whatever the
      batch sizes and the order, give the same counts, and if every MEMORY USAGE
      is a number, the same groups. */
  lemma {:induction false} BatchingDoesNotMatter(server: Server, find: Finder, db: string, patterns: seq<string>,
                                                 count1: int, cursors1: seq<int>, count2: int, cursors2: seq<int>)
    requires Gathered(server, find, db, patterns, count1, cursors1, 0, []).Some?
    requires Gathered(server, find, db, patterns, count2, cursors2, 0, []).Some?
    ensures var keys1 := ScannedKeys(server, db, count1, cursors1, 0);
            var keys2 := ScannedKeys(server, db, count2, cursors2, 0);
            var a := Gathered(server, find, db, patterns, count1, cursors1, 0, []).value;
            var b := Gathered(server, find, db, patterns, count2, cursors2, 0, []).value;
            multiset(keys1) == multiset(keys2) ==>
              && Names(a) == Names(b)
              && (forall name :: CountOf(a, name) == CountOf(b, name))
              && (MemoryKnown(server, db, keys1) ==> WrappedSummary(a) == WrappedSummary(b))
  {
    var keys1, keys2 := ScannedKeys(server, db, count1, cursors1, 0), ScannedKeys(server, db, count2, cursors2, 0);
    if multiset(keys1) == multiset(keys2) {
      var a := GatheredTotals(server, find, db, patterns, count1, cursors1);
      var b := GatheredTotals(server, find, db, patterns, count2, cursors2);
      forall name
        ensures KeyCount(find, patterns, keys1, name) == KeyCount(find, patterns, keys2, name)
        ensures KeyMemory(server, find, db, patterns, keys1, name) == KeyMemory(server, find, db, patterns, keys2, name)
      {
        KeyTotalsPermuted(server, find, db, patterns, keys1, keys2, name);
      }
      assert forall name :: CountOf(a, name) == CountOf(b, name);
      NamesByCount(a, b);
      if MemoryKnown(server, db, keys1) {
        forall k | k in keys2 ensures server.Answer(db, MemoryUsage(k)).Int? {
          assert k in multiset(keys2);
          assert k in keys1;
        }
        assert forall name :: MemoryOf(a, name) == MemoryOf(b, name);
      }
    }
  }

  // ----- memory replies that are no numbers -----

  function ReportedTotal(server: Server, db: string, keys: seq<string>): int {
    if keys == [] then 0 else ReportedMemory(server, db, keys[0]) + ReportedTotal(server, db, keys[1..])
  }

  /** The memory booked for keys without a number of their own: each is booked with
      the last number before it in its batch. */
  function CarriedTotal(server: Server, db: string, keys: seq<string>, usage: int): int
    decreases |keys|
  {
    if keys == [] then 0
    else
      var reply := server.Answer(db, MemoryUsage(keys[0]));
      if reply.Int? then CarriedTotal(server, db, keys[1..], reply.n)
      else usage + CarriedTotal(server, db, keys[1..], usage)
  }

  /** No key without a number comes, in its batch, after a number other than 0. */
  predicate NothingCarried(server: Server, db: string, keys: seq<string>, usage: int)
    decreases |keys|
  {
    keys == []
    || var reply := server.Answer(db, MemoryUsage(keys[0]));
       if reply.Int? then NothingCarried(server, db, keys[1..], reply.n)
       else usage == 0 && NothingCarried(server, db, keys[1..], usage)
  }

  /** Once a key's memory is known, so is that of every key after it. */
  predicate NoGapAfterNumber(server: Server, db: string, keys: seq<string>) {
    forall i, j | 0 <= i < j < |keys| ::
      server.Answer(db, MemoryUsage(keys[i])).Int? ==> server.Answer(db, MemoryUsage(keys[j])).Int?
  }

  /** As every existing key uses some memory, the rule is about gaps. */
  lemma {:induction false} NothingCarriedMeansNoGap(server: Server, db: string, keys: seq<string>, usage: int)
    requires usage >= 0
    requires forall k | k in keys :: server.Answer(db, MemoryUsage(k)).Int? ==> ReportedMemory(server, db, k) > 0
    ensures NothingCarried(server, db, keys, usage) <==>
            if usage > 0 then MemoryKnown(server, db, keys) else NoGapAfterNumber(server, db, keys)
    decreases |keys|
  {
    if keys == [] {
    } else {
      var reply := server.Answer(db, MemoryUsage(keys[0]));
      assert keys[0] in keys && keys == [keys[0]] + keys[1..];
      assert forall i | 0 < i < |keys| :: keys[i] == keys[1..][i - 1];
      NothingCarriedMeansNoGap(server, db, keys[1..], if reply.Int? then reply.n else usage);
      if reply.Int? {
        assert NoGapAfterNumber(server, db, keys) <==> MemoryKnown(server, db, keys[1..]) by {
          assert keys[0] == keys[..][0];
          forall k | k in keys[1..] && NoGapAfterNumber(server, db, keys) ensures server.Answer(db, MemoryUsage(k)).Int? {
            var i :| 0 < i < |keys| && keys[i] == k;
          }
        }
      }
    }
  }

  /** MEMORY USAGE never reports a negative number. */
  predicate SizesAreSizes(server: Server, db: string, keys: seq<string>) {
    forall k | k in keys :: ReportedMemory(server, db, k) >= 0
  }

  lemma {:induction false} CarriedIsNonNegative(server: Server, db: string, keys: seq<string>, usage: int)
    requires usage >= 0 && SizesAreSizes(server, db, keys)
    ensures CarriedTotal(server, db, keys, usage) >= 0
    ensures CarriedTotal(server, db, keys, usage) == 0 <==> NothingCarried(server, db, keys, usage)
    decreases |keys|
  {
    if keys == [] {
    } else {
      var reply := server.Answer(db, MemoryUsage(keys[0]));
      assert keys[0] in keys && ReportedMemory(server, db, keys[0]) >= 0;
      CarriedIsNonNegative(server, db, keys[1..], if reply.Int? then reply.n else usage);
    }
  }

  /** What a run of the script books: the reported memory, and what it carries. */
  lemma {:induction false} CarriedMemory(server: Server, find: Finder, db: string, patterns: seq<string>,
                                         keys: seq<string>, usage: int)
    requires Bookings(server, find, db, patterns, keys, usage, []).Some?
    ensures MemoryTotal(Bookings(server, find, db, patterns, keys, usage, []).value)
         == ReportedTotal(server, db, keys) + CarriedTotal(server, db, keys, usage)
    decreases |keys|
  {
    if keys == [] {
    } else {
      var reply := server.Answer(db, MemoryUsage(keys[0]));
      var now := if reply.Int? then reply.n else usage;
      var e := Entry(Classify(find, patterns, keys[0]).value, now);
      assert [] + [e] == [e];
      BookingsAppend(server, find, db, patterns, keys[1..], now, [e]);
      CarriedMemory(server, find, db, patterns, keys[1..], now);
    }
  }

  /** A reply to MEMORY USAGE that is no number (the key has just expired, say)
      makes the script book the memory of the key before it once more.  A batch is
      booked at what the server reported exactly if no such reply follows a number
      other than 0. */
  lemma {:induction false} BatchMemoryIsExact(server: Server, find: Finder, db: string, patterns: seq<string>,
                                              cursor: int, count: int)
    requires BatchBookings(server, find, db, patterns, cursor, count).Some?
    ensures var keys := BatchKeys(server, db, count, cursor);
            var total := MemoryTotal(BatchBookings(server, find, db, patterns, cursor, count).value);
            && total == ReportedTotal(server, db, keys) + CarriedTotal(server, db, keys, 0)
            && (SizesAreSizes(server, db, keys) ==>
                  (total == ReportedTotal(server, db, keys) <==> NothingCarried(server, db, keys, 0)))
  {
    var keys := BatchKeys(server, db, count, cursor);
    CarriedMemory(server, find, db, patterns, keys, 0);
    if SizesAreSizes(server, db, keys) {
      CarriedIsNonNegative(server, db, keys, 0);
    }
  }

  // ----- conservation from end to end -----

  lemma {:induction false} MemoryTotalAppend(a: seq<Entry>, b: seq<Entry>)
    ensures MemoryTotal(a + b) == MemoryTotal(a) + MemoryTotal(b)
  {
    if a == [] {
      assert a + b == b;
    } else {
      assert (a + b)[1..] == a[1..] + b;
      MemoryTotalAppend(a[1..], b);
    }
  }

  lemma {:induction false} ReportedTotalAppend(server: Server, db: string, a: seq<string>, b: seq<string>)
    ensures ReportedTotal(server, db, a + b) == ReportedTotal(server, db, a) + ReportedTotal(server, db, b)
  {
    if a == [] {
      assert a + b == b;
    } else {
      assert (a + b)[1..] == a[1..] + b;
      ReportedTotalAppend(server, db, a[1..], b);
    }
  }

  /** What all batches from cursor i onward carry: each starts from 0. */
  function CarriedInBatches(server: Server, db: string, count: int, cursors: seq<int>, i: nat): int
    requires i <= |cursors|
    decreases |cursors| - i
  {
    if i == |cursors| then 0
    else
      CarriedTotal(server, db, BatchKeys(server, db, count, cursors[i]), 0)
      + CarriedInBatches(server, db, count, cursors, i + 1)
  }

  predicate NoBatchCarries(server: Server, db: string, count: int, cursors: seq<int>, i: nat) {
    forall j | i <= j < |cursors| :: NothingCarried(server, db, BatchKeys(server, db, count, cursors[j]), 0)
  }

  lemma {:induction false} CarriedExactly(server: Server, db: string, count: int, cursors: seq<int>, i: nat)
    requires i <= |cursors| && SizesAreSizes(server, db, ScannedKeys(server, db, count, cursors, i))
    ensures CarriedInBatches(server, db, count, cursors, i) >= 0
    ensures CarriedInBatches(server, db, count, cursors, i) == 0 <==> NoBatchCarries(server, db, count, cursors, i)
    decreases |cursors| - i
  {
    if i == |cursors| {
    } else {
      var keys, later := BatchKeys(server, db, count, cursors[i]), ScannedKeys(server, db, count, cursors, i + 1);
      SizesOfParts(server, db, keys, later);
      CarriedIsNonNegative(server, db, keys, 0);
      CarriedExactly(server, db, count, cursors, i + 1);
      FirstBatchCarries(server, db, count, cursors, i);
    }
  }

  lemma {:induction false} SizesOfParts(server: Server, db: string, a: seq<string>, b: seq<string>)
    requires SizesAreSizes(server, db, a + b)
    ensures SizesAreSizes(server, db, a) && SizesAreSizes(server, db, b)
  {
    assert forall k :: k in a || k in b ==> k in a + b;
  }

  lemma {:induction false} FirstBatchCarries(server: Server, db: string, count: int, cursors: seq<int>, i: nat)
    requires i < |cursors|
    ensures NoBatchCarries(server, db, count, cursors, i) <==>
            NothingCarried(server, db, BatchKeys(server, db, count, cursors[i]), 0)
            && NoBatchCarries(server, db, count, cursors, i + 1)
  {
    var none := (j: int) requires 0 <= j < |cursors| =>
                  NothingCarried(server, db, BatchKeys(server, db, count, cursors[j]), 0);
    assert (forall j | i <= j < |cursors| :: none(j)) <==> none(i) && forall j | i + 1 <= j < |cursors| :: none(j);
  }

  lemma {:induction false} KnownIsNotCarried(server: Server, db: string, keys: seq<string>, usage: int)
    requires MemoryKnown(server, db, keys)
    ensures CarriedTotal(server, db, keys, usage) == 0
    decreases |keys|
  {
    if keys == [] {
    } else {
      assert keys[0] in keys;
      KnownIsNotCarried(server, db, keys[1..], server.Answer(db, MemoryUsage(keys[0])).n);
    }
  }

  lemma {:induction false} KnownBatchesCarryNothing(server: Server, db: string, count: int, cursors: seq<int>, i: nat)
    requires i <= |cursors| && MemoryKnown(server, db, ScannedKeys(server, db, count, cursors, i))
    ensures CarriedInBatches(server, db, count, cursors, i) == 0
    decreases |cursors| - i
  {
    if i == |cursors| {
    } else {
      var keys := BatchKeys(server, db, count, cursors[i]);
      var later := ScannedKeys(server, db, count, cursors, i + 1);
      assert forall k :: k in keys || k in later ==> k in keys + later;
      KnownIsNotCarried(server, db, keys, 0);
      KnownBatchesCarryNothing(server, db, count, cursors, i + 1);
    }
  }

  lemma {:induction false} GatheredMemory(server: Server, find: Finder, db: string, patterns: seq<string>, count: int,
                                          cursors: seq<int>, i: nat, booked: seq<Entry>)
    requires i <= |cursors|
    requires Gathered(server, find, db, patterns, count, cursors, i, booked).Some?
    ensures MemoryTotal(Gathered(server, find, db, patterns, count, cursors, i, booked).value) ==
            MemoryTotal(booked) + ReportedTotal(server, db, ScannedKeys(server, db, count, cursors, i))
            + CarriedInBatches(server, db, count, cursors, i)
    decreases |cursors| - i
  {
    if i == |cursors| {
    } else {
      var batch := BatchBookings(server, find, db, patterns, cursors[i], count).value;
      BatchMemoryIsExact(server, find, db, patterns, cursors[i], count);
      MemoryTotalAppend(booked, batch);
      ReportedTotalAppend(server, db, BatchKeys(server, db, count, cursors[i]),
                          ScannedKeys(server, db, count, cursors, i + 1));
      GatheredMemory(server, find, db, patterns, count, cursors, i + 1, booked + batch);
    }
  }

  lemma {:induction false} DatabaseTotals(server: Server, find: Finder, db: string, patterns: seq<string>,
                                          count: int, cursors: seq<int>, limit: nat)
    requires Gathered(server, find, db, patterns, count, cursors, 0, []).Some?
    ensures var keys := ScannedKeys(server, db, count, cursors, 0);
            var s := Series(WrappedSummary(Gathered(server, find, db, patterns, count, cursors, 0, []).value), limit);
            && Wrap(CountSum(s)) == Wrap(|keys|)
            && Wrap(MemorySum(s))
               == Wrap(ReportedTotal(server, db, keys) + CarriedInBatches(server, db, count, cursors, 0))
  {
    var keys := ScannedKeys(server, db, count, cursors, 0);
    GatheredIsOnePass(server, find, db, patterns, count, cursors, 0, [], []);
    assert [] + keys == keys;
    SeriesConserve(Gathered(server, find, db, patterns, count, cursors, 0, []).value, limit);
    GatheredMemory(server, find, db, patterns, count, cursors, 0, []);
  }

  /** The same as integers: the totals differ by multiples of 2^64. */
  lemma {:induction false} DatabaseTurns(server: Server, find: Finder, db: string, patterns: seq<string>,
                                         count: int, cursors: seq<int>, limit: nat) returns (i: int, j: int)
    requires Gathered(server, find, db, patterns, count, cursors, 0, []).Some?
    ensures var keys := ScannedKeys(server, db, count, cursors, 0);
            var s := Series(WrappedSummary(Gathered(server, find, db, patterns, count, cursors, 0, []).value), limit);
            && CountSum(s) == |keys| + i * TWO_64
            && MemorySum(s)
               == ReportedTotal(server, db, keys) + CarriedInBatches(server, db, count, cursors, 0) + j * TWO_64
  {
    var keys := ScannedKeys(server, db, count, cursors, 0);
    var s := Series(WrappedSummary(Gathered(server, find, db, patterns, count, cursors, 0, []).value), limit);
    DatabaseTotals(server, find, db, patterns, count, cursors, limit);
    i := SameWrap(CountSum(s), |keys|);
    j := SameWrap(MemorySum(s), ReportedTotal(server, db, keys) + CarriedInBatches(server, db, count, cursors, 0));
  }

  /** For a database that was gathered, the exported counts add up to the number
      of keys SCAN returned, repeats included, and the exported memory to what
      MEMORY USAGE reported for them and what the script carried over (modulo
      2^64, as int64 goes), whether or not groups were folded.  What was carried is
      nothing at least if all replies are numbers. */
  lemma {:induction false} DatabaseConserves(server: Server, find: Finder, db: string, patterns: seq<string>,
                                             count: int, cursors: seq<int>, limit: nat)
    requires Gathered(server, find, db, patterns, count, cursors, 0, []).Some?
    ensures var keys := ScannedKeys(server, db, count, cursors, 0);
            var s := Series(WrappedSummary(Gathered(server, find, db, patterns, count, cursors, 0, []).value), limit);
            var reported, carried := ReportedTotal(server, db, keys), CarriedInBatches(server, db, count, cursors, 0);
            && Wrap(CountSum(s)) == Wrap(|keys|)
            && Wrap(MemorySum(s)) == Wrap(reported + carried)
            && (Wrap(MemorySum(s)) == Wrap(reported) <==> carried % TWO_64 == 0)
            && (MemoryKnown(server, db, keys) ==> carried == 0)
  {
    var keys := ScannedKeys(server, db, count, cursors, 0);
    DatabaseTotals(server, find, db, patterns, count, cursors, limit);
    WrapDiffers(ReportedTotal(server, db, keys), CarriedInBatches(server, db, count, cursors, 0));
    if MemoryKnown(server, db, keys) {
      KnownBatchesCarryNothing(server, db, count, cursors, 0);
    }
  }

  predicate UsagesAreSizes(entries: seq<Entry>) {
    forall i | 0 <= i < |entries| :: entries[i].usage >= 0
  }

  lemma {:induction false} BookedSizes(server: Server, find: Finder, db: string, patterns: seq<string>,
                                       keys: seq<string>, usage: int, booked: seq<Entry>)
    requires Bookings(server, find, db, patterns, keys, usage, booked).Some?
    requires usage >= 0 && SizesAreSizes(server, db, keys) && UsagesAreSizes(booked)
    ensures UsagesAreSizes(Bookings(server, find, db, patterns, keys, usage, booked).value)
    decreases |keys|
  {
    if keys == [] {
    } else {
      var reply := server.Answer(db, MemoryUsage(keys[0]));
      assert keys[0] in keys && ReportedMemory(server, db, keys[0]) >= 0;
      var now := if reply.Int? then reply.n else usage;
      var e := Entry(Classify(find, patterns, keys[0]).value, now);
      BookedSizes(server, find, db, patterns, keys[1..], now, booked + [e]);
    }
  }

  lemma {:induction false} GatheredSizes(server: Server, find: Finder, db: string, patterns: seq<string>, count: int,
                                         cursors: seq<int>, i: nat, booked: seq<Entry>)
    requires i <= |cursors| && UsagesAreSizes(booked)
    requires SizesAreSizes(server, db, ScannedKeys(server, db, count, cursors, i))
    requires Gathered(server, find, db, patterns, count, cursors, i, booked).Some?
    ensures UsagesAreSizes(Gathered(server, find, db, patterns, count, cursors, i, booked).value)
    decreases |cursors| - i
  {
    if i == |cursors| {
    } else {
      var keys, later := BatchKeys(server, db, count, cursors[i]), ScannedKeys(server, db, count, cursors, i + 1);
      SizesOfParts(server, db, keys, later);
      BookedSizes(server, find, db, patterns, keys, 0, []);
      var batch := BatchBookings(server, find, db, patterns, cursors[i], count).value;
      GatheredSizes(server, find, db, patterns, count, cursors, i + 1, booked + batch);
    }
  }

  /** The same without a modulus, where the totals fit an int64: the exported
      memory is what the server reported if and only if no batch carries any. */
  lemma {:induction false} DatabaseConservesExactly(server: Server, find: Finder, db: string, patterns: seq<string>,
                                                    count: int, cursors: seq<int>, limit: nat)
    requires Gathered(server, find, db, patterns, count, cursors, 0, []).Some?
    ensures var keys := ScannedKeys(server, db, count, cursors, 0);
            var reported, carried := ReportedTotal(server, db, keys), CarriedInBatches(server, db, count, cursors, 0);
            var s := Series(WrappedSummary(Gathered(server, find, db, patterns, count, cursors, 0, []).value), limit);
            SizesAreSizes(server, db, keys) && |keys| < TWO_63 && reported + carried < TWO_63 ==>
              && CountSum(s) == |keys|
              && MemorySum(s) == reported + carried >= reported
              && (MemorySum(s) == reported <==> NoBatchCarries(server, db, count, cursors, 0))
  {
    var keys := ScannedKeys(server, db, count, cursors, 0);
    var entries := Gathered(server, find, db, patterns, count, cursors, 0, []).value;
    var total := ReportedTotal(server, db, keys) + CarriedInBatches(server, db, count, cursors, 0);
    if SizesAreSizes(server, db, keys) && |keys| < TWO_63 && total < TWO_63 {
      GatheredIsOnePass(server, find, db, patterns, count, cursors, 0, [], []);
      assert [] + keys == keys;
      GatheredMemory(server, find, db, patterns, count, cursors, 0, []);
      GatheredSizes(server, find, db, patterns, count, cursors, 0, []);
      CarriedExactly(server, db, count, cursors, 0);
      SeriesConserveExactly(entries, limit);
    }
  }
}
