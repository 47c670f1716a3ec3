/** Group-by: how many keys a group has and how much memory they use, as sums
    over the scanned keys, and the map that collects them. */
module GroupTotals {
  import opened GoInts

  /** One scanned key: the group it falls in and the memory booked for it. */
  datatype Entry = Entry(group: string, usage: int)

  datatype KeyGroup = KeyGroup(name: string, count: int, memory: int)

  // ----- totals per group -----

  function CountOf(entries: seq<Entry>, name: string): nat {
    if entries == [] then 0
    else (if entries[0].group == name then 1 else 0) + CountOf(entries[1..], name)
  }

  function MemoryOf(entries: seq<Entry>, name: string): int {
    if entries == [] then 0
    else (if entries[0].group == name then entries[0].usage else 0) + MemoryOf(entries[1..], name)
  }

  lemma {:induction false} TotalsAppend(a: seq<Entry>, b: seq<Entry>, name: string)
    ensures CountOf(a + b, name) == CountOf(a, name) + CountOf(b, name)
    ensures MemoryOf(a + b, name) == MemoryOf(a, name) + MemoryOf(b, name)
  {
    if a == [] {
      assert a + b == b;
    } else {
      assert (a + b)[1..] == a[1..] + b;
      TotalsAppend(a[1..], b, name);
    }
  }

  function Names(entries: seq<Entry>): set<string> {
    set e | e in entries :: e.group
  }

  lemma {:induction false} CountIsPositive(entries: seq<Entry>, name: string)
    ensures CountOf(entries, name) > 0 <==> name in Names(entries)
    ensures name !in Names(entries) ==> MemoryOf(entries, name) == 0
  {
    if entries == [] {
    } else {
      CountIsPositive(entries[1..], name);
      assert entries == [entries[0]] + entries[1..];
    }
  }

  /** What one run of the script knows about its batch. */
  function Summary(entries: seq<Entry>): map<string, KeyGroup> {
    map name | name in Names(entries) :: KeyGroup(name, CountOf(entries, name), MemoryOf(entries, name))
  }

  function WrappedGroup(entries: seq<Entry>, name: string): KeyGroup {
    KeyGroup(name, Wrap(CountOf(entries, name)), Wrap(MemoryOf(entries, name)))
  }

  /** The same in int64 arithmetic: allGroups after the entries have been merged. */
  function WrappedSummary(entries: seq<Entry>): map<string, KeyGroup> {
    map name | name in Names(entries) :: WrappedGroup(entries, name)
  }

  lemma {:induction false} Cancel<T>(a: multiset<T>, b: multiset<T>, e: T)
    requires a + multiset{e} == b + multiset{e}
    ensures a == b
  {
    assert a == (a + multiset{e}) - multiset{e};
    assert b == (b + multiset{e}) - multiset{e};
  }

  /** Where the first element of a sequence is found in a permutation of it. */
  lemma {:induction false} PullOut<T>(a: seq<T>, b: seq<T>) returns (i: nat)
    requires a != [] && multiset(a) == multiset(b)
    ensures i < |b| && b[i] == a[0] && b == b[..i] + ([a[0]] + b[i + 1..])
    ensures multiset(b[..i] + b[i + 1..]) == multiset(a[1..])
  {
    assert a[0] in multiset(b);
    i :| 0 <= i < |b| && b[i] == a[0];
    assert b == b[..i] + ([a[0]] + b[i + 1..]) && a == [a[0]] + a[1..];
    assert multiset(b) == multiset(b[..i] + b[i + 1..]) + multiset{a[0]};
    assert multiset(a) == multiset(a[1..]) + multiset{a[0]};
    Cancel(multiset(b[..i] + b[i + 1..]), multiset(a[1..]), a[0]);
  }

  lemma {:induction false} TotalsOfPermutation(a: seq<Entry>, b: seq<Entry>, name: string)
    requires multiset(a) == multiset(b)
    ensures CountOf(a, name) == CountOf(b, name) && MemoryOf(a, name) == MemoryOf(b, name)
  {
    if a == [] {
      assert |b| == |multiset(b)| == |multiset(a)| == 0;
    } else {
      var i := PullOut(a, b);
      TotalsOfPermutation(a[1..], b[..i] + b[i + 1..], name);
      TotalsAppend(b[..i], b[i + 1..], name);
      TotalsAppend(b[..i], [a[0]] + b[i + 1..], name);
      assert ([a[0]] + b[i + 1..])[1..] == b[i + 1..];
    }
  }

  /** The groups do not depend on the order in which the keys were scanned. */
  lemma {:induction false} SummaryOfPermutation(a: seq<Entry>, b: seq<Entry>)
    requires multiset(a) == multiset(b)
    ensures WrappedSummary(a) == WrappedSummary(b)
  {
    forall e: Entry ensures e in a <==> e in b {
      assert e in a <==> e in multiset(a);
    }
    forall name ensures CountOf(a, name) == CountOf(b, name) && MemoryOf(a, name) == MemoryOf(b, name) {
      TotalsOfPermutation(a, b, name);
    }
  }

  // ----- totals over all groups -----

  function MemoryTotal(entries: seq<Entry>): int {
    if entries == [] then 0 else entries[0].usage + MemoryTotal(entries[1..])
  }

  function CountSum(groups: seq<KeyGroup>): int {
    if groups == [] then 0 else groups[0].count + CountSum(groups[1..])
  }

  function MemorySum(groups: seq<KeyGroup>): int {
    if groups == [] then 0 else groups[0].memory + MemorySum(groups[1..])
  }

  function GroupsFor(entries: seq<Entry>, names: seq<string>): seq<KeyGroup> {
    seq(|names|, i requires 0 <= i < |names| => KeyGroup(names[i], CountOf(entries, names[i]), MemoryOf(entries, names[i])))
  }

  lemma {:induction false} SumsStep(e: Entry, entries: seq<Entry>, names: seq<string>)
    requires forall i, j | 0 <= i < j < |names| :: names[i] != names[j]
    ensures CountSum(GroupsFor([e] + entries, names)) ==
            CountSum(GroupsFor(entries, names)) + if e.group in names then 1 else 0
    ensures MemorySum(GroupsFor([e] + entries, names)) ==
            MemorySum(GroupsFor(entries, names)) + if e.group in names then e.usage else 0
  {
    if names == [] {
    } else {
      SumsStep(e, entries, names[1..]);
      assert ([e] + entries)[1..] == entries;
      assert GroupsFor([e] + entries, names)[1..] == GroupsFor([e] + entries, names[1..]);
      assert GroupsFor(entries, names)[1..] == GroupsFor(entries, names[1..]);
      assert names == [names[0]] + names[1..];
      assert e.group == names[0] ==> e.group !in names[1..];
    }
  }

  lemma {:induction false} SumsOfNothing(names: seq<string>)
    ensures CountSum(GroupsFor([], names)) == 0 && MemorySum(GroupsFor([], names)) == 0
  {
    if names == [] {
    } else {
      assert GroupsFor([], names)[1..] == GroupsFor([], names[1..]);
      SumsOfNothing(names[1..]);
    }
  }

  /** Conservation: every key is counted in exactly one group, and its memory is
      booked there. */
  lemma {:induction false} GroupsPartitionTheKeys(entries: seq<Entry>, names: seq<string>)
    requires forall i, j | 0 <= i < j < |names| :: names[i] != names[j]
    requires forall e | e in entries :: e.group in names
    ensures CountSum(GroupsFor(entries, names)) == |entries|
    ensures MemorySum(GroupsFor(entries, names)) == MemoryTotal(entries)
  {
    if entries == [] {
      SumsOfNothing(names);
    } else {
      assert entries == [entries[0]] + entries[1..];
      GroupsPartitionTheKeys(entries[1..], names);
      SumsStep(entries[0], entries[1..], names);
    }
  }
}
