/** Which key groups are kept when there are too many: the three-key order of
    gatherKeyGroupsMetricsForAllDatabases, its in-place sort, and the cut. */
module Ranking {
  import opened GoInts
  import opened GroupTotals

  /** Byte-wise order of Go strings. */
  predicate StringLess(a: string, b: string) {
    if b == "" then false
    else if a == "" then true
    else a[0] < b[0] || (a[0] == b[0] && StringLess(a[1..], b[1..]))
  }

  lemma {:induction false} StringLessTransitive(a: string, b: string, c: string)
    requires StringLess(a, b) && StringLess(b, c)
    ensures StringLess(a, c)
  {
    if a != "" && a[0] == b[0] == c[0] {
      StringLessTransitive(a[1..], b[1..], c[1..]);
    }
  }

  lemma {:induction false} StringLessTotal(a: string, b: string)
    ensures !(StringLess(a, b) && StringLess(b, a))
    ensures a != b ==> StringLess(a, b) || StringLess(b, a)
  {
    if a != "" && b != "" && a[0] == b[0] {
      StringLessTotal(a[1..], b[1..]);
      assert a == [a[0]] + a[1..] && b == [b[0]] + b[1..];
    }
  }

  /** The comparison handed to sort.Slice. */
  predicate Before(a: KeyGroup, b: KeyGroup) {
    if a.memory == b.memory then
      if a.count == b.count then StringLess(a.name, b.name) else a.count < b.count
    else a.memory > b.memory
  }

  lemma {:induction false} BeforeTransitive(a: KeyGroup, b: KeyGroup, c: KeyGroup)
    requires Before(a, b) && Before(b, c)
    ensures Before(a, c)
  {
    if a.memory == b.memory == c.memory && a.count == b.count == c.count {
      StringLessTransitive(a.name, b.name, c.name);
    }
  }

  /** Groups are only ever tied with themselves. */
  lemma {:induction false} BeforeTotal(a: KeyGroup, b: KeyGroup)
    ensures !(Before(a, b) && Before(b, a))
    ensures a != b ==> Before(a, b) || Before(b, a)
  {
    StringLessTotal(a.name, b.name);
  }

  /** What sort.Slice guarantees: no element is to come before an earlier one. */
  predicate IsSorted(s: seq<KeyGroup>) {
    forall i, j | 0 <= i < j < |s| :: !Before(s[j], s[i])
  }

  /** In the sorted order memory goes down; where it is equal, counts go up, and where
      they are equal too, names do. */
  lemma {:induction false} SortedMeans(s: seq<KeyGroup>, i: nat, j: nat)
    requires IsSorted(s) && i < j < |s|
    ensures s[i].memory >= s[j].memory
    ensures s[i].memory == s[j].memory ==> s[i].count <= s[j].count
    ensures s[i].memory == s[j].memory && s[i].count == s[j].count ==>
              s[i].name == s[j].name || StringLess(s[i].name, s[j].name)
  {
    StringLessTotal(s[i].name, s[j].name);
  }

  /** Names are compared at the first byte in which they differ; a prefix comes first. */
  lemma {:induction false} NamesInOrder(front: string, a: string, b: string)
    requires b != ""
    ensures StringLess(front, front + b)
    ensures a != "" && a[0] < b[0] ==> StringLess(front + a, front + b)
  {
    if front == "" {
      assert front + a == a && front + b == b;
    } else {
      assert (front + a)[1..] == front[1..] + a && (front + b)[1..] == front[1..] + b;
      NamesInOrder(front[1..], a, b);
    }
  }

  lemma {:induction false} FirstIsLeast(s: seq<KeyGroup>, g: KeyGroup)
    requires s != [] && IsSorted(s) && g in multiset(s)
    ensures !Before(g, s[0])
  {
    var i :| 0 <= i < |s| && s[i] == g;
    BeforeTotal(g, g);
  }

  /** An unstable sort has no freedom here: two sorted arrangements of the same
      groups are equal. */
  lemma {:induction false} SortedIsUnique(s: seq<KeyGroup>, t: seq<KeyGroup>)
    requires IsSorted(s) && IsSorted(t)
    requires multiset(s) == multiset(t)
    ensures s == t
  {
    if s == [] {
      assert |t| == |multiset(t)| == |multiset(s)| == 0;
    } else {
      assert s[0] in multiset(t) && t != [];
      FirstIsLeast(s, t[0]);
      FirstIsLeast(t, s[0]);
      BeforeTotal(s[0], t[0]);
      assert s == [s[0]] + s[1..] && t == [s[0]] + t[1..];
      assert multiset(s) == multiset(s[1..]) + multiset{s[0]};
      assert multiset(t) == multiset(t[1..]) + multiset{s[0]};
      Cancel(multiset(s[1..]), multiset(t[1..]), s[0]);
      SortedIsUnique(s[1..], t[1..]);
    }
  }

  // ----- the sort, in place -----

  /** sort.Slice; any algorithm will do, this one sifts each element down. */
  method SortSlice(a: array<KeyGroup>)
    modifies a
    ensures IsSorted(a[..])
    ensures multiset(a[..]) == multiset(old(a[..]))
  {
    for i := 0 to a.Length
      invariant SortedUpTo(a[..], i)
      invariant multiset(a[..]) == multiset(old(a[..]))
    {
      Sift(a, i);
    }
  }

  predicate SortedUpTo(s: seq<KeyGroup>, n: nat) {
    n <= |s| && forall i, j | 0 <= i < j < n :: !Before(s[j], s[i])
  }

  /** All of s up to n is in order but for the element at k, which may belong
      further down. */
  predicate SortedBut(s: seq<KeyGroup>, n: nat, k: nat) {
    && k < n <= |s|
    && (forall i, j | 0 <= i < j < n && j != k :: !Before(s[j], s[i]))
  }

  lemma {:induction false} SwapStep(s: seq<KeyGroup>, t: seq<KeyGroup>, n: nat, k: nat)
    requires SortedBut(s, n, k) && k > 0 && Before(s[k], s[k - 1])
    requires t == s[k - 1 := s[k]][k := s[k - 1]]
    ensures SortedBut(t, n, k - 1)
    ensures multiset(t) == multiset(s)
  {
    forall i, j | 0 <= i < j < n && j != k - 1 ensures !Before(t[j], t[i]) {
      if j == k {
        if i < k - 1 {
          assert !Before(s[k - 1], s[i]);
        } else {
          BeforeTotal(s[k], s[k - 1]);
        }
      } else if i == k - 1 {
        assert j > k && !Before(s[j], s[k]);
      } else if i == k {
        assert j > k && !Before(s[j], s[k - 1]);
      }
    }
  }

  lemma {:induction false} SortedThere(s: seq<KeyGroup>, n: nat, k: nat)
    requires SortedBut(s, n, k) && (k > 0 ==> !Before(s[k], s[k - 1]))
    ensures SortedUpTo(s, n)
  {
    forall i | 0 <= i < k ensures !Before(s[k], s[i]) {
      if i < k - 1 && Before(s[k], s[i]) {
        BeforeTotal(s[k], s[k - 1]);
        BeforeTotal(s[k - 1], s[i]);
        if s[k] == s[k - 1] {
          assert false;
        } else {
          BeforeTransitive(s[k - 1], s[k], s[i]);
          assert false;
        }
      }
    }
  }

  method Sift(a: array<KeyGroup>, n: nat)
    requires n < a.Length && SortedUpTo(a[..], n)
    modifies a
    ensures SortedUpTo(a[..], n + 1)
    ensures multiset(a[..]) == multiset(old(a[..]))
  {
    var k: nat := n;
    while k > 0 && Before(a[k], a[k - 1])
      invariant SortedBut(a[..], n + 1, k)
      invariant multiset(a[..]) == multiset(old(a[..]))
    {
      ghost var s := a[..];
      a[k - 1], a[k] := a[k], a[k - 1];
      SwapStep(s, a[..], n + 1, k);
      k := k - 1;
    }
    SortedThere(a[..], n + 1, k);
  }

  // ----- the cut -----

  const OVERFLOW := "overflow"

  /** A map from group names to groups of that name. */
  predicate IsGroupMap(groups: map<string, KeyGroup>) {
    forall name | name in groups :: groups[name].name == name
  }

  /** A sequence that lists the groups of a map, each once, in some order. */
  predicate Lists(s: seq<KeyGroup>, groups: map<string, KeyGroup>) {
    multiset(s) == multiset(groups.Values)
  }

  function Insert(g: KeyGroup, s: seq<KeyGroup>): seq<KeyGroup> {
    if s == [] || Before(g, s[0]) then [g] + s else [s[0]] + Insert(g, s[1..])
  }

  lemma {:induction false} InFrontOfAll(g: KeyGroup, s: seq<KeyGroup>)
    requires s != [] && IsSorted(s) && Before(g, s[0])
    ensures IsSorted([g] + s)
  {
    forall j | 0 <= j < |s| ensures !Before(s[j], g) {
      FirstIsLeast(s, s[j]);
      if Before(s[j], g) {
        BeforeTransitive(s[j], g, s[0]);
      }
    }
  }

  lemma {:induction false} InsertSorts(g: KeyGroup, s: seq<KeyGroup>)
    requires IsSorted(s)
    ensures IsSorted(Insert(g, s)) && multiset(Insert(g, s)) == multiset(s) + multiset{g}
  {
    if s == [] {
    } else if Before(g, s[0]) {
      InFrontOfAll(g, s);
    } else {
      InsertSorts(g, s[1..]);
      var t := Insert(g, s[1..]);
      assert s == [s[0]] + s[1..];
      forall j | 0 <= j < |t| ensures !Before(t[j], s[0]) {
        assert t[j] in multiset(t);
        if t[j] != g {
          assert t[j] in multiset(s[1..]);
        }
      }
    }
  }

  /** The groups in their one sorted order. */
  ghost function Ranked(groups: map<string, KeyGroup>): seq<KeyGroup>
    decreases |groups|
  {
    if groups == map[] then []
    else
      var name :| name in groups;
      Insert(groups[name], Ranked(groups - {name}))
  }

  lemma {:induction false} WithoutOne(groups: map<string, KeyGroup>, name: string)
    requires IsGroupMap(groups) && name in groups
    ensures IsGroupMap(groups - {name})
    ensures multiset(groups.Values) == multiset((groups - {name}).Values) + multiset{groups[name]}
  {
    var rest := groups - {name};
    assert groups[name] !in rest.Values;
    forall g ensures g in groups.Values <==> g in rest.Values || g == groups[name] {
      if g in groups.Values {
        var n :| n in groups && groups[n] == g;
        assert n != name ==> n in rest && rest[n] == g;
      }
    }
    assert groups.Values == rest.Values + {groups[name]};
  }

  lemma {:induction false} RankedIsTheSortedList(groups: map<string, KeyGroup>)
    requires IsGroupMap(groups)
    ensures Lists(Ranked(groups), groups) && IsSorted(Ranked(groups))
    decreases |groups|
  {
    if groups == map[] {
    } else {
      var name :| name in groups && Ranked(groups) == Insert(groups[name], Ranked(groups - {name}));
      WithoutOne(groups, name);
      RankedIsTheSortedList(groups - {name});
      InsertSorts(groups[name], Ranked(groups - {name}));
    }
  }

  /** Whatever order the map is traversed in and whatever correct sort is used,
      the outcome is the same sequence. */
  lemma {:induction false} EverySortAgrees(groups: map<string, KeyGroup>, s: seq<KeyGroup>)
    requires IsGroupMap(groups) && Lists(s, groups) && IsSorted(s)
    ensures s == Ranked(groups)
  {
    RankedIsTheSortedList(groups);
    SortedIsUnique(s, Ranked(groups));
  }

  predicate NamesDistinct(s: seq<KeyGroup>) {
    forall i, j | 0 <= i < j < |s| :: s[i].name != s[j].name
  }

  lemma {:induction false} RepeatedTwice<T>(s: seq<T>, i: nat, j: nat)
    requires i < j < |s| && s[i] == s[j]
    ensures multiset(s)[s[i]] >= 2
  {
    assert s == s[..i] + [s[i]] + s[i + 1..j] + [s[j]] + s[j + 1..];
  }

  lemma {:induction false} ListedOnce(s: seq<KeyGroup>, groups: map<string, KeyGroup>)
    requires IsGroupMap(groups) && Lists(s, groups)
    ensures |s| == |groups|
    ensures NamesDistinct(s)
    ensures forall i | 0 <= i < |s| :: s[i].name in groups && groups[s[i].name] == s[i]
    ensures forall name | name in groups :: groups[name] in s
  {
    assert |s| == |multiset(s)| == |groups.Values|;
    ValuesCount(groups);
    forall i | 0 <= i < |s| ensures s[i].name in groups && groups[s[i].name] == s[i] {
      assert s[i] in multiset(s);
      var n :| n in groups && groups[n] == s[i];
    }
    forall i, j | 0 <= i < j < |s| ensures s[i].name != s[j].name {
      if s[i] == s[j] {
        RepeatedTwice(s, i, j);
      }
    }
    forall name | name in groups ensures groups[name] in s {
      assert groups[name] in multiset(s);
    }
  }

  lemma {:induction false} ValuesCount(groups: map<string, KeyGroup>)
    requires IsGroupMap(groups)
    ensures |groups.Values| == |groups|
    decreases |groups|
  {
    if groups == map[] {
    } else {
      var name :| name in groups;
      WithoutOne(groups, name);
      ValuesCount(groups - {name});
      assert |multiset(groups.Values)| == |groups.Values|;
      assert |multiset((groups - {name}).Values)| == |(groups - {name}).Values|;
      assert groups.Keys == (groups - {name}).Keys + {name};
    }
  }

  /** One group that stands for several. */
  function Folded(rest: seq<KeyGroup>): KeyGroup {
    KeyGroup(OVERFLOW, Wrap(CountSum(rest)), Wrap(MemorySum(rest)))
  }

  /** The top groups, and one that stands for the rest, added up in int64. */
  function Cut(ranked: seq<KeyGroup>, limit: nat): seq<KeyGroup> {
    if |ranked| <= limit then ranked else ranked[..limit] + [Folded(ranked[limit..])]
  }

  /** The series that are exported for a database. */
  ghost function Series(groups: map<string, KeyGroup>, limit: nat): seq<KeyGroup> {
    Cut(Ranked(groups), limit)
  }

  /** Every retained group uses at least as much memory as every group folded
      into the overflow. */
  lemma {:induction false} TopGroupsDominate(groups: map<string, KeyGroup>, limit: nat, i: nat, j: nat)
    requires IsGroupMap(groups) && i < limit <= j < |Ranked(groups)|
    ensures Ranked(groups)[i].memory >= Ranked(groups)[j].memory
  {
    RankedIsTheSortedList(groups);
  }

  // ----- who is retained -----

  /** The groups that come before a given one. */
  function AheadOf(groups: map<string, KeyGroup>, name: string): set<string>
    requires name in groups
  {
    set n | n in groups && Before(groups[n], groups[name])
  }

  function NameSet(s: seq<KeyGroup>): set<string> {
    set g | g in s :: g.name
  }

  lemma {:induction false} NamesCounted(s: seq<KeyGroup>)
    requires NamesDistinct(s)
    ensures |NameSet(s)| == |s|
  {
    if s == [] {
    } else {
      var front, last := s[..|s| - 1], s[|s| - 1];
      NamesCounted(front);
      assert s == front + [last];
      assert NameSet(s) == NameSet(front) + {last.name};
      assert last.name !in NameSet(front);
    }
  }

  lemma {:induction false} PrefixIsAhead(s: seq<KeyGroup>, i: nat, p: nat)
    requires IsSorted(s) && NamesDistinct(s) && i < |s| && p < |s|
    ensures Before(s[i], s[p]) <==> s[i].name in NameSet(s[..p])
  {
    BeforeTotal(s[i], s[p]);
    if i < p {
      assert s[..p][i] == s[i];
    }
  }

  /** A group's place in the ranking is the number of groups before it. */
  lemma {:induction false} PlaceInRanking(groups: map<string, KeyGroup>, p: nat)
    requires IsGroupMap(groups) && p < |Ranked(groups)| && Ranked(groups)[p].name in groups
    ensures |AheadOf(groups, Ranked(groups)[p].name)| == p
  {
    var ranked := Ranked(groups);
    RankedIsTheSortedList(groups);
    ListedOnce(ranked, groups);
    var ahead := AheadOf(groups, ranked[p].name);
    forall n ensures n in ahead <==> n in NameSet(ranked[..p]) {
      if n in groups {
        assert groups[n] in ranked;
        var i :| 0 <= i < |ranked| && ranked[i] == groups[n];
        PrefixIsAhead(ranked, i, p);
      }
    }
    assert ahead == NameSet(ranked[..p]);
    NamesCounted(ranked[..p]);
  }

  /** A group is retained if and only if fewer than limit groups come before it. */
  lemma {:induction false} RetainedExactly(groups: map<string, KeyGroup>, limit: nat, name: string)
    requires IsGroupMap(groups) && limit <= |groups| && name in groups
    ensures |Ranked(groups)| == |groups|
    ensures name in NameSet(Ranked(groups)[..limit]) <==> |AheadOf(groups, name)| < limit
  {
    var ranked := Ranked(groups);
    RankedIsTheSortedList(groups);
    ListedOnce(ranked, groups);
    assert groups[name] in ranked;
    var p :| 0 <= p < |ranked| && ranked[p] == groups[name];
    PlaceInRanking(groups, p);
    if p < limit {
      assert ranked[..limit][p] == ranked[p];
    }
  }

  lemma {:induction false} OneMoreName(s: seq<KeyGroup>, g: KeyGroup)
    requires NamesDistinct(s)
    ensures NamesDistinct(s + [g]) <==> g.name !in NameSet(s)
  {
    var t := s + [g];
    forall i | 0 <= i < |s| ensures t[i] == s[i] && t[|s|] == g {
    }
  }

  /** The number of series is bounded, and their labels are distinct unless a
      group is itself called overflow and fewer than limit groups come before it. */
  lemma {:induction false} SeriesAreBounded(groups: map<string, KeyGroup>, limit: nat)
    requires IsGroupMap(groups)
    ensures |Series(groups, limit)| == if |groups| <= limit then |groups| else limit + 1
    ensures NamesDistinct(Series(groups, limit)) <==>
            |groups| <= limit || OVERFLOW !in groups || |AheadOf(groups, OVERFLOW)| >= limit
  {
    var ranked := Ranked(groups);
    RankedIsTheSortedList(groups);
    ListedOnce(ranked, groups);
    if |groups| > limit {
      OneMoreName(ranked[..limit], Folded(ranked[limit..]));
      if OVERFLOW in groups {
        RetainedExactly(groups, limit, OVERFLOW);
      }
    }
  }

  lemma {:induction false} SumsAppend(a: seq<KeyGroup>, b: seq<KeyGroup>)
    ensures CountSum(a + b) == CountSum(a) + CountSum(b)
    ensures MemorySum(a + b) == MemorySum(a) + MemorySum(b)
  {
    if a == [] {
      assert a + b == b;
    } else {
      assert (a + b)[1..] == a[1..] + b;
      SumsAppend(a[1..], b);
    }
  }

  lemma {:induction false} FoldingConserves(top: seq<KeyGroup>, rest: seq<KeyGroup>)
    ensures Wrap(CountSum(top + [Folded(rest)])) == Wrap(CountSum(top + rest))
    ensures Wrap(MemorySum(top + [Folded(rest)])) == Wrap(MemorySum(top + rest))
  {
    var overflow := Folded(rest);
    SumsAppend(top, rest);
    SumsAppend(top, [overflow]);
    assert CountSum([overflow]) == overflow.count && MemorySum([overflow]) == overflow.memory;
    WrapSum(CountSum(rest), CountSum(top));
    WrapSum(MemorySum(rest), MemorySum(top));
  }

  /** The cut loses nothing: what is exported adds up to what all groups add up to. */
  lemma {:induction false} CutConserves(ranked: seq<KeyGroup>, limit: nat)
    ensures Wrap(CountSum(Cut(ranked, limit))) == Wrap(CountSum(ranked))
    ensures Wrap(MemorySum(Cut(ranked, limit))) == Wrap(MemorySum(ranked))
  {
    if |ranked| > limit {
      assert ranked == ranked[..limit] + ranked[limit..];
      FoldingConserves(ranked[..limit], ranked[limit..]);
    }
  }
}
