/** The Lua script of key_groups.go: scan one batch, book every key's memory to
    the group its name falls in, and return one row per group. */
module GroupScript {
  import opened Wrappers
  import opened Redis
  import opened GoInts
  import opened GroupTotals

  /** string.find(key, pattern): it may reject the pattern. */
  datatype Find = Malformed | NoMatch | Match(captures: seq<string>)

  type Finder = (string, string) -> Find

  const UNCLASSIFIED := "unclassified"

  /** table.concat(captures, "") */
  function Concat(parts: seq<string>): string {
    if parts == [] then "" else parts[0] + Concat(parts[1..])
  }

  /** The group of a key: the captures of the first pattern that matches.  None
      if a pattern tried before that is malformed. */
  function Classify(find: Finder, patterns: seq<string>, key: string): Option<string> {
    if patterns == [] then Some(UNCLASSIFIED)
    else
      match find(key, patterns[0])
      case Malformed => None
      case Match(captures) => Some(Concat(captures))
      case NoMatch => Classify(find, patterns[1..], key)
  }

  /** Pattern i matches the key, and none before it does. */
  ghost predicate FirstMatch(find: Finder, patterns: seq<string>, key: string, i: nat) {
    && i < |patterns| && find(key, patterns[i]).Match?
    && forall j | 0 <= j < i :: find(key, patterns[j]).NoMatch?
  }

  /** Pattern i is rejected, and none before it matches. */
  ghost predicate FirstMalformed(find: Finder, patterns: seq<string>, key: string, i: nat) {
    && i < |patterns| && find(key, patterns[i]).Malformed?
    && forall j | 0 <= j < i :: find(key, patterns[j]).NoMatch?
  }

  ghost predicate NothingMatches(find: Finder, patterns: seq<string>, key: string) {
    forall i | 0 <= i < |patterns| :: find(key, patterns[i]).NoMatch?
  }

  /** A key is booked under g if and only if g is made of the captures of the first
      pattern that matches, or is "unclassified" and no pattern matches. */
  ghost predicate BelongsTo(find: Finder, patterns: seq<string>, key: string, g: string) {
    || (exists i: nat :: FirstMatch(find, patterns, key, i) && g == Concat(find(key, patterns[i]).captures))
    || (NothingMatches(find, patterns, key) && g == "unclassified")
  }

  ghost predicate IsRejected(find: Finder, patterns: seq<string>, key: string) {
    exists i: nat :: FirstMalformed(find, patterns, key, i)
  }

  /** Captures are put together in their order. */
  lemma {:induction false} ConcatAppend(a: seq<string>, b: seq<string>)
    ensures Concat(a + b) == Concat(a) + Concat(b)
  {
    if a == [] {
      assert a + b == b;
    } else {
      assert (a + b)[1..] == a[1..] + b;
      ConcatAppend(a[1..], b);
    }
  }

  lemma {:induction false} ConcatTwo(a: string, b: string)
    ensures Concat([]) == "" && Concat([a]) == a && Concat([a, b]) == a + b
  {
    assert [a][1..] == [] && [a, b][1..] == [b] && [b][1..] == [];
    assert a + "" == a && b + "" == b;
  }

  lemma {:induction false} LaterPattern(find: Finder, patterns: seq<string>, key: string, i: nat)
    requires patterns != [] && find(key, patterns[0]).NoMatch? && i < |patterns[1..]|
    ensures FirstMatch(find, patterns, key, i + 1) <==> FirstMatch(find, patterns[1..], key, i)
    ensures FirstMalformed(find, patterns, key, i + 1) <==> FirstMalformed(find, patterns[1..], key, i)
  {
    assert forall j | 0 <= j < |patterns[1..]| :: patterns[1..][j] == patterns[j + 1];
    assert forall j | 0 < j < |patterns| :: patterns[j] == patterns[1..][j - 1];
  }

  /** One of three things happens, at the first pattern that does not fail to match. */
  lemma {:induction false} FirstPatternDecides(find: Finder, patterns: seq<string>, key: string)
    ensures match Classify(find, patterns, key)
            case None => IsRejected(find, patterns, key)
            case Some(g) => BelongsTo(find, patterns, key, g)
    decreases |patterns|
  {
    if patterns == [] {
    } else if find(key, patterns[0]).Malformed? {
      assert FirstMalformed(find, patterns, key, 0);
    } else if find(key, patterns[0]).Match? {
      assert FirstMatch(find, patterns, key, 0);
    } else {
      FirstPatternDecides(find, patterns[1..], key);
      if i: nat :| FirstMatch(find, patterns[1..], key, i)
                   && Classify(find, patterns, key) == Some(Concat(find(key, patterns[1..][i]).captures)) {
        LaterPattern(find, patterns, key, i);
        assert patterns[i + 1] == patterns[1..][i];
      }
      if i: nat :| FirstMalformed(find, patterns[1..], key, i) {
        LaterPattern(find, patterns, key, i);
      }
      if NothingMatches(find, patterns[1..], key) {
        assert forall i | 0 < i < |patterns| :: patterns[i] == patterns[1..][i - 1];
      }
    }
  }

  /** No two of them can happen at once, nor at two patterns. */
  lemma {:induction false} FirstIsUnique(find: Finder, patterns: seq<string>, key: string, i: nat, j: nat)
    requires FirstMatch(find, patterns, key, i) || FirstMalformed(find, patterns, key, i)
    requires FirstMatch(find, patterns, key, j) || FirstMalformed(find, patterns, key, j)
    ensures i == j && !NothingMatches(find, patterns, key)
  {
  }

  lemma {:induction false} ClassifiesExactly(find: Finder, patterns: seq<string>, key: string)
    ensures forall g :: Classify(find, patterns, key) == Some(g) <==> BelongsTo(find, patterns, key, g)
    ensures Classify(find, patterns, key).None? <==> IsRejected(find, patterns, key)
  {
    FirstPatternDecides(find, patterns, key);
    forall g | BelongsTo(find, patterns, key, g) ensures Classify(find, patterns, key) == Some(g) {
      OneGroupOnly(find, patterns, key, g);
    }
    if IsRejected(find, patterns, key) && Classify(find, patterns, key).Some? {
      OneGroupOnly(find, patterns, key, Classify(find, patterns, key).value);
    }
  }

  lemma {:induction false} OneGroupOnly(find: Finder, patterns: seq<string>, key: string, g: string)
    requires BelongsTo(find, patterns, key, g)
    ensures !IsRejected(find, patterns, key)
    ensures forall h | BelongsTo(find, patterns, key, h) :: h == g
  {
    if i: nat :| FirstMatch(find, patterns, key, i) && g == Concat(find(key, patterns[i]).captures) {
      OnlyAt(find, patterns, key, i);
    }
  }

  lemma {:induction false} OnlyAt(find: Finder, patterns: seq<string>, key: string, i: nat)
    requires FirstMatch(find, patterns, key, i)
    ensures !IsRejected(find, patterns, key) && !NothingMatches(find, patterns, key)
    ensures forall j: nat | FirstMatch(find, patterns, key, j) :: i == j
  {
    forall j: nat | FirstMatch(find, patterns, key, j) || FirstMalformed(find, patterns, key, j) ensures i == j {
      FirstIsUnique(find, patterns, key, i, j);
    }
  }

  /** The script's first loop: every pattern is tried on a blank. */
  predicate PatternsAccepted(find: Finder, patterns: seq<string>) {
    forall p | p in patterns :: !find(" ", p).Malformed?
  }

  /** The batch: the cursor to continue with and the names of the keys. */
  datatype Batch = Batch(next: Reply, keys: seq<string>)

  function KeyNames(items: seq<Reply>): Option<seq<string>> {
    if items == [] then Some([])
    else
      var first :- AsString(items[0]);
      var later :- KeyNames(items[1..]);
      Some([first] + later)
  }

  function ScanBatch(server: Server, db: string, cursor: int, count: int): Option<Batch> {
    var arr :- AsValues(server.Answer(db, Scan(cursor, None, count)));
    if |arr| != 2 then None
    else
      var items :- AsValues(arr[1]);
      var keys :- KeyNames(items);
      Some(Batch(arr[0], keys))
  }

  /** The bookings for a batch.  A reply to MEMORY USAGE that is no number leaves
      `usage` at what the key before it used. */
  function Bookings(server: Server, find: Finder, db: string, patterns: seq<string>, keys: seq<string>,
                    usage: int, booked: seq<Entry>): Option<seq<Entry>>
    decreases |keys|
  {
    if keys == [] then Some(booked)
    else
      var reply := server.Answer(db, MemoryUsage(keys[0]));
      var now := if reply.Int? then reply.n else usage;
      var group :- Classify(find, patterns, keys[0]);
      Bookings(server, find, db, patterns, keys[1..], now, booked + [Entry(group, now)])
  }

  /** All bookings of one run of the script; None if it raises an error. */
  function BatchBookings(server: Server, find: Finder, db: string, patterns: seq<string>, cursor: int, count: int)
    : Option<seq<Entry>>
  {
    var batch :- ScanBatch(server, db, cursor, count);
    if !PatternsAccepted(find, patterns) then None
    else Bookings(server, find, db, patterns, batch.keys, 0, [])
  }

  /** Integer replies have 64 bits. */
  function Row(g: KeyGroup): Reply {
    Arr([Bulk(g.name), Int(Wrap(g.count)), Int(Wrap(g.memory))])
  }

  function Rows(groups: map<string, KeyGroup>, names: seq<string>): seq<Reply>
    requires forall name | name in names :: name in groups
  {
    seq(|names|, i requires 0 <= i < |names| => Row(groups[names[i]]))
  }

  /** Every name of the map once, in the order in which pairs() visits it. */
  ghost predicate Visits(names: seq<string>, groups: map<string, KeyGroup>) {
    && (forall i, j | 0 <= i < j < |names| :: names[i] != names[j])
    && (forall name :: name in names <==> name in groups)
  }

  /** A reply the script can give: an error, or the summary of its bookings. */
  ghost predicate IsScriptReply(server: Server, find: Finder, db: string, patterns: seq<string>,
                                cursor: int, count: int, reply: Reply)
  {
    match BatchBookings(server, find, db, patterns, cursor, count)
    case None => reply.Err?
    case Some(booked) =>
      exists names :: Visits(names, Summary(booked)) &&
        reply == Arr([ScanBatch(server, db, cursor, count).value.next, Arr(Rows(Summary(booked), names))])
  }

  /** A server that runs the script; it may also fail it for reasons of its own. */
  ghost predicate RunsScript(server: Server, find: Finder) {
    forall db, patterns, cursor, count ::
      var reply := server.Answer(db, Redis.GroupScript(cursor, count, patterns));
      reply.Err? || IsScriptReply(server, find, db, patterns, cursor, count, reply)
  }

  // ----- the script -----

  /** The inner loop over the patterns. */
  method ClassifyKey(find: Finder, patterns: seq<string>, key: string) returns (group: Option<string>)
    ensures group == Classify(find, patterns, key)
    ensures forall g :: group == Some(g) <==> BelongsTo(find, patterns, key, g)
    ensures group.None? <==> IsRejected(find, patterns, key)
  {
    ClassifiesExactly(find, patterns, key);
    for i := 0 to |patterns|
      invariant Classify(find, patterns[i..], key) == Classify(find, patterns, key)
    {
      assert patterns[i..][1..] == patterns[i + 1..];
      match find(key, patterns[i])
      case Malformed => return None;
      case Match(captures) => return Some(Concat(captures));
      case NoMatch =>
    }
    return Some(UNCLASSIFIED);
  }

  lemma {:induction false} SummaryStep(booked: seq<Entry>, e: Entry)
    ensures Summary(booked + [e]) ==
            Summary(booked)[e.group := KeyGroup(e.group, CountOf(booked, e.group) + 1,
                                                MemoryOf(booked, e.group) + e.usage)]
  {
    forall name
      ensures CountOf(booked + [e], name) == CountOf(booked, name) + if e.group == name then 1 else 0
      ensures MemoryOf(booked + [e], name) == MemoryOf(booked, name) + if e.group == name then e.usage else 0
    {
      TotalsAppend(booked, [e], name);
      assert [e][1..] == [];
    }
    forall x: Entry ensures x in booked + [e] <==> x in booked || x == e {
    }
    CountIsPositive(booked, e.group);
  }

  /** The loop over the keys: groups is a table that grows key by key. */
  method GroupKeys(server: Server, find: Finder, db: string, patterns: seq<string>, keys: seq<string>)
    returns (groups: Option<map<string, KeyGroup>>)
    ensures groups == match Bookings(server, find, db, patterns, keys, 0, [])
                      case None => None
                      case Some(booked) => Some(Summary(booked))
  {
    var table: map<string, KeyGroup> := map[];
    var usage := 0;
    ghost var booked := [];
    assert Summary([]) == map[];
    for i := 0 to |keys|
      invariant table == Summary(booked)
      invariant Bookings(server, find, db, patterns, keys[i..], usage, booked)
             == Bookings(server, find, db, patterns, keys, 0, [])
    {
      assert keys[i..][1..] == keys[i + 1..];
      var reply := server.Answer(db, MemoryUsage(keys[i]));
      if reply.Int? {
        usage := reply.n;
      }
      var group := ClassifyKey(find, patterns, keys[i]);
      if group.None? {
        return None;
      }
      table := Book(table, group.value, usage, booked);
      booked := booked + [Entry(group.value, usage)];
    }
    return Some(table);
  }

  /** One more key in the table. */
  method Book(groups: map<string, KeyGroup>, group: string, usage: int, ghost booked: seq<Entry>)
    returns (table: map<string, KeyGroup>)
    requires groups == Summary(booked)
    ensures table == Summary(booked + [Entry(group, usage)])
  {
    SummaryStep(booked, Entry(group, usage));
    CountIsPositive(booked, group);
    if group !in groups {
      table := groups[group := KeyGroup(group, 1, usage)];
    } else {
      var value := groups[group];
      table := groups[group := KeyGroup(group, value.count + 1, value.memory + usage)];
    }
  }

  /** The whole script, as the server runs it in the selected database. */
  method RunScript(server: Server, find: Finder, db: string, patterns: seq<string>, cursor: int, count: int)
    returns (reply: Reply)
    ensures IsScriptReply(server, find, db, patterns, cursor, count, reply)
  {
    var batch := ScanBatch(server, db, cursor, count);
    if batch.None? {
      return Err("SCAN");
    }
    for i := 0 to |patterns|
      invariant PatternsAccepted(find, patterns[..i])
    {
      assert patterns[..i + 1] == patterns[..i] + [patterns[i]];
      if find(" ", patterns[i]).Malformed? {
        assert patterns[i] in patterns;
        return Err("malformed pattern " + patterns[i]);
      }
    }
    assert patterns[..|patterns|] == patterns;
    var groups := GroupKeys(server, find, db, patterns, batch.value.keys);
    if groups.None? {
      return Err("malformed pattern");
    }
    var result := [];
    ghost var names: seq<string> := [];
    var todo := groups.value.Keys;
    while todo != {}
      invariant todo <= groups.value.Keys
      invariant forall i, j | 0 <= i < j < |names| :: names[i] != names[j]
      invariant forall name :: name in names <==> name in groups.value.Keys - todo
      invariant result == Rows(groups.value, names)
      decreases |todo|
    {
      var name :| name in todo;
      assert name !in names;
      result := result + [Row(groups.value[name])];
      todo := todo - {name};
      names := names + [name];
    }
    assert Visits(names, groups.value);
    return Arr([batch.value.next, Arr(result)]);
  }
}
