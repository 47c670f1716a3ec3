/** SCAN: the cursor loop, pattern expansion, key counts, and the key collector
    that feeds either of the two paths. */
module Scanning {
  import opened Wrappers
  import opened Redis
  import opened Cursors
  import opened KeyArgs

  // ----- the cursor chain a server defines -----

  datatype Page = Page(items: seq<Reply>, next: int)

  /** What scanKeys makes of one SCAN reply; None is an error. */
  function PageOf(r: Reply): Option<Page> {
    var arr :- AsValues(r);
    if |arr| != 2 then None else Some(Page(AsValues(arr[1]).GetOr([]), CursorOf(arr[0])))
  }

  function ScanPage(server: Server, db: string, pattern: string, count: int, cursor: int): Option<Page> {
    PageOf(server.Answer(db, Scan(cursor, Some(pattern), count)))
  }

  /** Where the page at a cursor sends the scan. */
  function NextPage(server: Server, db: string, pattern: string, count: int): Next {
    cursor =>
      match ScanPage(server, db, pattern, count, cursor)
      case None => None
      case Some(page) => Some(page.next)
  }

  /** The cursors a scan from 0 visits. */
  predicate IsChain(server: Server, db: string, pattern: string, count: int, cursors: seq<int>) {
    IsCourse(NextPage(server, db, pattern, count), cursors)
  }

  /** Redis promises that a scan ends. */
  ghost predicate ScanEnds(server: Server, db: string, pattern: string, count: int) {
    Ends(NextPage(server, db, pattern, count))
  }

  /** What is found along the cursors from i onward, in order, after `found`;
      None once a page is an error. */
  function Items(server: Server, db: string, pattern: string, count: int, cursors: seq<int>, i: nat,
                 found: seq<Reply>): Option<seq<Reply>>
    requires i <= |cursors|
    decreases |cursors| - i
  {
    if i == |cursors| then Some(found)
    else
      var page :- ScanPage(server, db, pattern, count, cursors[i]);
      Items(server, db, pattern, count, cursors, i + 1, found + page.items)
  }

  /** A scan has one course. */
  lemma {:induction false} ChainIsUnique(server: Server, db: string, pattern: string, count: int, a: seq<int>, b: seq<int>)
    requires IsChain(server, db, pattern, count, a) && IsChain(server, db, pattern, count, b)
    ensures a == b
  {
    CourseIsUnique(NextPage(server, db, pattern, count), a, b);
  }

  ghost function ChainOf(server: Server, db: string, pattern: string, count: int): (cursors: seq<int>)
    requires ScanEnds(server, db, pattern, count)
    ensures IsChain(server, db, pattern, count, cursors)
  {
    CourseOf(NextPage(server, db, pattern, count))
  }

  /** What a scan of one database for one pattern returns.  One that does not end
      returns nothing; no method is called where there is one. */
  ghost function ScanSpec(server: Server, db: string, pattern: string, count: int): Option<seq<Reply>> {
    if pattern == "" || !ScanEnds(server, db, pattern, count) then None
    else Items(server, db, pattern, count, ChainOf(server, db, pattern, count), 0, [])
  }

  predicate HasItem(page: Option<Page>, item: Reply) {
    page.Some? && item in page.value.items
  }

  /** Nothing a page held is missing from the result, and nothing is made up. */
  lemma {:induction false} ItemsComplete(server: Server, db: string, pattern: string, count: int,
                                         cursors: seq<int>, i: nat, found: seq<Reply>, item: Reply)
    requires i <= |cursors|
    requires Items(server, db, pattern, count, cursors, i, found).Some?
    ensures item in Items(server, db, pattern, count, cursors, i, found).value <==>
            item in found
            || exists j | i <= j < |cursors| :: HasItem(ScanPage(server, db, pattern, count, cursors[j]), item)
    decreases |cursors| - i
  {
    if i == |cursors| {
    } else {
      var page := ScanPage(server, db, pattern, count, cursors[i]);
      ItemsComplete(server, db, pattern, count, cursors, i + 1, found + page.value.items, item);
      assert HasItem(page, item) <==> item in page.value.items;
    }
  }

  /** The number of keys over all pages, repeats included. */
  function PageSizes(server: Server, db: string, pattern: string, count: int, cursors: seq<int>, i: nat): nat
    requires i <= |cursors|
    decreases |cursors| - i
  {
    if i == |cursors| then 0
    else
      var page := ScanPage(server, db, pattern, count, cursors[i]);
      (if page.Some? then |page.value.items| else 0) + PageSizes(server, db, pattern, count, cursors, i + 1)
  }

  lemma {:induction false} ItemsCount(server: Server, db: string, pattern: string, count: int,
                                      cursors: seq<int>, i: nat, found: seq<Reply>)
    requires i <= |cursors|
    requires Items(server, db, pattern, count, cursors, i, found).Some?
    ensures |Items(server, db, pattern, count, cursors, i, found).value| ==
            |found| + PageSizes(server, db, pattern, count, cursors, i)
    decreases |cursors| - i
  {
    if i == |cursors| {
    } else {
      var page := ScanPage(server, db, pattern, count, cursors[i]);
      ItemsCount(server, db, pattern, count, cursors, i + 1, found + page.value.items);
    }
  }

  /** A successful scan returns exactly what the pages of its one course hold. */
  lemma {:induction false} ScanReturnsEveryPage(server: Server, db: string, pattern: string, count: int, cursors: seq<int>)
    requires pattern != "" && IsChain(server, db, pattern, count, cursors)
    requires ScanSpec(server, db, pattern, count).Some?
    ensures var keys := ScanSpec(server, db, pattern, count).value;
            && |keys| == PageSizes(server, db, pattern, count, cursors, 0)
            && forall item :: item in keys <==>
                 exists j | 0 <= j < |cursors| :: HasItem(ScanPage(server, db, pattern, count, cursors[j]), item)
  {
    ChainIsUnique(server, db, pattern, count, cursors, ChainOf(server, db, pattern, count));
    ItemsCount(server, db, pattern, count, cursors, 0, []);
    forall item {
      ItemsComplete(server, db, pattern, count, cursors, 0, [], item);
    }
  }

  /** scanKeys, called right after a SELECT. */
  method ScanKeys(conn: Conn, pattern: string, count: int) returns (keys: Option<seq<Reply>>)
    requires conn.InSync()
    requires pattern != "" ==> ScanEnds(conn.server, conn.db, pattern, count)
    modifies conn
    ensures conn.InSync() && conn.db == old(conn.db)
    ensures keys == ScanSpec(conn.server, conn.db, pattern, count)
  {
    if pattern == "" {
      return None;
    }
    ghost var cursors := ChainOf(conn.server, conn.db, pattern, count);
    ghost var i := 0;
    var found, iter := [], 0;
    while true
      invariant conn.InSync() && conn.db == old(conn.db)
      invariant 0 <= i < |cursors| && iter == cursors[i]
      invariant Items(conn.server, conn.db, pattern, count, cursors, i, found)
             == Items(conn.server, conn.db, pattern, count, cursors, 0, [])
      decreases |cursors| - i
    {
      assert i < |cursors| - 1 ==> LeadsTo(NextPage(conn.server, conn.db, pattern, count), cursors[i], cursors[i + 1]);
      var r := conn.Do(Scan(iter, Some(pattern), count));
      var arr := AsValues(r);
      if arr.None? || |arr.value| != 2 {
        return None;
      }
      var k := AsValues(arr.value[1]).GetOr([]);
      found := found + k;
      iter := CursorOf(arr.value[0]);
      if iter == 0 {
        return Some(found);
      }
      i := i + 1;
    }
  }

  // ----- pattern expansion -----

  /** The globPattern regular expression of keys.go matches somewhere in the key. */
  predicate IsGlob(key: string) {
    exists c | c in key :: c in {'?', '*', '[', ']', '^'}
  }

  /** redis.Strings on the elements of a scan: None if one of them is no string. */
  function AsStrings(items: seq<Reply>): Option<seq<string>> {
    if items == [] then Some([])
    else
      var first :- if items[0].Nil? then Some("") else AsString(items[0]);
      var later :- AsStrings(items[1..]);
      Some([first] + later)
  }

  function Pairs(db: string, names: seq<string>): seq<DbKey> {
    seq(|names|, i requires 0 <= i < |names| => DbKey(db, names[i]))
  }

  datatype Expanded = Expanded(keys: seq<DbKey>, failed: bool)

  /** What one entry stands for; None if its SELECT fails.  `poisoned` says that
      a stale error will answer that SELECT. */
  ghost function ExpandEntry(server: Server, count: int, k: DbKey, poisoned: bool): Option<seq<DbKey>>
  {
    if !IsGlob(k.key) then Some([k])
    else if poisoned || server.select(k.db).Err? then None
    else Some(Pairs(k.db, ExpandOne(server, count, k)))
  }

  /** The keys a list of keys and patterns stands for, up to a failing SELECT,
      after those already expanded. */
  ghost function Expand(server: Server, count: int, keys: seq<DbKey>, expanded: seq<DbKey>, poisoned: bool): Expanded
    decreases |keys|
  {
    if keys == [] then Expanded(expanded, false)
    else
      match ExpandEntry(server, count, keys[0], poisoned)
      case None => Expanded(expanded, true)
      case Some(found) =>
        Expand(server, count, keys[1..], expanded + found, poisoned && !IsGlob(keys[0].key))
  }

  /** A pattern whose scan fails stands for nothing. */
  ghost function ExpandOne(server: Server, count: int, k: DbKey): seq<string>
  {
    match ScanSpec(server, k.db, k.key, count)
    case None => []
    case Some(items) => AsStrings(items).GetOr([])
  }

  /** The database selected after the expansion: that of the last pattern whose
      SELECT the server has carried out.  A stale error makes that SELECT look
      failed, and the expansion stop, although the server has carried it out. */
  function DbAfterExpand(server: Server, db: string, keys: seq<DbKey>, poisoned: bool): (now: string)
    ensures now == db || !server.select(now).Err?
    decreases |keys|
  {
    if keys == [] then db
    else if !IsGlob(keys[0].key) then DbAfterExpand(server, db, keys[1..], poisoned)
    else if server.select(keys[0].db).Err? then db
    else if poisoned then keys[0].db
    else DbAfterExpand(server, keys[0].db, keys[1..], false)
  }

  predicate HasGlob(keys: seq<DbKey>) {
    exists k | k in keys :: IsGlob(k.key)
  }

  /** Plain keys stand for themselves. */
  lemma {:induction false} ExpandPlainKeys(server: Server, count: int, keys: seq<DbKey>, expanded: seq<DbKey>, poisoned: bool)
    requires !HasGlob(keys)
    ensures Expand(server, count, keys, expanded, poisoned) == Expanded(expanded + keys, false)
    decreases |keys|
  {
    if keys == [] {
      assert expanded + keys == expanded;
    } else {
      assert keys[0] in keys && !HasGlob(keys[1..]);
      ExpandPlainKeys(server, count, keys[1..], expanded + [keys[0]], poisoned);
      assert expanded + [keys[0]] + keys[1..] == expanded + keys;
    }
  }

  /** The scans that expanding these entries may start all end. */
  ghost predicate PatternsEnd(server: Server, count: int, keys: seq<DbKey>) {
    forall k | k in keys && IsGlob(k.key) :: ScanEnds(server, k.db, k.key, count)
  }

  /** The loop body of getKeysFromPatterns. */
  method ExpandKey(conn: Conn, k: DbKey, count: int) returns (found: Option<seq<DbKey>>)
    requires conn.buffered == [] && PatternsEnd(conn.server, count, [k])
    modifies conn
    ensures found == ExpandEntry(conn.server, count, k, old(conn.Poisoned()))
    ensures conn.buffered == []
    ensures if IsGlob(k.key) then conn.InSync()
            else conn.unread == old(conn.unread)
    ensures conn.db == if IsGlob(k.key) && !conn.server.select(k.db).Err? then k.db else old(conn.db)
  {
    if !IsGlob(k.key) {
      return Some([k]);
    }
    var r := conn.Do(Select(k.db));
    if r.Err? {
      return None;
    }
    assert k in [k];
    var items := ScanKeys(conn, k.key, count);
    var names := if items.None? then [] else AsStrings(items.value).GetOr([]);
    return Some(Pairs(k.db, names));
  }

  /** getKeysFromPatterns */
  method GetKeysFromPatterns(conn: Conn, keys: seq<DbKey>, count: int)
    returns (expanded: seq<DbKey>, failed: bool)
    requires conn.buffered == [] && PatternsEnd(conn.server, count, keys)
    modifies conn
    ensures conn.buffered == []
    ensures Expanded(expanded, failed) == Expand(conn.server, count, keys, [], old(conn.Poisoned()))
    ensures if HasGlob(keys) then conn.InSync() else conn.unread == old(conn.unread)
    ensures conn.db == DbAfterExpand(conn.server, old(conn.db), keys, old(conn.Poisoned()))
  {
    expanded, failed := [], false;
    for i := 0 to |keys|
      invariant conn.buffered == []
      invariant Expand(conn.server, count, keys[i..], expanded, conn.Poisoned())
             == Expand(conn.server, count, keys, [], old(conn.Poisoned()))
      invariant if HasGlob(keys[..i]) then conn.InSync() else conn.unread == old(conn.unread)
      invariant DbAfterExpand(conn.server, conn.db, keys[i..], conn.Poisoned())
             == DbAfterExpand(conn.server, old(conn.db), keys, old(conn.Poisoned()))
    {
      var k := keys[i];
      assert keys[i..][1..] == keys[i + 1..];
      assert keys[..i + 1] == keys[..i] + [k];
      assert k in keys;
      var found := ExpandKey(conn, k, count);
      if found.None? {
        assert IsGlob(k.key) && k in keys;
        failed := true;
        return;
      }
      expanded := expanded + found.value;
    }
    assert keys[..|keys|] == keys;
  }
}
