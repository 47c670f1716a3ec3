/** A Redis connection as redigo presents it: commands are buffered by Send,
    shipped by Flush, and answered in order; Do is a whole round trip.
    The server is a fixed function from the selected database and the command
    to the reply. */
module Redis {
  import opened Wrappers
  import opened GoStrings

  datatype Reply =
    | Status(text: string)        // simple string, e.g. the answer to SELECT and TYPE
    | Bulk(text: string)
    | Int(n: int)
    | Nil
    | Err(text: string)
    | Arr(items: seq<Reply>)

  datatype Command =
    | Select(db: string)
    | Type(key: string)
    | MemoryUsage(key: string)
    | PfCount(key: string)
    | StrLen(key: string)
    | Get(key: string)
    | LLen(key: string)
    | SCard(key: string)
    | ZCard(key: string)
    | HLen(key: string)
    | XLen(key: string)
    | Scan(cursor: int, pattern: Option<string>, count: int)
    | GroupScript(cursor: int, count: int, patterns: seq<string>)
    | XInfoStream(key: string)
    | XInfoGroups(key: string)
    | XInfoConsumers(key: string, group: string)
    | SlowLogLen
    | SlowLogGet(count: int)

  /** A server over a fixed keyspace.  The answers to SELECT and to SLOWLOG do not
      depend on what was selected before; every other answer does. */
  datatype Server = Server(select: string -> Reply, slowLog: Command -> Reply, run: (string, Command) -> Reply) {
    function Answer(db: string, cmd: Command): Reply {
      if cmd.Select? then select(cmd.db)
      else if cmd.SlowLogLen? || cmd.SlowLogGet? then slowLog(cmd)
      else run(db, cmd)
    }
  }

  // ----- redigo's reply conversions; None stands for an error -----

  /** redis.String */
  function AsString(r: Reply): Option<string> {
    if r.Status? || r.Bulk? then Some(r.text) else None
  }

  /** redis.Int64 */
  function AsInt64(r: Reply): Option<int> {
    if r.Int? then Some(r.n) else if r.Bulk? then ParseInt(r.text).ToOption() else None
  }

  /** redis.Values */
  function AsValues(r: Reply): Option<seq<Reply>> {
    if r.Arr? then Some(r.items) else None
  }

  /** redis.Int with its error ignored, as both SCAN loops read the cursor. */
  function CursorOf(r: Reply): int {
    if r.Int? then r.n else if r.Bulk? then ParseInt(r.text).IgnoringError() else 0
  }

  /** A cursor that fits an int survives its decimal form. */
  lemma {:induction false} CursorRoundTrip(c: nat)
    requires c <= MAX_INT64
    ensures CursorOf(Bulk(Itoa(c))) == c
  {
    ParseIntItoa(c);
  }

  /** A number may come as such or in decimal; text may be a simple string or a bulk
      one; nothing else converts. */
  lemma {:induction false} Conversions(n: nat, text: string, items: seq<Reply>)
    requires n <= MAX_INT64
    ensures AsInt64(Int(n)) == AsInt64(Bulk(Itoa(n))) == Some(n)
    ensures AsInt64(Status(Itoa(n))) == AsInt64(Nil) == AsInt64(Err(text)) == AsInt64(Arr(items)) == None
    ensures AsString(Status(text)) == AsString(Bulk(text)) == Some(text)
    ensures AsString(Int(n)) == AsString(Nil) == AsString(Err(text)) == AsString(Arr(items)) == None
    ensures AsValues(Arr(items)) == Some(items)
    ensures AsValues(Nil) == AsValues(Err(text)) == AsValues(Bulk(text)) == None
  {
    ParseIntItoa(n);
  }

  // ----- what the server does with a batch of commands -----

  function DbAfter(server: Server, db: string, cmd: Command): string {
    if cmd.Select? && !server.Answer(db, cmd).Err? then cmd.db else db
  }

  function DbAfterAll(server: Server, db: string, cmds: seq<Command>): string
    decreases |cmds|
  {
    if cmds == [] then db else DbAfterAll(server, DbAfter(server, db, cmds[0]), cmds[1..])
  }

  function Replies(server: Server, db: string, cmds: seq<Command>): (replies: seq<Reply>)
    ensures |replies| == |cmds|
    decreases |cmds|
  {
    if cmds == [] then []
    else [server.Answer(db, cmds[0])] + Replies(server, DbAfter(server, db, cmds[0]), cmds[1..])
  }

  predicate HasSelect(cmds: seq<Command>) {
    exists c | c in cmds :: c.Select?
  }

  /** The answers to commands that leave the selection alone. */
  function Answers(server: Server, db: string, cmds: seq<Command>): seq<Reply> {
    seq(|cmds|, i requires 0 <= i < |cmds| => server.Answer(db, cmds[i]))
  }

  lemma {:induction false} RepliesWithoutSelect(server: Server, db: string, cmds: seq<Command>)
    requires !HasSelect(cmds)
    ensures DbAfterAll(server, db, cmds) == db
    ensures Replies(server, db, cmds) == Answers(server, db, cmds)
    decreases |cmds|
  {
    if cmds == [] {
    } else {
      assert cmds[0] in cmds;
      RepliesWithoutSelect(server, db, cmds[1..]);
    }
  }

  /** What Do reports for the replies it drains: the first error among them,
      else the last reply. */
  function Outcome(replies: seq<Reply>): (r: Reply)
    requires replies != []
    ensures r in replies
  {
    if replies[0].Err? || |replies| == 1 then replies[0] else Outcome(replies[1..])
  }

  predicate HasError(replies: seq<Reply>) {
    exists r | r in replies :: r.Err?
  }

  /** An earlier error that was never received is reported by the next Do. */
  lemma {:induction false} StaleErrorWins(stale: seq<Reply>, r: Reply)
    ensures Outcome(stale + [r]).Err? <==> HasError(stale) || r.Err?
    ensures !HasError(stale) ==> Outcome(stale + [r]) == r
  {
    if stale == [] {
    } else {
      assert (stale + [r])[1..] == stale[1..] + [r];
      StaleErrorWins(stale[1..], r);
      assert stale == [stale[0]] + stale[1..];
    }
  }

  lemma {:induction false} OneCommand(server: Server, db: string, cmd: Command)
    ensures [] + [cmd] == [cmd]
    ensures Replies(server, db, [cmd]) == [server.Answer(db, cmd)]
    ensures DbAfterAll(server, db, [cmd]) == DbAfter(server, db, cmd)
  {
    assert [cmd][1..] == [];
  }

  class Conn {
    const server: Server
    var db: string               // the database the server has selected for us
    var buffered: seq<Command>   // sent but not flushed
    var unread: seq<Reply>       // flushed but not received

    constructor (server: Server, db: string)
      ensures this.server == server && this.db == db && buffered == [] && unread == []
    {
      this.server, this.db, buffered, unread := server, db, [], [];
    }

    /** Nothing is outstanding in either direction. */
    predicate InSync()
      reads this
    {
      buffered == [] && unread == []
    }

    /** An error reply is waiting to be mistaken for the answer to the next Do. */
    predicate Poisoned()
      reads this
    {
      HasError(unread)
    }

    method Send(cmd: Command)
      modifies this`buffered
      ensures buffered == old(buffered) + [cmd]
    {
      buffered := buffered + [cmd];
    }

    method Flush()
      modifies this
      ensures buffered == []
      ensures db == DbAfterAll(server, old(db), old(buffered))
      ensures unread == old(unread) + Replies(server, old(db), old(buffered))
    {
      ghost var all := Replies(server, db, buffered);
      while buffered != []
        invariant DbAfterAll(server, db, buffered) == DbAfterAll(server, old(db), old(buffered))
        invariant unread + Replies(server, db, buffered) == old(unread) + all
        decreases |buffered|
      {
        var cmd := buffered[0];
        assert Replies(server, db, buffered)
            == [server.Answer(db, cmd)] + Replies(server, DbAfter(server, db, cmd), buffered[1..]);
        unread := unread + [server.Answer(db, cmd)];
        db := DbAfter(server, db, cmd);
        buffered := buffered[1..];
      }
    }

    /** The precondition is what keeps a real Receive from waiting for ever. */
    method Receive() returns (r: Reply)
      requires unread != []
      modifies this`unread
      ensures r == old(unread)[0] && unread == old(unread)[1..]
    {
      r := unread[0];
      unread := unread[1..];
    }

    /** Takes all unread replies and reports the first error, else the last one. */
    method Drain() returns (r: Reply)
      requires unread != []
      modifies this`unread
      ensures unread == [] && r == Outcome(old(unread))
    {
      ghost var owed := unread;
      r := Receive();
      while unread != []
        invariant Outcome([r] + unread) == Outcome(owed)
        decreases |unread|
      {
        assert ([r] + unread)[1..] == unread;
        var next := Receive();
        if !r.Err? {
          r := next;
        }
      }
    }

    /** Ships what is buffered and cmd, and drains every outstanding reply. */
    method Do(cmd: Command) returns (r: Reply)
      modifies this
      ensures InSync()
      ensures db == DbAfterAll(server, old(db), old(buffered) + [cmd])
      ensures r == Outcome(old(unread) + Replies(server, old(db), old(buffered) + [cmd]))
      ensures old(buffered) == [] ==> db == DbAfter(server, old(db), cmd)
      ensures old(buffered) == [] && !old(Poisoned()) ==> r == server.Answer(old(db), cmd)
      ensures old(buffered) == [] && old(Poisoned()) ==> r.Err?
    {
      if buffered == [] {
        OneCommand(server, db, cmd);
        StaleErrorWins(unread, server.Answer(db, cmd));
      }
      Send(cmd);
      Flush();
      r := Drain();
    }
  }
}
