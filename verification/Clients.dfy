/** CLIENT LIST lines and the samples made of them.  The labels of
    connected_client_info vary from client to client; the description does not. */
module Clients {
  import opened Wrappers
  import opened GoStrings
  import opened GoInts
  import opened Registry
  import opened InfoFields

  datatype ClientInfo = ClientInfo(id: string, name: string, user: string, flags: string, db: string,
                                   host: string, port: string, resp: string, createdAt: int, idleSince: int,
                                   sub: int, psub: int, ssub: int, watch: int, qbuf: int, qbufFree: int,
                                   obl: int, oll: int, omem: int, totMem: int)

  /** -1 marks the two fields that older servers do not send. */
  const EMPTY := ClientInfo("", "", "", "", "", "", "", "", 0, 0, 0, 0, -1, -1, 0, 0, 0, 0, 0, 0)

  /** The regular expression ^id=\d+ addr=\S+ */
  predicate LooksLikeClient(line: string) {
    && HasPrefix(line, "id=") && |line| > 3 && IsDigit(line[3])
    && var rest := AfterDigits(line[3..]);
       HasPrefix(rest, " addr=") && |rest| > 6 && !IsBlank(rest[6])
  }

  /** Everything but the last piece, joined again: the address without the port. */
  function HostOf(pieces: seq<string>): string
    requires |pieces| >= 2
  {
    Join(pieces[..|pieces| - 1], ':')
  }

  /** durationFieldToTimestamp */
  function Timestamp(now: int, field: string): Option<int> {
    match ParseInt(field).ToOption()
    case None => None
    case Some(n) => Some(Wrap(now - n))
  }

  /** The fields that are kept as text. */
  function SetText(c: ClientInfo, key: string, value: string): ClientInfo {
    if key == "id" then c.(id := value)
    else if key == "name" then c.(name := value)
    else if key == "user" then c.(user := value)
    else if key == "flags" then c.(flags := value)
    else if key == "db" then c.(db := value)
    else if key == "resp" then c.(resp := value)
    else c
  }

  /** The numbers of channels, patterns and watched keys. */
  function SetCount(c: ClientInfo, key: string, number: int): ClientInfo {
    if key == "sub" then c.(sub := number)
    else if key == "psub" then c.(psub := number)
    else if key == "ssub" then c.(ssub := number)
    else if key == "watch" then c.(watch := number)
    else c
  }

  /** The lengths of buffers. */
  function SetLength(c: ClientInfo, key: string, number: int): ClientInfo {
    if key == "qbuf" then c.(qbuf := number)
    else if key == "qbuf-free" then c.(qbufFree := number)
    else if key == "obl" then c.(obl := number)
    else if key == "oll" then c.(oll := number)
    else if key == "omem" then c.(omem := number)
    else if key == "tot-mem" then c.(totMem := number)
    else c
  }

  /** The fields that are numbers. */
  function SetNumber(c: ClientInfo, key: string, number: int): ClientInfo {
    SetLength(SetCount(c, key, number), key, number)
  }

  /** One key=value token; None if the line is rejected. */
  function SetField(c: ClientInfo, now: int, key: string, value: string): Option<ClientInfo> {
    if key == "age" then
      match Timestamp(now, value) { case None => None case Some(t) => Some(c.(createdAt := t)) }
    else if key == "idle" then
      match Timestamp(now, value) { case None => None case Some(t) => Some(c.(idleSince := t)) }
    else if key == "addr" then
      var pieces := Split(value, ':');
      if |pieces| < 2 then None
      else Some(c.(host := HostOf(pieces), port := pieces[|pieces| - 1]))
    else Some(SetNumber(SetText(c, key, value), key, ParseInt(value).IgnoringError()))
  }

  function SetFields(c: ClientInfo, now: int, tokens: seq<string>): Option<ClientInfo>
    decreases |tokens|
  {
    if tokens == [] then Some(c)
    else
      var parts := Split(tokens[0], '=');
      if |parts| != 2 then None
      else
        var next :- SetField(c, now, parts[0], parts[1]);
        SetFields(next, now, tokens[1..])
  }

  function ClientOf(now: int, line: string): Option<ClientInfo> {
    if !LooksLikeClient(line) then None else SetFields(EMPTY, now, Split(line, ' '))
  }

  /** parseClientListString */
  method ParseClientListString(now: int, line: string) returns (client: Option<ClientInfo>)
    ensures client == ClientOf(now, line)
  {
    if !LooksLikeClient(line) {
      return None;
    }
    var tokens := Split(line, ' ');
    var c := EMPTY;
    for i := 0 to |tokens|
      invariant SetFields(c, now, tokens[i..]) == SetFields(EMPTY, now, tokens)
    {
      assert tokens[i..][1..] == tokens[i + 1..];
      var parts := Split(tokens[i], '=');
      if |parts| != 2 {
        return None;
      }
      var next := SetField(c, now, parts[0], parts[1]);
      if next.None? {
        return None;
      }
      c := next.value;
    }
    return Some(c);
  }

  /** The address is taken apart at its last colon, so that IPv6 hosts survive. */
  lemma {:induction false} AddressRoundTrip(c: ClientInfo, now: int, host: string, port: string)
    requires ':' !in port
    ensures SetField(c, now, "addr", host + ":" + port) == Some(c.(host := host, port := port))
  {
    SplitAppend(host, port, ':');
    SplitWithoutSeparator(port, ':');
    JoinSplit(host, ':');
    var pieces := Split(host + ":" + port, ':');
    assert pieces[..|pieces| - 1] == Split(host, ':');
  }

  lemma {:induction false} JoinSplit(s: string, sep: char)
    ensures Join(Split(s, sep), sep) == s
  {
    if s == "" {
    } else {
      JoinSplit(s[1..], sep);
      var rest := Split(s[1..], sep);
      if s[0] == sep {
        assert ([""] + rest)[1..] == rest;
      } else {
        assert ([[s[0]] + rest[0]] + rest[1..])[1..] == rest[1..];
      }
      assert [s[0]] + s[1..] == s;
    }
  }

  // ----- labels and samples -----

  const INFO := "connected_client_info"

  function InfoLabels(c: ClientInfo, inclPort: bool): seq<string> {
    ["id", "name", "flags", "db", "host"]
    + (if inclPort then ["port"] else [])
    + (if c.user != "" then ["user"] else [])
    + (if c.resp != "" then ["resp"] else [])
  }

  function InfoValues(c: ClientInfo, inclPort: bool): (values: seq<string>)
    ensures |values| == |InfoLabels(c, inclPort)|
  {
    [c.id, c.name, c.flags, c.db, c.host]
    + (if inclPort then [c.port] else [])
    + (if c.user != "" then [c.user] else [])
    + (if c.resp != "" then [c.resp] else [])
  }

  function InfoRequest(c: ClientInfo, inclPort: bool): Request {
    Register(INFO, 1.0, Gauge, InfoValues(c, inclPort))
  }

  /** The gauges every client has, with their values. */
  function BaseGauges(c: ClientInfo): seq<(string, int)> {
    [("connected_client_output_buffer_memory_usage_bytes", c.omem),
     ("connected_client_total_memory_consumed_bytes", c.totMem),
     ("connected_client_created_at_timestamp", c.createdAt),
     ("connected_client_idle_since_timestamp", c.idleSince),
     ("connected_client_channel_subscriptions_count", c.sub),
     ("connected_client_pattern_matching_subscriptions_count", c.psub),
     ("connected_client_query_buffer_length_bytes", c.qbuf),
     ("connected_client_query_buffer_free_space_bytes", c.qbufFree),
     ("connected_client_output_buffer_length_bytes", c.obl),
     ("connected_client_output_list_length", c.oll)]
  }

  function Creates(gauges: seq<(string, int)>): seq<Request> {
    seq(|gauges|, i requires 0 <= i < |gauges| => Create(gauges[i].0, ["id", "name"]))
  }

  function Registers(c: ClientInfo, gauges: seq<(string, int)>): seq<Request> {
    seq(|gauges|, i requires 0 <= i < |gauges| => Register(gauges[i].0, gauges[i].1 as real, Gauge, [c.id, c.name]))
  }

  function Optional(c: ClientInfo, name: string, value: int): seq<Request> {
    if value == -1 then [] else Creates([(name, value)]) + Registers(c, [(name, value)])
  }

  /** The loop body of parseConnectedClientMetrics for a line that parses. */
  function ClientRequests(c: ClientInfo, inclPort: bool): seq<Request> {
    [Create(INFO, InfoLabels(c, inclPort)), InfoRequest(c, inclPort)]
    + Creates(BaseGauges(c)) + Registers(c, BaseGauges(c))
    + Optional(c, "connected_client_shard_channel_subscriptions_count", c.ssub)
    + Optional(c, "connected_client_shard_channel_watched_keys", c.watch)
  }

  /** A line that does not parse is skipped. */
  function LineRequests(now: int, inclPort: bool, line: string): seq<Request> {
    match ClientOf(now, line)
    case None => []
    case Some(c) => ClientRequests(c, inclPort)
  }

  function LinesRequests(now: int, inclPort: bool, lines: seq<string>): seq<Request> {
    if lines == [] then [] else LineRequests(now, inclPort, lines[0]) + LinesRequests(now, inclPort, lines[1..])
  }

  /** parseConnectedClientMetrics; the clock is a parameter. */
  method ParseConnectedClientMetrics(e: Exporter, now: int, inclPort: bool, input: string) returns (panicked: bool)
    modifies e
    ensures var requests := LinesRequests(now, inclPort, Split(input, '\n'));
            && panicked == Run(old(e.Value()), requests).None?
            && e.Value() == Survived(old(e.Value()), requests)
  {
    var lines := Split(input, '\n');
    ghost var start, all := e.Value(), LinesRequests(now, inclPort, lines);
    for i := 0 to |lines|
      invariant Run(e.Value(), LinesRequests(now, inclPort, lines[i..])) == Run(start, all)
      invariant Survived(e.Value(), LinesRequests(now, inclPort, lines[i..])) == Survived(start, all)
    {
      assert lines[i..][1..] == lines[i + 1..];
      RunAppend(e.Value(), LineRequests(now, inclPort, lines[i]), LinesRequests(now, inclPort, lines[i + 1..]));
      panicked := ServeLine(e, now, inclPort, lines[i]);
      if panicked {
        return;
      }
    }
    panicked := false;
  }

  /** Its loop body. */
  method ServeLine(e: Exporter, now: int, inclPort: bool, line: string) returns (panicked: bool)
    modifies e
    ensures var requests := LineRequests(now, inclPort, line);
            panicked == Run(old(e.Value()), requests).None? && e.Value() == Survived(old(e.Value()), requests)
  {
    var c := ParseClientListString(now, line);
    if c.None? {
      return false;
    }
    panicked := e.Serve(ClientRequests(c.value, inclPort));
  }
}
