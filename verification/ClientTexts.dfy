/** CLIENT LIST as text: which field of a line ends up in which sample and label. */
module ClientTexts {
  import opened Wrappers
  import opened GoStrings
  import opened GoInts
  import opened Registry
  import opened InfoTexts
  import opened ReplicationTexts
  import opened Clients

  // ----- the fields of a line -----

  predicate AreTokens(pieces: Pieces) {
    forall i | 0 <= i < |pieces| ::
      && ' ' !in pieces[i].0 && '=' !in pieces[i].0
      && ' ' !in pieces[i].1 && '=' !in pieces[i].1
  }

  /** name=text name=text */
  function LineOf(pieces: Pieces): string {
    Join(PieceTexts(pieces), ' ')
  }

  /** A number that does not parse counts as Go's ParseInt leaves it, a missing one as
      the default. */
  function NumberOf(pieces: Pieces, name: string, missing: int): int {
    match LastText(pieces, name)
    case None => missing
    case Some(text) => ParseInt(text).IgnoringError()
  }

  predicate HasTexts(pieces: Pieces, c: ClientInfo) {
    && c.id == TextOf(pieces, "id") && c.name == TextOf(pieces, "name") && c.user == TextOf(pieces, "user")
    && c.flags == TextOf(pieces, "flags") && c.db == TextOf(pieces, "db") && c.resp == TextOf(pieces, "resp")
  }

  predicate HasSubscriptions(pieces: Pieces, c: ClientInfo) {
    c.sub == NumberOf(pieces, "sub", 0) && c.psub == NumberOf(pieces, "psub", 0)
  }

  /** Two numbers that older servers do not send. */
  predicate HasNewer(pieces: Pieces, c: ClientInfo) {
    c.ssub == NumberOf(pieces, "ssub", -1) && c.watch == NumberOf(pieces, "watch", -1)
  }

  predicate HasQuery(pieces: Pieces, c: ClientInfo) {
    c.qbuf == NumberOf(pieces, "qbuf", 0) && c.qbufFree == NumberOf(pieces, "qbuf-free", 0)
  }

  predicate HasOutput(pieces: Pieces, c: ClientInfo) {
    c.obl == NumberOf(pieces, "obl", 0) && c.oll == NumberOf(pieces, "oll", 0)
  }

  predicate HasMemory(pieces: Pieces, c: ClientInfo) {
    c.omem == NumberOf(pieces, "omem", 0) && c.totMem == NumberOf(pieces, "tot-mem", 0)
  }

  /** The two ages, in seconds before now. */
  predicate HasTimes(now: int, pieces: Pieces, c: ClientInfo) {
    && (match LastText(pieces, "age")
        case None => c.createdAt == 0
        case Some(text) => ParseInt(text).Value? && c.createdAt == Wrap(now - ParseInt(text).n))
    && (match LastText(pieces, "idle")
        case None => c.idleSince == 0
        case Some(text) => ParseInt(text).Value? && c.idleSince == Wrap(now - ParseInt(text).n))
  }

  /** The address is cut at its last colon. */
  predicate HasAddress(pieces: Pieces, c: ClientInfo) {
    match LastText(pieces, "addr")
    case None => c.host == "" && c.port == ""
    case Some(text) => text == c.host + ":" + c.port && ':' !in c.port
  }

  lemma {:induction false} LastTextSnoc(pieces: Pieces, piece: (string, string), name: string)
    ensures LastText(pieces + [piece], name) == if piece.0 == name then Some(piece.1) else LastText(pieces, name)
  {
    assert (pieces + [piece])[..|pieces|] == pieces;
  }

  lemma {:induction false} TextsStep(c: ClientInfo, done: Pieces, key: string, value: string)
    requires HasTexts(done, c)
    ensures HasTexts(done + [(key, value)], SetText(c, key, value))
  {
    forall name ensures TextOf(done + [(key, value)], name) == if key == name then value else TextOf(done, name) {
      LastTextSnoc(done, (key, value), name);
    }
  }

  lemma {:induction false} SubscriptionsStep(c: ClientInfo, done: Pieces, key: string, value: string)
    requires HasSubscriptions(done, c)
    ensures HasSubscriptions(done + [(key, value)], SetCount(c, key, ParseInt(value).IgnoringError()))
  {
    LastTextSnoc(done, (key, value), "sub");
    LastTextSnoc(done, (key, value), "psub");
  }

  lemma {:induction false} NewerStep(c: ClientInfo, done: Pieces, key: string, value: string)
    requires HasNewer(done, c)
    ensures HasNewer(done + [(key, value)], SetCount(c, key, ParseInt(value).IgnoringError()))
  {
    LastTextSnoc(done, (key, value), "ssub");
    LastTextSnoc(done, (key, value), "watch");
  }

  lemma {:induction false} QueryStep(c: ClientInfo, done: Pieces, key: string, value: string)
    requires HasQuery(done, c)
    ensures HasQuery(done + [(key, value)], SetLength(c, key, ParseInt(value).IgnoringError()))
  {
    LastTextSnoc(done, (key, value), "qbuf");
    LastTextSnoc(done, (key, value), "qbuf-free");
  }

  lemma {:induction false} OutputStep(c: ClientInfo, done: Pieces, key: string, value: string)
    requires HasOutput(done, c)
    ensures HasOutput(done + [(key, value)], SetLength(c, key, ParseInt(value).IgnoringError()))
  {
    LastTextSnoc(done, (key, value), "obl");
    LastTextSnoc(done, (key, value), "oll");
  }

  lemma {:induction false} MemoryStep(c: ClientInfo, done: Pieces, key: string, value: string)
    requires HasMemory(done, c)
    ensures HasMemory(done + [(key, value)], SetLength(c, key, ParseInt(value).IgnoringError()))
  {
    LastTextSnoc(done, (key, value), "omem");
    LastTextSnoc(done, (key, value), "tot-mem");
  }

  predicate HasNumbers(pieces: Pieces, c: ClientInfo) {
    && HasSubscriptions(pieces, c) && HasNewer(pieces, c) && HasQuery(pieces, c) && HasOutput(pieces, c)
    && HasMemory(pieces, c)
  }

  /** No field of one kind touches one of another. */
  lemma {:induction false} KindsAreApart(c: ClientInfo, key: string, value: string, number: int)
    ensures var next := SetText(c, key, value);
            next.(id := c.id, name := c.name, user := c.user, flags := c.flags, db := c.db, resp := c.resp) == c
    ensures var next := SetCount(c, key, number);
            next.(sub := c.sub, psub := c.psub, ssub := c.ssub, watch := c.watch) == c
    ensures var next := SetLength(c, key, number);
            next.(qbuf := c.qbuf, qbufFree := c.qbufFree, obl := c.obl, oll := c.oll, omem := c.omem, totMem := c.totMem)
            == c
  {
  }

  lemma {:induction false} NumbersStep(c: ClientInfo, done: Pieces, key: string, value: string)
    requires HasNumbers(done, c)
    ensures HasNumbers(done + [(key, value)], SetNumber(c, key, ParseInt(value).IgnoringError()))
  {
    var number := ParseInt(value).IgnoringError();
    var counted := SetCount(c, key, number);
    KindsAreApart(c, key, value, number);
    KindsAreApart(counted, key, value, number);
    SubscriptionsStep(c, done, key, value);
    NewerStep(c, done, key, value);
    QueryStep(counted, done, key, value);
    OutputStep(counted, done, key, value);
    MemoryStep(counted, done, key, value);
  }

  lemma {:induction false} PlainStep(c: ClientInfo, done: Pieces, key: string, value: string)
    requires HasTexts(done, c) && HasNumbers(done, c)
    ensures var next := SetNumber(SetText(c, key, value), key, ParseInt(value).IgnoringError());
            HasTexts(done + [(key, value)], next) && HasNumbers(done + [(key, value)], next)
  {
    var text, number := SetText(c, key, value), ParseInt(value).IgnoringError();
    TextsStep(c, done, key, value);
    AllApart(c, key, value, number);
    AllApart(text, key, value, number);
    NumbersStep(text, done, key, value);
  }

  lemma {:induction false} AllApart(c: ClientInfo, key: string, value: string, number: int)
    ensures var next := SetText(c, key, value);
            next.(id := c.id, name := c.name, user := c.user, flags := c.flags, db := c.db, resp := c.resp) == c
    ensures var next := SetNumber(c, key, number);
            next.(sub := c.sub, psub := c.psub, ssub := c.ssub, watch := c.watch, qbuf := c.qbuf, qbufFree := c.qbufFree,
                  obl := c.obl, oll := c.oll, omem := c.omem, totMem := c.totMem) == c
  {
    KindsAreApart(c, key, value, number);
    KindsAreApart(SetCount(c, key, number), key, value, number);
  }

  /** The three fields that are neither. */
  lemma {:induction false} OtherStep(c: ClientInfo, next: ClientInfo, done: Pieces, key: string, value: string)
    requires HasTexts(done, c) && HasNumbers(done, c) && key in {"age", "idle", "addr"}
    requires next.(createdAt := c.createdAt, idleSince := c.idleSince, host := c.host, port := c.port) == c
    ensures HasTexts(done + [(key, value)], next) && HasNumbers(done + [(key, value)], next)
  {
    TextsStep(c, done, key, value);
    assert SetText(c, key, value) == c;
    PlainStep(c, done, key, value);
    assert SetNumber(c, key, ParseInt(value).IgnoringError()) == c;
  }

  lemma {:induction false} PlainFieldsStep(c: ClientInfo, now: int, done: Pieces, key: string, value: string,
                                           next: ClientInfo)
    requires HasTexts(done, c) && HasNumbers(done, c) && SetField(c, now, key, value) == Some(next)
    ensures HasTexts(done + [(key, value)], next) && HasNumbers(done + [(key, value)], next)
  {
    if key in {"age", "idle", "addr"} {
      OtherStep(c, next, done, key, value);
    } else {
      PlainStep(c, done, key, value);
    }
  }

  lemma {:induction false} TimesStep(c: ClientInfo, now: int, done: Pieces, key: string, value: string, next: ClientInfo)
    requires HasTimes(now, done, c) && SetField(c, now, key, value) == Some(next)
    ensures HasTimes(now, done + [(key, value)], next)
  {
    AllApart(c, key, value, ParseInt(value).IgnoringError());
    AllApart(SetText(c, key, value), key, value, ParseInt(value).IgnoringError());
    LastTextSnoc(done, (key, value), "age");
    LastTextSnoc(done, (key, value), "idle");
  }

  lemma {:induction false} AddressStep(c: ClientInfo, now: int, done: Pieces, key: string, value: string, next: ClientInfo)
    requires HasAddress(done, c) && SetField(c, now, key, value) == Some(next)
    ensures HasAddress(done + [(key, value)], next)
  {
    AllApart(c, key, value, ParseInt(value).IgnoringError());
    AllApart(SetText(c, key, value), key, value, ParseInt(value).IgnoringError());
    LastTextSnoc(done, (key, value), "addr");
    if key == "addr" {
      AddressIsCut(value);
    }
  }

  lemma {:induction false} AddressIsCut(text: string)
    requires |Split(text, ':')| >= 2
    ensures var pieces := Split(text, ':');
            text == HostOf(pieces) + ":" + pieces[|pieces| - 1] && ':' !in pieces[|pieces| - 1]
  {
    var pieces := Split(text, ':');
    SplitParts(text, ':');
    JoinSplit(text, ':');
    JoinSnoc(pieces[..|pieces| - 1], pieces[|pieces| - 1], ':');
    assert pieces == pieces[..|pieces| - 1] + [pieces[|pieces| - 1]];
  }

  lemma {:induction false} JoinSnoc(parts: seq<string>, last: string, sep: char)
    requires parts != []
    ensures Join(parts + [last], sep) == Join(parts, sep) + [sep] + last
  {
    if |parts| == 1 {
      assert (parts + [last])[1..] == [last];
    } else {
      assert (parts + [last])[1..] == parts[1..] + [last];
      JoinSnoc(parts[1..], last, sep);
    }
  }

  /** The client says what the fields so far say. */
  predicate Says(now: int, pieces: Pieces, c: ClientInfo) {
    HasTexts(pieces, c) && HasNumbers(pieces, c) && HasTimes(now, pieces, c) && HasAddress(pieces, c)
  }

  /** What makes the exporter give up on a line: an age that is no number, or an
      address without a colon. */
  predicate IsReadable(piece: (string, string)) {
    && (piece.0 in {"age", "idle"} ==> ParseInt(piece.1).Value?)
    && (piece.0 == "addr" ==> ':' in piece.1)
  }

  lemma {:induction false} PiecesAreTwo(text: string, sep: char)
    ensures |Split(text, sep)| >= 2 <==> sep in text
  {
    if text == "" {
    } else {
      PiecesAreTwo(text[1..], sep);
    }
  }

  lemma {:induction false} FieldIsRead(c: ClientInfo, now: int, key: string, value: string)
    ensures SetField(c, now, key, value).Some? <==> IsReadable((key, value))
  {
    PiecesAreTwo(value, ':');
  }

  lemma {:induction false} FieldsAreRead(c: ClientInfo, now: int, done: Pieces, pieces: Pieces)
    requires AreTokens(pieces) && Says(now, done, c)
    ensures var client := SetFields(c, now, PieceTexts(pieces));
            && (client.Some? <==> forall i | 0 <= i < |pieces| :: IsReadable(pieces[i]))
            && (client.Some? ==> Says(now, done + pieces, client.value))
    decreases |pieces|
  {
    if pieces == [] {
      assert done + pieces == done;
    } else {
      var key, value := pieces[0].0, pieces[0].1;
      PieceParts(key, value);
      assert PieceTexts(pieces)[0] == key + "=" + value && PieceTexts(pieces)[1..] == PieceTexts(pieces[1..]);
      assert done + [(key, value)] + pieces[1..] == done + pieces;
      assert pieces == [(key, value)] + pieces[1..];
      FieldIsRead(c, now, key, value);
      var next := SetField(c, now, key, value);
      if next.Some? {
        PlainFieldsStep(c, now, done, key, value, next.value);
        TimesStep(c, now, done, key, value, next.value);
        AddressStep(c, now, done, key, value, next.value);
        FieldsAreRead(next.value, now, done + [(key, value)], pieces[1..]);
      }
    }
  }

  /** A line that begins with a numeric id and an address is a client, unless a field
      cannot be read; every field is the last one of its name in the line. */
  lemma {:induction false} ClientText(now: int, pieces: Pieces)
    requires |pieces| >= 2 && AreTokens(pieces)
    requires pieces[0].0 == "id" && pieces[0].1 != "" && forall i | 0 <= i < |pieces[0].1| :: IsDigit(pieces[0].1[i])
    requires pieces[1].0 == "addr" && pieces[1].1 != "" && !IsBlank(pieces[1].1[0])
    ensures ClientOf(now, LineOf(pieces)).Some? <==> forall i | 0 <= i < |pieces| :: IsReadable(pieces[i])
    ensures ClientOf(now, LineOf(pieces)).Some? ==> Says(now, pieces, ClientOf(now, LineOf(pieces)).value)
  {
    forall i | 0 <= i < |pieces| ensures ' ' !in PieceTexts(pieces)[i] {
    }
    SplitJoin(PieceTexts(pieces), ' ');
    FieldsAreRead(EMPTY, now, [], pieces);
    assert [] + pieces == pieces;
    LineBegins(pieces);
    IdAndAddress(pieces[0].1, pieces[1].1, LineOf(pieces));
  }

  /** A line that begins otherwise is no client. */
  lemma {:induction false} NoClient(now: int, line: string)
    requires !HasPrefix(line, "id=") || |line| == 3 || !IsDigit(line[3])
    ensures ClientOf(now, line) == None
  {
  }

  lemma {:induction false} LineBegins(pieces: Pieces)
    requires |pieces| >= 2
    ensures pieces[0].0 + "=" + pieces[0].1 + " " + (pieces[1].0 + "=" + pieces[1].1) <= LineOf(pieces)
  {
    var texts := PieceTexts(pieces);
    assert Join(texts, ' ') == texts[0] + [' '] + Join(texts[1..], ' ');
    assert texts[1] <= Join(texts[1..], ' ');
  }

  lemma {:induction false} IdAndAddress(id: string, address: string, line: string)
    requires id != "" && forall i | 0 <= i < |id| :: IsDigit(id[i])
    requires address != "" && !IsBlank(address[0])
    requires "id" + "=" + id + " " + ("addr" + "=" + address) <= line
    ensures LooksLikeClient(line)
  {
    var rest := " addr=" + address;
    var begin := "id=" + (id + rest);
    assert begin == "id" + "=" + id + " " + ("addr" + "=" + address);
    var later := line[|begin|..];
    assert line == begin + later;
    assert line[3..] == id + (rest + later) && line[3] == id[0];
    DigitsEnd(id, rest + later);
    assert (rest + later)[..6] == " addr=" && (rest + later)[6] == address[0];
  }

  // ----- the samples -----

  /** The labels of connected_client_info with their values. */
  function Labelled(c: ClientInfo, inclPort: bool): Pieces {
    [("id", c.id), ("name", c.name), ("flags", c.flags), ("db", c.db), ("host", c.host)]
    + (if inclPort then [("port", c.port)] else [])
    + (if c.user != "" then [("user", c.user)] else [])
    + (if c.resp != "" then [("resp", c.resp)] else [])
  }

  function Firsts(pieces: Pieces): seq<string> {
    seq(|pieces|, i requires 0 <= i < |pieces| => pieces[i].0)
  }

  function Seconds(pieces: Pieces): seq<string> {
    seq(|pieces|, i requires 0 <= i < |pieces| => pieces[i].1)
  }

  lemma {:induction false} LabelsGoTogether(c: ClientInfo, inclPort: bool)
    ensures InfoLabels(c, inclPort) == Firsts(Labelled(c, inclPort))
    ensures InfoValues(c, inclPort) == Seconds(Labelled(c, inclPort))
  {
  }

  /** Which number of a client goes out under which name, labelled with its id and name. */
  function ClientGauges(c: ClientInfo): seq<Request> {
    [Register("connected_client_output_buffer_memory_usage_bytes", c.omem as real, Gauge, [c.id, c.name]),
     Register("connected_client_total_memory_consumed_bytes", c.totMem as real, Gauge, [c.id, c.name]),
     Register("connected_client_created_at_timestamp", c.createdAt as real, Gauge, [c.id, c.name]),
     Register("connected_client_idle_since_timestamp", c.idleSince as real, Gauge, [c.id, c.name]),
     Register("connected_client_channel_subscriptions_count", c.sub as real, Gauge, [c.id, c.name]),
     Register("connected_client_pattern_matching_subscriptions_count", c.psub as real, Gauge, [c.id, c.name]),
     Register("connected_client_query_buffer_length_bytes", c.qbuf as real, Gauge, [c.id, c.name]),
     Register("connected_client_query_buffer_free_space_bytes", c.qbufFree as real, Gauge, [c.id, c.name]),
     Register("connected_client_output_buffer_length_bytes", c.obl as real, Gauge, [c.id, c.name]),
     Register("connected_client_output_list_length", c.oll as real, Gauge, [c.id, c.name])]
  }

  /** The two numbers of newer servers, with the description they need. */
  function NewerGauge(c: ClientInfo, name: string, value: int): seq<Request> {
    if value == -1 then []
    else [Create(name, ["id", "name"]), Register(name, value as real, Gauge, [c.id, c.name])]
  }

  lemma {:induction false} RequestsOfAClient(c: ClientInfo, inclPort: bool)
    ensures Registers(c, BaseGauges(c)) == ClientGauges(c)
    ensures ClientRequests(c, inclPort) ==
            [Create("connected_client_info", Firsts(Labelled(c, inclPort))),
             Register("connected_client_info", 1.0, Gauge, Seconds(Labelled(c, inclPort)))]
            + Creates(BaseGauges(c)) + ClientGauges(c)
            + NewerGauge(c, "connected_client_shard_channel_subscriptions_count", c.ssub)
            + NewerGauge(c, "connected_client_shard_channel_watched_keys", c.watch)
  {
    LabelsGoTogether(c, inclPort);
    BaseGaugesAre(c);
    OptionalIs(c, "connected_client_shard_channel_subscriptions_count", c.ssub);
    OptionalIs(c, "connected_client_shard_channel_watched_keys", c.watch);
  }

  lemma {:induction false} BaseGaugesAre(c: ClientInfo)
    ensures Registers(c, BaseGauges(c)) == ClientGauges(c)
  {
  }

  lemma {:induction false} OptionalIs(c: ClientInfo, name: string, value: int)
    ensures Optional(c, name, value) == NewerGauge(c, name, value)
  {
  }
}
