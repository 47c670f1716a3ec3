/** The client samples against a description that is made once: no client makes
    the exporter panic, but the first one decides what the others can export. */
module ClientProofs {
  import opened Wrappers
  import opened Registry
  import opened Clients

  // ----- no panic, from any state -----

  lemma {:induction false} CreatesDescribe(s: State, gauges: seq<(string, int)>)
    ensures Run(s, Creates(gauges)).Some?
    ensures var end := Run(s, Creates(gauges)).value;
            Extends(s.descriptions, end.descriptions)
            && forall i | 0 <= i < |gauges| :: gauges[i].0 in end.descriptions
    decreases |gauges|
  {
    if gauges == [] {
    } else {
      var next := Step(s, Creates(gauges)[0]).value;
      assert Creates(gauges)[1..] == Creates(gauges[1..]);
      CreatesDescribe(next, gauges[1..]);
      assert forall i | 0 < i < |gauges| :: gauges[i] == gauges[1..][i - 1];
    }
  }

  lemma {:induction false} DescribedGaugesRun(s: State, c: ClientInfo, gauges: seq<(string, int)>)
    ensures Run(s, Creates(gauges) + Registers(c, gauges)).Some?
  {
    RunAppend(s, Creates(gauges), Registers(c, gauges));
    CreatesDescribe(s, gauges);
    var mid := Run(s, Creates(gauges)).value;
    SafeRun(mid, mid.descriptions, Registers(c, gauges));
  }

  lemma {:induction false} ClientNeverPanics(s: State, c: ClientInfo, inclPort: bool)
    ensures Run(s, ClientRequests(c, inclPort)).Some?
  {
    var info := [Create(INFO, InfoLabels(c, inclPort)), InfoRequest(c, inclPort)];
    var gauges := Creates(BaseGauges(c)) + Registers(c, BaseGauges(c));
    var ssub := Optional(c, "connected_client_shard_channel_subscriptions_count", c.ssub);
    var watch := Optional(c, "connected_client_shard_channel_watched_keys", c.watch);
    assert ClientRequests(c, inclPort) == info + gauges + ssub + watch;
    RunAppend(s, info + gauges + ssub, watch);
    RunAppend(s, info + gauges, ssub);
    RunAppend(s, info, gauges);
    InfoRuns(s, c, inclPort);
    var a := Run(s, info).value;
    DescribedGaugesRun(a, c, BaseGauges(c));
    var b := Run(a, gauges).value;
    OptionalRuns(b, c, "connected_client_shard_channel_subscriptions_count", c.ssub);
    OptionalRuns(Run(b, ssub).value, c, "connected_client_shard_channel_watched_keys", c.watch);
  }

  lemma {:induction false} InfoRuns(s: State, c: ClientInfo, inclPort: bool)
    ensures Run(s, [Create(INFO, InfoLabels(c, inclPort)), InfoRequest(c, inclPort)]).Some?
  {
    var info := [Create(INFO, InfoLabels(c, inclPort)), InfoRequest(c, inclPort)];
    var next := Step(s, info[0]).value;
    assert info[1..] == [InfoRequest(c, inclPort)];
    SafeRun(next, next.descriptions, info[1..]);
  }

  lemma {:induction false} OptionalRuns(s: State, c: ClientInfo, name: string, value: int)
    ensures Run(s, Optional(c, name, value)).Some?
  {
    if value != -1 {
      DescribedGaugesRun(s, c, [(name, value)]);
    }
  }

  /** Whatever CLIENT LIST returns, and whatever has been described before, the
      client collector never makes the exporter panic. */
  lemma {:induction false} ClientsNeverPanic(s: State, now: int, inclPort: bool, lines: seq<string>)
    ensures Run(s, LinesRequests(now, inclPort, lines)).Some?
    decreases |lines|
  {
    if lines == [] {
    } else {
      var first := LineRequests(now, inclPort, lines[0]);
      RunAppend(s, first, LinesRequests(now, inclPort, lines[1..]));
      if ClientOf(now, lines[0]).Some? {
        ClientNeverPanics(s, ClientOf(now, lines[0]).value, inclPort);
      }
      ClientsNeverPanic(Run(s, first).value, now, inclPort, lines[1..]);
    }
  }

  // ----- one shape for all clients -----

  /** The first client ever listed fixes the labels of connected_client_info: at
      any later time, a client's sample is sent if and only if it has as many
      labels, and it is sent under the first client's label names. */
  lemma {:induction false} FirstClientFixesTheShape(s: State, first: ClientInfo, requests: seq<Request>,
                                                    c: ClientInfo, inclPort: bool)
    requires Shaped(s) && INFO !in s.descriptions
    requires Run(s, ClientRequests(first, inclPort) + requests).Some?
    ensures var end := Run(s, ClientRequests(first, inclPort) + requests).value;
            Step(end, InfoRequest(c, inclPort)) ==
            Some(end.(sent := end.sent +
              if |InfoLabels(c, inclPort)| == |InfoLabels(first, inclPort)|
              then [Sample(InfoRequest(c, inclPort), InfoLabels(first, inclPort))] else []))
  {
    var all := ClientRequests(first, inclPort) + requests;
    var described := Step(s, all[0]).value;
    StepKeepsShape(s, all[0]);
    OneShapeForLife(described, all[1..]);
    var end := Run(s, all).value;
    assert end.descriptions[INFO] == InfoLabels(first, inclPort);
    assert end.sent + [] == end.sent;
  }

  predicate UserOnly(c: ClientInfo) {
    c.user != "" && c.resp == ""
  }

  predicate RespOnly(c: ClientInfo) {
    c.user == "" && c.resp != ""
  }

  /** A client's sample is sent under wrong label names exactly if, of it and the
      first client, one has a user and no protocol version and the other a
      protocol version and no user; otherwise it is sent with its own labels or
      not at all. */
  lemma {:induction false} MislabelledExactly(first: ClientInfo, c: ClientInfo, inclPort: bool)
    ensures |InfoLabels(c, inclPort)| == |InfoLabels(first, inclPort)|
              && InfoLabels(c, inclPort) != InfoLabels(first, inclPort)
       <==> (UserOnly(first) && RespOnly(c)) || (RespOnly(first) && UserOnly(c))
  {
    var common := ["id", "name", "flags", "db", "host"] + (if inclPort then ["port"] else []);
    LabelsOf(first, inclPort, common);
    LabelsOf(c, inclPort, common);
    assert "user"[0] != "resp"[0];
    assert (common + ["user"])[|common|] == "user" && (common + ["resp"])[|common|] == "resp";
  }

  lemma {:induction false} LabelsOf(c: ClientInfo, inclPort: bool, common: seq<string>)
    requires common == ["id", "name", "flags", "db", "host"] + (if inclPort then ["port"] else [])
    ensures InfoLabels(c, inclPort) ==
            if UserOnly(c) then common + ["user"]
            else if RespOnly(c) then common + ["resp"]
            else if c.user == "" then common
            else common + ["user", "resp"]
  {
  }
}
