/** The cache of metric descriptions in metrics.go, which lives as long as the
    exporter, and the register functions that consult it. */
module Registry {
  import opened Wrappers
  import opened Metrics

  datatype Kind = Gauge | Counter

  /** What a collector asks of the registry. */
  datatype Request =
    | Create(name: string, labelNames: seq<string>)
    | Register(name: string, value: real, kind: Kind, labels: seq<string>)
    | Summary(name: string, count: int, sum: real, quantiles: map<real, real>, labels: seq<string>)

  /** A sample on its way to Prometheus: the request and the label names its
      description had. */
  datatype Sample = Sample(request: Request, labelNames: seq<string>)

  type Descriptions = map<string, seq<string>>

  /** The registry as a value: what is described, and what has been sent. */
  datatype State = State(descriptions: Descriptions, sent: seq<Sample>)

  function Described(d: Descriptions, name: string, labelNames: seq<string>): Descriptions {
    if name in d then d else d[name := labelNames]
  }

  /** One request; None is a panic of the exporter. */
  function Step(s: State, r: Request): Option<State> {
    match r
    case Create(name, labelNames) => Some(s.(descriptions := Described(s.descriptions, name, labelNames)))
    case Register(name, _, _, labels) =>
      var d := if labels == [] then Described(s.descriptions, name, []) else s.descriptions;
      if name !in d then None
      else if |d[name]| != |labels| then Some(State(d, s.sent))
      else Some(State(d, s.sent + [Sample(r, d[name])]))
    case Summary(name, _, _, _, labels) =>
      if name !in s.descriptions || |s.descriptions[name]| != |labels| then None
      else Some(s.(sent := s.sent + [Sample(r, s.descriptions[name])]))
  }

  function Run(s: State, requests: seq<Request>): Option<State>
    decreases |requests|
  {
    if requests == [] then Some(s)
    else
      var next :- Step(s, requests[0]);
      Run(next, requests[1..])
  }

  /** The state after every request before the first panic. */
  function Survived(s: State, requests: seq<Request>): (after: State)
    ensures Run(s, requests).Some? ==> after == Run(s, requests).value
    decreases |requests|
  {
    if requests == [] then s
    else
      match Step(s, requests[0])
      case None => s
      case Some(next) => Survived(next, requests[1..])
  }

  // ----- the class -----

  class Exporter {
    var descriptions: Descriptions
    var sent: seq<Sample>

    /** NewRedisExporter, as far as the description table goes. */
    constructor (table: Descriptions)
      ensures descriptions == table && sent == []
    {
      descriptions, sent := table, [];
    }

    function Value(): State
      reads this
    {
      State(descriptions, sent)
    }

    /** createMetricDescription */
    method CreateMetricDescription(name: string, labelNames: seq<string>) returns (desc: seq<string>)
      modifies this`descriptions
      ensures Step(old(Value()), Create(name, labelNames)) == Some(Value())
      ensures name in descriptions && desc == descriptions[name]
    {
      if name in descriptions {
        return descriptions[name];
      }
      descriptions := descriptions[name := labelNames];
      return labelNames;
    }

    /** mustFindMetricDescription; None stands for the panic. */
    method MustFindMetricDescription(name: string) returns (desc: Option<seq<string>>)
      ensures desc == if name in descriptions then Some(descriptions[name]) else None
    {
      if name !in descriptions {
        return None;
      }
      return Some(descriptions[name]);
    }

    /** registerConstMetric */
    method RegisterConstMetric(name: string, value: real, kind: Kind, labels: seq<string>) returns (panicked: bool)
      modifies this
      ensures var after := Step(old(Value()), Register(name, value, kind, labels));
              panicked == after.None? && Value() == if panicked then old(Value()) else after.value
    {
      var desc;
      if |labels| == 0 {
        desc := CreateMetricDescription(name, []);
      } else {
        var found := MustFindMetricDescription(name);
        if found.None? {
          return true;
        }
        desc := found.value;
      }
      if |desc| == |labels| {
        sent := sent + [Sample(Register(name, value, kind, labels), desc)];
      }
      return false;
    }

    /** registerConstSummary */
    method RegisterConstSummary(name: string, count: int, sum: real, quantiles: map<real, real>, labels: seq<string>)
      returns (panicked: bool)
      modifies this
      ensures var after := Step(old(Value()), Summary(name, count, sum, quantiles, labels));
              panicked == after.None? && Value() == if panicked then old(Value()) else after.value
    {
      var found := MustFindMetricDescription(name);
      if found.None? || |found.value| != |labels| {
        return true;
      }
      sent := sent + [Sample(Summary(name, count, sum, quantiles, labels), found.value)];
      return false;
    }

    /** A whole series of requests, up to a panic. */
    method Serve(requests: seq<Request>) returns (panicked: bool)
      modifies this
      ensures panicked == Run(old(Value()), requests).None?
      ensures Value() == Survived(old(Value()), requests)
    {
      for i := 0 to |requests|
        invariant Run(Value(), requests[i..]) == Run(old(Value()), requests)
        invariant Survived(Value(), requests[i..]) == Survived(old(Value()), requests)
      {
        assert requests[i..][1..] == requests[i + 1..];
        match requests[i]
        case Create(name, labelNames) =>
          var _ := CreateMetricDescription(name, labelNames);
        case Register(name, value, kind, labels) =>
          var failed := RegisterConstMetric(name, value, kind, labels);
          if failed {
            return true;
          }
        case Summary(name, count, sum, quantiles, labels) =>
          var failed := RegisterConstSummary(name, count, sum, quantiles, labels);
          if failed {
            return true;
          }
      }
      return false;
    }
  }

  // ----- one shape per name, for life -----

  /** Every sample sent so far has the label names its name has now, one value
      for each. */
  predicate Shaped(s: State) {
    forall i | 0 <= i < |s.sent| ::
      var name := s.sent[i].request.name;
      && !s.sent[i].request.Create?
      && name in s.descriptions
      && s.sent[i].labelNames == s.descriptions[name]
      && |s.sent[i].request.labels| == |s.descriptions[name]|
  }

  /** What was described stays described, in the same way. */
  predicate Extends(d: Descriptions, later: Descriptions) {
    forall name | name in d :: name in later && later[name] == d[name]
  }

  lemma {:induction false} StepKeepsShape(s: State, r: Request)
    requires Shaped(s) && Step(s, r).Some?
    ensures Shaped(Step(s, r).value)
    ensures Extends(s.descriptions, Step(s, r).value.descriptions)
    ensures s.sent <= Step(s, r).value.sent
  {
  }

  /** Over any requests, of however many scrapes: descriptions are neither changed
      nor removed, what was sent stays sent, and all samples keep their shape. */
  lemma {:induction false} OneShapeForLife(s: State, requests: seq<Request>)
    requires Shaped(s) && Run(s, requests).Some?
    ensures var end := Run(s, requests).value;
            Shaped(end) && Extends(s.descriptions, end.descriptions) && s.sent <= end.sent
    decreases |requests|
  {
    if requests == [] {
    } else {
      StepKeepsShape(s, requests[0]);
      OneShapeForLife(Step(s, requests[0]).value, requests[1..]);
    }
  }

  /** Any two samples ever sent under one name have the same label names and the
      same number of values, however far apart they were sent. */
  lemma {:induction false} SameNameSameShape(table: Descriptions, requests: seq<Request>, i: nat, j: nat)
    requires Run(State(table, []), requests).Some?
    requires var sent := Run(State(table, []), requests).value.sent;
             i < |sent| && j < |sent| && sent[i].request.name == sent[j].request.name
    ensures var sent := Run(State(table, []), requests).value.sent;
            && sent[i].labelNames == sent[j].labelNames
            && !sent[i].request.Create? && !sent[j].request.Create?
            && |sent[i].request.labels| == |sent[j].request.labels| == |sent[i].labelNames|
  {
    OneShapeForLife(State(table, []), requests);
  }

  lemma {:induction false} RunAppend(s: State, a: seq<Request>, b: seq<Request>)
    ensures Survived(s, a + b) == if Run(s, a).Some? then Survived(Run(s, a).value, b) else Survived(s, a)
    ensures Run(s, a + b) == match Run(s, a) case None => None case Some(mid) => Run(mid, b)
    decreases |a|
  {
    if a == [] {
      assert a + b == b;
    } else {
      assert (a + b)[1..] == a[1..] + b;
      if Step(s, a[0]).Some? {
        RunAppend(Step(s, a[0]).value, a[1..], b);
      }
    }
  }

  /** Once a name is described no later registration under it panics, and the
      sample is sent if and only if the number of labels is the described one. */
  lemma {:induction false} DescribedNamesNeverPanic(s: State, requests: seq<Request>, r: Request)
    requires Shaped(s) && Run(s, requests).Some? && r.Register? && r.name in s.descriptions
    ensures var end := Run(s, requests).value;
            var after := Step(end, r);
            && after.Some?
            && after.value.descriptions == end.descriptions
            && after.value.sent == end.sent +
                 if |r.labels| == |s.descriptions[r.name]| then [Sample(r, s.descriptions[r.name])] else []
  {
    OneShapeForLife(s, requests);
  }

  // ----- requests that cannot panic -----

  predicate Has(d: Descriptions, name: string, labels: nat) {
    name in d && |d[name]| == labels
  }

  /** A request that cannot panic once d is described. */
  predicate Safe(d: Descriptions, r: Request) {
    match r
    case Create(_, _) => true
    case Register(name, _, _, labels) => labels == [] || name in d
    case Summary(name, _, _, _, labels) => Has(d, name, |labels|)
  }

  predicate AllSafe(d: Descriptions, requests: seq<Request>) {
    forall r | r in requests :: Safe(d, r)
  }

  lemma {:induction false} RunExtends(s: State, requests: seq<Request>)
    requires Run(s, requests).Some?
    ensures Extends(s.descriptions, Run(s, requests).value.descriptions)
    decreases |requests|
  {
    if requests == [] {
    } else {
      RunExtends(Step(s, requests[0]).value, requests[1..]);
    }
  }

  /** Serving r leaves the name described: only these requests create. */
  predicate Describes(r: Request, name: string) {
    r.name == name && (r.Create? || (r.Register? && r.labels == []))
  }

  /** After a run without panic exactly those names are described that were so
      before or that some request created. */
  lemma {:induction false} DescribedAfter(s: State, requests: seq<Request>, name: string)
    requires Run(s, requests).Some?
    ensures name in Run(s, requests).value.descriptions <==>
            name in s.descriptions || exists r | r in requests :: Describes(r, name)
    decreases |requests|
  {
    if requests == [] {
    } else {
      var next, rest := Step(s, requests[0]).value, requests[1..];
      assert name in next.descriptions <==> name in s.descriptions || Describes(requests[0], name);
      DescribedAfter(next, rest, name);
      assert forall r :: r in requests <==> r == requests[0] || r in rest;
    }
  }

  /** A labelled registration panics if and only if its name is neither described
      from the start nor created by a request before it. */
  lemma {:induction false} LookupPanicsExactly(s: State, requests: seq<Request>, r: Request)
    requires Run(s, requests).Some? && r.Register?
    ensures Step(Run(s, requests).value, r).None? <==>
            && r.labels != [] && r.name !in s.descriptions
            && forall q | q in requests :: !Describes(q, r.name)
  {
    DescribedAfter(s, requests, r.name);
  }

  /** A summary is sent if its name is described with as many labels, at the start or by
      the first request that describes it, and panics otherwise. */
  lemma {:induction false} SummaryPanicsExactly(s: State, requests: seq<Request>, r: Request)
    requires Run(s, requests).Some? && r.Summary?
    ensures var end := Run(s, requests).value;
            var fits := r.name in end.descriptions && |end.descriptions[r.name]| == |r.labels|;
            && (Step(end, r).Some? <==> fits)
            && (fits ==> Step(end, r).value.sent == end.sent + [Sample(r, end.descriptions[r.name])])
            && (r.name in s.descriptions ==> fits == (|s.descriptions[r.name]| == |r.labels|))
            && (r.name !in s.descriptions && (forall q | q in requests :: !Describes(q, r.name)) ==> !fits)
  {
    RunExtends(s, requests);
    DescribedAfter(s, requests, r.name);
  }

  lemma {:induction false} SafeRun(s: State, d: Descriptions, requests: seq<Request>)
    requires Extends(d, s.descriptions) && AllSafe(d, requests)
    ensures Run(s, requests).Some?
    decreases |requests|
  {
    if requests == [] {
    } else {
      assert Safe(d, requests[0]);
      var next := Step(s, requests[0]);
      assert next.Some?;
      assert Extends(d, next.value.descriptions);
      SafeRun(next.value, d, requests[1..]);
    }
  }

  // ----- delivery -----

  /** The requests of some kind among others, in order. */
  function Asked(requests: seq<Request>, want: Request -> bool): seq<Request> {
    if requests == [] then []
    else (if want(requests[0]) then [requests[0]] else []) + Asked(requests[1..], want)
  }

  /** The requests of that kind among those that became samples. */
  function Answered(sent: seq<Sample>, want: Request -> bool): seq<Request> {
    if sent == [] then []
    else Answered(sent[..|sent| - 1], want) + if want(sent[|sent| - 1].request) then [sent[|sent| - 1].request] else []
  }

  lemma {:induction false} AskedAppend(a: seq<Request>, b: seq<Request>, want: Request -> bool)
    ensures Asked(a + b, want) == Asked(a, want) + Asked(b, want)
  {
    if a == [] {
      assert a + b == b;
    } else {
      assert (a + b)[1..] == a[1..] + b;
      AskedAppend(a[1..], b, want);
      Regroup(if want(a[0]) then [a[0]] else [], Asked(a[1..], want), Asked(b, want));
    }
  }

  lemma {:induction false} NoneAsked(requests: seq<Request>, want: Request -> bool)
    requires forall r | r in requests :: !want(r)
    ensures Asked(requests, want) == []
  {
    if requests == [] {
    } else {
      NoneAsked(requests[1..], want);
    }
  }

  lemma {:induction false} StepDelivers(s: State, d: Descriptions, r: Request, want: Request -> bool)
    requires Step(s, r).Some? && Extends(d, s.descriptions)
    requires want(r) ==> !r.Create? && Has(d, r.name, |r.labels|)
    ensures Extends(d, Step(s, r).value.descriptions)
    ensures Answered(Step(s, r).value.sent, want) == Answered(s.sent, want) + if want(r) then [r] else []
  {
    var sent := Step(s, r).value.sent;
    if sent != s.sent {
      assert sent == s.sent + [sent[|s.sent|]] && sent[|s.sent|].request == r;
      assert sent[..|sent| - 1] == s.sent;
    }
  }

  /** Requests whose names are described with their number of labels all become
      samples, once each and in order, and no others of their kind do. */
  lemma {:induction false} Delivered(s: State, d: Descriptions, requests: seq<Request>, want: Request -> bool)
    requires Run(s, requests).Some? && Extends(d, s.descriptions)
    requires forall r | r in requests && want(r) :: !r.Create? && Has(d, r.name, |r.labels|)
    ensures Answered(Run(s, requests).value.sent, want) == Answered(s.sent, want) + Asked(requests, want)
    decreases |requests|
  {
    if requests == [] {
    } else {
      var next := Step(s, requests[0]).value;
      StepDelivers(s, d, requests[0], want);
      Delivered(next, d, requests[1..], want);
      Regroup(Answered(s.sent, want), if want(requests[0]) then [requests[0]] else [], Asked(requests[1..], want));
    }
  }

  /** The request a gauge of the key collectors turns into. */
  function GaugeRequest(m: Metric): Request {
    Register(m.name, m.value, Gauge, m.labels)
  }

  function GaugeRequests(metrics: seq<Metric>): seq<Request> {
    seq(|metrics|, i requires 0 <= i < |metrics| => GaugeRequest(metrics[i]))
  }

  predicate Fits(d: Descriptions, m: Metric) {
    m.name in d && |d[m.name]| == |m.labels|
  }

  /** The samples that described gauges turn into. */
  function Samples(d: Descriptions, metrics: seq<Metric>): seq<Sample>
    requires forall i | 0 <= i < |metrics| :: Fits(d, metrics[i])
  {
    if metrics == [] then []
    else
      assert Fits(d, metrics[0]);
      [Sample(GaugeRequest(metrics[0]), d[metrics[0].name])] + Samples(d, metrics[1..])
  }

  /** Gauges whose names are described with their number of labels all arrive, in
      order, and change no description: the log of a Channel is what is sent. */
  lemma {:induction false} GaugesAreDelivered(s: State, metrics: seq<Metric>)
    requires forall i | 0 <= i < |metrics| :: Fits(s.descriptions, metrics[i])
    ensures Run(s, GaugeRequests(metrics)) ==
            Some(State(s.descriptions, s.sent + Samples(s.descriptions, metrics)))
    decreases |metrics|
  {
    var samples := Samples(s.descriptions, metrics);
    if metrics == [] {
      assert s.sent + samples == s.sent;
    } else {
      var next := State(s.descriptions, s.sent + [samples[0]]);
      assert Fits(s.descriptions, metrics[0]);
      assert Step(s, GaugeRequest(metrics[0])) == Some(next);
      GaugesAreDelivered(next, metrics[1..]);
      assert GaugeRequests(metrics)[1..] == GaugeRequests(metrics[1..]);
      assert samples == [samples[0]] + Samples(s.descriptions, metrics[1..]);
      assert next.sent + samples[1..] == s.sent + samples;
    }
  }
}
