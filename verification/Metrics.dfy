/** Samples on their way to Prometheus.  A value is a real number where the
    exporter has a float64. */
module Metrics {
  datatype Metric = Metric(name: string, value: real, labels: seq<string>)

  /** The channel the collectors write to, as the log of what was written. */
  class Channel {
    var sent: seq<Metric>

    constructor ()
      ensures sent == []
    {
      sent := [];
    }

    /** registerConstMetricGauge for a metric whose description exists. */
    method Gauge(name: string, value: real, labels: seq<string>)
      modifies this
      ensures sent == old(sent) + [Metric(name, value, labels)]
    {
      sent := sent + [Metric(name, value, labels)];
    }
  }
}
