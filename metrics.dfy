/** Metric samples: what one Prometheus gauge carries. */
module Metrics {
  import opened Labels

  /** A gauge with constant labels and its value: one metric sample. */
  datatype Sample = Sample(name: string, value: int, labels: Labels)
}
