/** The slice of the host metrics framework the plugin talks to: the scalar
    field values it may emit, the metric record, and the accumulator that
    collects the records of one gather pass in the order they are added. */
module Telegraf {
  import opened GoRuntime

  /** A field value: one of the Go scalar types the plugin puts into a field map. */
  datatype FieldValue = FStr(s: string) | FUint(u: uint64) | FInt(i: int64) | FBool(b: bool)

  type Fields = map<string, FieldValue>
  type Tags = map<string, string>

  /** One call of `acc.AddFields(measurement, fields, tags)`. */
  datatype Metric = Metric(measurement: string, fields: Fields, tags: Tags)

  /** `telegraf.Accumulator`, reduced to the sequence of records added to it. */
  class Accumulator {
    var metrics: seq<Metric>

    constructor ()
      ensures metrics == []
    {
      metrics := [];
    }

    /** Appends one record; the records already added stay as they were. */
    method AddFields(measurement: string, fields: Fields, tags: Tags)
      modifies this
      ensures metrics == old(metrics) + [Metric(measurement, fields, tags)]
    {
      metrics := metrics + [Metric(measurement, fields, tags)];
    }
  }
}
