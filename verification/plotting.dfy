/**
 * The `Ploty` result sink, reduced to what the sweeps rely on: add_result
 * appends one point. Rendering and export are not modelled.
 */
module Plotting {
  import opened Wrappers
  import opened Rates
  import opened Training

  /** The x coordinate of a point: a probed learning rate, or a number. */
  datatype Abscissa = RateAt(rate: LearningRate) | At(value: real)

  /**
   * The y coordinate: a number read from the relayed record, or the whole
   * record when a callback plots the argument it was handed.
   */
  datatype Ordinate = Value(v: real) | Whole(record: Report)

  /** One add_result call: x, y, the series label and the optional data record. */
  datatype Entry = Entry(x: Abscissa, y: Ordinate, series: string, data: Option<Report>)

  class Ploty {
    var results: seq<Entry>

    constructor ()
      ensures results == []
    {
      results := [];
    }

    method AddResult(x: Abscissa, y: Ordinate, series: string, data: Option<Report>)
      modifies this
      ensures results == old(results) + [Entry(x, y, series, data)]
    {
      results := results + [Entry(x, y, series, data)];
    }
  }
}
