/**
 * The page-wide dataset buffer of docs/js/visualization.js and the three operations that
 * touch it: a finished CSV parse, loading the sample, and visualising.
 */
module Dataset {
  import opened Wrappers
  import opened Records
  import opened Histogram
  import opened SampleData

  /** What visualising produces: the "no data" alert, or the table rows and chart bars. */
  datatype View = NoData | Shown(table: seq<Quake>, chart: seq<Bar>)

  class EarthquakeData {
    /** The rows currently loaded, replaced wholesale by every load. */
    var records: seq<Quake>

    constructor ()
      ensures records == []
    {
      records := [];
    }

    /** The parser's completion callback: rows replace the buffer only when the result holds
        at least one row; an absent or empty result leaves the buffer as it was. */
    method CompleteParse(data: Option<seq<Quake>>)
      modifies this
      ensures data.Some? && data.value != [] ==> records == data.value
      ensures data.None? || data.value == [] ==> records == old(records)
    {
      if data.Some? && |data.value| > 0 {
        records := data.value;
      }
    }

    /** Generates the sample and makes it the dataset. */
    method LoadSampleData(now: int, draws: seq<Draws>)
      requires |draws| == SampleSize
      requires forall i :: 0 <= i < |draws| ==> ValidDraws(draws[i])
      modifies this
      ensures |records| == SampleSize
      ensures multiset(records) == multiset(Generated(now, draws))
      ensures NewestFirst(records)
      ensures forall q :: q in records ==> InSampleRanges(now, q)
    {
      records := GenerateSample(now, draws);
    }

    /** An empty dataset stops at the alert before the table or the chart is touched;
        otherwise the table shows the leading rows and the chart the histogram of all rows. */
    method Visualize() returns (v: View)
      ensures v == NoData <==> records == []
      ensures v.Shown? ==> v.table == TableRows(records) && IsHistogramOf(records, v.chart)
    {
      if |records| == 0 {
        return NoData;
      }
      var table := TableRows(records);
      var chart := CreateMagnitudeChart(records);
      v := Shown(table, chart);
    }
  }
}
