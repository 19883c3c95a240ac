/**
 * The magnitude histogram of createMagnitudeChart (docs/js/visualization.js): rows with a
 * numeric magnitude are counted per half-unit bin, the bins are listed in ascending order,
 * labelled [b, b + 0.5) and coloured by the severity ladder.
 */
module Histogram {
  import opened Records
  import opened Severity
  import opened Ordering

  const BinSize := 0.5

  /** b is a whole multiple of the bin size. */
  predicate OnGrid(b: real)
  {
    (b / BinSize).Floor as real == b / BinSize
  }

  /** floor(m / 0.5) * 0.5: the half-open bin [b, b + 0.5) holding m. */
  function BinOf(m: real): (b: real)
    ensures OnGrid(b)
    ensures b <= m < b + BinSize
  {
    (m / BinSize).Floor as real * BinSize
  }

  /** The bin is the only grid point within half a unit below m. */
  lemma BinUnique(m: real, b: real)
    requires OnGrid(b) && b <= m < b + BinSize
    ensures BinOf(m) == b
  {
    var k, j := (b / BinSize).Floor, (m / BinSize).Floor;
    assert k as real <= m / BinSize < k as real + 1.0;
    assert j == k;
  }

  /** A grid point is its own bin, so 5.0 lands in bin 5.0 and not in 4.5. */
  lemma BinOfGridPoint(b: real)
    requires OnGrid(b)
    ensures BinOf(b) == b
  {
    BinUnique(b, b);
  }

  predicate InBin(q: Quake, b: real)
  {
    q.magnitude.Num? && BinOf(q.magnitude.n) == b
  }

  /** Rows of rs whose magnitude is numeric and falls in bin b. */
  function CountInBin(rs: seq<Quake>, b: real): nat
  {
    if rs == [] then 0
    else CountInBin(rs[..|rs| - 1], b) + if InBin(rs[|rs| - 1], b) then 1 else 0
  }

  /** Rows of rs whose magnitude is numeric. */
  function NumericCount(rs: seq<Quake>): nat
  {
    if rs == [] then 0
    else NumericCount(rs[..|rs| - 1]) + if rs[|rs| - 1].magnitude.Num? then 1 else 0
  }

  /** The bins that some numeric magnitude of rs falls in. */
  function BinSet(rs: seq<Quake>): set<real>
  {
    if rs == [] then {}
    else
      var last := rs[|rs| - 1];
      BinSet(rs[..|rs| - 1]) + if last.magnitude.Num? then {BinOf(last.magnitude.n)} else {}
  }

  /** One bar of the chart: its label pair, its height and its colour. */
  datatype Bar = Bar(lo: real, hi: real, count: nat, colour: Colour)

  /** The bar the chart draws for bin b. */
  function BarFor(rs: seq<Quake>, b: real): Bar
  {
    Bar(b, b + BinSize, CountInBin(rs, b), ColourOf(b))
  }

  function Bins(bars: seq<Bar>): (ks: seq<real>)
    ensures |ks| == |bars|
    ensures forall i :: 0 <= i < |bars| ==> ks[i] == bars[i].lo
  {
    seq(|bars|, i requires 0 <= i < |bars| => bars[i].lo)
  }

  /** bars is the chart of rs: one bar per occupied bin, in ascending order of bins. */
  ghost predicate IsHistogramOf(rs: seq<Quake>, bars: seq<Bar>)
  {
    && StrictlyAscending(Bins(bars))
    && (forall b :: b in BinSet(rs) <==> b in Bins(bars))
    && (forall i :: 0 <= i < |bars| ==> bars[i] == BarFor(rs, bars[i].lo))
  }

  function SumCounts(bars: seq<Bar>): nat
  {
    if bars == [] then 0 else bars[0].count + SumCounts(bars[1..])
  }

  /** What appending one row does to the counts, the bins and the numeric total. */
  lemma AppendRow(rs: seq<Quake>, q: Quake)
    ensures NumericCount(rs + [q]) == NumericCount(rs) + if q.magnitude.Num? then 1 else 0
    ensures BinSet(rs + [q]) == BinSet(rs) + if q.magnitude.Num? then {BinOf(q.magnitude.n)} else {}
    ensures forall b :: CountInBin(rs + [q], b) == CountInBin(rs, b) + if InBin(q, b) then 1 else 0
  {
    assert (rs + [q])[..|rs|] == rs;
  }

  /** createMagnitudeChart: count per bin in one pass over the rows, then list the bins in
      ascending order with their counts, labels and colours. */
  method CreateMagnitudeChart(rs: seq<Quake>) returns (bars: seq<Bar>)
    ensures IsHistogramOf(rs, bars)
    ensures forall i :: 0 <= i < |bars| ==> 1 <= bars[i].count
    ensures SumCounts(bars) == NumericCount(rs)
  {
    // The dictionary: its entries, and its keys in insertion order.
    var counts: map<real, nat> := map[];
    var keys: seq<real> := [];
    for i := 0 to |rs|
      invariant Distinct(keys) && forall b :: b in keys <==> b in counts
      invariant counts.Keys == BinSet(rs[..i])
      invariant forall b :: CountInBin(rs[..i], b) == if b in counts then counts[b] else 0
    {
      assert rs[..i + 1] == rs[..i] + [rs[i]];
      AppendRow(rs[..i], rs[i]);
      var quake := rs[i];
      if quake.magnitude.Num? {
        var bin := BinOf(quake.magnitude.n);
        if bin !in counts {
          keys := keys + [bin];
        }
        counts := counts[bin := (if bin in counts then counts[bin] else 0) + 1];
      }
    }
    assert rs[..|rs|] == rs;
    var bins := SortAscending(keys);
    forall j | 0 <= j < |bins|
      ensures bins[j] in counts
    {
      assert bins[j] in bins;
    }
    bars := seq(|bins|, j requires 0 <= j < |bins| => Bar(bins[j], bins[j] + BinSize, counts[bins[j]], ColourOf(bins[j])));
    assert Bins(bars) == bins;
    forall i | 0 <= i < |bars|
      ensures 1 <= bars[i].count
    {
      CountPositive(rs, bars[i].lo);
    }
    HistogramTotal(rs, bars);
  }

  lemma {:induction false} CountPositive(rs: seq<Quake>, b: real)
    requires b in BinSet(rs)
    ensures 1 <= CountInBin(rs, b)
  {
    var init := rs[..|rs| - 1];
    if !InBin(rs[|rs| - 1], b) {
      CountPositive(init, b);
    }
  }

  /** A row whose magnitude is not a number leaves every count and bin unchanged, and so
      leaves the chart unchanged. */
  lemma SkipsNonNumeric(rs: seq<Quake>, q: Quake, bars: seq<Bar>)
    requires !q.magnitude.Num?
    ensures NumericCount(rs + [q]) == NumericCount(rs)
    ensures IsHistogramOf(rs + [q], bars) <==> IsHistogramOf(rs, bars)
  {
    AppendRow(rs, q);
  }

  /** The bar heights add up to the number of rows with a numeric magnitude. */
  lemma HistogramTotal(rs: seq<Quake>, bars: seq<Bar>)
    requires IsHistogramOf(rs, bars)
    ensures SumCounts(bars) == NumericCount(rs)
  {
    SumCountsIsSumBins(rs, bars);
    SumBinsCoversAll(rs, Bins(bars));
  }

  /** Sum of the bin counts of rs over the bins ks. */
  function SumBins(rs: seq<Quake>, ks: seq<real>): nat
  {
    if ks == [] then 0 else CountInBin(rs, ks[0]) + SumBins(rs, ks[1..])
  }

  lemma {:induction false} SumCountsIsSumBins(rs: seq<Quake>, bars: seq<Bar>)
    requires forall i :: 0 <= i < |bars| ==> bars[i].count == CountInBin(rs, bars[i].lo)
    ensures SumCounts(bars) == SumBins(rs, Bins(bars))
  {
    if bars != [] {
      assert Bins(bars)[1..] == Bins(bars[1..]);
      SumCountsIsSumBins(rs, bars[1..]);
    }
  }

  lemma {:induction false} SumBinsOfNothing(ks: seq<real>)
    ensures SumBins([], ks) == 0
  {
    if ks != [] {
      SumBinsOfNothing(ks[1..]);
    }
  }

  /** Appending one row adds one to the sum exactly when its bin is among ks. */
  lemma {:induction false} SumBinsSnoc(rs: seq<Quake>, q: Quake, ks: seq<real>)
    requires StrictlyAscending(ks)
    ensures SumBins(rs + [q], ks) ==
      SumBins(rs, ks) + if q.magnitude.Num? && BinOf(q.magnitude.n) in ks then 1 else 0
  {
    if ks != [] {
      assert (rs + [q])[..|rs|] == rs;
      assert ks[0] !in ks[1..];
      assert forall x :: x in ks <==> x == ks[0] || x in ks[1..];
      SumBinsSnoc(rs, q, ks[1..]);
    }
  }

  lemma {:induction false} SumBinsCoversAll(rs: seq<Quake>, ks: seq<real>)
    requires StrictlyAscending(ks)
    requires forall b :: b in BinSet(rs) ==> b in ks
    ensures SumBins(rs, ks) == NumericCount(rs)
  {
    if rs == [] {
      SumBinsOfNothing(ks);
    } else {
      var init, last := rs[..|rs| - 1], rs[|rs| - 1];
      assert rs == init + [last];
      SumBinsCoversAll(init, ks);
      SumBinsSnoc(init, last, ks);
    }
  }

  /** The chart of a dataset is determined by the dataset. */
  lemma HistogramUnique(rs: seq<Quake>, bars1: seq<Bar>, bars2: seq<Bar>)
    requires IsHistogramOf(rs, bars1) && IsHistogramOf(rs, bars2)
    ensures bars1 == bars2
  {
    AscendingUnique(Bins(bars1), Bins(bars2));
    forall i | 0 <= i < |bars1|
      ensures bars1[i] == bars2[i]
    {
      assert Bins(bars1)[i] == Bins(bars2)[i];
    }
  }

  function WithMagnitude(m: real): Quake
  {
    Quake(Other, Num(m), Other, Other, Other)
  }

  /** Rows with magnitudes 4.2, 4.6, 5.9 and 6.1. */
  function ExampleRows(): seq<Quake>
  {
    [WithMagnitude(4.2), WithMagnitude(4.6), WithMagnitude(5.9), WithMagnitude(6.1)]
  }

  function ExampleBars(): seq<Bar>
  {
    [Bar(4.0, 4.5, 1, Green), Bar(4.5, 5.0, 1, Green), Bar(5.5, 6.0, 1, Orange), Bar(6.0, 6.5, 1, Red)]
  }

  lemma ExampleCounts()
    ensures BinSet(ExampleRows()) == {4.0, 4.5, 5.5, 6.0}
    ensures CountInBin(ExampleRows(), 4.0) == 1 && CountInBin(ExampleRows(), 4.5) == 1
    ensures CountInBin(ExampleRows(), 5.5) == 1 && CountInBin(ExampleRows(), 6.0) == 1
  {
    var r1, r2, r3, r4 := WithMagnitude(4.2), WithMagnitude(4.6), WithMagnitude(5.9), WithMagnitude(6.1);
    BinUnique(4.2, 4.0);
    BinUnique(4.6, 4.5);
    BinUnique(5.9, 5.5);
    BinUnique(6.1, 6.0);
    AppendRow([], r1);
    assert [] + [r1] == [r1];
    AppendRow([r1], r2);
    assert [r1] + [r2] == [r1, r2];
    AppendRow([r1, r2], r3);
    assert [r1, r2] + [r3] == [r1, r2, r3];
    AppendRow([r1, r2, r3], r4);
    assert [r1, r2, r3] + [r4] == ExampleRows();
  }

  /** Magnitudes 4.2, 4.6, 5.9 and 6.1 give the bins 4.0, 4.5, 5.5 and 6.0, once each. */
  lemma HistogramExample(bars: seq<Bar>)
    ensures IsHistogramOf(ExampleRows(), bars) <==> bars == ExampleBars()
  {
    ExampleCounts();
    var expected := ExampleBars();
    assert Bins(expected) == [4.0, 4.5, 5.5, 6.0];
    assert IsHistogramOf(ExampleRows(), expected);
    if IsHistogramOf(ExampleRows(), bars) {
      HistogramUnique(ExampleRows(), bars, expected);
    }
  }
}
