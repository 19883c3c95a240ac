/**
 * The synthetic dataset of loadSampleData (docs/js/visualization.js): one hundred events
 * drawn over the past thirty days in three regions, with magnitudes biased low and depths
 * biased shallow, sorted newest first. The clock and every Math.random() draw are parameters.
 */
module SampleData {
  import opened Records

  const SampleSize := 100

  /** Thirty days in milliseconds. */
  const MonthMs: int := 30 * 24 * 60 * 60 * 1000

  /** The seven draws one iteration makes, in the order it makes them. */
  datatype Draws = Draws(age: real, region: real, lat: real, lng: real, magA: real, magB: real, depth: real)

  /** The range of Math.random(). */
  predicate Unit(u: real)
  {
    0.0 <= u < 1.0
  }

  predicate ValidDraws(d: Draws)
  {
    Unit(d.age) && Unit(d.region) && Unit(d.lat) && Unit(d.lng) && Unit(d.magA) && Unit(d.magB) && Unit(d.depth)
  }

  /** A Date built from a number keeps whole milliseconds, truncating toward zero. */
  function TruncateMs(x: real): (t: int)
    ensures x - 1.0 < t as real <= x || x <= t as real < x + 1.0
    ensures 0.0 <= x ==> t as real <= x
    ensures x < 0.0 ==> x <= t as real
  {
    if 0.0 <= x then x.Floor else -((-x).Floor)
  }

  /** new Date(now - u * 30 days). Because of the truncation the earliest instant is
      exactly thirty days ago. */
  function EventTime(now: int, u: real): (t: int)
    ensures Unit(u) ==> now - MonthMs <= t <= now
  {
    var x := now as real - u * MonthMs as real;
    assert Unit(u) ==> (now - MonthMs) as real < x + 1.0 by {
      if Unit(u) {
        assert u * MonthMs as real < MonthMs as real;
      }
    }
    TruncateMs(x)
  }

  /** The lower end is reached: a draw half a millisecond short of 1 lands exactly thirty
      days back (for clocks past the first thirty days after the epoch, where truncation
      rounds down). */
  lemma EarliestEventTime(now: int)
    requires MonthMs <= now
    ensures EventTime(now, 1.0 - 1.0 / (2.0 * MonthMs as real)) == now - MonthMs
  {
    var u := 1.0 - 1.0 / (2.0 * MonthMs as real);
    assert u * MonthMs as real == MonthMs as real - 0.5;
    assert (now as real - u * MonthMs as real).Floor == now - MonthMs;
  }

  /** A field holding a number in [lo, hi). */
  predicate Within(v: Value, lo: real, hi: real)
  {
    v.Num? && lo <= v.n < hi
  }

  /** The latitude and longitude of the region the selector picks. */
  function Coordinates(d: Draws): (p: (real, real))
    ensures Unit(d.lat) && Unit(d.lng) && d.region < 0.4 ==>
      -60.0 <= p.0 < 70.0 && -180.0 <= p.1 < -65.0
    ensures Unit(d.lat) && Unit(d.lng) && 0.4 <= d.region < 0.7 ==>
      20.0 <= p.0 < 45.0 && -10.0 <= p.1 < 150.0
    ensures Unit(d.lat) && Unit(d.lng) && 0.7 <= d.region ==>
      -60.0 <= p.0 < 70.0 && -45.0 <= p.1 < -25.0
  {
    if d.region < 0.4 then (d.lat * 130.0 - 60.0, d.lng * 115.0 - 180.0)
    else if d.region < 0.7 then (d.lat * 25.0 + 20.0, d.lng * 160.0 - 10.0)
    else (d.lat * 130.0 - 60.0, d.lng * 20.0 - 45.0)
  }

  /** The product of two draws is a draw below each of them. */
  lemma DrawProduct(u: real, v: real)
    ensures Unit(u) && Unit(v) ==> Unit(u * v) && u * v <= u && u * v <= v
  {
    if Unit(u) && Unit(v) {
      assert u * (1.0 - v) >= 0.0 && (1.0 - u) * v >= 0.0;
      assert u * v < 1.0 by {
        assert u * v <= u;
      }
    }
  }

  /** 4 + 5uv: the product of two draws biases the magnitude toward 4. */
  function SampleMagnitude(u: real, v: real): (m: real)
    ensures Unit(u) && Unit(v) ==> 4.0 <= m < 9.0
    ensures Unit(u) && Unit(v) ==> m - 4.0 <= 5.0 * u
  {
    DrawProduct(u, v);
    4.0 + u * v * 5.0
  }

  /** 200u^2: squaring the draw biases the depth toward the surface. */
  function SampleDepth(u: real): (depth: real)
    ensures Unit(u) ==> 0.0 <= depth < 200.0
    ensures Unit(u) ==> depth <= 200.0 * u
  {
    DrawProduct(u, u);
    u * u * 200.0
  }

  /** The three rectangles the region selector chooses between: the Pacific rim of the
      Americas, the Alpide belt, the Mid-Atlantic ridge. */
  predicate InRegion(lat: real, lng: real)
  {
    || (-60.0 <= lat < 70.0 && -180.0 <= lng < -65.0)
    || (20.0 <= lat < 45.0 && -10.0 <= lng < 150.0)
    || (-60.0 <= lat < 70.0 && -45.0 <= lng < -25.0)
  }

  /** The bounds every generated event respects. */
  predicate InSampleRanges(now: int, q: Quake)
  {
    && q.time.Instant? && now - MonthMs <= q.time.ms <= now
    && Within(q.magnitude, 4.0, 9.0)
    && q.latitude.Num? && q.longitude.Num? && InRegion(q.latitude.n, q.longitude.n)
    && Within(q.depth, 0.0, 200.0)
  }

  /** One generated event: whichever region the selector picks, it lies in that region's
      rectangle, in the past thirty days, with magnitude and depth in range. */
  function MakeQuake(now: int, d: Draws): (q: Quake)
    ensures ValidDraws(d) ==> InSampleRanges(now, q)
  {
    var p := Coordinates(d);
    Quake(Instant(EventTime(now, d.age)), Num(SampleMagnitude(d.magA, d.magB)), Num(p.0), Num(p.1),
          Num(SampleDepth(d.depth)))
  }

  /** The events in the order the loop pushes them. */
  function Generated(now: int, draws: seq<Draws>): (s: seq<Quake>)
    ensures |s| == |draws|
  {
    seq(|draws|, i requires 0 <= i < |draws| => MakeQuake(now, draws[i]))
  }

  /** The instant a row's time denotes; only sample rows, which all carry one, are sorted. */
  function TimeKey(q: Quake): (t: int)
    ensures q.time.Instant? ==> t == q.time.ms
  {
    if q.time.Instant? then q.time.ms else 0
  }

  /** Non-increasing by time. */
  predicate NewestFirst(s: seq<Quake>)
  {
    forall i, j :: 0 <= i < j < |s| ==> TimeKey(s[i]) >= TimeKey(s[j])
  }

  /** The sort of loadSampleData: by time, newest first, in place. */
  method SortNewestFirst(a: array<Quake>)
    modifies a
    ensures NewestFirst(a[..])
    ensures multiset(a[..]) == old(multiset(a[..]))
  {
    for i := 0 to a.Length
      invariant forall k, l :: 0 <= k < l < i ==> TimeKey(a[k]) >= TimeKey(a[l])
      invariant multiset(a[..]) == old(multiset(a[..]))
    {
      InsertNewest(a, i);
    }
  }

  /** Moves a[i] left past every strictly older row, so that a[..i+1] is newest first.
      Rows with equal times keep their order, as in the stable library sort. */
  method InsertNewest(a: array<Quake>, i: int)
    requires 0 <= i < a.Length
    requires forall k, l :: 0 <= k < l < i ==> TimeKey(a[k]) >= TimeKey(a[l])
    modifies a
    ensures forall k, l :: 0 <= k < l <= i ==> TimeKey(a[k]) >= TimeKey(a[l])
    ensures multiset(a[..i + 1]) == old(multiset(a[..i + 1]))
    ensures a[i + 1..] == old(a[i + 1..])
    ensures multiset(a[..]) == old(multiset(a[..]))
  {
    var j := i;
    while 0 < j && TimeKey(a[j - 1]) < TimeKey(a[j])
      invariant 0 <= j <= i
      invariant forall k, l :: 0 <= k < l <= i && k != j && l != j ==> TimeKey(a[k]) >= TimeKey(a[l])
      invariant forall l :: j < l <= i ==> TimeKey(a[j]) > TimeKey(a[l])
      invariant 0 < j < i ==> TimeKey(a[j - 1]) >= TimeKey(a[j + 1])
      invariant forall k :: i < k < a.Length ==> a[k] == old(a[k])
      invariant multiset(a[..]) == old(multiset(a[..]))
    {
      SwapAdjacent(a, j);
      j := j - 1;
    }
    assert a[i + 1..] == old(a[i + 1..]);
    PrefixPermuted(a[..], old(a[..]), i + 1);
  }

  /** A permutation that leaves the rows from n on in place permutes the first n rows. */
  lemma PrefixPermuted(s: seq<Quake>, t: seq<Quake>, n: int)
    requires 0 <= n <= |s| == |t|
    requires s[n..] == t[n..] && multiset(s) == multiset(t)
    ensures multiset(s[..n]) == multiset(t[..n])
  {
    assert s == s[..n] + s[n..] && t == t[..n] + t[n..];
    assert multiset(s) == multiset(s[..n]) + multiset(s[n..]);
    assert multiset(t) == multiset(t[..n]) + multiset(t[n..]);
    forall x
      ensures multiset(s[..n])[x] == multiset(t[..n])[x]
    {
      assert multiset(s)[x] == multiset(s[..n])[x] + multiset(s[n..])[x];
      assert multiset(t)[x] == multiset(t[..n])[x] + multiset(t[n..])[x];
    }
  }

  method SwapAdjacent(a: array<Quake>, j: int)
    requires 0 < j < a.Length
    modifies a
    ensures a[j - 1] == old(a[j]) && a[j] == old(a[j - 1])
    ensures forall k :: 0 <= k < a.Length && k != j - 1 && k != j ==> a[k] == old(a[k])
    ensures multiset(a[..]) == old(multiset(a[..]))
  {
    a[j - 1], a[j] := a[j], a[j - 1];
  }

  /** loadSampleData's loop and sort: exactly one hundred events, each within its ranges,
      newest first, and a permutation of the events in generation order. */
  method GenerateSample(now: int, draws: seq<Draws>) returns (sample: seq<Quake>)
    requires |draws| == SampleSize
    requires forall i :: 0 <= i < |draws| ==> ValidDraws(draws[i])
    ensures |sample| == SampleSize
    ensures multiset(sample) == multiset(Generated(now, draws))
    ensures NewestFirst(sample)
    ensures forall q :: q in sample ==> InSampleRanges(now, q)
  {
    var pushed: seq<Quake> := [];
    for i := 0 to SampleSize
      invariant pushed == Generated(now, draws[..i])
    {
      pushed := pushed + [MakeQuake(now, draws[i])];
    }
    assert draws[..SampleSize] == draws;
    var buffer := new Quake[SampleSize](k requires 0 <= k < SampleSize => pushed[k]);
    assert buffer[..] == pushed;
    SortNewestFirst(buffer);
    sample := buffer[..];
    forall q | q in sample
      ensures InSampleRanges(now, q)
    {
      assert q in multiset(pushed);
      var k :| 0 <= k < |pushed| && pushed[k] == q;
      assert q == MakeQuake(now, draws[k]);
    }
  }
}
