/** The response-time series: time buckets over a window and interpolated
    percentiles. Times and durations are nanoseconds; a time counts from the
    zero time. */
module TimeSeries {
  import opened Text
  import opened Durations

  // ---- bucket width and count -----------------------------------------

  // Division truncates towards zero.
  function TruncDiv(a: int, b: int): int
    requires b > 0
  {
    if a >= 0 then a / b else -((-a) / b)
  }

  // Rounds to a multiple of m, halves up.
  function RoundTo(d: nat, m: int): nat
    requires m > 0
  {
    var r := d % m;
    if 2 * r < m then d - r else d + m - r
  }

  function BucketWidth(window: int): int {
    var sixtieth := TruncDiv(window, 60);
    var width := RoundTo(if sixtieth < MINUTE then MINUTE else sixtieth, MINUTE);
    if width == 0 then MINUTE else width
  }

  function CeilDiv(a: int, b: int): int
    requires b > 0
  {
    -((-a) / b)
  }

  function BucketCount(window: int): int
    requires BucketWidth(window) > 0
  {
    CeilDiv(window, BucketWidth(window))
  }

  lemma WholeMinutes(k: int)
    ensures (k * MINUTE) % MINUTE == 0
  {
  }

  lemma CeilDivBounds(a: int, b: int)
    requires b > 0
    ensures (CeilDiv(a, b) - 1) * b < a <= CeilDiv(a, b) * b
  {
    var q := (-a) / b;
    assert -a == q * b + (-a) % b;
    assert CeilDiv(a, b) * b == -(q * b);
    assert (CeilDiv(a, b) - 1) * b == -(q * b) - b;
  }

  lemma Cancel(a: int, c: int, b: int)
    requires b > 0 && a * b < c * b
    ensures a < c
  {
  }

  // Rounding to minutes loses less than a third of the unrounded width.
  lemma WidthOf(window: int)
    ensures BucketWidth(window) >= MINUTE && BucketWidth(window) % MINUTE == 0
    ensures window < 90 * BucketWidth(window)
    ensures window < TWO_63 ==> BucketWidth(window) < TWO_63
  {
    var sixtieth := TruncDiv(window, 60);
    var base := if sixtieth < MINUTE then MINUTE else sixtieth;
    var r := base % MINUTE;
    var minutes := if 2 * r < MINUTE then base / MINUTE else base / MINUTE + 1;
    assert base == (base / MINUTE) * MINUTE + r;
    assert BucketWidth(window) == minutes * MINUTE;
    WholeMinutes(minutes);
    assert 2 * base < 3 * BucketWidth(window);
  }

  /** Buckets are whole minutes wide, a positive window has 1 to 90 of them,
      and together they just cover it. */
  lemma BucketBounds(window: int)
    requires window > 0
    ensures BucketWidth(window) >= MINUTE && BucketWidth(window) % MINUTE == 0
    ensures 1 <= BucketCount(window) <= 90
    ensures (BucketCount(window) - 1) * BucketWidth(window) < window <= BucketCount(window) * BucketWidth(window)
  {
    hide BucketWidth, CeilDiv;
    WidthOf(window);
    var width, n := BucketWidth(window), BucketCount(window);
    CeilDivBounds(window, width);
    Cancel(0, n, width);
    Cancel(n - 1, 90, width);
  }

  // ---- placing samples ------------------------------------------------

  datatype Sample = Sample(durationMs: int, finishedAt: Option<int>)

  // Samples without a duration or a readable time, or from before the window, do not count.
  predicate Considered(s: Sample, now: int, window: int) {
    s.durationMs > 0 && s.finishedAt.Some? && s.finishedAt.value >= now - window
  }

  // The bucket of a sample, the newest being the last; it may lie outside.
  function BucketIndex(s: Sample, now: int, window: int): int
    requires BucketWidth(window) > 0 && s.finishedAt.Some?
  {
    BucketCount(window) - 1 - TruncDiv(now - s.finishedAt.value, BucketWidth(window))
  }

  predicate Placed(s: Sample, now: int, window: int, bucket: int)
    requires BucketWidth(window) > 0
  {
    Considered(s, now, window) && BucketIndex(s, now, window) == bucket && 0 <= bucket < BucketCount(window)
  }

  lemma QuotientBelow(a: nat, b: int, n: nat)
    requires b > 0
    ensures a / b < n <==> a < n * b
  {
    assert a == (a / b) * b + a % b;
    if a / b < n {
      assert (a / b + 1) * b <= n * b;
    } else {
      assert (a / b) * b >= n * b;
    }
  }

  lemma QuotientNonNegative(a: nat, b: int)
    requires b > 0
    ensures a / b >= 0
  {
  }

  lemma TruncatedBelow(a: int, b: int, n: nat)
    requires b > 0 && n > 0
    ensures 0 <= n - 1 - TruncDiv(a, b) < n <==> -b < a < n * b
  {
    var magnitude := if a >= 0 then a else -a;
    var q := magnitude / b;
    QuotientNonNegative(magnitude, b);
    QuotientBelow(magnitude, b, n);
    QuotientBelow(magnitude, b, 1);
    Positive(n, b);
    assert TruncDiv(a, b) == if a >= 0 then q else -q;
  }

  lemma Positive(a: int, b: int)
    requires a > 0 && b > 0
    ensures a * b > 0
  {
  }

  /** A considered sample has a bucket exactly when it is younger than the
      buckets reach back and less than one width in the future. */
  lemma PlacedWhen(s: Sample, now: int, window: int)
    requires window > 0 && Considered(s, now, window)
    ensures BucketWidth(window) > 0
    ensures var age := now - s.finishedAt.value;
      (exists b :: Placed(s, now, window, b)) <==> (-BucketWidth(window) < age < BucketCount(window) * BucketWidth(window))
  {
    hide BucketCount, BucketWidth, TruncDiv;
    BucketBounds(window);
    TruncatedBelow(now - s.finishedAt.value, BucketWidth(window), BucketCount(window));
    assert Placed(s, now, window, BucketIndex(s, now, window)) <==> 0 <= BucketIndex(s, now, window) < BucketCount(window);
  }

  /** In particular every sample younger than the window that is not from the
      future has exactly one bucket, the one covering its age. */
  lemma RecentPlaced(s: Sample, now: int, window: int)
    requires window > 0 && Considered(s, now, window)
    requires 0 <= now - s.finishedAt.value < window
    ensures BucketWidth(window) > 0
    ensures exists b :: Placed(s, now, window, b)
    ensures forall b, b' :: Placed(s, now, window, b) && Placed(s, now, window, b') ==> b == b'
    ensures forall b :: Placed(s, now, window, b) ==>
      var back := BucketCount(window) - 1 - b;
      back * BucketWidth(window) <= now - s.finishedAt.value < (back + 1) * BucketWidth(window)
  {
    hide BucketCount, BucketWidth;
    BucketBounds(window);
    PlacedWhen(s, now, window);
    var age, width := now - s.finishedAt.value, BucketWidth(window);
    assert age == (age / width) * width + age % width;
    assert (age / width + 1) * width == (age / width) * width + width;
  }

  /** The durations a bucket collects, in history order. */
  function Collected(history: seq<Sample>, now: int, window: int, bucket: int): seq<real>
    requires BucketWidth(window) > 0
  {
    if history == [] then []
    else
      var last := history[|history| - 1];
      Collected(history[..|history| - 1], now, window, bucket)
      + (if Placed(last, now, window, bucket) then [last.durationMs as real] else [])
  }

  /** Fills the buckets in one walk over the history. */
  method FillBuckets(history: seq<Sample>, now: int, window: int) returns (buckets: array<seq<real>>)
    requires BucketWidth(window) > 0 && BucketCount(window) >= 0
    ensures buckets.Length == BucketCount(window) && fresh(buckets)
    ensures forall b :: 0 <= b < buckets.Length ==> buckets[b] == Collected(history, now, window, b)
  {
    hide BucketCount, BucketWidth;
    var width, n := BucketWidth(window), BucketCount(window);
    buckets := new seq<real>[n](_ => []);
    var i := 0;
    while i < |history|
      invariant 0 <= i <= |history|
      invariant forall b :: 0 <= b < n ==> buckets[b] == Collected(history[..i], now, window, b)
    {
      assert history[..i + 1][..i] == history[..i];
      var h := history[i];
      i := i + 1;
      if h.durationMs <= 0 || h.finishedAt.None? || h.finishedAt.value < now - window {
        continue;
      }
      var idx := n - 1 - TruncDiv(now - h.finishedAt.value, width);
      if idx < 0 || idx >= n {
        continue;
      }
      buckets[idx] := buckets[idx] + [h.durationMs as real];
    }
    assert history[..i] == history;
  }

  function CollectedSizes(history: seq<Sample>, now: int, window: int, n: nat): nat
    requires BucketWidth(window) > 0
  {
    if n == 0 then 0 else CollectedSizes(history, now, window, n - 1) + |Collected(history, now, window, n - 1)|
  }

  predicate HasBucket(s: Sample, now: int, window: int, n: nat)
    requires BucketWidth(window) > 0
  {
    Considered(s, now, window) && 0 <= BucketIndex(s, now, window) < n && BucketIndex(s, now, window) < BucketCount(window)
  }

  function CountPlaced(history: seq<Sample>, now: int, window: int, n: nat): nat
    requires BucketWidth(window) > 0
  {
    if history == [] then 0
    else CountPlaced(history[..|history| - 1], now, window, n)
         + (if HasBucket(history[|history| - 1], now, window, n) then 1 else 0)
  }

  lemma {:induction false} OneMoreBucket(history: seq<Sample>, now: int, window: int, n: nat)
    requires BucketWidth(window) > 0 && n < BucketCount(window)
    ensures CountPlaced(history, now, window, n + 1)
         == CountPlaced(history, now, window, n) + |Collected(history, now, window, n)|
  {
    hide BucketCount, BucketWidth, BucketIndex;
    if history != [] {
      OneMoreBucket(history[..|history| - 1], now, window, n);
    }
  }

  lemma {:induction false} NoBuckets(history: seq<Sample>, now: int, window: int)
    requires BucketWidth(window) > 0
    ensures CountPlaced(history, now, window, 0) == 0
  {
    if history != [] {
      NoBuckets(history[..|history| - 1], now, window);
    }
  }

  /** No sample is lost or counted twice: the bucket sizes add up to the number
      of samples that have a bucket. */
  lemma {:induction false} BucketsConserve(history: seq<Sample>, now: int, window: int, n: nat)
    requires BucketWidth(window) > 0 && n <= BucketCount(window)
    ensures CollectedSizes(history, now, window, n) == CountPlaced(history, now, window, n)
  {
    hide BucketCount, BucketWidth;
    if n == 0 {
      NoBuckets(history, now, window);
    } else {
      BucketsConserve(history, now, window, n - 1);
      OneMoreBucket(history, now, window, n - 1);
    }
  }

  // ---- percentiles ----------------------------------------------------

  predicate Sorted(s: seq<real>) {
    forall i, j :: 0 <= i <= j < |s| ==> s[i] <= s[j]
  }

  function Insert(x: real, s: seq<real>): (r: seq<real>)
    requires Sorted(s)
    ensures Sorted(r) && |r| == |s| + 1
    ensures r[0] == if s == [] || x <= s[0] then x else s[0]
  {
    if s == [] || x <= s[0] then [x] + s else [s[0]] + Insert(x, s[1..])
  }

  lemma {:induction false} InsertKeeps(x: real, s: seq<real>)
    requires Sorted(s)
    ensures multiset(Insert(x, s)) == multiset(s) + multiset{x}
  {
    if s == [] || x <= s[0] {
    } else {
      InsertKeeps(x, s[1..]);
      assert s == [s[0]] + s[1..];
    }
  }

  function SortedCopy(s: seq<real>): (r: seq<real>)
    ensures Sorted(r)
  {
    if s == [] then [] else Insert(s[0], SortedCopy(s[1..]))
  }

  lemma {:induction false} SortedCopyKeeps(s: seq<real>)
    ensures multiset(SortedCopy(s)) == multiset(s)
  {
    if s != [] {
      SortedCopyKeeps(s[1..]);
      InsertKeeps(s[0], SortedCopy(s[1..]));
      assert s == [s[0]] + s[1..];
    }
  }

  function Interpolate(a: real, b: real, f: real): real {
    a * (1.0 - f) + b * f
  }

  function Position(p: real, n: nat): real {
    p / 100.0 * (n - 1) as real
  }

  lemma Between(q: real, x: real)
    requires 0.0 <= q <= 1.0 && 0.0 <= x
    ensures 0.0 <= q * x <= x
  {
    assert (1.0 - q) * x >= 0.0;
  }

  lemma PositionInRange(p: real, n: nat)
    requires 0.0 <= p <= 100.0 && n > 0
    ensures 0.0 <= Position(p, n) <= (n - 1) as real
    ensures 0 <= Position(p, n).Floor < n
  {
    var q, x := p / 100.0, (n - 1) as real;
    assert 0.0 <= q <= 1.0;
    Between(q, x);
    assert Position(p, n) == q * x;
  }

  /** The p-th percentile of sorted samples, interpolating between neighbours. */
  function Percentile(sorted: seq<real>, p: real): real
    requires 0.0 <= p <= 100.0
  {
    if sorted == [] then 0.0
    else
      PositionInRange(p, |sorted|);
      var idx := Position(p, |sorted|);
      var lo := idx.Floor;
      if lo + 1 >= |sorted| then sorted[lo] else Interpolate(sorted[lo], sorted[lo + 1], idx - lo as real)
  }

  lemma InterpolateFrom(a: real, b: real, f: real)
    ensures Interpolate(a, b, f) == a + (b - a) * f
  {
  }

  lemma ProductOrdered(x: real, f: real, g: real)
    requires 0.0 <= x && f <= g
    ensures x * f <= x * g
  {
    assert x * (g - f) >= 0.0;
  }

  lemma InterpolateOrdered(a: real, b: real, f: real, g: real)
    requires a <= b && f <= g
    ensures Interpolate(a, b, f) <= Interpolate(a, b, g)
  {
    hide Interpolate;
    InterpolateFrom(a, b, f);
    InterpolateFrom(a, b, g);
    ProductOrdered(b - a, f, g);
  }

  lemma InterpolateEnds(a: real, b: real)
    ensures Interpolate(a, b, 0.0) == a && Interpolate(a, b, 1.0) == b
  {
  }

  lemma InterpolateMonotone(a: real, b: real, f: real, g: real)
    requires a <= b && 0.0 <= f <= g <= 1.0
    ensures a <= Interpolate(a, b, f) <= Interpolate(a, b, g) <= b
  {
    hide Interpolate;
    InterpolateEnds(a, b);
    InterpolateOrdered(a, b, 0.0, f);
    InterpolateOrdered(a, b, f, g);
    InterpolateOrdered(a, b, g, 1.0);
  }

  // The value lies between the two samples around its position.
  lemma PercentileAround(sorted: seq<real>, p: real)
    requires Sorted(sorted) && sorted != [] && 0.0 <= p <= 100.0
    ensures var lo := Position(p, |sorted|).Floor;
      && 0 <= lo < |sorted|
      && sorted[lo] <= Percentile(sorted, p)
      && Percentile(sorted, p) <= sorted[if lo + 1 < |sorted| then lo + 1 else lo]
  {
    hide Position, Interpolate;
    PositionInRange(p, |sorted|);
    var idx := Position(p, |sorted|);
    var lo := idx.Floor;
    if lo + 1 < |sorted| {
      InterpolateMonotone(sorted[lo], sorted[lo + 1], idx - lo as real, idx - lo as real);
    }
  }

  /** Percentiles stay within the samples. */
  lemma PercentileWithin(sorted: seq<real>, p: real)
    requires Sorted(sorted) && sorted != [] && 0.0 <= p <= 100.0
    ensures sorted[0] <= Percentile(sorted, p) <= sorted[|sorted| - 1]
  {
    hide Position, Percentile;
    PercentileAround(sorted, p);
  }

  lemma PositionMonotone(p: real, q: real, n: nat)
    requires 0.0 <= p <= q <= 100.0 && n > 0
    ensures Position(p, n) <= Position(q, n)
  {
    ProductOrdered((n - 1) as real, p / 100.0, q / 100.0);
  }

  lemma FloorMonotone(x: real, y: real)
    requires x <= y
    ensures x.Floor <= y.Floor
  {
  }

  /** Percentiles grow with p. */
  lemma PercentileMonotone(sorted: seq<real>, p: real, q: real)
    requires Sorted(sorted) && sorted != [] && 0.0 <= p <= q <= 100.0
    ensures Percentile(sorted, p) <= Percentile(sorted, q)
  {
    hide Position, Interpolate;
    var i, j := Position(p, |sorted|), Position(q, |sorted|);
    PositionMonotone(p, q, |sorted|);
    FloorMonotone(i, j);
    PositionInRange(p, |sorted|);
    PositionInRange(q, |sorted|);
    if i.Floor < j.Floor {
      hide Percentile;
      PercentileAround(sorted, p);
      PercentileAround(sorted, q);
    } else if i.Floor + 1 < |sorted| {
      InterpolateMonotone(sorted[i.Floor], sorted[i.Floor + 1], i - i.Floor as real, j - i.Floor as real);
    }
  }

  // ---- the series -----------------------------------------------------

  datatype Point = Point(t: int, p50: real, p95: real, p99: real)

  datatype Outcome = Invalid(error: DurationError) | Panics | Series(bucketSize: string, points: seq<Point>)

  /** The start of bucket i on the grid of whole widths. */
  function Label(now: int, window: int, i: int): int
    requires BucketWidth(window) > 0
  {
    var t := now - (BucketCount(window) - 1 - i) * BucketWidth(window);
    t - t % BucketWidth(window)
  }

  function PointFor(t: int, samples: seq<real>): Point {
    if samples == [] then Point(t, 0.0, 0.0, 0.0)
    else
      var sorted := SortedCopy(samples);
      Point(t, Percentile(sorted, 50.0), Percentile(sorted, 95.0), Percentile(sorted, 99.0))
  }

  predicate PointsFor(points: seq<Point>, history: seq<Sample>, now: int, window: int)
    requires BucketWidth(window) > 0
  {
    forall i :: 0 <= i < |points| ==> points[i] == PointFor(Label(now, window, i), Collected(history, now, window, i))
  }

  /** The bucket count is negative exactly for windows of minus a minute and less. */
  lemma NegativeCount(window: int)
    ensures BucketWidth(window) > 0
    ensures BucketCount(window) < 0 <==> window <= -MINUTE
    ensures -MINUTE < window <= 0 ==> BucketCount(window) == 0
  {
    hide CeilDiv;
    WidthOf(window);
    if window > 0 {
      hide BucketWidth;
      BucketBounds(window);
    } else {
      MinuteCount(window);
    }
  }

  lemma MinuteCount(window: int)
    requires window <= 0
    ensures BucketWidth(window) == MINUTE
    ensures CeilDiv(window, MINUTE) < 0 <==> window <= -MINUTE
    ensures -MINUTE < window ==> CeilDiv(window, MINUTE) == 0
  {
    assert TruncDiv(window, 60) <= 0;
  }

  /** Answers a series request. The window must parse; one of minus a minute or
      less panics, and any other outcome has one point per bucket (none for a
      window that is not positive) and a bucket size that parses back to the
      width. */
  method ResponseTimeSeries(window: string, history: seq<Sample>, now: int) returns (r: Outcome)
    ensures Duration(window).Err? <==> r.Invalid?
    ensures r.Invalid? ==> r.error == Duration(window).error
    ensures Duration(window).Ok? ==> var d := Duration(window).value;
      && BucketWidth(d) > 0
      && (r.Panics? <==> d <= -MINUTE)
      && (d > 0 ==> r.Series? && 1 <= |r.points| <= 90)
      && (r.Series? ==>
            && |r.points| == BucketCount(d)
            && PointsFor(r.points, history, now, d)
            && Duration(r.bucketSize) == Ok(BucketWidth(d)))
  {
    hide BucketCount, BucketWidth, Duration, Collected, PointFor, Label, Format;
    var parsed := ParseDuration(window);
    if parsed.Err? {
      return Invalid(parsed.error);
    }
    var d := parsed.value;
    DurationRange(window);
    WidthOf(d);
    NegativeCount(d);
    var width, n := BucketWidth(d), BucketCount(d);
    if d > 0 {
      BucketBounds(d);
    }
    if n < 0 {
      return Panics;
    }
    var buckets := FillBuckets(history, now, d);
    var points, i := [], 0;
    while i < n
      invariant 0 <= i <= n && |points| == i
      invariant PointsFor(points, history, now, d)
    {
      points := points + [PointFor(Label(now, d, i), buckets[i])];
      i := i + 1;
    }
    WholeSeconds(width);
    FormatParses(width);
    r := Series(Format(width), points);
  }

  lemma DurationRange(s: string)
    requires Duration(s).Ok?
    ensures -TWO_63 <= Duration(s).value < TWO_63
  {
  }

  lemma WholeSeconds(d: int)
    requires d % MINUTE == 0
    ensures d % SECOND == 0
  {
    assert d == (d / MINUTE) * 60 * SECOND;
  }

  /** The percentiles of a bucket are ordered and lie within its samples. */
  lemma PointOrdered(t: int, samples: seq<real>, least: real, most: real)
    requires samples != [] && forall x :: x in samples ==> least <= x <= most
    ensures var pt := PointFor(t, samples);
      least <= pt.p50 <= pt.p95 <= pt.p99 <= most
  {
    hide Percentile, SortedCopy;
    var sorted := SortedCopy(samples);
    SortedCopyKeeps(samples);
    assert |multiset(sorted)| == |sorted| && |multiset(samples)| == |samples|;
    assert sorted[0] in multiset(sorted) && sorted[|sorted| - 1] in multiset(sorted);
    assert sorted[0] in samples && sorted[|sorted| - 1] in samples;
    PercentileWithin(sorted, 50.0);
    PercentileWithin(sorted, 99.0);
    PercentileMonotone(sorted, 50.0, 95.0);
    PercentileMonotone(sorted, 95.0, 99.0);
  }

  lemma ModShift(t: int, w: int, k: int)
    requires w > 0
    ensures (t - k * w) % w == t % w
  {
    var q, r := t / w, t % w;
    Distribute(q, k, w);
    UniqueRemainder(t - k * w, w, q - k, r);
  }

  lemma MultipleIsLarge(k: int, w: int)
    requires k != 0 && w > 0
    ensures k * w >= w || k * w <= -w
  {
    if k >= 1 {
      assert (k - 1) * w >= 0;
    } else {
      assert (-1 - k) * w >= 0;
    }
  }

  lemma UniqueRemainder(x: int, w: int, q: int, r: int)
    requires w > 0 && x == q * w + r && 0 <= r < w
    ensures x % w == r
  {
    var p := x / w;
    assert x == p * w + x % w;
    Distribute(p, q, w);
    if p != q {
      MultipleIsLarge(p - q, w);
    }
  }

  lemma Distribute(p: int, q: int, w: int)
    ensures (p - q) * w == p * w - q * w
  {
  }

  /** Neighbouring points are exactly one bucket width apart, and every label
      is on the grid. */
  lemma LabelsEvenlySpaced(now: int, window: int, i: int)
    requires BucketWidth(window) > 0
    ensures Label(now, window, i + 1) == Label(now, window, i) + BucketWidth(window)
    ensures Label(now, window, i) % BucketWidth(window) == 0
  {
    hide BucketWidth, BucketCount;
    var w, back := BucketWidth(window), BucketCount(window) - 1 - i;
    ModShift(now, w, back);
    ModShift(now, w, back - 1);
    assert (back - 1) * w == back * w - w;
    var t := now - back * w;
    assert t - t % w == (t / w) * w;
    UniqueRemainder(t - t % w, w, t / w, 0);
  }
}
