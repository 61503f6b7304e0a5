/** The intensity statistics of an image: the share of pixels at zero, at the
    dtype's maximum, and in each of `num_bins` equal ranges in between. */
module ImageStatistics {
  import opened Wrappers

  /** `np.iinfo(dtype)` of an integer dtype: its smallest and largest values. */
  datatype IntegerDType = IntegerDType(minimum: int, maximum: int)

  /** A two-dimensional integer array, its values in row-major order. */
  datatype IntArray2 = IntArray2(dtype: IntegerDType, height: nat, width: nat, data: seq<int>) {

    /** The array holds `height * width` values, each representable in its
        dtype, and the dtype's maximum is positive, as for every numpy integer dtype. */
    predicate Valid() {
      dtype.maximum > 0 && dtype.minimum <= 0
      && |data| == height * width
      && forall i :: 0 <= i < |data| ==> dtype.minimum <= data[i] <= dtype.maximum
    }

    function Size(): nat { height * width }
  }

  /** What `analyze_image` may be handed. */
  datatype ImageInput = NoneInput | NotAnArray | ArrayInput(pixels: IntArray2)

  datatype StatsError =
    | ImageIsNone      // ValueError: the image is None
    | NotAnNdArray     // TypeError: the image is not a numpy array
    | NoPixels         // ValueError: the image has no pixels
    | BinsNotPositive  // ValueError from np.histogram: fewer than one bin

  /** The label of one entry: the range below the first edge, a bin between two
      edges, or the dtype's maximum. */
  datatype RangeLabel = MinRange(upper: real) | BinRange(lower: real, upper: real) | MaxRange(maximum: int)

  /** One entry of the returned dictionary, its percentage as a number. */
  datatype Stat = Stat(span: RangeLabel, percent: real)

  function IsValue(v: int): int -> bool
  {
    x => x == v
  }

  /** `(img == v).sum()`. */
  function CountEqual(data: seq<int>, v: int): (n: nat)
    ensures n <= |data|
  {
    |Filter(data, IsValue(v))|
  }

  /** The mask `(img > 0) & (img < max_val)`. */
  function Inside(maxVal: int): int -> bool
  {
    x => 0 < x < maxVal
  }

  /** Edge `i` of `np.histogram(..., bins, range=(0, max_val))`. */
  function Edge(i: nat, bins: nat, maxVal: int): real
    requires bins > 0
  {
    (i * maxVal) as real / bins as real
  }

  /** Whether a value falls in bin `i`, the half-open range between edges `i` and `i + 1`. */
  function InBin(i: nat, bins: nat, maxVal: int): int -> bool
  {
    x => i * maxVal <= x * bins < (i + 1) * maxVal
  }

  /** The bin of a value strictly between 0 and the maximum. */
  function BinOf(x: int, bins: nat, maxVal: int): (b: nat)
    requires bins > 0 && 0 < x < maxVal
    ensures b < bins
    ensures InBin(b, bins, maxVal)(x)
    ensures forall i: nat :: InBin(i, bins, maxVal)(x) ==> i == b
  {
    var b := (x * bins) / maxVal;
    BinOfFloor(x, bins, maxVal);
    b
  }

  /** The floor of `x * bins / maxVal` is the one bin holding `x`. */
  lemma BinOfFloor(x: int, bins: nat, maxVal: int)
    requires bins > 0 && 0 < x < maxVal
    ensures 0 <= (x * bins) / maxVal < bins
    ensures InBin((x * bins) / maxVal, bins, maxVal)(x)
    ensures forall i: nat :: InBin(i, bins, maxVal)(x) ==> i == (x * bins) / maxVal
  {
    var n := x * bins;
    var b := n / maxVal;
    FloorDivisionBounds(n, maxVal);
    MultiplyStrict(x, maxVal, bins);
    assert b * maxVal < bins * maxVal;
    MultiplyCancel(b, bins, maxVal);
    forall i: nat | InBin(i, bins, maxVal)(x)
      ensures i == b
    {
      BinsAreDisjoint(i, b, n, maxVal);
    }
  }

  /** Two half-open bins holding the same scaled value are the same bin. */
  lemma BinsAreDisjoint(i: int, b: int, n: int, maxVal: int)
    requires maxVal > 0
    requires i * maxVal <= n < (i + 1) * maxVal
    requires b * maxVal <= n < (b + 1) * maxVal
    ensures i == b
  {
    MultiplyCancel(i, b + 1, maxVal);
    MultiplyCancel(b, i + 1, maxVal);
  }

  lemma FloorDivisionBounds(n: int, d: int)
    requires d > 0
    ensures (n / d) * d <= n < (n / d + 1) * d
  {
    var q, r := n / d, n % d;
    assert n == q * d + r;
    assert (q + 1) * d == q * d + d;
  }

  lemma MultiplyStrict(a: int, b: int, c: int)
    requires a < b && c > 0
    ensures a * c < b * c
  {
    assert b * c == a * c + (b - a) * c;
  }

  /** A positive factor can be cancelled from a strict inequality. */
  lemma MultiplyCancel(a: int, b: int, c: int)
    requires c > 0 && a * c < b * c
    ensures a < b
  {
    assert (b - a) * c == b * c - a * c;
  }

  /** `np.histogram(filtered, bins, range=(0, max_val))[0]`. */
  function Histogram(filtered: seq<int>, bins: nat, maxVal: int): (h: seq<nat>)
    ensures |h| == bins
  {
    seq(bins, i requires 0 <= i < bins => |Filter(filtered, InBin(i, bins, maxVal))|)
  }

  function Sum(s: seq<nat>): nat
  {
    if |s| == 0 then 0 else s[0] + Sum(s[1..])
  }

  /** `count / total_pixels * 100`. */
  function Percent(count: nat, total: nat): real
    requires total > 0
  {
    count as real / total as real * 100.0
  }

  function PercentSum(stats: seq<Stat>): real
  {
    if |stats| == 0 then 0.0 else stats[0].percent + PercentSum(stats[1..])
  }

  /** The dictionary `analyze_image` builds for a valid, non-empty array, in its
      insertion order: the zero entry, one entry per bin, the maximum entry. */
  function StatsOf(a: IntArray2, bins: nat): (stats: seq<Stat>)
    requires a.Valid() && a.Size() > 0 && bins > 0
    ensures |stats| == bins + 2
    ensures stats[0] == Stat(MinRange(Edge(1, bins, a.dtype.maximum)), Percent(CountEqual(a.data, 0), a.Size()))
    ensures stats[bins + 1] == Stat(MaxRange(a.dtype.maximum), Percent(CountEqual(a.data, a.dtype.maximum), a.Size()))
    ensures forall i :: 0 <= i < bins ==>
      stats[i + 1] == BinStat(Histogram(Filter(a.data, Inside(a.dtype.maximum)), bins, a.dtype.maximum), i, a)
  {
    var maxVal := a.dtype.maximum;
    var hist := Histogram(Filter(a.data, Inside(maxVal)), bins, maxVal);
    [Stat(MinRange(Edge(1, bins, maxVal)), Percent(CountEqual(a.data, 0), a.Size()))]
    + seq(bins, i requires 0 <= i < bins => BinStat(hist, i, a))
    + [Stat(MaxRange(maxVal), Percent(CountEqual(a.data, maxVal), a.Size()))]
  }

  /** The entry of bin `i`, labelled by its two edges. */
  function BinStat(hist: seq<nat>, i: nat, a: IntArray2): Stat
    requires a.Size() > 0 && i < |hist|
  {
    Stat(BinRange(Edge(i, |hist|, a.dtype.maximum), Edge(i + 1, |hist|, a.dtype.maximum)), Percent(hist[i], a.Size()))
  }

  /** `analyze_image(img_data, num_bins)` for a two-dimensional integer array. */
  method AnalyzeImage(input: ImageInput, numBins: int) returns (r: Result<seq<Stat>, StatsError>)
    requires input.ArrayInput? ==> input.pixels.Valid()
    ensures input.NoneInput? <==> r == Failure(ImageIsNone)
    ensures input.NotAnArray? <==> r == Failure(NotAnNdArray)
    ensures input.ArrayInput? && input.pixels.Size() == 0 <==> r == Failure(NoPixels)
    ensures input.ArrayInput? && input.pixels.Size() > 0 && numBins < 1 <==> r == Failure(BinsNotPositive)
    ensures input.ArrayInput? && input.pixels.Size() > 0 && numBins >= 1 ==>
      r == Success(StatsOf(input.pixels, numBins))
  {
    if input.NoneInput? {
      return Failure(ImageIsNone);
    }
    if input.NotAnArray? {
      return Failure(NotAnNdArray);
    }
    var a := input.pixels;
    var maxVal := a.dtype.maximum;
    var total := a.Size();
    if total == 0 {
      return Failure(NoPixels);
    }
    if numBins < 1 {
      return Failure(BinsNotPositive);
    }
    var minPixels := CountEqual(a.data, 0);
    var maxPixels := CountEqual(a.data, maxVal);
    var filtered := Filter(a.data, Inside(maxVal));
    var hist := Histogram(filtered, numBins, maxVal);

    var first := Stat(MinRange(Edge(1, numBins, maxVal)), Percent(minPixels, total));
    var stats := [first];
    var i := 0;
    while i < numBins
      invariant 0 <= i <= numBins
      invariant |stats| == i + 1
      invariant stats[0] == first
      invariant forall j :: 0 <= j < i ==> stats[j + 1] == BinStat(hist, j, a)
    {
      stats := stats + [Stat(BinRange(Edge(i, numBins, maxVal), Edge(i + 1, numBins, maxVal)), Percent(hist[i], total))];
      i := i + 1;
    }
    stats := stats + [Stat(MaxRange(maxVal), Percent(maxPixels, total))];
    StatsOfEntries(a, numBins, stats);
    r := Success(stats);
  }

  /** A list with the zero entry first, the bin entries in order and the
      maximum entry last is the statistics of the array. */
  lemma StatsOfEntries(a: IntArray2, bins: nat, stats: seq<Stat>)
    requires a.Valid() && a.Size() > 0 && bins > 0
    requires |stats| == bins + 2
    requires stats[0] == Stat(MinRange(Edge(1, bins, a.dtype.maximum)), Percent(CountEqual(a.data, 0), a.Size()))
    requires stats[bins + 1] == Stat(MaxRange(a.dtype.maximum), Percent(CountEqual(a.data, a.dtype.maximum), a.Size()))
    requires forall i :: 0 <= i < bins ==>
      stats[i + 1] == BinStat(Histogram(Filter(a.data, Inside(a.dtype.maximum)), bins, a.dtype.maximum), i, a)
    ensures stats == StatsOf(a, bins)
  {
    var expected := StatsOf(a, bins);
    forall k | 0 <= k < |stats|
      ensures stats[k] == expected[k]
    {
      if 0 < k <= bins {
        assert stats[(k - 1) + 1] == expected[(k - 1) + 1];
      }
    }
  }

  /** Zero, the maximum and the values strictly between account for every
      pixel exactly when no pixel is negative; a negative pixel is counted nowhere. */
  lemma {:induction false} PixelsArePartitioned(data: seq<int>, maxVal: int)
    requires maxVal > 0
    requires forall i :: 0 <= i < |data| ==> data[i] <= maxVal
    ensures CountEqual(data, 0) + CountEqual(data, maxVal) + |Filter(data, Inside(maxVal))| <= |data|
    ensures CountEqual(data, 0) + CountEqual(data, maxVal) + |Filter(data, Inside(maxVal))| == |data|
      <==> forall i :: 0 <= i < |data| ==> data[i] >= 0
    decreases |data|
  {
    if |data| > 0 {
      var init, x := data[..|data| - 1], data[|data| - 1];
      assert data == init + [x];
      PixelsArePartitioned(init, maxVal);
      CountedStep(init, x, maxVal);
      assert (forall i :: 0 <= i < |data| ==> data[i] >= 0)
         <==> (forall i :: 0 <= i < |init| ==> init[i] >= 0) && x >= 0 by {
        forall i | 0 <= i < |init| ensures init[i] == data[i] { }
      }
    }
  }

  /** One more pixel adds one to the accounted pixels, unless it is negative. */
  lemma CountedStep(init: seq<int>, x: int, maxVal: int)
    requires 0 < maxVal && x <= maxVal
    ensures CountEqual(init + [x], 0) + CountEqual(init + [x], maxVal) + |Filter(init + [x], Inside(maxVal))|
         == CountEqual(init, 0) + CountEqual(init, maxVal) + |Filter(init, Inside(maxVal))| + (if x >= 0 then 1 else 0)
  {
    FilterStep(init, x, IsValue(0));
    FilterStep(init, x, IsValue(maxVal));
    FilterStep(init, x, Inside(maxVal));
  }

  /** Adding one to one count adds one to the total. */
  lemma {:induction false} SumIncrement(s: seq<nat>, j: nat)
    requires j < |s|
    ensures Sum(s[j := s[j] + 1]) == Sum(s) + 1
  {
    if j > 0 {
      SumIncrement(s[1..], j - 1);
      assert s[j := s[j] + 1][1..] == s[1..][j - 1 := s[j] + 1];
    }
  }

  /** Every value strictly between 0 and the maximum lands in exactly one bin,
      so the histogram counts each filtered pixel once. */
  lemma {:induction false} HistogramCountsEveryValue(filtered: seq<int>, bins: nat, maxVal: int)
    requires bins > 0
    requires forall i :: 0 <= i < |filtered| ==> 0 < filtered[i] < maxVal
    ensures Sum(Histogram(filtered, bins, maxVal)) == |filtered|
    decreases |filtered|
  {
    if |filtered| == 0 {
      ZeroSum(Histogram(filtered, bins, maxVal));
    } else {
      var init, x := filtered[..|filtered| - 1], filtered[|filtered| - 1];
      assert filtered == init + [x];
      HistogramCountsEveryValue(init, bins, maxVal);
      var before := Histogram(init, bins, maxVal);
      var b := BinOf(x, bins, maxVal);
      forall i | 0 <= i < bins
        ensures Histogram(filtered, bins, maxVal)[i] == before[b := before[b] + 1][i]
      {
        FilterStep(init, x, InBin(i, bins, maxVal));
      }
      assert Histogram(filtered, bins, maxVal) == before[b := before[b] + 1];
      SumIncrement(before, b);
    }
  }

  lemma {:induction false} ZeroSum(s: seq<nat>)
    requires forall i :: 0 <= i < |s| ==> s[i] == 0
    ensures Sum(s) == 0
  {
    if |s| > 0 {
      ZeroSum(s[1..]);
    }
  }

  /** The percentages of the bins add up to the percentage of their total count. */
  lemma {:induction false} BinPercentagesAdd(hist: seq<nat>, a: IntArray2, bins: nat)
    requires a.Size() > 0 && |hist| == bins
    ensures PercentSum(seq(bins, i requires 0 <= i < bins => BinStat(hist, i, a)))
         == Percent(Sum(hist), a.Size())
  {
    var k := 0;
    var tail := seq(bins, i requires 0 <= i < bins => BinStat(hist, i, a));
    while k < bins
      invariant 0 <= k <= bins
      invariant PercentSum(tail[bins - k..]) == Percent(Sum(hist[bins - k..]), a.Size())
    {
      var j := bins - k - 1;
      assert tail[j..][1..] == tail[j + 1..];
      assert hist[j..][1..] == hist[j + 1..];
      assert tail[j].percent == Percent(hist[j], a.Size());
      PercentAdds(hist[j], Sum(hist[j + 1..]), a.Size());
      k := k + 1;
    }
    assert tail[0..] == tail && hist[0..] == hist;
  }

  lemma PercentAdds(x: nat, y: nat, total: nat)
    requires total > 0
    ensures Percent(x, total) + Percent(y, total) == Percent(x + y, total)
  {
  }

  lemma PercentSumAppend(a: seq<Stat>, b: seq<Stat>)
    ensures PercentSum(a + b) == PercentSum(a) + PercentSum(b)
    decreases |a|
  {
    if |a| > 0 {
      assert (a + b)[0] == a[0];
      assert (a + b)[1..] == a[1..] + b;
      PercentSumAppend(a[1..], b);
    } else {
      assert a + b == b;
    }
  }

  /** The percentages of the returned entries add up to 100 exactly when no
      pixel is negative; the divisor is the full pixel count, so each entry is
      a share of the whole image. */
  lemma PercentagesSumToHundred(a: IntArray2, bins: nat)
    requires a.Valid() && a.Size() > 0 && bins > 0
    ensures PercentSum(StatsOf(a, bins)) == 100.0
      <==> forall i :: 0 <= i < |a.data| ==> a.data[i] >= 0
  {
    var maxVal := a.dtype.maximum;
    var counted := CountEqual(a.data, 0) + CountEqual(a.data, maxVal) + |Filter(a.data, Inside(maxVal))|;
    StatsShareOfCounted(a, bins);
    PixelsArePartitioned(a.data, maxVal);
    PercentIsHundred(counted, a.Size());
  }

  /** The percentages of the entries add up to the share of the pixels that
      are zero, the maximum or in between. */
  lemma StatsShareOfCounted(a: IntArray2, bins: nat)
    requires a.Valid() && a.Size() > 0 && bins > 0
    ensures PercentSum(StatsOf(a, bins)) == Percent(CountEqual(a.data, 0)
      + CountEqual(a.data, a.dtype.maximum) + |Filter(a.data, Inside(a.dtype.maximum))|, a.Size())
  {
    var maxVal := a.dtype.maximum;
    var filtered := Filter(a.data, Inside(maxVal));
    var hist := Histogram(filtered, bins, maxVal);
    var stats := StatsOf(a, bins);
    var middle := seq(bins, i requires 0 <= i < bins => BinStat(hist, i, a));
    assert stats == [stats[0]] + middle + [stats[bins + 1]];
    ThreePartPercentSum(stats[0], middle, stats[bins + 1]);
    BinPercentagesAdd(hist, a, bins);
    FilteredValuesAreInside(a.data, maxVal);
    HistogramCountsEveryValue(filtered, bins, maxVal);
    PercentOfThree(CountEqual(a.data, 0), |filtered|, CountEqual(a.data, maxVal), a.Size());
  }

  lemma ThreePartPercentSum(first: Stat, middle: seq<Stat>, last: Stat)
    ensures PercentSum([first] + middle + [last]) == first.percent + PercentSum(middle) + last.percent
  {
    PercentSumAppend([first] + middle, [last]);
    PercentSumAppend([first], middle);
    assert PercentSum([last]) == last.percent;
    assert PercentSum([first]) == first.percent;
  }

  lemma FilteredValuesAreInside(data: seq<int>, maxVal: int)
    ensures forall i :: 0 <= i < |Filter(data, Inside(maxVal))| ==> 0 < Filter(data, Inside(maxVal))[i] < maxVal
  {
    var filtered := Filter(data, Inside(maxVal));
    forall i | 0 <= i < |filtered|
      ensures 0 < filtered[i] < maxVal
    {
      FilterMembers(data, Inside(maxVal), filtered[i]);
    }
  }

  lemma PercentOfThree(x: nat, y: nat, z: nat, total: nat)
    requires total > 0
    ensures Percent(x, total) + Percent(y, total) + Percent(z, total) == Percent(x + z + y, total)
  {
    PercentAdds(x, y, total);
    PercentAdds(x + y, z, total);
    assert x + y + z == x + z + y;
  }

  /** A count is 100 percent of the total exactly when it is the total. */
  lemma PercentIsHundred(count: nat, total: nat)
    requires total > 0
    ensures Percent(count, total) == 100.0 <==> count == total
  {
    var ratio := count as real / total as real;
    assert ratio * total as real == count as real;
  }
}
