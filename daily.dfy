/**
 * Daily bucketing (`average`): a series is cut into `NumDays` contiguous
 * buckets of `len(data) // NumDays` entries each, and each bucket is
 * reduced to its mean. The last `len(data) % NumDays` entries fall in no
 * bucket. `np.mean` of an empty bucket is NaN, written None here.
 */
module Daily {
  import opened Wrappers

  /** Days in the processing window, as the source writes it: `2*31 + 29`. */
  const NumDays: nat := 2 * 31 + 29

  /** `data_points_per_day`. */
  function PointsPerDay(n: nat): nat {
    n / NumDays
  }

  function Sum(s: seq<real>): real {
    if s == [] then 0.0 else Sum(s[..|s| - 1]) + s[|s| - 1]
  }

  /** `np.mean`: the sum over the length, or None (NaN) for an empty slice. */
  function Mean(s: seq<real>): (m: Option<real>)
    ensures m.None? <==> s == []
  {
    if s == [] then None else Some(Sum(s) / (|s| as real))
  }

  lemma MulMono(a: nat, b: nat, k: nat)
    requires a <= b
    ensures a * k <= b * k
  {
  }

  /** Day `i`'s bucket ends inside the data, and the whole days leave `n % NumDays` entries over. */
  lemma DayBounds(n: nat, i: nat)
    requires i < NumDays
    ensures var k := PointsPerDay(n); i * k + k == (i + 1) * k <= NumDays * k <= n
    ensures NumDays * PointsPerDay(n) + n % NumDays == n
  {
    var k := PointsPerDay(n);
    MulMono(i + 1, NumDays, k);
    assert (i + 1) * k == i * k + k;
  }

  /** `data[start_index:end_index]` for day `i`. */
  function Bucket(data: seq<real>, i: nat): (b: seq<real>)
    requires i < NumDays
    ensures |b| == PointsPerDay(|data|)
  {
    var k := PointsPerDay(|data|);
    DayBounds(|data|, i);
    data[i * k..i * k + k]
  }

  /** `average`. */
  method Average(data: seq<real>) returns (dailyAverages: seq<Option<real>>)
    ensures |dailyAverages| == NumDays
    ensures forall i :: 0 <= i < NumDays ==> dailyAverages[i] == Mean(Bucket(data, i))
  {
    var numDays := 2 * 31 + 29;
    var dataPointsPerDay := |data| / numDays;
    dailyAverages := [];
    for i := 0 to numDays
      invariant |dailyAverages| == i
      invariant forall j :: 0 <= j < i ==> dailyAverages[j] == Mean(Bucket(data, j))
    {
      var startIndex := i * dataPointsPerDay;
      var endIndex := startIndex + dataPointsPerDay;
      DayBounds(|data|, i);
      var dailyData := data[startIndex..endIndex];
      dailyAverages := dailyAverages + [Mean(dailyData)];
    }
  }

  /** The buckets of days 0 .. m-1, laid end to end. */
  function Tiled(data: seq<real>, m: nat): seq<real>
    requires m <= NumDays
  {
    if m == 0 then [] else Tiled(data, m - 1) + Bucket(data, m - 1)
  }

  lemma PrefixExtends(data: seq<real>, a: nat, b: nat)
    requires a <= b <= |data|
    ensures data[..a] + data[a..b] == data[..b]
  {
  }

  /**
   * The first `m` buckets are disjoint and contiguous and in order: laid
   * end to end they are exactly the first `m * PointsPerDay` entries.
   */
  /** Day `d - 1` ends where day `d` starts, inside the data. */
  lemma DayEnds(n: nat, d: nat)
    requires 0 < d <= NumDays
    ensures var k := PointsPerDay(n); (d - 1) * k + k == d * k <= n
  {
    var k := PointsPerDay(n);
    MulMono(d, NumDays, k);
    assert (d - 1) * k + k == d * k;
  }

  lemma {:induction false} BucketsTile(data: seq<real>, m: nat)
    requires m <= NumDays
    ensures Tiled(data, m) == data[..m * PointsPerDay(|data|)]
  {
    if m > 0 {
      var k := PointsPerDay(|data|);
      var a, b := (m - 1) * k, m * k;
      DayEnds(|data|, m);
      BucketsTile(data, m - 1);
      assert Bucket(data, m - 1) == data[a..b];
      PrefixExtends(data, a, b);
    }
  }

  /** All the buckets together cover the prefix of length `NumDays * PointsPerDay`; the rest is the remainder. */
  lemma BucketsCoverPrefix(data: seq<real>)
    ensures Tiled(data, NumDays) == data[..NumDays * PointsPerDay(|data|)]
    ensures |data| - NumDays * PointsPerDay(|data|) == |data| % NumDays
  {
    BucketsTile(data, NumDays);
    DayBounds(|data|, 0);
  }

  /** A series whose length is a multiple of NumDays is covered completely. */
  lemma EvenSeriesFullyCovered(data: seq<real>, k: nat)
    requires |data| == NumDays * k
    ensures PointsPerDay(|data|) == k
    ensures Tiled(data, NumDays) == data
  {
    assert PointsPerDay(|data|) == k by {
      var q, r := |data| / NumDays, |data| % NumDays;
      assert NumDays * q + r == NumDays * k && 0 <= r < NumDays;
      assert NumDays * (k - q) == r;
    }
    BucketsCoverPrefix(data);
    assert data[..|data|] == data;
  }

  /** With fewer entries than days every bucket is empty, so every daily mean is NaN. */
  lemma ShortSeriesGivesNoMeans(data: seq<real>, i: nat)
    requires |data| < NumDays && i < NumDays
    ensures Mean(Bucket(data, i)).None?
  {
  }

  /** Entry i is the bucket's sum over PointsPerDay when that is positive, and NaN otherwise. */
  lemma DailyMeanIsSumOverPointsPerDay(data: seq<real>, i: nat)
    requires i < NumDays
    ensures PointsPerDay(|data|) > 0 ==>
      Mean(Bucket(data, i)) == Some(Sum(Bucket(data, i)) / (PointsPerDay(|data|) as real))
    ensures PointsPerDay(|data|) == 0 ==> Mean(Bucket(data, i)) == None
  {
  }

  lemma {:induction false} SumBounds(s: seq<real>, lo: real, hi: real)
    requires forall j :: 0 <= j < |s| ==> lo <= s[j] <= hi
    ensures (|s| as real) * lo <= Sum(s) <= (|s| as real) * hi
  {
    if s != [] {
      SumBounds(s[..|s| - 1], lo, hi);
    }
  }

  /** A daily mean lies between the smallest and the largest entry of its bucket. */
  lemma MeanWithinBounds(s: seq<real>, lo: real, hi: real)
    requires s != []
    requires forall j :: 0 <= j < |s| ==> lo <= s[j] <= hi
    ensures lo <= Mean(s).value <= hi
  {
    SumBounds(s, lo, hi);
    var n := |s| as real;
    assert n * lo <= Sum(s) <= n * hi;
    assert Mean(s).value == Sum(s) / n;
  }

  /** A bucket of equal readings has that reading as its mean. */
  lemma MeanOfConstant(s: seq<real>, c: real)
    requires s != []
    requires forall j :: 0 <= j < |s| ==> s[j] == c
    ensures Mean(s) == Some(c)
  {
    SumBounds(s, c, c);
    var n := |s| as real;
    assert Sum(s) == n * c;
    assert (n * c) / n == c;
  }
}
