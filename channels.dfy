/**
 * The channel splitter (top-level lines 118-190): rows at even indices go
 * to tank 1 and rows at odd indices to tank 2; each row is unpacked into
 * its two channels; the two temperatures of a row are averaged and the
 * average converted from Celsius to Kelvin.
 */
module Channels {
  import opened Wrappers
  import opened Lookback

  /** Added to a Celsius temperature to get Kelvin. */
  const KelvinOffset: real := 273.15

  /** The entries at indices 0, 2, 4, ... */
  function Evens<T>(s: seq<T>): (r: seq<T>)
    ensures |r| == (|s| + 1) / 2
    ensures forall j :: 0 <= j < |r| ==> r[j] == s[2 * j]
  {
    if |s| <= 1 then s else [s[0]] + Evens(s[2..])
  }

  /** The entries at indices 1, 3, 5, ... */
  function Odds<T>(s: seq<T>): (r: seq<T>)
    ensures |r| == |s| / 2
    ensures forall j :: 0 <= j < |r| ==> r[j] == s[2 * j + 1]
  {
    if |s| <= 1 then [] else [s[1]] + Odds(s[2..])
  }

  /** A sequence holding the even-indexed entries of `s`, in order, is Evens(s). */
  lemma IsEvens<T>(s: seq<T>, r: seq<T>)
    requires |r| == (|s| + 1) / 2
    requires forall j :: 0 <= j < |r| ==> r[j] == s[2 * j]
    ensures r == Evens(s)
  {
  }

  /** A sequence holding the odd-indexed entries of `s`, in order, is Odds(s). */
  lemma IsOdds<T>(s: seq<T>, r: seq<T>)
    requires |r| == |s| / 2
    requires forall j :: 0 <= j < |r| ==> r[j] == s[2 * j + 1]
    ensures r == Odds(s)
  {
  }

  /** Alternates the entries of `a` and `b`, starting with `a`. */
  function Interleave<T>(a: seq<T>, b: seq<T>): seq<T>
    decreases |a|
  {
    if a == [] then []
    else if b == [] then [a[0]]
    else [a[0], b[0]] + Interleave(a[1..], b[1..])
  }

  /** Every row goes to exactly one tank, and alternating the tanks gives the rows back in order. */
  lemma {:induction false} TanksInterleaveToRows<T>(s: seq<T>)
    ensures Interleave(Evens(s), Odds(s)) == s
    decreases |s|
  {
    if |s| >= 2 {
      TanksInterleaveToRows(s[2..]);
      assert Evens(s)[1..] == Evens(s[2..]);
      assert Odds(s)[1..] == Odds(s[2..]);
      assert s == [s[0], s[1]] + s[2..];
    }
  }

  /** `plotting_times`: the even-indexed entries of `time_for_temps` (lines 118-121). */
  method PlottingTimes(timeForTemps: seq<real>) returns (plottingTimes: seq<real>)
    ensures plottingTimes == Evens(timeForTemps)
  {
    plottingTimes := [];
    for i := 0 to |timeForTemps|
      invariant |plottingTimes| == (i + 1) / 2
      invariant forall j :: 0 <= j < |plottingTimes| ==> plottingTimes[j] == timeForTemps[2 * j]
    {
      if i % 2 == 0 {
        plottingTimes := plottingTimes + [timeForTemps[i]];
      }
    }
  }

  /** The pressure and temperature rows of one tank. */
  datatype TankRows = TankRows(pressure: seq<Pair>, temperature: seq<Pair>)

  /**
   * Lines 125-137: even rows of `pressures` and the temperature rows at the
   * same indices to tank 1, odd ones to tank 2. `temperatures[i]` raises
   * IndexError when `temperatures` is shorter than `pressures`.
   */
  method SplitByTank(pressures: seq<Pair>, temperatures: seq<Pair>) returns (r: Result<(TankRows, TankRows), Error>)
    ensures r.Err? <==> |temperatures| < |pressures|
    ensures r.Err? ==> r.error == IndexError
    ensures r.Ok? ==> var n := |pressures|;
      r.value.0 == TankRows(Evens(pressures), Evens(temperatures[..n]))
      && r.value.1 == TankRows(Odds(pressures), Odds(temperatures[..n]))
  {
    var n := |pressures|;
    var tnk1Pressure, tnk1Temperature: seq<Pair> := [], [];
    var i := 0;
    while i < n
      invariant 0 <= i <= n + 1 && i <= |temperatures| + 1
      invariant i == 2 * |tnk1Pressure| && |tnk1Temperature| == |tnk1Pressure|
      invariant forall j :: 0 <= j < |tnk1Pressure| ==> tnk1Pressure[j] == pressures[2 * j] && tnk1Temperature[j] == temperatures[2 * j]
    {
      tnk1Pressure := tnk1Pressure + [pressures[i]];
      if i >= |temperatures| {
        return Err(IndexError);
      }
      tnk1Temperature := tnk1Temperature + [temperatures[i]];
      i := i + 2;
    }
    var tnk2Pressure, tnk2Temperature: seq<Pair> := [], [];
    var k := 1;
    while k < n
      invariant 1 <= k <= n + 1 && k <= |temperatures| + 1
      invariant k == 2 * |tnk2Pressure| + 1 && |tnk2Temperature| == |tnk2Pressure|
      invariant forall j :: 0 <= j < |tnk2Pressure| ==> tnk2Pressure[j] == pressures[2 * j + 1] && tnk2Temperature[j] == temperatures[2 * j + 1]
    {
      tnk2Pressure := tnk2Pressure + [pressures[k]];
      if k >= |temperatures| {
        return Err(IndexError);
      }
      tnk2Temperature := tnk2Temperature + [temperatures[k]];
      k := k + 2;
    }
    if |temperatures| < n {
      // index n - 1 was visited by one of the two loops and would have raised
      assert false;
    }
    ghost var temps := temperatures[..n];
    IsEvens(pressures, tnk1Pressure);
    IsEvens(temps, tnk1Temperature);
    IsOdds(pressures, tnk2Pressure);
    IsOdds(temps, tnk2Temperature);
    r := Ok((TankRows(tnk1Pressure, tnk1Temperature), TankRows(tnk2Pressure, tnk2Temperature)));
  }

  /** One of lines 150-167: `row[0]` and `row[1]` of every row, in two lists. */
  method Unpack(rows: seq<Pair>) returns (firsts: seq<real>, seconds: seq<real>)
    ensures |firsts| == |seconds| == |rows|
    ensures forall j :: 0 <= j < |rows| ==> rows[j] == Pair(firsts[j], seconds[j])
  {
    firsts, seconds := [], [];
    for j := 0 to |rows|
      invariant |firsts| == |seconds| == j
      invariant forall k :: 0 <= k < j ==> rows[k] == Pair(firsts[k], seconds[k])
    {
      firsts := firsts + [rows[j].fst];
      seconds := seconds + [rows[j].snd];
    }
  }

  /** `sum(row) / 2`: the mean of a row's two temperatures. */
  function Midpoint(row: Pair): (m: real)
    ensures row.fst <= row.snd ==> row.fst <= m <= row.snd
    ensures row.snd <= row.fst ==> row.snd <= m <= row.fst
    ensures m - row.fst == row.snd - m
  {
    (row.fst + row.snd) / 2.0
  }

  /**
   * Lines 169-175: the average temperature of every row of each tank,
   * tank 2 indexed by tank 1's range, so that a shorter tank 2 raises IndexError.
   */
  method AverageTemperatures(tnk1: seq<Pair>, tnk2: seq<Pair>) returns (r: Result<(seq<real>, seq<real>), Error>)
    ensures r.Err? <==> |tnk2| < |tnk1|
    ensures r.Err? ==> r.error == IndexError
    ensures r.Ok? ==> |r.value.0| == |r.value.1| == |tnk1|
    ensures r.Ok? ==> forall i :: 0 <= i < |tnk1| ==> r.value.0[i] == Midpoint(tnk1[i]) && r.value.1[i] == Midpoint(tnk2[i])
  {
    var average1, average2: seq<real> := [], [];
    for i := 0 to |tnk1|
      invariant i <= |tnk2|
      invariant |average1| == |average2| == i
      invariant forall k :: 0 <= k < i ==> average1[k] == Midpoint(tnk1[k]) && average2[k] == Midpoint(tnk2[k])
    {
      var averageTemp := (tnk1[i].fst + tnk1[i].snd) / 2.0;
      if i >= |tnk2| {
        return Err(IndexError);
      }
      var averageTemp2 := (tnk2[i].fst + tnk2[i].snd) / 2.0;
      average1 := average1 + [averageTemp];
      average2 := average2 + [averageTemp2];
    }
    r := Ok((average1, average2));
  }

  /** `celsius_to_kelvin` (lines 177-187), which also indexes its second list by the first one's range. */
  method CelsiusToKelvin(tnk1: seq<real>, tnk2: seq<real>) returns (r: Result<(seq<real>, seq<real>), Error>)
    ensures r.Err? <==> |tnk2| < |tnk1|
    ensures r.Err? ==> r.error == IndexError
    ensures r.Ok? ==> |r.value.0| == |r.value.1| == |tnk1|
    ensures r.Ok? ==> forall i :: 0 <= i < |tnk1| ==>
      r.value.0[i] - KelvinOffset == tnk1[i] && r.value.1[i] - KelvinOffset == tnk2[i]
  {
    var output1, output2: seq<real> := [], [];
    for i := 0 to |tnk1|
      invariant i <= |tnk2|
      invariant |output1| == |output2| == i
      invariant forall k :: 0 <= k < i ==> output1[k] == tnk1[k] + KelvinOffset && output2[k] == tnk2[k] + KelvinOffset
    {
      var kelvin1 := tnk1[i] + KelvinOffset;
      if i >= |tnk2| {
        return Err(IndexError);
      }
      var kelvin2 := tnk2[i] + KelvinOffset;
      output1 := output1 + [kelvin1];
      output2 := output2 + [kelvin2];
    }
    r := Ok((output1, output2));
  }

  /** Tank 1 has one row more than tank 2 exactly when the number of rows is odd. */
  lemma TankSizes<T>(s: seq<T>)
    ensures |Evens(s)| == |Odds(s)| || |Evens(s)| == |Odds(s)| + 1
    ensures |Odds(s)| < |Evens(s)| <==> |s| % 2 == 1
  {
  }
}
