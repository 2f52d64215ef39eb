/**
 * The script's top level as far as the tank temperatures go: the data
 * lines of all files are decoded twice (the lookback decoder yields the
 * pressure rows, the positional decoder the temperature rows), the rows
 * are split by tank, averaged, converted to Kelvin and bucketed by day.
 */
module Pipeline {
  import opened Wrappers
  import opened Header
  import opened Lookback
  import opened Positional
  import opened Channels
  import opened Daily

  /**
   * When the positional decoder succeeds, the pressure rows never outnumber
   * the temperature rows, so the split at lines 131-137 never indexes
   * `temperatures` past its end.
   */
  lemma PressuresFitTemperatures(parse: Parser, rows: seq<seq<string>>)
    requires Extract(parse, rows).Ok?
    ensures |Decode(parse, rows).lastTwoPre| <= |Extract(parse, rows).value.temperatures|
    ensures |Decode(parse, rows).lastTwoElements| <= |Extract(parse, rows).value.temperatures|
  {
    AtMostOnePerLongLine(parse, rows);
    ExtractLengths(parse, rows);
  }

  /** What the script computes for the two tanks' temperatures. */
  datatype Outcome = Outcome(
    plottingTimes: seq<real>,        // `plotting_times`
    kelvin1: seq<real>,              // `TNK1C_averageTemp_kelvin`
    kelvin2: seq<real>,              // `TNK2C_averageTemp_kelvin`
    daily1: seq<Option<real>>,       // `Temperature_TNK1C_Dailyaverage`
    daily2: seq<Option<real>>)       // `Temperature_TNK2C_Dailyaverage`

  /**
   * Lines 118-190 and 271-272 on the decoders' results: the run stops with
   * IndexError when `temperatures` is shorter than `pressures` (line 133 or
   * 137) or when the number of pressure rows is odd: tank 1 then has one
   * row more than tank 2, and line 173 indexes tank 2 by tank 1's range.
   */
  method TankTemperatures(pressures: seq<Pair>, series: Series) returns (r: Result<Outcome, Error>)
    ensures r.Err? <==> (|series.temperatures| < |pressures| || |pressures| % 2 == 1)
    ensures r.Err? ==> r.error == IndexError
    ensures r.Ok? ==> var n := |pressures|; var temps := series.temperatures;
      && r.value.plottingTimes == Evens(series.timeForTemps)
      && |r.value.kelvin1| == |r.value.kelvin2| == n / 2
      && (forall j :: 0 <= j < n / 2 ==>
            r.value.kelvin1[j] == Midpoint(temps[2 * j]) + KelvinOffset
            && r.value.kelvin2[j] == Midpoint(temps[2 * j + 1]) + KelvinOffset)
      && |r.value.daily1| == |r.value.daily2| == NumDays
      && (forall i :: 0 <= i < NumDays ==>
            r.value.daily1[i] == Mean(Bucket(r.value.kelvin1, i))
            && r.value.daily2[i] == Mean(Bucket(r.value.kelvin2, i)))
  {
    var plottingTimes := PlottingTimes(series.timeForTemps);
    var split := SplitByTank(pressures, series.temperatures);
    if split.Err? {
      return Err(split.error);
    }
    var tnk1, tnk2 := split.value.0, split.value.1;
    var averages := AverageTemperatures(tnk1.temperature, tnk2.temperature);
    TankSizes(pressures);
    if averages.Err? {
      return Err(averages.error);
    }
    var kelvin := CelsiusToKelvin(averages.value.0, averages.value.1);
    var kelvin1, kelvin2 := kelvin.value.0, kelvin.value.1;
    var daily1 := Average(kelvin1);
    var daily2 := Average(kelvin2);
    r := Ok(Outcome(plottingTimes, kelvin1, kelvin2, daily1, daily2));
  }

  /**
   * The run for the temperatures (lines 37-190 and 271-272). It stops
   * with ValueError when float() refuses a token of the positional decoder,
   * and otherwise with IndexError exactly when the number of pressure rows
   * is odd; the split by tank never fails. The solver and mass code at
   * lines 224-249, which are not modelled, run in between and can stop the
   * script before line 271.
   */
  method TemperaturePipeline(parse: Parser, files: seq<seq<string>>) returns (r: Result<Outcome, Error>)
    ensures var rows := Tokenize(AllData(files));
      r.Err? <==> (Extract(parse, rows).Err? || |Decode(parse, rows).lastTwoPre| % 2 == 1)
    ensures var rows := Tokenize(AllData(files));
      Extract(parse, rows).Err? ==> r == Err(Extract(parse, rows).error)
    ensures var rows := Tokenize(AllData(files));
      Extract(parse, rows).Ok? && r.Err? ==> r.error == IndexError
    ensures r.Ok? ==> var rows := Tokenize(AllData(files));
      var series := Extract(parse, rows).value;
      var n := |Decode(parse, rows).lastTwoPre|;
      var temps := series.temperatures;
      && r.value.plottingTimes == Evens(series.timeForTemps)
      && n <= |temps|
      && |r.value.kelvin1| == |r.value.kelvin2| == n / 2
      && (forall j :: 0 <= j < n / 2 ==>
            r.value.kelvin1[j] == Midpoint(temps[2 * j]) + KelvinOffset
            && r.value.kelvin2[j] == Midpoint(temps[2 * j + 1]) + KelvinOffset)
      && |r.value.daily1| == |r.value.daily2| == NumDays
      && (forall i :: 0 <= i < NumDays ==>
            r.value.daily1[i] == Mean(Bucket(r.value.kelvin1, i))
            && r.value.daily2[i] == Mean(Bucket(r.value.kelvin2, i)))
  {
    var allData := ReadAll(files);
    var lastTwoElements, pressures := DataExtract(parse, allData);
    var extracted := TempExtractor(parse, allData);
    if extracted.Err? {
      return Err(extracted.error);
    }
    PressuresFitTemperatures(parse, Tokenize(allData));
    r := TankTemperatures(pressures, extracted.value);
  }
}
