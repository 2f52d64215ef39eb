/**
 * The positional decoder (`temp_extractor`). Every line contributes its
 * first token to the total-time series; a long line also contributes its
 * first token as a time and its tokens 7 and 8 as the temperature pair.
 * float() failures are not caught here: the first one stops the script.
 */
module Positional {
  import opened Wrappers
  import opened Text
  import opened Lookback

  /** The three lists `temp_extractor` returns. */
  datatype Series = Series(
    timeForTemps: seq<real>,     // `data`: token 0 of each long line
    temperatures: seq<Pair>,     // `data1`: tokens 7 and 8 of each long line
    totalTime: seq<seq<real>>)   // `data2`: `float` of `tokens[:1]` for every line

  /** `list(map(float, tokens[:1]))`: empty for a blank line, None where float() raises. */
  function Head(parse: Parser, tokens: seq<string>): (r: Option<seq<real>>)
    ensures tokens == [] ==> r == Some([])
    ensures tokens != [] ==> (r.Some? <==> parse(tokens[0]).Some?)
    ensures tokens != [] && r.Some? ==> r.value == [parse(tokens[0]).value]
  {
    if tokens == [] then Some([])
    else match parse(tokens[0])
      case Some(x) => Some([x])
      case None => None
  }

  /** `list(map(float, tokens[7:9]))` on a long line. */
  function Temperature(parse: Parser, tokens: seq<string>): (r: Option<Pair>)
    requires |tokens| > 9
    ensures r.Some? <==> parse(tokens[7]).Some? && parse(tokens[8]).Some?
    ensures r.Some? ==> Some(r.value.fst) == parse(tokens[7]) && Some(r.value.snd) == parse(tokens[8])
  {
    match (parse(tokens[7]), parse(tokens[8]))
    case (Some(x), Some(y)) => Some(Pair(x, y))
    case _ => None
  }

  /** What one line contributes: its total-time entry, and its time and temperature pair if it is long. */
  datatype Reading = Reading(total: seq<real>, long: Option<(real, Pair)>)

  /** One iteration of the loop body, or None where float() raises. */
  function ReadLine(parse: Parser, tokens: seq<string>): Option<Reading> {
    match Head(parse, tokens)
    case None => None
    case Some(total) =>
      if IsLong(tokens) then
        match Temperature(parse, tokens)
        case None => None
        case Some(pair) => Some(Reading(total, Some((total[0], pair))))
      else Some(Reading(total, None))
  }

  function Add(acc: Series, r: Reading): Series {
    match r.long
    case None => acc.(totalTime := acc.totalTime + [r.total])
    case Some((time, pair)) =>
      Series(acc.timeForTemps + [time], acc.temperatures + [pair], acc.totalTime + [r.total])
  }

  /** The lists after the loop has run over the tokenized lines, or the ValueError that stopped it. */
  function Extract(parse: Parser, rows: seq<seq<string>>): Result<Series, Error> {
    if rows == [] then Ok(Series([], [], []))
    else
      var i := |rows| - 1;
      match Extract(parse, rows[..i])
      case Err(e) => Err(e)
      case Ok(acc) =>
        match ReadLine(parse, rows[i])
        case None => Err(ValueError(i))
        case Some(r) => Ok(Add(acc, r))
  }

  /** Once the loop has raised, later lines change nothing. */
  lemma {:induction false} ErrorIsFinal(parse: Parser, rows: seq<seq<string>>, k: nat)
    requires k <= |rows| && Extract(parse, rows[..k]).Err?
    ensures Extract(parse, rows) == Extract(parse, rows[..k])
    decreases |rows|
  {
    if k < |rows| {
      var init := rows[..|rows| - 1];
      assert init[..k] == rows[..k];
      ErrorIsFinal(parse, init, k);
    } else {
      assert rows[..k] == rows;
    }
  }

  /** `temp_extractor`. */
  method TempExtractor(parse: Parser, lines: seq<string>) returns (r: Result<Series, Error>)
    ensures r == Extract(parse, Tokenize(lines))
  {
    ghost var rows := Tokenize(lines);
    var data: seq<real> := [];
    var data1: seq<Pair> := [];
    var data2: seq<seq<real>> := [];
    for i := 0 to |lines|
      invariant Extract(parse, rows[..i]) == Ok(Series(data, data1, data2))
    {
      assert rows[..i + 1][..i] == rows[..i];
      var variables := Split(lines[i]);
      ghost var read := ReadLine(parse, variables);
      var totalTimeVariable := Head(parse, variables);
      if totalTimeVariable.None? {
        ErrorIsFinal(parse, rows, i + 1);
        return Err(ValueError(i));
      }
      if |variables| > 9 {
        var firstVariableSecs := Head(parse, variables);
        var secondVariable := Temperature(parse, variables);
        if secondVariable.None? {
          ErrorIsFinal(parse, rows, i + 1);
          return Err(ValueError(i));
        }
        assert read == Some(Reading(totalTimeVariable.value, Some((firstVariableSecs.value[0], secondVariable.value))));
        data := data + [firstVariableSecs.value[0]];
        data1 := data1 + [secondVariable.value];
      }
      data2 := data2 + [totalTimeVariable.value];
    }
    assert rows[..|lines|] == rows;
    r := Ok(Series(data, data1, data2));
  }

  /** The line's first token reads as a float, and on a long line so do tokens 7 and 8. */
  predicate Decodes(parse: Parser, tokens: seq<string>) {
    (tokens == [] || parse(tokens[0]).Some?) && (IsLong(tokens) ==> parse(tokens[7]).Some? && parse(tokens[8]).Some?)
  }

  /**
   * The decoder stops with a ValueError exactly when some line does not
   * decode, and the error names the first such line.
   */
  lemma {:induction false} ExtractFailsAtFirstBadLine(parse: Parser, rows: seq<seq<string>>)
    ensures Extract(parse, rows).Ok? <==> forall i :: 0 <= i < |rows| ==> Decodes(parse, rows[i])
    ensures Extract(parse, rows).Err? ==> var e := Extract(parse, rows).error;
      e.ValueError? && e.line < |rows| && !Decodes(parse, rows[e.line])
      && forall j :: 0 <= j < e.line ==> Decodes(parse, rows[j])
  {
    if rows != [] {
      var i := |rows| - 1;
      var init := rows[..i];
      ExtractFailsAtFirstBadLine(parse, init);
      assert forall j :: 0 <= j < i ==> init[j] == rows[j];
    }
  }

  /** On success: one total-time entry per line, and one time and one temperature pair per long line. */
  lemma {:induction false} ExtractLengths(parse: Parser, rows: seq<seq<string>>)
    requires Extract(parse, rows).Ok?
    ensures var s := Extract(parse, rows).value;
      |s.totalTime| == |rows| && |s.timeForTemps| == |s.temperatures| == |LongRows(rows)|
  {
    if rows != [] {
      ExtractLengths(parse, rows[..|rows| - 1]);
    }
  }

  /** On success, the total-time entry of a line is float() of its first token, or empty for a blank line. */
  lemma {:induction false} ExtractTotalTime(parse: Parser, rows: seq<seq<string>>)
    requires Extract(parse, rows).Ok?
    ensures var s := Extract(parse, rows).value;
      |s.totalTime| == |rows|
      && forall i :: 0 <= i < |rows| ==>
           |s.totalTime[i]| == (if rows[i] == [] then 0 else 1)
           && (rows[i] != [] ==> Some(s.totalTime[i][0]) == parse(rows[i][0]))
  {
    ExtractLengths(parse, rows);
    if rows != [] {
      var i := |rows| - 1;
      var init := rows[..i];
      ExtractTotalTime(parse, init);
      assert forall j :: 0 <= j < i ==> init[j] == rows[j];
    }
  }

  /** On success, entry j of the time and temperature lists comes from tokens 0, 7 and 8 of the j-th long line. */
  lemma {:induction false} ExtractLongLines(parse: Parser, rows: seq<seq<string>>)
    requires Extract(parse, rows).Ok?
    ensures var s := Extract(parse, rows).value;
      |s.timeForTemps| == |s.temperatures| == |LongRows(rows)|
      && forall j :: 0 <= j < |s.timeForTemps| ==>
           Some(s.timeForTemps[j]) == parse(LongRows(rows)[j][0])
           && Some(s.temperatures[j].fst) == parse(LongRows(rows)[j][7])
           && Some(s.temperatures[j].snd) == parse(LongRows(rows)[j][8])
  {
    ExtractLengths(parse, rows);
    if rows != [] {
      var init := rows[..|rows| - 1];
      ExtractLongLines(parse, init);
    }
  }
}
