/**
 * The lookback decoder (`data_extract`): a pass over the data lines with a
 * two-line window. On every long line (more than 9 tokens) it tries to read
 * a pressure pair from the last two tokens of the line one back and of the
 * line two back. A token float() refuses ends the iteration at once (the
 * `continue` in the source), which also skips the window update.
 *
 * The specification functions work on tokenized lines: all the source
 * ever does with a line, current or remembered, is `split()` it.
 */
module Lookback {
  import opened Wrappers
  import opened Text

  /** A two-element row of floats: `[x, y]` in the source. */
  datatype Pair = Pair(fst: real, snd: real)

  /** Python's `float()` on one token: its value, or None where it raises ValueError. */
  type Parser = string -> Option<real>

  /** `line.split()` for every line. */
  function Tokenize(lines: seq<string>): (rows: seq<seq<string>>)
    ensures |rows| == |lines|
    ensures forall i :: 0 <= i < |lines| ==> rows[i] == Split(lines[i])
  {
    seq(|lines|, i requires 0 <= i < |lines| => Split(lines[i]))
  }

  /** The tokens of a remembered line, if there is one. */
  function TokensOf(line: Option<string>): Option<seq<string>> {
    match line
    case None => None
    case Some(l) => Some(Split(l))
  }

  /** A line with more than 9 whitespace-separated tokens. */
  predicate IsLong(tokens: seq<string>) {
    |tokens| > 9
  }

  /** The long lines, in order. */
  function LongRows(rows: seq<seq<string>>): (long: seq<seq<string>>)
    ensures |long| <= |rows|
    ensures forall j :: 0 <= j < |long| ==> IsLong(long[j])
  {
    if rows == [] then []
    else LongRows(rows[..|rows| - 1]) + (if IsLong(rows[|rows| - 1]) then [rows[|rows| - 1]] else [])
  }

  /** A new line joins the long lines at the end exactly when it is long itself. */
  lemma LongRowsAppend(rows: seq<seq<string>>, r: seq<string>)
    ensures LongRows(rows + [r]) == LongRows(rows) + (if IsLong(r) then [r] else [])
  {
    assert (rows + [r])[..|rows|] == rows;
  }

  /** Every long line is kept, and every kept row is a long line of the input. */
  lemma {:induction false} LongRowsKeepsEveryLongLine(rows: seq<seq<string>>)
    ensures forall i :: 0 <= i < |rows| && IsLong(rows[i]) ==> rows[i] in LongRows(rows)
    ensures forall j :: 0 <= j < |LongRows(rows)| ==> LongRows(rows)[j] in rows
  {
    if rows != [] {
      var init, last := rows[..|rows| - 1], rows[|rows| - 1];
      LongRowsKeepsEveryLongLine(init);
      assert rows == init + [last];
      LongRowsAppend(init, last);
      forall i | 0 <= i < |rows| && IsLong(rows[i])
        ensures rows[i] in LongRows(rows)
      {
        if i < |init| {
          assert rows[i] == init[i];
        }
      }
    }
  }

  /** `list(map(float, tokens[-2:]))`: both of the last two tokens as floats, or None where float() raises. */
  function LastTwo(parse: Parser, tokens: seq<string>): (r: Option<Pair>)
    requires |tokens| >= 2
    ensures r.Some? <==> parse(tokens[|tokens| - 2]).Some? && parse(tokens[|tokens| - 1]).Some?
    ensures r.Some? ==> Some(r.value.fst) == parse(tokens[|tokens| - 2]) && Some(r.value.snd) == parse(tokens[|tokens| - 1])
  {
    match (parse(tokens[|tokens| - 2]), parse(tokens[|tokens| - 1]))
    case (Some(x), Some(y)) => Some(Pair(x, y))
    case _ => None
  }

  /** What trying one lookback line gives. */
  datatype Attempt = NotTried | Parsed(pair: Pair) | Refused

  /** Trying a lookback line: not tried when it is absent or has fewer than two tokens. */
  function TryLine(parse: Parser, line: Option<seq<string>>): (a: Attempt)
    ensures a.NotTried? <==> (line.None? || |line.value| < 2)
    ensures !a.NotTried? ==> (a.Parsed? <==> LastTwo(parse, line.value).Some?)
    ensures a.Parsed? ==> LastTwo(parse, line.value) == Some(a.pair)
  {
    if line.None? || |line.value| < 2 then NotTried
    else match LastTwo(parse, line.value)
      case Some(p) => Parsed(p)
      case None => Refused
  }

  /** The decoder's variables between two iterations; the window lines are held as their tokens. */
  datatype Window = Window(
    previousLine: Option<seq<string>>,
    preprevios: Option<seq<string>>,
    lastTwoElements: seq<Pair>,
    lastTwoPre: seq<Pair>)

  const Start := Window(None, None, [], [])

  /** Lines 79-80: the window moves on by one line. */
  function Shift(w: Window, line: seq<string>): Window {
    w.(preprevios := w.previousLine, previousLine := Some(line))
  }

  /** One iteration of the loop body, on one line. */
  function Step(parse: Parser, w: Window, line: seq<string>): Window {
    if !IsLong(line) then Shift(w, line)
    else
      match TryLine(parse, w.previousLine)
      case Refused => w
      case NotTried => TwoBack(parse, w, line)
      case Parsed(p) => TwoBack(parse, w.(lastTwoElements := w.lastTwoElements + [p]), line)
  }

  /** Lines 69-80 of a long line's iteration: the two-back attempt, then the window update. */
  function TwoBack(parse: Parser, w: Window, line: seq<string>): Window {
    match TryLine(parse, w.preprevios)
    case Refused => w
    case NotTried => Shift(w, line)
    case Parsed(p) => Shift(w.(lastTwoPre := w.lastTwoPre + [p]), line)
  }

  /** The variables after the loop has run over the tokenized lines `rows`. */
  function Decode(parse: Parser, rows: seq<seq<string>>): Window {
    if rows == [] then Start
    else Step(parse, Decode(parse, rows[..|rows| - 1]), rows[|rows| - 1])
  }

  /**
   * Lines 60-67 (or 69-76) for one lookback line: split it and read its last
   * two tokens when it exists and has at least two of them.
   */
  method ReadLookback(parse: Parser, line: Option<string>) returns (a: Attempt)
    ensures a == TryLine(parse, TokensOf(line))
  {
    a := NotTried;
    if line.Some? {
      var variables := Split(line.value);
      if |variables| >= 2 {
        var lastTwo := LastTwo(parse, variables);
        a := if lastTwo.None? then Refused else Parsed(lastTwo.value);
      }
    }
  }

  /** A long line whose one-back line is refused leaves every variable as it was. */
  lemma StepStopsAtOneBack(parse: Parser, w: Window, line: seq<string>)
    requires IsLong(line) && TryLine(parse, w.previousLine).Refused?
    ensures Step(parse, w, line) == w
  {
  }

  /** A long line whose one-back line is not refused goes on to the two-back attempt. */
  lemma StepGoesTwoBack(parse: Parser, w: Window, line: seq<string>, oneBack: Attempt)
    requires IsLong(line) && oneBack == TryLine(parse, w.previousLine) && !oneBack.Refused?
    ensures Step(parse, w, line)
         == TwoBack(parse, if oneBack.Parsed? then w.(lastTwoElements := w.lastTwoElements + [oneBack.pair]) else w, line)
  {
  }

  /** A refused two-back line leaves the variables as the one-back attempt left them. */
  lemma TwoBackStops(parse: Parser, w: Window, line: seq<string>)
    requires TryLine(parse, w.preprevios).Refused?
    ensures TwoBack(parse, w, line) == w
  {
  }

  /** Otherwise the two-back attempt ends with the window update. */
  lemma TwoBackShifts(parse: Parser, w: Window, line: seq<string>, twoBack: Attempt)
    requires twoBack == TryLine(parse, w.preprevios) && !twoBack.Refused?
    ensures TwoBack(parse, w, line)
         == Shift(if twoBack.Parsed? then w.(lastTwoPre := w.lastTwoPre + [twoBack.pair]) else w, line)
  {
  }

  lemma DecodeSnoc(parse: Parser, rows: seq<seq<string>>, i: nat)
    requires i < |rows|
    ensures Decode(parse, rows[..i + 1]) == Step(parse, Decode(parse, rows[..i]), rows[i])
  {
    assert rows[..i + 1][..i] == rows[..i];
  }

  /** `data_extract`: returns `last_two_elements` (one back) and `last_two_pre` (two back). */
  method DataExtract(parse: Parser, lines: seq<string>) returns (lastTwoElements: seq<Pair>, lastTwoPre: seq<Pair>)
    ensures lastTwoElements == Decode(parse, Tokenize(lines)).lastTwoElements
    ensures lastTwoPre == Decode(parse, Tokenize(lines)).lastTwoPre
  {
    ghost var rows := Tokenize(lines);
    lastTwoElements, lastTwoPre := [], [];
    var previousLine: Option<string> := None;
    var preprevios: Option<string> := None;
    for i := 0 to |lines|
      invariant Window(TokensOf(previousLine), TokensOf(preprevios), lastTwoElements, lastTwoPre)
             == Decode(parse, rows[..i])
    {
      var line := lines[i];
      var variables := Split(line);
      ghost var before := Window(TokensOf(previousLine), TokensOf(preprevios), lastTwoElements, lastTwoPre);
      DecodeSnoc(parse, rows, i);
      if |variables| > 9 {
        var oneBack := ReadLookback(parse, previousLine);
        if oneBack.Refused? {
          StepStopsAtOneBack(parse, before, variables);
          continue;
        }
        if oneBack.Parsed? {
          lastTwoElements := lastTwoElements + [oneBack.pair];
        }
        StepGoesTwoBack(parse, before, variables, oneBack);
        ghost var middle := Window(TokensOf(previousLine), TokensOf(preprevios), lastTwoElements, lastTwoPre);
        var twoBack := ReadLookback(parse, preprevios);
        if twoBack.Refused? {
          TwoBackStops(parse, middle, variables);
          continue;
        }
        if twoBack.Parsed? {
          lastTwoPre := lastTwoPre + [twoBack.pair];
        }
        TwoBackShifts(parse, middle, variables, twoBack);
      }
      preprevios := previousLine;
      previousLine := Some(line);
    }
    assert rows[..|lines|] == rows;
  }

  /** The lookback line exists, has at least two tokens, and its last two tokens read as `p`. */
  predicate Offers(parse: Parser, line: Option<seq<string>>, p: Pair) {
    line.Some? && var t := line.value;
    |t| >= 2 && parse(t[|t| - 2]) == Some(p.fst) && parse(t[|t| - 1]) == Some(p.snd)
  }

  /** The lookback line exists, has at least two tokens, and float() raises on one of the last two. */
  predicate Refuses(parse: Parser, line: Option<seq<string>>) {
    line.Some? && var t := line.value;
    |t| >= 2 && (parse(t[|t| - 2]).None? || parse(t[|t| - 1]).None?)
  }

  lemma TryLineMeaning(parse: Parser, line: Option<seq<string>>)
    ensures TryLine(parse, line).Refused? <==> Refuses(parse, line)
    ensures forall p :: TryLine(parse, line) == Parsed(p) <==> Offers(parse, line, p)
  {
  }

  lemma TwoBackKeepsOneBack(parse: Parser, w: Window, line: seq<string>)
    ensures TwoBack(parse, w, line).lastTwoElements == w.lastTwoElements
    ensures TwoBack(parse, w, line).lastTwoPre == w.lastTwoPre
        || TwoBack(parse, w, line).lastTwoPre == w.lastTwoPre + [TryLine(parse, w.preprevios).pair]
  {
  }

  /** A pair joins `lastTwoElements` exactly when the line is long and the line one back offers it. */
  lemma OneBackAppends(parse: Parser, w: Window, line: seq<string>, p: Pair)
    ensures Step(parse, w, line).lastTwoElements == w.lastTwoElements + [p]
        <==> IsLong(line) && Offers(parse, w.previousLine, p)
  {
    TryLineMeaning(parse, w.previousLine);
    TwoBackKeepsOneBack(parse, w, line);
    TwoBackKeepsOneBack(parse, w.(lastTwoElements := w.lastTwoElements + [p]), line);
    if TryLine(parse, w.previousLine).Parsed? {
      var q := TryLine(parse, w.previousLine).pair;
      assert w.lastTwoElements + [q] == w.lastTwoElements + [p] ==> q == p by {
        assert (w.lastTwoElements + [q])[|w.lastTwoElements|] == q;
      }
      TwoBackKeepsOneBack(parse, w.(lastTwoElements := w.lastTwoElements + [q]), line);
    }
  }

  /** Otherwise `lastTwoElements` is left as it was. */
  lemma OneBackOtherwiseKept(parse: Parser, w: Window, line: seq<string>)
    requires !IsLong(line) || !TryLine(parse, w.previousLine).Parsed?
    ensures Step(parse, w, line).lastTwoElements == w.lastTwoElements
  {
    TwoBackKeepsOneBack(parse, w, line);
  }

  /**
   * A pair joins `lastTwoPre` exactly when the line is long, the one-back
   * attempt did not raise, and the line two back offers the pair. In
   * particular a refused one-back line means no two-back attempt at all.
   */
  lemma TwoBackAppends(parse: Parser, w: Window, line: seq<string>, p: Pair)
    ensures Step(parse, w, line).lastTwoPre == w.lastTwoPre + [p]
        <==> IsLong(line) && !Refuses(parse, w.previousLine) && Offers(parse, w.preprevios, p)
  {
    TryLineMeaning(parse, w.previousLine);
    TryLineMeaning(parse, w.preprevios);
    var a := w.lastTwoPre + [p];
    if TryLine(parse, w.preprevios).Parsed? {
      var q := TryLine(parse, w.preprevios).pair;
      assert w.lastTwoPre + [q] == a ==> q == p by {
        assert (w.lastTwoPre + [q])[|w.lastTwoPre|] == q;
      }
    }
    assert w.lastTwoPre != a by { assert |a| == |w.lastTwoPre| + 1; }
  }

  /** Otherwise `lastTwoPre` is left as it was. */
  lemma TwoBackOtherwiseKept(parse: Parser, w: Window, line: seq<string>)
    requires !IsLong(line) || Refuses(parse, w.previousLine) || !TryLine(parse, w.preprevios).Parsed?
    ensures Step(parse, w, line).lastTwoPre == w.lastTwoPre
  {
    TryLineMeaning(parse, w.previousLine);
  }

  /**
   * The window keeps its old lines when a long line's lookback raised (the
   * `continue` skips lines 79-80); after every other line it moves on by one.
   */
  lemma WindowUpdate(parse: Parser, w: Window, line: seq<string>)
    ensures var r := Step(parse, w, line);
      if IsLong(line) && (Refuses(parse, w.previousLine) || Refuses(parse, w.preprevios))
      then r.previousLine == w.previousLine && r.preprevios == w.preprevios
      else r.previousLine == Some(line) && r.preprevios == w.previousLine
  {
    TryLineMeaning(parse, w.previousLine);
    TryLineMeaning(parse, w.preprevios);
  }

  /** Each long line adds at most one pair to each list, and a short line adds none. */
  lemma {:induction false} AtMostOnePerLongLine(parse: Parser, rows: seq<seq<string>>)
    ensures |Decode(parse, rows).lastTwoElements| <= |LongRows(rows)|
    ensures |Decode(parse, rows).lastTwoPre| <= |LongRows(rows)|
  {
    if rows != [] {
      var init, last := rows[..|rows| - 1], rows[|rows| - 1];
      var w := Decode(parse, init);
      AtMostOnePerLongLine(parse, init);
      TwoBackKeepsOneBack(parse, w, last);
      if TryLine(parse, w.previousLine).Parsed? {
        TwoBackKeepsOneBack(parse, w.(lastTwoElements := w.lastTwoElements + [TryLine(parse, w.previousLine).pair]), last);
      }
    }
  }

  predicate IsPrefix(a: seq<Pair>, b: seq<Pair>) {
    |a| <= |b| && b[..|a|] == a
  }

  lemma StepGrows(parse: Parser, w: Window, line: seq<string>)
    ensures IsPrefix(w.lastTwoElements, Step(parse, w, line).lastTwoElements)
    ensures IsPrefix(w.lastTwoPre, Step(parse, w, line).lastTwoPre)
  {
    TwoBackKeepsOneBack(parse, w, line);
    if TryLine(parse, w.previousLine).Parsed? {
      TwoBackKeepsOneBack(parse, w.(lastTwoElements := w.lastTwoElements + [TryLine(parse, w.previousLine).pair]), line);
    }
  }

  /** Pairs once appended are never removed: the lists only grow at the end. */
  lemma {:induction false} DecodeExtends(parse: Parser, rows: seq<seq<string>>, k: nat)
    requires k <= |rows|
    ensures IsPrefix(Decode(parse, rows[..k]).lastTwoElements, Decode(parse, rows).lastTwoElements)
    ensures IsPrefix(Decode(parse, rows[..k]).lastTwoPre, Decode(parse, rows).lastTwoPre)
    decreases |rows|
  {
    if k == |rows| {
      assert rows[..k] == rows;
    } else {
      var init := rows[..|rows| - 1];
      assert init[..k] == rows[..k];
      DecodeExtends(parse, init, k);
      StepGrows(parse, Decode(parse, init), rows[|rows| - 1]);
    }
  }

  /** The first line has nothing to look back on, and the first two lines nothing two back. */
  lemma FirstLinesLookBackOnNothing(parse: Parser, rows: seq<seq<string>>)
    ensures |rows| >= 1 ==> Decode(parse, rows[..1]).lastTwoElements == []
    ensures |rows| >= 2 ==> Decode(parse, rows[..2]).lastTwoPre == []
  {
    if |rows| >= 1 {
      assert rows[..1][..0] == [];
    }
    if |rows| >= 2 {
      assert rows[..2][..1] == rows[..1];
    }
  }
}
