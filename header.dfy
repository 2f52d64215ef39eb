/**
 * The header skipper (`podaacHeaderSkipper`) and the accumulation of every
 * file's data lines into one stream. A file is its sequence of lines, as
 * `readline` yields them; opening and reading the file is not modelled.
 */
module Header {
  import opened Wrappers
  import opened Text

  /** First stripped line of the one-line header form starts with this. */
  const ShortHeaderMarker: string := "tSDS"
  /** The line that ends the multi-line (YAML) header form, once stripped. */
  const YamlTerminator: string := "# End of YAML header"

  /** The line, once stripped, is the YAML terminator. */
  predicate IsTerminator(line: string) {
    Strip(line) == YamlTerminator
  }

  /** The file opens with the one-line header form. An empty file reads its first line as "". */
  predicate ShortHeader(lines: seq<string>) {
    |lines| > 0 && StartsWith(Strip(lines[0]), ShortHeaderMarker)
  }

  /** Every line stripped, as the YAML loop compares them. */
  function StripAll(lines: seq<string>): (stripped: seq<string>)
    ensures |stripped| == |lines|
    ensures forall j :: 0 <= j < |lines| ==> stripped[j] == Strip(lines[j])
  {
    seq(|lines|, j requires 0 <= j < |lines| => Strip(lines[j]))
  }

  /** The first index `from` or later whose stripped line is the terminator. */
  function FindTerminator(stripped: seq<string>, from: nat): (r: Option<nat>)
    ensures r.Some? ==> from <= r.value < |stripped| && stripped[r.value] == YamlTerminator
    ensures r.Some? ==> forall j :: from <= j < r.value ==> stripped[j] != YamlTerminator
    ensures r.None? <==> forall j :: from <= j < |stripped| ==> stripped[j] != YamlTerminator
    decreases |stripped| - from
  {
    if from >= |stripped| then None
    else if stripped[from] == YamlTerminator then Some(from)
    else FindTerminator(stripped, from + 1)
  }

  /**
   * The lines `podaacHeaderSkipper` returns. The one-line form discards two
   * lines: the header line and the line read after it. The YAML form never
   * tests line 0 (it was consumed by the first read) and discards everything
   * up to and including the first terminator; without one nothing is left.
   */
  function DataLines(lines: seq<string>): seq<string> {
    if ShortHeader(lines) then lines[if |lines| < 2 then |lines| else 2..]
    else YamlData(lines)
  }

  /** The YAML form: what follows the first terminator after line 0, or nothing. */
  function YamlData(lines: seq<string>): seq<string> {
    match FindTerminator(StripAll(lines), 1)
    case Some(k) => lines[k + 1..]
    case None => []
  }

  /** The skipper as a cursor that reads a line at a time and stops at the terminator. */
  method SkipHeader(lines: seq<string>) returns (data: seq<string>)
    ensures data == DataLines(lines)
  {
    ghost var stripped := StripAll(lines);
    var cursor := 0;
    var nextLine := "";
    if cursor < |lines| {
      nextLine := lines[cursor];
      cursor := cursor + 1;
    }
    nextLine := Strip(nextLine);
    if StartsWith(nextLine, ShortHeaderMarker) {
      if cursor < |lines| {
        cursor := cursor + 1;
      }
    } else {
      var found := false;
      while cursor < |lines| && !found
        invariant lines != [] ==> 1 <= cursor <= |lines|
        invariant lines == [] ==> cursor == 0
        invariant !found ==> forall j :: 1 <= j < cursor ==> stripped[j] != YamlTerminator
        invariant found ==> FindTerminator(stripped, 1) == Some(cursor - 1)
      {
        var line := lines[cursor];
        cursor := cursor + 1;
        if Strip(line) == YamlTerminator {
          found := true;
          FirstTerminatorAt(stripped, cursor - 1);
        }
      }
      assert !found ==> FindTerminator(stripped, 1).None?;
    }
    data := lines[cursor..];
  }

  /** With the one-line header form the data is the file minus its first two lines. */
  lemma ShortHeaderDropsTwoLines(lines: seq<string>)
    requires |lines| > 0 && StartsWith(Strip(lines[0]), ShortHeaderMarker)
    ensures |lines| >= 2 ==> DataLines(lines) == lines[2..]
    ensures |lines| < 2 ==> DataLines(lines) == []
  {
  }

  /** With the YAML form the data starts right after the first terminator at index 1 or later. */
  lemma YamlHeaderEndsAtFirstTerminator(lines: seq<string>, k: nat)
    requires !ShortHeader(lines)
    requires 1 <= k < |lines| && IsTerminator(lines[k])
    requires forall j :: 1 <= j < k ==> !IsTerminator(lines[j])
    ensures DataLines(lines) == lines[k + 1..]
  {
    var stripped := StripAll(lines);
    assert stripped[k] == YamlTerminator;
    assert forall j :: 1 <= j < k ==> stripped[j] != YamlTerminator;
    FirstTerminatorAt(stripped, k);
  }

  lemma FirstTerminatorAt(stripped: seq<string>, k: nat)
    requires 1 <= k < |stripped| && stripped[k] == YamlTerminator
    requires forall j :: 1 <= j < k ==> stripped[j] != YamlTerminator
    ensures FindTerminator(stripped, 1) == Some(k)
  {
    var r := FindTerminator(stripped, 1);
    assert !(r.value < k) && !(k < r.value);
  }

  /** With the YAML form and no terminator after line 0, no data is left. */
  lemma YamlHeaderWithoutTerminator(lines: seq<string>)
    requires !ShortHeader(lines)
    requires forall j :: 1 <= j < |lines| ==> !IsTerminator(lines[j])
    ensures DataLines(lines) == []
  {
  }

  /** Line 0 is never compared with the terminator: only whether it opens the short form matters. */
  lemma FirstLineNeverCompared(lines: seq<string>, other: string)
    requires |lines| > 0
    requires !ShortHeader(lines) && !StartsWith(Strip(other), ShortHeaderMarker)
    ensures DataLines(lines[0 := other]) == DataLines(lines)
  {
    var alt := lines[0 := other];
    assert !ShortHeader(alt);
    YamlDataSkipsFirstLine(lines, other);
  }

  lemma YamlDataSkipsFirstLine(lines: seq<string>, other: string)
    requires |lines| > 0
    ensures YamlData(lines[0 := other]) == YamlData(lines)
  {
    var alt := lines[0 := other];
    assert FindTerminator(StripAll(alt), 1) == FindTerminator(StripAll(lines), 1) by {
      FindTerminatorAgrees(StripAll(lines), StripAll(alt), 1);
    }
    var found := FindTerminator(StripAll(lines), 1);
    if found.Some? {
      assert alt[found.value + 1..] == lines[found.value + 1..];
    }
  }

  /** FindTerminator looks only at lines `from` and later. */
  lemma {:induction false} FindTerminatorAgrees(a: seq<string>, b: seq<string>, from: nat)
    requires |a| == |b|
    requires forall j :: from <= j < |a| ==> a[j] == b[j]
    ensures FindTerminator(a, from) == FindTerminator(b, from)
    decreases |a| - from
  {
    if from < |a| {
      FindTerminatorAgrees(a, b, from + 1);
    }
  }

  /** Every data line is a line of the file, in the same order: the result is a suffix. */
  lemma DataLinesIsSuffix(lines: seq<string>)
    ensures |DataLines(lines)| <= |lines|
    ensures DataLines(lines) == lines[|lines| - |DataLines(lines)|..]
  {
    var data := DataLines(lines);
    var start := if ShortHeader(lines) then (if |lines| < 2 then |lines| else 2)
      else match FindTerminator(StripAll(lines), 1)
        case Some(k) => k + 1
        case None => |lines|;
    assert data == lines[start..];
  }

  /** `all_data`: the data lines of every file, concatenated in file order. */
  function AllData(files: seq<seq<string>>): seq<string> {
    if files == [] then [] else DataLines(files[0]) + AllData(files[1..])
  }

  lemma {:induction false} AllDataAppend(files: seq<seq<string>>, f: seq<string>)
    ensures AllData(files + [f]) == AllData(files) + DataLines(f)
  {
    if files == [] {
      assert files + [f] == [f];
      assert AllData([f]) == DataLines(f) + AllData([]);
    } else {
      var rest := files[1..];
      assert (files + [f])[0] == files[0] && (files + [f])[1..] == rest + [f];
      AllDataAppend(rest, f);
    }
  }

  lemma AllDataStep(files: seq<seq<string>>, i: nat)
    requires i < |files|
    ensures AllData(files[..i + 1]) == AllData(files[..i]) + DataLines(files[i])
  {
    assert files[..i + 1] == files[..i] + [files[i]];
    AllDataAppend(files[..i], files[i]);
  }

  /** The loop that skips each file's header and extends `all_data` with the rest. */
  method ReadAll(files: seq<seq<string>>) returns (allData: seq<string>)
    ensures allData == AllData(files)
  {
    allData := [];
    for i := 0 to |files|
      invariant allData == AllData(files[..i])
    {
      var fileData := SkipHeader(files[i]);
      AllDataStep(files, i);
      allData := allData + fileData;
    }
    assert files[..|files|] == files;
  }
}
