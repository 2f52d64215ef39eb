# GRACE-FO tank telemetry: header skipping, record decoding, tank split, daily means

This project models the data-handling core of `Monthly_Data_TNKC_MethodB.py`. That script reads a
GRACE-FO level-1A tank telemetry (TNK1A) file for each day from January to March 2020, removes each
file's preamble, and concatenates the remaining lines. From those lines it decodes:

- the two lookback pressure series (`data_extract`);
- the time and temperature series (`temp_extractor`).

It then splits the rows between the two tanks by parity. It unpacks each row, averages each
temperature pair and converts the average to Kelvin. Finally it reduces every per-tank series to 91
daily means (`average`).

The model is imperative where the script is. Each loop of the script is a Dafny `method` with a
`while` or `for` loop. Each method is proved against a specification function. For example:

- `SkipHeader` is proved against `DataLines`;
- `DataExtract` is proved against `Decode`, a fold of the loop body `Step` over the tokenized lines;
- `TempExtractor` is proved against `Extract`;
- `Average` is proved against `Bucket` and `Mean`.

The properties the script relies on are proved as lemmas over those functions.

Modules, one per stage:

- `Wrappers`: `Option`, `Result`, and the two Python errors the run can raise:
  - `ValueError(line)`, when `float()` refuses a token;
  - `IndexError`, when a list is indexed past its end.
- `Text`: `str.strip()`, `str.split()` and `startswith`, with whitespace being the characters for
  which Python's `str.isspace()` holds.
- `Header`: `podaacHeaderSkipper` over an in-memory file (a `seq<string>` of lines, each with the
  line break that `readline` leaves on it removed), and the accumulation of `all_data`.
- `Lookback`: `data_extract`, the two-line window decoder.
- `Positional`: `temp_extractor`, the positional decoder.
- `Channels`: the parity split, unpacking, averaging and Kelvin loops.
- `Daily`: `average`, the fixed-size daily buckets and their means.
- `Pipeline`: the stages composed as the script runs them, for the temperature series.

Conventions:

- `float()` is a parameter `parse: string -> Option<real>`. `None` means `float()` raises
  `ValueError`.
- Numbers are exact reals. A pair of tokens is `Pair(fst, snd)`.
- `np.mean` of an empty slice (NaN in numpy) is `None`.
- An `IndexError` or an uncaught `ValueError`, both of which stop the script, becomes an `Err`
  result rather than a precondition.

Behaviour of the code that the model follows:

- After a first line that starts with `tSDS`, the code reads and discards one more line before
  `readlines`, so two lines are dropped, not one.
- A missing YAML terminator is not an error: the `for` loop consumes the file and the result is
  empty.
- An empty daily bucket gives NaN, not an exception.
- A `float()` failure in `temp_extractor` is not caught. It stops the run, so failures are not
  localised to one record.
- The averaging loop at lines 171-175 indexes tank 2 by tank 1's range. It therefore raises
  `IndexError` whenever the number of pressure rows is odd. `Pipeline.TemperaturePipeline` states
  the exact error condition of lines 37-190 and 271-272. The solver and mass code between them
  (lines 224-249) is not modelled and can end the run before line 271 is reached.

## Model

| member | source | states |
|---|---|---|
| Text.Strip | Monthly_Data_TNKC_MethodB.py:25 | the stripped line is no longer than the line and neither starts nor ends with whitespace |
| Text.StripIsTrim | Monthly_Data_TNKC_MethodB.py:25 | stripping is trimming leading whitespace and then trailing whitespace |
| Text.TrimLeft | Monthly_Data_TNKC_MethodB.py:25 | the result is a suffix of the line, what was removed is all whitespace, and the result does not start with whitespace |
| Text.TrimRight | Monthly_Data_TNKC_MethodB.py:25 | the result is a prefix of the line, what was removed is all whitespace, and the result does not end with whitespace |
| Text.Word | Monthly_Data_TNKC_MethodB.py:56 | a token is the longest whitespace-free prefix of the text |
| Text.SplitTokens | Monthly_Data_TNKC_MethodB.py:56 | every token `split()` yields is non-empty and contains no whitespace |
| Text.SplitJoin | Monthly_Data_TNKC_MethodB.py:56 | splitting the space-joined tokens gives back exactly those tokens |
| Text.SplitAfterSpace | Monthly_Data_TNKC_MethodB.py:56 | a leading run of whitespace, of any kind and length, does not change the tokens |
| Text.SplitOfSpace | Monthly_Data_TNKC_MethodB.py:56 | a text of whitespace only, the empty text included, has no tokens |
| Text.SplitOfWord | Monthly_Data_TNKC_MethodB.py:56 | after any whitespace, a non-empty whitespace-free run that ends the text or is followed by whitespace is the first token, and the tokens of the rest follow it. Together with `Text.SplitOfSpace` this fixes `split()` on every input, runs of spaces and tabs included |
| Header.FindTerminator | Monthly_Data_TNKC_MethodB.py:29-31 | it finds the first line at or after the start that strips to the YAML terminator, and it finds none exactly when no such line exists |
| Header.SkipHeader | Monthly_Data_TNKC_MethodB.py:23-34 | the cursor loop returns exactly the data lines `DataLines` defines |
| Header.ShortHeaderDropsTwoLines | Monthly_Data_TNKC_MethodB.py:25-33 | after a first line starting with `tSDS`, the data is the file without its first two lines, or empty for a shorter file |
| Header.YamlHeaderEndsAtFirstTerminator | Monthly_Data_TNKC_MethodB.py:29-33 | otherwise the data is everything after the first line at index 1 or later that strips to `# End of YAML header` |
| Header.YamlHeaderWithoutTerminator | Monthly_Data_TNKC_MethodB.py:29-33 | without such a line, the data is empty |
| Header.FirstLineNeverCompared | Monthly_Data_TNKC_MethodB.py:25-31 | in a YAML-header file, the first line is never compared with the terminator: replacing it by another non-`tSDS` line leaves the data unchanged |
| Header.DataLinesIsSuffix | Monthly_Data_TNKC_MethodB.py:33 | the data is always a suffix of the file |
| Header.AllDataAppend | Monthly_Data_TNKC_MethodB.py:40-42 | each file extends `all_data` by exactly its own data lines |
| Header.ReadAll | Monthly_Data_TNKC_MethodB.py:37-42 | the loop over the files builds the concatenation of every file's data lines, in file order |
| Lookback.LongRows | Monthly_Data_TNKC_MethodB.py:59 | the selected rows all have more than 9 tokens, and there are no more of them than lines |
| Lookback.LongRowsAppend | Monthly_Data_TNKC_MethodB.py:59 | a further line is appended to the long lines exactly when it has more than 9 tokens, and nothing else changes, so the long lines keep their order |
| Lookback.LongRowsKeepsEveryLongLine | Monthly_Data_TNKC_MethodB.py:59 | every line with more than 9 tokens is among the long lines, and every long line is a line of the input |
| Lookback.LastTwo | Monthly_Data_TNKC_MethodB.py:64 | the pair is defined exactly when both of the last two tokens parse, and it is those two values in order |
| Lookback.TryLine | Monthly_Data_TNKC_MethodB.py:60-76 | a lookback line is skipped when it is absent or has fewer than two tokens. Otherwise it yields its last two values, or an error when either does not parse |
| Lookback.TryLineMeaning | Monthly_Data_TNKC_MethodB.py:60-76 | an attempt raises exactly when the line exists, has at least two tokens and one of its last two does not parse. It yields a pair exactly when both parse to that pair |
| Lookback.ReadLookback | Monthly_Data_TNKC_MethodB.py:60-67 | splitting a lookback line and parsing its last two tokens gives the attempt `TryLine` defines |
| Lookback.DataExtract | Monthly_Data_TNKC_MethodB.py:46-84 | the loop returns both lookback lists of `Decode`, the fold of the loop body over the tokenized lines |
| Lookback.OneBackAppends | Monthly_Data_TNKC_MethodB.py:59-65 | `last_two_elements` gains a pair exactly when the line is long and the previous line offers that pair (it exists, has at least two tokens, and its last two parse to it) |
| Lookback.OneBackOtherwiseKept | Monthly_Data_TNKC_MethodB.py:59-67 | in every other case, `last_two_elements` is unchanged |
| Lookback.TwoBackAppends | Monthly_Data_TNKC_MethodB.py:59-74 | `last_two_pre` gains a pair exactly when the line is long, the one-back attempt did not raise, and the line two back offers that pair |
| Lookback.TwoBackOtherwiseKept | Monthly_Data_TNKC_MethodB.py:59-76 | in every other case, including a one-back failure that skips the two-back attempt, `last_two_pre` is unchanged |
| Lookback.TwoBackKeepsOneBack | Monthly_Data_TNKC_MethodB.py:69-80 | the two-back attempt and the window update never touch `last_two_elements` |
| Lookback.WindowUpdate | Monthly_Data_TNKC_MethodB.py:63-80 | a long line whose lookback raises leaves both window lines unchanged, because `continue` skips the update. After every other line the window shifts by one |
| Lookback.AtMostOnePerLongLine | Monthly_Data_TNKC_MethodB.py:59-76 | neither list is longer than the number of lines with more than 9 tokens |
| Lookback.StepGrows | Monthly_Data_TNKC_MethodB.py:59-76 | one iteration only ever appends to the two lists |
| Lookback.DecodeExtends | Monthly_Data_TNKC_MethodB.py:54-80 | the lists decoded from a prefix of the lines are prefixes of those from all the lines |
| Lookback.FirstLinesLookBackOnNothing | Monthly_Data_TNKC_MethodB.py:51-52 | the first line contributes nothing one back, and the first two lines contribute nothing two back |
| Positional.Head | Monthly_Data_TNKC_MethodB.py:100 | `map(float, variables[:1])` is empty for a blank line, and otherwise defined exactly when token 0 parses, as that one value |
| Positional.Temperature | Monthly_Data_TNKC_MethodB.py:105 | the temperature pair is defined exactly when tokens 7 and 8 parse, and it is those values in order |
| Positional.ErrorIsFinal | Monthly_Data_TNKC_MethodB.py:96-107 | once a line raises, the lines after it make no difference |
| Positional.TempExtractor | Monthly_Data_TNKC_MethodB.py:90-112 | the loop returns what `Extract` defines, including the first line's `ValueError` |
| Positional.ExtractFailsAtFirstBadLine | Monthly_Data_TNKC_MethodB.py:96-107 | the decoder succeeds exactly when every line decodes. Otherwise its error names the first line that does not decode |
| Positional.ExtractLengths | Monthly_Data_TNKC_MethodB.py:96-107 | `total_time` has one entry per line. `data` and `data1` each have one entry per line with more than 9 tokens |
| Positional.ExtractTotalTime | Monthly_Data_TNKC_MethodB.py:99-107 | entry i of `total_time` is float() of line i's first token, or empty for a blank line |
| Positional.ExtractLongLines | Monthly_Data_TNKC_MethodB.py:102-106 | entry j of `data` is token 0 of the j-th long line, and entry j of `data1` is its tokens 7 and 8 |
| Channels.Evens | Monthly_Data_TNKC_MethodB.py:131-133 | keeps indices 0, 2, 4, ... in order, that is ceil(N/2) entries |
| Channels.Odds | Monthly_Data_TNKC_MethodB.py:135-137 | keeps indices 1, 3, 5, ... in order, that is floor(N/2) entries |
| Channels.TanksInterleaveToRows | Monthly_Data_TNKC_MethodB.py:131-137 | interleaving the two tanks' rows gives back the original rows, so the split loses and duplicates nothing |
| Channels.TankSizes | Monthly_Data_TNKC_MethodB.py:131-137 | tank 1 has as many rows as tank 2 or one more, and one more exactly when the count is odd |
| Channels.PlottingTimes | Monthly_Data_TNKC_MethodB.py:118-121 | `plotting_times` is the even-indexed entries of `time_for_temps` |
| Channels.SplitByTank | Monthly_Data_TNKC_MethodB.py:125-137 | raises IndexError exactly when `temperatures` is shorter than `pressures`. Otherwise tank 1 gets the even rows of both and tank 2 the odd rows, with temperatures taken at the pressure indices |
| Channels.Unpack | Monthly_Data_TNKC_MethodB.py:139-167 | the two column lists have one entry per row, and row j is the pair of their entries j |
| Channels.Midpoint | Monthly_Data_TNKC_MethodB.py:172-173 | the average of a pair lies between its two values, at equal distance from both |
| Channels.AverageTemperatures | Monthly_Data_TNKC_MethodB.py:169-175 | raises IndexError exactly when tank 2 has fewer rows than tank 1. Otherwise entry i of each list is the mean of that tank's pair i |
| Channels.CelsiusToKelvin | Monthly_Data_TNKC_MethodB.py:177-187 | raises IndexError exactly when the second list is shorter than the first. Otherwise both outputs have the first list's length, and element i is the input plus 273.15 |
| Daily.Mean | Monthly_Data_TNKC_MethodB.py:264 | the mean is missing (NaN) exactly for an empty slice |
| Daily.Bucket | Monthly_Data_TNKC_MethodB.py:259-261 | every bucket has `len(data) // 91` elements |
| Daily.Average | Monthly_Data_TNKC_MethodB.py:253-267 | exactly 91 entries, and entry i is the mean of `data[i*k : i*k+k]` with k = `len(data) // 91` |
| Daily.DayBounds | Monthly_Data_TNKC_MethodB.py:255-261 | every day's slice ends within the data, and 91·k plus the remainder is the length |
| Daily.BucketsTile | Monthly_Data_TNKC_MethodB.py:257-261 | the first m buckets, concatenated in order, are exactly the prefix of length m·k, so they are contiguous and disjoint |
| Daily.BucketsCoverPrefix | Monthly_Data_TNKC_MethodB.py:254-261 | the 91 buckets cover exactly the prefix of length 91·k, and the last `len(data) % 91` elements fall in no bucket |
| Daily.EvenSeriesFullyCovered | Monthly_Data_TNKC_MethodB.py:254-261 | a series of exactly 91·k elements is covered completely, k per day |
| Daily.ShortSeriesGivesNoMeans | Monthly_Data_TNKC_MethodB.py:255-264 | with fewer than 91 points, every bucket is empty and every daily mean is missing |
| Daily.DailyMeanIsSumOverPointsPerDay | Monthly_Data_TNKC_MethodB.py:264 | when k > 0, entry i is the bucket's sum divided by k, and when k = 0 it is missing |
| Daily.MeanWithinBounds | Monthly_Data_TNKC_MethodB.py:264 | the mean of a non-empty slice lies within any bounds on its elements |
| Daily.MeanOfConstant | Monthly_Data_TNKC_MethodB.py:264 | the mean of a constant non-empty slice is that constant |
| Pipeline.PressuresFitTemperatures | Monthly_Data_TNKC_MethodB.py:131-137 | when `temp_extractor` succeeds, neither pressure list is longer than `temperatures`, so the split never indexes past its end |
| Pipeline.TankTemperatures | Monthly_Data_TNKC_MethodB.py:118-190 | raises IndexError exactly when `temperatures` is shorter than `pressures` or the number of pressure rows is odd. Otherwise it gives the even plotting times, per-tank Kelvin averages of the even and odd temperature rows, and their 91 daily means |
| Pipeline.TemperaturePipeline | Monthly_Data_TNKC_MethodB.py:37-190 | lines 37-190 and 271-272 over the files stop with `temp_extractor`'s ValueError if any, and otherwise with IndexError exactly when `last_two_pre` has odd length. The left-out solver and mass code at lines 224-249 can also end the run first. On success it gives the plotting times, Kelvin series and daily means in terms of the decoded lines |

## Left out

- Filename and calendar generation (lines 7-18): it only builds paths. The model takes the files as a sequence of line sequences in the script's order.
- File opening and reading (lines 24, 33): I/O. A file is a `seq<string>` of lines without their line breaks.
- The Van der Waals polynomial, its derivative and Newton-Raphson (lines 192-238), and the mass conversion (lines 241-249): IEEE floating-point numerics whose convergence is not a property of exact reals. As a result, the mass daily means (lines 269-270) are not modelled either. In the source, `P` and `T` are numpy float64 values, so a zero derivative at line 215 gives inf or nan with a warning rather than an exception. Newton-Raphson then exhausts its iterations and returns `None`, and the multiplication at line 245 raises TypeError on it. Once the run stops there, lines 269-272 are never reached.
- The internals of `float()`: it is the parameter `parse`.
- IEEE rounding: all values, including the +273.15 and the division in `np.mean`, are exact reals.
- `np.array` conversions (lines 82-83, 109-111): the model keeps plain sequences. The transposed `total_time` is kept as a list of per-line entries. `np.mean`'s NaN for an empty slice is `None`.
- The pressure columns of lines 150-162: `Channels.Unpack` models those loops. `Pipeline.TankTemperatures` does not call it, because those columns feed only the left-out solver. The temperature half of that method likewise does not unpack zenith and nadir (lines 155-167). It averages each pair directly, as line 172 does.
- `last_two_elements`, the one-back list: `Lookback.DataExtract` computes it. Nothing downstream in the script uses it.
- Plotting (lines 279-310) and writing `output.txt` (lines 313-329): output I/O.
- `np.array(data2)` at line 111 when `total_time` is ragged, that is, when a blank line gave an empty entry: depending on the numpy version this is an object array or an error. The model keeps the per-line entries as they are.
