# check_apcaccess in Dafny

A model of `check_apcaccess.py`, a monitoring plugin that checks an APC UPS. It parses
the key/value output of `apcaccess` and reads five metrics from it. Three are reported
as they are: internal temperature (ITEMP), load (LOADPCT) and battery charge (BCHARGE).
A fourth is the battery time left (TIMELEFT). The fifth is a power consumption
estimated from the load and the nominal output voltage (NOMOUTV). Each metric is
compared against warning and critical bounds: higher is worse for temperature, load and
consumption, and lower is worse for battery charge and time. The plugin prints one status
line, optionally followed by performance data, and exits with the worst severity raised.

The modules follow the script:

- `Text`: the Python string operations the script relies on. These are `str.strip`,
  `str.find`, slicing with negative bounds, `", ".join`, the non-empty filter of the
  snippet list, and `str()` of the float readings.
- `Metrics`: `get_value` (the first `\d+` run of a stored value) and `calc_consumption`.
  The three exceptions the script can die with while reading its inputs are values of
  the `Error` datatype.
- `Thresholds`: the decision of `check_value`, the fragment it renders, `set_code` as
  `Raise`, and `get_return_str` as `Label`.
- `StatusParser`: the parsing loop of `get_apcaccess_data`, as specification functions
  over lines and entries.
- `Report`: `check_ups` as functions. `Gather` covers the readings in their order,
  `Codes` and `Snippets` the checks in their order, `Perfdata` the performance data,
  `Compose` the status line and exit code, and `Check` the whole function including its
  failures.
- `CheckApcaccess`: the script's module globals `state` and `ups_info`, as the fields of
  the class `UpsCheck`. Its methods update them in place as the script does, and each
  method is proved equal to the functions above.
- `Scenarios`: worked runs on concrete inputs.

Numbers. Every reading is a whole number, because the regular expression `\d+` stops at
the decimal point. Checked values are therefore carried as natural numbers in hundredths
of their unit: `Whole(n) = 100 * n`. The consumption `load/100*out` is then the exact
natural number `load * out` hundredths. Thresholds are integers, as the option parser
declares them, and comparisons are made on the real values.

Python 2 semantics that matter here are written out:

- `None` orders below every number, so a missing bound always "exceeds" and never "falls
  short".
- An option value of 0 is false, so `Given` means present and non-zero.
- `find` returns -1 when there is no colon, which makes the key slice `line[:-1]`.

Behaviours of the code that the model keeps as they are:

- A numeric read of a missing key raises `KeyError` (`MissingKey`). No reading defaults
  to 0.0.
- Temperature is always checked, with its default bounds 50/60. So a status output
  without ITEMP always fails (`TemperatureRequired`).
- The performance data always carries a `'consumption'` entry. Its bounds appear only
  when both consumption bounds are given. It is present even when consumption is not
  checked.
- A battery-time bound given alone makes `check_ups` use `time` without having read it.
  This is a `NameError` (`TimeUnread`), and by then the three always-run checks have
  already raised the state.

## Model

| member | source | states |
|---|---|---|
| Text.NatToString | check_apcaccess.py:34 | the decimal rendering is non-empty, all digits, has no leading zero and reads back as the number |
| Text.ShowWhole | check_apcaccess.py:34-50 | a whole reading renders as its digits followed by ".0", as `str()` prints a float without a fraction |
| Text.Strip | check_apcaccess.py:167-168 | `strip()` never lengthens its input and leaves no white space at either end |
| Text.StripSurrounded | check_apcaccess.py:167-168 | stripping removes exactly the surrounding white space and keeps whatever is inside |
| Text.StripIdempotent | check_apcaccess.py:167-168 | stripping twice is stripping once |
| Text.Find | check_apcaccess.py:167-168 | `find(':')` is -1 exactly when there is no colon; otherwise it is the index of the first colon |
| Text.SliceBound | check_apcaccess.py:167-168 | a Python slice bound, negative ones counted from the end, always lands inside the string |
| Text.Show | check_apcaccess.py:34-50 | defined by its body (`str()` of a reading in hundredths); stated by ShowWhole and Metrics.ShowReadsBack |
| Text.Join | check_apcaccess.py:146 | defined by its body (`", ".join`); stated by JoinSnoc, and spelled out for three fragments by Scenarios.JoinedLine |
| Text.JoinSnoc | check_apcaccess.py:146 | joining one more part appends the separator and that part to the join of the others |
| Text.NonEmpty | check_apcaccess.py:145 | the filtered snippets are all non-empty, all come from the input, and are no more than the input |
| Text.NonEmptyAppend | check_apcaccess.py:145 | filtering distributes over concatenation, so the snippets keep their order |
| Text.NonEmptyKeepsAll | check_apcaccess.py:145 | snippets that are all non-empty pass the filter unchanged |
| Metrics.FirstDigitIndex | check_apcaccess.py:75 | the index of the first digit: no digit before it, and a digit at it unless it is the end |
| Metrics.DigitRunLength | check_apcaccess.py:75 | the longest all-digit prefix: digits up to it and a non-digit right after |
| Metrics.FirstDigitRun | check_apcaccess.py:75 | the first `\d+` match is all digits, and is empty exactly when the text holds no digit |
| Metrics.FirstDigitRunOfSplit | check_apcaccess.py:75 | a digit-free prefix, then a digit run, then a non-digit: the match is that run whatever follows |
| Metrics.ReadText | check_apcaccess.py:72-77 | the plain read returns the stored text exactly when the key is present, and KeyError otherwise |
| Metrics.ReadNumber | check_apcaccess.py:72-77 | the numeric read fails with KeyError for a missing key, and with IndexError exactly when the text has no digit |
| Metrics.ReadNumberOfSplit | check_apcaccess.py:75-76 | a stored text whose first digit run is `digits` reads as the value of those digits |
| Metrics.ReadNumberDropsFraction | check_apcaccess.py:75-76 | "30.5 C" reads as 30: the fraction after the point is dropped |
| Metrics.ShowReadsBack | check_apcaccess.py:75-76 | reading back a rendered value gives its whole part, so the reader inverts the renderer up to the fraction |
| Metrics.ConsumptionHundredths | check_apcaccess.py:85 | the hundredths computed equal `load/100*out` over the reals, exactly |
| Metrics.CalcConsumption | check_apcaccess.py:81-87 | LOADPCT is read first and its error wins, then NOMOUTV; on success the value is `load/100*out` |
| Thresholds.Evaluate | check_apcaccess.py:27-52 | critical exactly when the value is beyond the critical bound; warning exactly when it is not, but is beyond the warning bound; both senses |
| Thresholds.NormalSenseBands | check_apcaccess.py:31-40 | with warn < crit, okay is at most warn, warning is above warn up to crit, critical is above crit |
| Thresholds.ReverseSenseBands | check_apcaccess.py:41-50 | with warn > crit, critical is below crit, warning is from crit up to below warn, okay is from warn up |
| Thresholds.MisorderedBoundsNeverWarn | check_apcaccess.py:27-52 | bounds in the wrong order are accepted, but the warning band is then empty |
| Thresholds.EvaluateMonotone | check_apcaccess.py:27-52 | a higher value is never less severe in the normal sense, nor more severe in the reverse sense |
| Thresholds.Fragment | check_apcaccess.py:34-50 | the rendered snippet is never empty, so a check that runs always appears in the line |
| Thresholds.FragmentNamesVerdict | check_apcaccess.py:34-50 | the snippet names its verdict: two verdicts for the same metric never render alike |
| Thresholds.Raise | check_apcaccess.py:56-59 | `set_code` keeps the larger of the state and the code, never lowering the state |
| Thresholds.RaiseAll | check_apcaccess.py:56-59 | defined by its body (successive `set_code` calls); stated by RaiseAllAppend, RaiseAllSplit, RaiseAllCons and RaiseAllIsMax |
| Thresholds.RaiseAllAppend | check_apcaccess.py:56-59 | one more `set_code` call raises the state reached so far |
| Thresholds.RaiseAllSplit | check_apcaccess.py:56-59 | raising through a sequence of codes is raising through its front and then through its rest |
| Thresholds.RaiseAllCons | check_apcaccess.py:56-59 | raising through a code and then a sequence equals starting from the raised state |
| Thresholds.RaiseAllIsMax | check_apcaccess.py:56-59 | after any sequence of calls the state is the largest code raised, or the start when none is larger |
| Thresholds.Label | check_apcaccess.py:63-68 | defined by its body; stated by LabelNamesCode |
| Thresholds.LabelNamesCode | check_apcaccess.py:63-68 | the labels of 0..3 are distinct and name their code; every other state reads "OK" |
| StatusParser.ParseLine | check_apcaccess.py:167-168 | key and value are never longer than the line |
| StatusParser.ParseLineAtFirstColon | check_apcaccess.py:167-168 | the key is what precedes the first colon and the value is all that follows, both stripped |
| StatusParser.ParseLineWithoutColon | check_apcaccess.py:167-168 | a line without a colon gives the line minus its last character as key, and the whole line as value |
| StatusParser.ParseAll | check_apcaccess.py:165-168 | one entry per line, in order, each that line's parse |
| StatusParser.Absorb | check_apcaccess.py:165-170 | defined by its body (parse every line, store the entries in order); stated by AbsorbStep, LastOccurrenceWins, UntouchedKey and AbsorbKeys |
| StatusParser.AbsorbStep | check_apcaccess.py:165-170 | one more line stores its entry on top of the map so far |
| StatusParser.LastEntryWins | check_apcaccess.py:170 | the last entry carrying a key decides its value |
| StatusParser.UntouchedByEntries | check_apcaccess.py:170 | a key no entry carries keeps its earlier presence and value |
| StatusParser.StoreAllKeys | check_apcaccess.py:170 | the keys afterwards are the earlier keys plus those the entries carry |
| StatusParser.LastOccurrenceWins | check_apcaccess.py:165-170 | after parsing, the last line carrying a key decides its value |
| StatusParser.UntouchedKey | check_apcaccess.py:165-170 | a key no line carries keeps its earlier presence and value |
| StatusParser.AbsorbKeys | check_apcaccess.py:165-170 | the keys after parsing are the earlier keys plus the keys of the lines |
| Report.ReadTime | check_apcaccess.py:99 | when both time bounds are given, TIMELEFT is read and its value or its error is the result; otherwise nothing is read and nothing fails |
| Report.Gather | check_apcaccess.py:95-100 | the readings are taken in the order ITEMP, LOADPCT, BCHARGE, TIMELEFT (only when both time bounds are given), then NOMOUTV. The first one that fails gives the error. On success, every field is the value read, and the consumption is `calc_consumption`'s |
| Report.Snippets | check_apcaccess.py:103-119 | defined by its body (the snippets of the checks in order, "" for one that does not run); stated by ReportedFragments |
| Report.Codes | check_apcaccess.py:103-119 | defined by its body (the codes of the checks that run, in order); stated by SeverityIsWorst and CodesAtMostTwo |
| Report.Perfdata | check_apcaccess.py:121-142 | defined by its body; stated by ConsumptionEntryBounds and PerfdataOnlyWhenAsked |
| Report.Compose | check_apcaccess.py:145-147 | defined by its body (label, joined snippets, performance data, worst code); stated by SeverityIsWorst, NeverUnknown and ReportedFragments |
| Report.Check | check_apcaccess.py:91-147 | the run succeeds exactly when every reading succeeds and a checked battery time was read; otherwise it fails with the first reading error, or with the NameError |
| Report.SeverityIsWorst | check_apcaccess.py:102-119 | the exit code is at least the start and every verdict of a check that ran, and is the start or one of those codes |
| Report.NeverUnknown | check_apcaccess.py:145-147 | a run started from a state of at most 2 never exits 3 or prints UNKNOWN |
| Report.CodesAtMostTwo | check_apcaccess.py:102-119 | no check raises more than 2 |
| Report.ReportedFragments | check_apcaccess.py:145 | the line lists temperature, load and battery always, then battery time and consumption exactly when one of their bounds is given |
| Report.PerfdataOnlyWhenAsked | check_apcaccess.py:121-142 | the performance data is non-empty exactly when it was asked for |
| Report.ConsumptionEntryBounds | check_apcaccess.py:126-128 | the performance data opens with the consumption entry, and a ';' follows its value exactly when both consumption bounds are given |
| Report.LoneConsumptionBound | check_apcaccess.py:117-118 | a lone consumption warning bound makes every reading critical, and a lone critical bound makes none okay |
| Report.TemperatureRequired | check_apcaccess.py:96 | without an ITEMP line the run fails with KeyError for ITEMP, whatever the options |
| CheckApcaccess.UpsCheck.constructor | check_apcaccess.py:22-23 | the globals start as an empty map and state 0 |
| CheckApcaccess.UpsCheck.SetCode | check_apcaccess.py:56-59 | the state becomes `Raise` of the old state and the code |
| CheckApcaccess.UpsCheck.CheckValue | check_apcaccess.py:27-52 | the snippet is the fragment of `Evaluate`'s verdict, and the state is raised by that verdict's code |
| CheckApcaccess.UpsCheck.LoadStatus | check_apcaccess.py:159-170 | after the loop the map is the old map with every line's entry stored in order |
| CheckApcaccess.UpsCheck.ReadAll | check_apcaccess.py:95-100 | the readings, in the source's order, are `Gather` of the map |
| CheckApcaccess.UpsCheck.CheckAlways | check_apcaccess.py:102-109 | the three always-run snippets, with the state raised by their codes in order |
| CheckApcaccess.UpsCheck.CheckOptional | check_apcaccess.py:111-119 | the battery-time and consumption snippets ("" when a check does not run), with the state raised by the codes of the checks that ran |
| CheckApcaccess.UpsCheck.CheckUps | check_apcaccess.py:91-147 | the outcome is `Check` of the map; on success the state is the exit code; a reading error leaves the state unchanged; the NameError leaves it raised by the always-run checks |
| CheckApcaccess.BuildPerfdata | check_apcaccess.py:121-142 | the block built by successive reassignment is `Perfdata` |
| CheckApcaccess.Run | check_apcaccess.py:159-170 | parsing the lines into fresh globals and then checking gives `Check` of the parsed map from state 0 |
| Scenarios.ParsedEntry | check_apcaccess.py:167-168 | a line "KEY: value" whose key has no colon, and whose key and value (either may be empty) carry no outer white space, parses to exactly that key and value |
| Scenarios.ParsedFour | check_apcaccess.py:165-170 | four such lines store their four entries in order |
| Scenarios.JoinedLine | check_apcaccess.py:146 | the status line of three fragments is the label, ": ", and the fragments separated by ", " |
| Scenarios.TwoLinesParsed | check_apcaccess.py:159-170 | the status text "LOADPCT :  42.0 Percent", "BCHARGE: 100.0 Percent" parses to those two entries |
| Scenarios.TwoLinesRead | check_apcaccess.py:72-77 | those entries read as 42 and 100 |
| Scenarios.TwoLinesRun | check_apcaccess.py:91-96 | from that status text, the check fails with KeyError for ITEMP |
| Scenarios.CalmLinesParsed | check_apcaccess.py:159-170 | a four-line status text with ITEMP, LOADPCT, BCHARGE and NOMOUTV parses to its four entries |
| Scenarios.CalmLinesRead | check_apcaccess.py:95-100 | those entries read as temperature 30, load 10, battery 100, no battery time and a consumption of 23 W |
| Scenarios.CalmLinesRun | check_apcaccess.py:91-147 | from that status text, the check prints the OK line of the three okay snippets and exits 0 |
| Scenarios.ParsedLoadLine | check_apcaccess.py:167-168 | "LOADPCT :  42.0 Percent" parses to the key "LOADPCT" and the value "42.0 Percent" |
| Scenarios.ParsedLoadReading | check_apcaccess.py:75-76 | "42.0 Percent" reads as 42 |
| Scenarios.CalmSnippets | check_apcaccess.py:145 | temperature 30, load 10 and battery 100 under the defaults give three okay snippets and no others |
| Scenarios.CalmQuiet | check_apcaccess.py:121-147 | that run raises nothing, and appends no performance data under the defaults |
| Scenarios.CalmCompose | check_apcaccess.py:146-147 | that run prints "OK: temperature okay (30.0), load okay (10.0), battery load okay (100.0)" and exits 0 |
| Scenarios.StressedVerdicts | check_apcaccess.py:103-109 | temperature 55 warns, load 85 and battery 40 are critical under the defaults |
| Scenarios.StressedRun | check_apcaccess.py:145-147 | that run exits 2 |

## Left out

- `run_cmd` (lines 151-155) and the `apcaccess -f <file>` subprocess are left out. The status output is a parameter, given as its lines.
- `splitlines` (line 164) is left out, because the lines are given already split.
- Option parsing and help text (lines 174-239) are left out. The parsed result is the `Options` datatype, and `Defaults` records the parser's defaults. `--debug` and `--file` only feed logging and the subprocess.
- Logging (`LOGGER.debug`) is left out, because it does not affect the result.
- The `print` and `exit` of lines 146-147 become the returned `Report` (the line and the exit code). Nothing is written.
- An uncaught exception's traceback and exit status 1 are not modelled. The exception is returned as an `Error` value.
- Metrics.ReadNumber: a digit run above 2^53 is read exactly, where `float()` in the source rounds it.
- Text.Show: renders fixed-point hundredths. Python 2's `str()` of a float keeps 12 significant digits, so values with more than 12 are rounded: a whole reading of 10^12 or more prints in exponent form, and a consumption of 10^10 or more loses the digits past its twelfth significant one (LOADPCT "1000001" and NOMOUTV "1000001": the source prints "10000020000.0", the model "10000020000.01").
- Text.IntAsFloat: renders `float(bound)` as the integer followed by ".0". A bound of 10^12 or more would print in exponent form.
- Metrics.ConsumptionHundredths: the source computes `load/100*out` in binary floating point. The model keeps the exact value, which is what `str()` prints at 12 significant digits for any consumption below 10^10 watts.
- Metrics.CalcConsumption: the consumption is compared against its bounds at its exact value. The source compares the binary double `load/100*out`, which can land just above or below a bound that the exact value equals. Example: with LOADPCT "55.0 Percent", NOMOUTV "100" and bounds 40/55, the double is 55.000000000000007. The source reports "power consumption critical (55.0)" and exits 2, but the model gives a warning and exits 1.
- Strings are sequences of characters. Python 2 byte strings and their encodings are not modelled.
