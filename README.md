# FileParser core, modelled in Dafny

This project models the parsing engine of a manufacturing-test command-line tool. The engine turns test reports into flat tables and JSON records. The helper scripts that sit beside it are modelled too.

The model covers three groups of code.

- **PoE network logs** (`FileParser/Program.cs`, `FileParser/PoENetworkData.cs`):
  - the chart-type enum and the record classes;
  - splitting a log into task sections at `Task Name : …` lines;
  - the summary block, the task-detail table and the packet and learning parameter lists;
  - the process details and the process time summary;
  - the per-port final-result tables and the stream-counter table;
  - the driver loop over the uploaded files, the record assembly of `ConvertToJsonPoE` and the chart-type classifier;
  - the string helpers `ExtractValue` and `CleanDragDropFilePath`.
- **ADAC burn-in reports** (`ProcessAdacData`):
  - the header pass that collects serial number, model name and date per unit;
  - the eleven-sequence state machine, whose rule blocks copy `Key = Value` pairs and label/value tables into the unit's values;
  - the limit check on "Ton Read";
  - the dashed rule that commits a unit.
- **Python scripts:**
  - limit validation of CSV rows (`scripts/validate_limits.py`);
  - the failed-measurement report over zipped JSON results (`analyze_json_zip.py`);
  - the MTF pass/fail summary (`scripts/analyze_mtf_data.py`);
  - splitting a CSV into files of at most n tests (`scripts/split_csv_tests.py`), and the same split with n = 5004 (`split_csv_tests.py`).

## How the model is built

- **Modules.** Each component is one module, in one file.
- **Outcomes.** `Outcomes` defines `Option`, `Result` and `Fault`. Each exception the model keeps becomes an `Err` carrying the kind of fault. On the C# side these are an index out of range, an argument out of range, a duplicate dictionary key and a failed `decimal.Parse`. On the Python side they are `IndexError`, `ValueError`, `TypeError`, `AttributeError` and the unbound `part_num`, each in the member that raises it. The top level catches these and stops. Exceptions that the input types rule out are listed under "## Left out".
- **Dictionaries.** `Dict` is the C# `Dictionary` and the Python `dict` as an insertion-ordered sequence of pairs. No single entry is ever removed. `Clear()` (FileParser/Program.cs:375) empties the whole dictionary, and the model starts it again from `[]` (`AdacScan.HeaderStep`). Iteration order is therefore insertion order since the last clear.
- **Regular expressions.** Each one becomes a concrete tokenizer or recognizer in `Tokens`.
- **Source loops.** A loop statement in the source is a `method` with a `while` or `for` loop, proved equal to a reference function: its `ensures` ties the result to that function, and the lemmas beside it state the function's properties. A Python generator expression such as `sum(1 for r in results ...)` (scripts/analyze_mtf_data.py:163) is a function (`MtfAnalysis.CountFails`), not a method.
- **Objects.** Objects whose fields the source sets after construction are classes (`PoeData`).
- **Parsers.** Numeric parsing (`decimal.Parse`/`TryParse`, Python `float`) is a function parameter.

## Behaviour of the source worth knowing

The model does what the code does in each of these cases.

- **Sequence flags.** Each `SEQ.n:` marker switches off only the flag of sequence n-1. A marker out of order therefore leaves two sequences on (`AdacScan.SkippedMarkerLeavesTwoOn`). Exactly one is on only when the markers come in order (`AdacScan.PhasesInOrder`). `SEQ.1:` is matched with `StartsWith` and excludes `SEQ.11:`. The other markers are matched with `Contains`.
- **The "Ton Read" check.** The value goes through `decimal.Parse`. A value that is not a number throws a `FormatException`. The model returns `Err(FormatError(value))`.
- **Lines before the first `Task Name` marker.** When the log has a marker, these lines are dropped (`Sections.SectionsDropPreamble`). They are kept under the empty name only when the log has no marker at all (`Sections.SectionsWithoutMarker`).
- **Repeated task names.** A repeated name on a section that is not the last one throws in `Dictionary.Add` (`Sections.SectionsDuplicateThrows`). A repeat on the last section is dropped silently (`Sections.SectionsFinalDuplicateDropped`).
- **The count check.** When the serial and summary counts differ, `ConvertToJsonPoE` returns no records and raises nothing. The driver always collects one serial and one summary per log, so the two counts always agree (`PoeDriver.DriverNeverMismatches`).
- **Stream-counter rows.** Rows are read from two lines below the `SPort` header. The line directly under the header is skipped.
- **The ADAC header row.** The header row is the key list of the values held when the scan ends. Those are the values of the last unit opened, not of the first (`AdacScan.ProcessAdacData`). Only the first file of the archive is read.
- **ADAC limit checks and the verdict.** The limit checks only set `firstSeqPassed`, which nothing reads (`AdacScan.ScanIgnoresPassed`). The verdict comes from the `SEQ` lines alone.
- **ADAC table rules with unequal lists.** A table rule pairs key i with value i for every value. More values than keys throws an index error (`AdacRules.PairsCheckErrWhenLonger`). Fewer values leave the extra keys unused.
- **The Vpp limit table.** The phase 2-4 table is never consulted successfully (`AdacScan.VppLimitsUnreachable`).
- **Some frame-size chart prefixes.** Some of these prefixes never match the keys the tables build (`Classifier.FrameKey65To127NeverCharted`).
- **Pairing of PoE field names.** Names are paired with values by position only (`PoeAssembly.MisalignedPairing`).

## Model

| member | source | states |
|---|---|---|
| PoeData.Ordinal | FileParser/PoENetworkData.cs:40-49 | each chart type's underlying value is its position in declaration order |
| PoeData.ChartTypesAreSevenInOrder | FileParser/PoENetworkData.cs:40-49 | the enum has exactly seven members, each listed once, numbered 0 to 6 in declaration order |
| PoeData.ChartTypeName | FileParser/PoENetworkData.cs:36 | the string stored for a chart type is non-empty |
| PoeData.ChartTypeNameRoundTrip | FileParser/Program.cs:142 | parsing the stored `ToString()` name gives back the chart type, so the stored name loses nothing |
| PoeData.ChartTypeNameInjective | FileParser/Program.cs:142 | two chart types with the same stored name are the same type |
| PoeData.SectionViews | FileParser/PoENetworkData.cs:25 | the serialised section list has one record per section, in order |
| PoeData.TaskViews | FileParser/PoENetworkData.cs:6 | the serialised task list has one record per task, in order |
| PoeData.TaskSection.constructor | FileParser/Program.cs:137-143 | the initializer sets name, value, dataset flag and the chart type's name, and nothing is unset |
| PoeData.NetworkTask.constructor | FileParser/PoENetworkData.cs:27-30 | a new task has an empty section list and unset name and status |
| PoeData.NetworkTask.Shows | FileParser/PoENetworkData.cs:21-37 | a task whose fields match a record field by field serialises to exactly that record |
| PoeData.PowerOverEthernetTask.constructor | FileParser/PoENetworkData.cs:9-12 | a new report has an empty task list, `HasPassed` false and unset serial number and summary |
| PoeData.PowerOverEthernetTask.AddNetworkTask | FileParser/Program.cs:146 | appends the task at the end of the task list and changes no other field |
| Classifier.SetChartTypeBasedOnName | FileParser/Program.cs:168-207 | a value that is not a number always gets `None`, and no field is ever charted as `TestDuration` |
| Classifier.FirstMatchingGroup | FileParser/Program.cs:170-205 | the result is `None` or the chart of one of the groups |
| Classifier.FirstMatchingGroupCons | FileParser/Program.cs:170-205 | the groups are tried in order: the first decides if one of its patterns matches, otherwise the rest decide |
| Classifier.ClassifierIsFirstMatchingGroup | FileParser/Program.cs:170-205 | for a numeric value the chain of tests equals the rule "chart of the first group with a matching pattern, else `None`" |
| Classifier.ClassifierOutcome | FileParser/Program.cs:168-207 | group k decides exactly when the value is numeric, one of its patterns matches and no earlier group's does; `None` exactly when the value is not numeric or nothing matches |
| Classifier.UpperName | FileParser/Program.cs:173 | upper-casing keeps the length and upper-cases each character |
| Classifier.AnyPrefixUpper | FileParser/Program.cs:173 | a case-insensitive prefix test gives the same answer on the upper-cased name |
| Classifier.ClassifierIgnoresCase | FileParser/Program.cs:173-202 | upper-casing a name never changes its chart (`RegexOptions.IgnoreCase`) |
| Classifier.FrameKey65To127NeverCharted | FileParser/Program.cs:179 | a key `65-127Byte_<port>` never matches the pattern `65-127_1` or any other, so it is never charted |
| Classifier.FrameKey64Charted | FileParser/Program.cs:179 | a key `64Byte_<port>` is charted as a frame size exactly when the port id starts with `1` |
| Classifier.PacketCountersCharted | FileParser/Program.cs:172 | numeric `TxPacket_…` and `RxPackets(…` keys are always Tx-vs-Rx charts |
| Classifier.NotPrefix | FileParser/Program.cs:173 | a pattern that differs from the name at some index, ignoring case, is no prefix of it |
| Text.TrimStart | FileParser/Program.cs:1240 | `TrimStart()` drops exactly the leading whitespace: the result is a suffix, what it drops is all whitespace, and it starts with a non-space |
| Text.TrimEnd | FileParser/Program.cs:69 | `TrimEnd()` drops exactly the trailing whitespace: the result is a prefix, what it drops is all whitespace, and it ends with a non-space |
| Text.Trim | FileParser/Program.cs:69 | `Trim()` never grows the text, leaves no whitespace at either of its ends, and is empty exactly when the input is all whitespace |
| Text.TrimIsFramed | FileParser/Program.cs:69 | the trim is a slice of the input with only whitespace before it and after it |
| Text.AllSpaceConcat | FileParser/Program.cs:69 | two all-whitespace texts joined are all whitespace |
| Text.TrimStartOfNonBlank | FileParser/Program.cs:1237-1240 | a line that is not blank keeps a first character after `TrimStart()`, so `line.TrimStart()[0]` cannot fail there |
| Text.TrimIdentity | FileParser/Program.cs:69 | a text without whitespace at either end is its own trim |
| Text.TrimKeeps | FileParser/Program.cs:69 | trimming introduces no character |
| Text.IndexOfFrom | FileParser/Program.cs:296 | ordinal `IndexOf` from a position: the first occurrence at or after it, or -1 exactly when there is none |
| Text.IndexOf | FileParser/Program.cs:296 | ordinal `IndexOf`: the first occurrence, or -1 exactly when the pattern does not occur |
| Text.ContainsAt | FileParser/Program.cs:1237 | an occurrence at some index means `Contains` holds |
| Text.IndexOfChar | FileParser/Program.cs:1201 | the first index of a character, or -1 exactly when it is absent |
| Text.IndexOfCharAfter | FileParser/Program.cs:1201 | the first `c` of `a + [c] + b` is at the length of `a` when `a` has no `c` |
| Text.LastIndexOfChar | FileParser/Program.cs:1289 | the last index of a character, or -1 exactly when it is absent |
| Text.AfterFirst | FileParser/Program.cs:1366-1368 | the text after the first occurrence of a character, or the whole text when it does not occur |
| Text.AfterLast | FileParser/Program.cs:1289 | `Split(c).Last()`: a suffix without `c` that the last `c` of the input precedes, the whole text when `c` does not occur |
| Text.Lower | scripts/analyze_mtf_data.py:163 | `lower()` keeps the length and lower-cases each character |
| Text.StartsWithIsCaseInsensitive | FileParser/Program.cs:173 | a case-sensitive prefix is also a case-insensitive one |
| Text.WordEnd | FileParser/Program.cs:1453 | the first space at or after a position, or the end of the text, with no space before it |
| Text.Words | FileParser/Program.cs:1453 | splitting on spaces with empty entries removed gives non-empty words without spaces |
| Text.WordsOfWord | FileParser/Program.cs:1453 | a non-empty text without a space is one word |
| Text.WordsAtSpace | FileParser/Program.cs:1453 | a space splits the words: the words of `a + " " + b` are those of `a` followed by those of `b`, which with the two rows above makes the words the maximal space-free runs, in order |
| Text.ReplaceChar | scripts/validate_limits.py:94 | replacing a character by a text without it removes every occurrence and introduces only characters of the replacement |
| Text.ReplaceAbsent | scripts/validate_limits.py:94 | replacing a character that does not occur leaves the text unchanged |
| LineScan.FindIndexFrom | FileParser/Program.cs:1684 | the first line at or after a position that passes the test, or -1 exactly when none does |
| LineScan.FindIndex | FileParser/Program.cs:1585 | the loop returns the first line that passes the test, or -1 |
| Helpers.ExtractValue | FileParser/Program.cs:294-302 | the result is trimmed; it is empty when the key does not occur, and otherwise no longer than what follows the key |
| Helpers.ExtractValueAfterLabel | FileParser/Program.cs:294-302 | for a line `a + key + b` whose first `key` follows `a`, the value is `b` trimmed |
| Helpers.ExtractValueEmptyKey | FileParser/Program.cs:294-302 | the empty key gives the whole line, trimmed |
| Helpers.Peel | FileParser/Program.cs:74-80 | the quote-peeling loop ends with a text not wrapped in matching quotes, never longer than its input |
| Helpers.CleanPath | FileParser/Program.cs:64-85 | the result is `null` exactly when the input is blank |
| Helpers.CleanDragDropFilePath | FileParser/Program.cs:64-85 | the method (trim, drop `& `, peel quotes in a loop, replace `&&`) returns what the reference definition gives |
| Helpers.ReplaceAmpEnds | FileParser/Program.cs:82 | replacing `&&` by `&` never grows the text, keeps it non-empty, and keeps its first and last character when that is not `&` |
| Helpers.ReplaceKeepsUnquoted | FileParser/Program.cs:82 | the `&&` replacement never wraps a text in quotes |
| Helpers.CleanPathUnquoted | FileParser/Program.cs:64-85 | a cleaned path is never wrapped in matching quotes |
| Helpers.CleanPathPowerShellDrop | FileParser/Program.cs:64-85 | a path dropped by PowerShell as `& 'path'` comes back as the bare path |
| Helpers.DropPrefix | FileParser/Program.cs:71-72 | removing `& ` and trimming leaves the quoted path |
| Helpers.Wrapped | FileParser/Program.cs:77 | the path in single quotes: two characters longer, a quote at each end, the path in between |
| Helpers.WrappedTrimmed | FileParser/Program.cs:79 | a quoted path is its own trim |
| Helpers.WrappedQuoted | FileParser/Program.cs:75-77 | a quoted path passes the loop's quote test |
| Helpers.PeelWrapped | FileParser/Program.cs:75-80 | peeling one layer of quotes from a trimmed, unquoted path gives the path |
| Helpers.ReplaceWithoutAmp | FileParser/Program.cs:82 | a text without `&` is left alone by the replacement |
| OrderedDict.Keys | FileParser/Program.cs:1709 | the keys, one per entry, in enumeration order |
| OrderedDict.Values | FileParser/Program.cs:121 | the values, one per entry, in enumeration order |
| OrderedDict.KeyIndex | FileParser/Program.cs:1206 | the position of a key, or -1 exactly when the key is absent; no earlier entry has that key |
| OrderedDict.Get | FileParser/Program.cs:1335 | a lookup finds a value exactly when the key is present |
| OrderedDict.AppendKeyIndex | FileParser/Program.cs:1206 | appending a new key puts it last and moves no other key |
| OrderedDict.UpdateKeyIndex | FileParser/Program.cs:1206 | replacing a present key's value moves no key |
| OrderedDict.Put | FileParser/Program.cs:1206 | `d[k] = v`: `k` then holds `v` and every other key keeps its value; a present key keeps its place and a new key goes last; keys stay unique |
| OrderedDict.Add | FileParser/Program.cs:1321 | `Add` throws exactly when the key is present (a duplicate-key fault naming it) and otherwise appends the entry |
| OrderedDict.AddIsPut | FileParser/Program.cs:1321 | on a new key `Add` and `d[k] = v` agree |
| OrderedDict.PutEntries | FileParser/Program.cs:1206 | after `d[k] = v` every entry is the new one or was already there |
| OrderedDict.PutAllSnoc | FileParser/Program.cs:1532-1537 | doing one more assignment after a run of them is the run with that assignment added at its end |
| OrderedDict.PutAllGet | FileParser/Program.cs:1532-1537 | after assignments to distinct keys each assigned key holds its value and every other key keeps its old value |
| OrderedDict.PutAllLast | FileParser/Program.cs:1607-1611 | the last assignment to a key decides its value |
| OrderedDict.PutAllAbsent | FileParser/Program.cs:1607-1611 | a key no assignment names keeps its old value |
| Sections.SplitIntoMultipleLines | FileParser/Program.cs:1301-1341 | with the `Task Name\s+:\s+(.*)` pattern as the marker test, returns the sections the reference definition gives, or the duplicate-key fault |
| Sections.SplitBy | FileParser/Program.cs:1308-1340 | the loop (store on a marker when a name is pending, accumulate, store the tail unless its name is present) computes the reference definition for any marker test |
| Sections.SectionsBy | FileParser/Program.cs:1308-1340 | the section map of the loop with the given marker test, stored after the last line |
| Sections.Sections | FileParser/Program.cs:1301-1341 | the section map with the task-name pattern as the marker test |
| Sections.SplitRunAt | FileParser/Program.cs:1311-1330 | one loop iteration is one step of the reference run |
| Sections.SplitRunAppend | FileParser/Program.cs:1311-1330 | running over `a + b` is running over `a`, then over `b` from where `a` left off, with a fault in `a` stopping the run |
| Sections.SplitRunNoMarker | FileParser/Program.cs:1329 | lines without a marker only join the section being accumulated |
| Sections.SectionsWithoutMarker | FileParser/Program.cs:1332-1339 | a log with no marker line is one section stored under the empty name, and an empty log has no section |
| Sections.SectionsDropPreamble | FileParser/Program.cs:1317-1326 | the lines before the first marker are dropped: the log's sections are those of the log from its first marker on |
| Sections.SplitRunKeepsMarked | FileParser/Program.cs:1311-1330 | once a marker has been seen, every stored section and the pending one start with a marker naming them and hold no other marker |
| Sections.FinishKeepsShape | FileParser/Program.cs:1332-1339 | storing the pending section after the loop keeps every section marker-shaped |
| Sections.FirstMarker | FileParser/Program.cs:1313-1314 | the first marker line at or after a position, with no marker before it |
| Sections.SectionsAreMarked | FileParser/Program.cs:1301-1341 | in a log with a marker, every stored section starts with the marker line naming it and holds no other marker |
| Sections.SectionsDuplicateThrows | FileParser/Program.cs:1321 | a task name repeated by a section that is not the last makes `tt.Add` throw a duplicate-key fault for that name |
| Sections.SectionsFinalDuplicateDropped | FileParser/Program.cs:1335-1338 | when the last section repeats an earlier name, it is silently dropped and the earlier section kept |
| Sections.MarkerLineName | FileParser/Program.cs:1303-1325 | a line `Task Name : <name>` opens a section named `<name>` when the name is trimmed and has no line break |
| Tokens.SpanEnd | FileParser/Program.cs:1243 | `\s*` is greedy: the run ends at the end of the text or at a non-space, and is all whitespace |
| Tokens.InkEnd | FileParser/Program.cs:1592 | `\S+` is greedy: the run ends at the end of the text or at whitespace, and holds no whitespace |
| Tokens.DigitsEnd | FileParser/Program.cs:1243 | `\d+` is greedy: the run ends at the end of the text or at a non-digit |
| Tokens.DigitsEndDigits | FileParser/Program.cs:1243 | everything the digit run passes over is a digit |
| Tokens.MatchEnd | FileParser/Program.cs:458 | a separator match found at a position ends after it, within the text |
| Tokens.FirstMatch | FileParser/Program.cs:458 | the leftmost position at which the separator matches, or -1 exactly when it matches nowhere |
| Tokens.SplitFrom | FileParser/Program.cs:458 | the pieces of the rest of the text: at least one, the whole rest when the separator does not match there, and (with `SplitFromReassembles`) the rest again once the matches are put back between them |
| Tokens.Split | FileParser/Program.cs:458 | `Regex.Split` gives at least one piece, and the whole input when the separator matches nowhere |
| Tokens.SplitWide | FileParser/Program.cs:490 | `Regex.Split(s, @"\s{2,}")` gives at least one piece; `SplitWideReassembles` states that nothing is lost |
| Tokens.SepsFrom | FileParser/Program.cs:458 | the texts the separator matched while cutting the rest of the text, in order; each is non-empty and starts with whitespace |
| Tokens.Seps | FileParser/Program.cs:458 | the matches of `Regex.Split` over the whole input, each non-empty and starting with whitespace |
| Tokens.SplitFromReassembles | FileParser/Program.cs:458 | one piece more than there are matches, and the pieces joined by the matches between them give back the text cut |
| Tokens.SplitReassembles | FileParser/Program.cs:458 | `Regex.Split` loses nothing: its pieces joined by the matches give back the input |
| Tokens.SplitWideReassembles | FileParser/Program.cs:490 | the same for the `\s{2,}` split of the table rules |
| Tokens.SplitWideLeadingGap | FileParser/Program.cs:490-492 | a line that starts with two whitespace characters splits into an empty first piece, the one `RemoveAt(0)` drops |
| Tokens.TupleEnd | FileParser/Program.cs:1592 | a `\((\d+, \d+, \d+)\)` match, when there is one, runs from a `(` to a `)` |
| Tokens.StreamTupleShift | FileParser/Program.cs:1592 | a tuple matched inside a line is matched again, whole, as its own match value |
| Tokens.StreamTokensFrom | FileParser/Program.cs:1599 | every match value of `dataRegex` is non-empty and is a tuple or a run without whitespace |
| Tokens.StreamTokens | FileParser/Program.cs:1599 | every match value of `dataRegex.Matches(line)` is non-empty and is a tuple or a run without whitespace |
| Tokens.PortIdShape | FileParser/Program.cs:1425 | a text matching the port pattern starts with a digit |
| Tokens.LineEnd | FileParser/Program.cs:1303 | `.` runs to the next newline or the end of the text, and crosses no newline |
| Tokens.NameEnd | FileParser/Program.cs:1243 | `[a-zA-Z\s]+` is greedy: the run holds only letters and whitespace and stops at anything else |
| Tokens.TrimDigits | FileParser/Program.cs:1248-1249 | a run of digits is its own trim |
| Tokens.ClocksEnd | FileParser/Program.cs:1243 | the two clock groups and the whitespace after them, when present, end after where they start |
| Tokens.DigitsRun | FileParser/Program.cs:1243 | the run the digit scan finds is all digits |
| Tokens.ProcessTimeMatch | FileParser/Program.cs:1243 | a matching process-time row has a non-empty all-digit index (group 1) and a non-empty all-digit seconds count (group 3) |
| PoeKeyed.ExtractKeyed | FileParser/Program.cs:1394-1414 | the nested loops (every line, every key; a line starting with the key, ignoring case, sets it to the trimmed text after the first colon) compute the reference fold |
| PoeKeyed.KeyedValues | FileParser/Program.cs:1394-1414 | the value of each line that starts with one of the keys, ignoring case, under that key; a later line replaces an earlier one |
| PoeKeyed.GetPacketSection | FileParser/Program.cs:1380-1415 | the packet section is the keyed fold over the six packet keys |
| PoeKeyed.GetLearningSection | FileParser/Program.cs:1343-1378 | the learning section is the keyed fold over the seven learning keys |
| PoeKeyed.LastWhere | FileParser/Program.cs:1396-1412 | the last line that passes the test, or -1 exactly when none does |
| PoeKeyed.KeysStepGet | FileParser/Program.cs:1398-1411 | after one line's inner loop, a listed key the line starts with holds that line's value and every other key keeps its value |
| PoeKeyed.KeyedRunAppend | FileParser/Program.cs:1396-1412 | the fold over one more line is the inner loop applied after the fold over the earlier lines |
| PoeKeyed.KeyedValuesLastMatch | FileParser/Program.cs:1343-1415 | a listed key holds the value from the last line that starts with it, and is absent when no line does |
| PoeKeyed.KeysStepWithin | FileParser/Program.cs:1398-1411 | the inner loop adds only listed keys and keeps keys unique |
| PoeKeyed.PutWithin | FileParser/Program.cs:1408 | assigning a listed key keeps every key within the list |
| PoeKeyed.KeyedRunKeys | FileParser/Program.cs:1396-1412 | the outer loop adds only listed keys and keeps keys unique |
| PoeKeyed.KeyedValuesKeys | FileParser/Program.cs:1343-1415 | the result names only listed keys, each once |
| PoeProcess.DetailKind | FileParser/Program.cs:1277-1296 | a line is skipped exactly when it is blank or holds `---`; it is an item row exactly when it is not skipped and starts with a digit after `TrimStart()`; it is a test-time line exactly when neither and it starts with `Test Time` after `Trim()` |
| PoeProcess.ExtractProcessDetails | FileParser/Program.cs:1259-1300 | the loop (wait for `Process Detail:`, skip blank and `---` lines, remember an item name, store it with the next test time and forget it) computes the reference fold |
| PoeProcess.ProcessDetails | FileParser/Program.cs:1259-1300 | the test time of each process item, as the loop collects them |
| PoeProcess.DetailRunAppend | FileParser/Program.cs:1266-1297 | scanning `a + b` is scanning `a` and then `b` from where `a` left off |
| PoeProcess.DetailRunIdle | FileParser/Program.cs:1268-1275 | lines before the start line change nothing |
| PoeProcess.DetailsIgnorePreamble | FileParser/Program.cs:1268-1275 | nothing before the `Process Detail:` line is read, and a log without it gives no details |
| PoeProcess.TestTimeWithoutItem | FileParser/Program.cs:1291-1295 | a test-time line with no pending item name changes nothing |
| PoeProcess.DetailPair | FileParser/Program.cs:1266-1297 | scanning two lines is two loop steps |
| PoeProcess.ItemThenTestTime | FileParser/Program.cs:1282-1295 | an item row followed by a test-time line stores the item's test time (overwriting an earlier one) and clears the pending name |
| PoeProcess.SecondItemReplaces | FileParser/Program.cs:1282-1286 | a second item row before any test time replaces the pending name |
| PoeProcess.DetailKindValues | FileParser/Program.cs:1285-1289 | the name of an item row is the trimmed text after its first space, and the time of a test-time line is the trimmed text after its last `=` |
| PoeProcess.ItemNameOfRow | FileParser/Program.cs:1285 | a row `<number> <name>` gives the name without the number |
| PoeProcess.TimeKind | FileParser/Program.cs:1237-1253 | every entry a line gives has a key `<digits>-…` and a value `<digits> sec` |
| PoeProcess.GetProcessTimeSummary | FileParser/Program.cs:1219-1258 | the loop (wait for `Process Time Summary:`, skip blank and `---` lines, store the groups of each matching digit-led row) computes the reference fold |
| PoeProcess.ProcessTimes | FileParser/Program.cs:1219-1258 | the process-time summary of a log, as the loop collects it |
| PoeProcess.TimeRunAppend | FileParser/Program.cs:1224-1255 | scanning `a + b` is scanning `a` and then `b` from where `a` left off |
| PoeProcess.TimeRunIdle | FileParser/Program.cs:1227-1234 | lines before the start line change nothing |
| PoeProcess.TimesIgnorePreamble | FileParser/Program.cs:1227-1234 | nothing before the `Process Time Summary:` line is read, and a log without it gives no times |
| PoeProcess.EntryShaped | FileParser/Program.cs:1248-1249 | a key `<digits>-<name>` with a value `<digits> sec` has the entry shape |
| PoeProcess.TimeEntryShaped | FileParser/Program.cs:1248-1249 | every matched row gives an entry of that shape |
| PoeProcess.TimeRunShaped | FileParser/Program.cs:1224-1255 | the loop keeps every stored entry in that shape |
| PoeProcess.ProcessTimesShaped | FileParser/Program.cs:1219-1258 | every process-time key is `<digits>-<name>` and every value is `<digits> sec` |
| PoeSummary.Dashes | FileParser/Program.cs:1193 | a run of n dashes: length n, every character a dash |
| PoeSummary.GetSummaryData | FileParser/Program.cs:1169-1213 | the method first splits the log into task sections and raises what that split raises (Program.cs:1176); otherwise it returns the summary map of the reference fold |
| PoeSummary.ScanSummary | FileParser/Program.cs:1178-1211 | the loop (the marker opens the block, a 64-dash line closes it, each non-blank line inside with a colon sets its trimmed key to its trimmed value) computes the reference fold |
| PoeSummary.SummaryOutsideBlock | FileParser/Program.cs:1187-1199 | outside the block, lines without the marker change nothing |
| PoeSummary.SummaryIgnoresPreamble | FileParser/Program.cs:1187-1191 | nothing before the first marker line is read |
| PoeSummary.SummaryClosed | FileParser/Program.cs:1193-1197 | the closing dash line ends the block: nothing after it is read until another marker |
| PoeSummary.SummaryRunAppend | FileParser/Program.cs:1178-1210 | scanning `a + b` is scanning `a` and then `b` from where `a` left off |
| PoeSummary.OriginGrows | FileParser/Program.cs:1178-1210 | an entry that comes from some line still does when more lines are read |
| PoeSummary.SummaryStepOrigins | FileParser/Program.cs:1199-1207 | one step keeps every entry traceable to a line already read |
| PoeSummary.SummaryRunOrigins | FileParser/Program.cs:1178-1210 | the loop keeps every entry traceable to a line already read |
| PoeSummary.SummaryEntriesFromLines | FileParser/Program.cs:1201-1206 | every summary entry is the trimmed key and value around the first colon of some line of the log |
| PoeSummary.SummaryRunUnique | FileParser/Program.cs:1206 | the summary never lists a key twice |
| PoeSummary.SplitTaskLine | FileParser/Program.cs:1730-1741 | the split succeeds exactly when the row has at least 95 characters, and then gives one field per column |
| PoeSummary.SplitTaskLineSkipsGaps | FileParser/Program.cs:1734-1739 | the columns leave out characters 60, 77 and 94: changing one of them changes no field |
| PoeSummary.SplitTaskLineResult | FileParser/Program.cs:1734-1739 | the sixth column is `Result`, the trimmed text from character 95 on; the first is the trimmed first 8 characters |
| PoeSummary.GetTaskDetails | FileParser/Program.cs:1681-1728 | returns the task results the reference definition gives, or the fault a short row or a repeated index raises |
| PoeSummary.TaskDetails | FileParser/Program.cs:1681-1728 | the result column of the task table, or the exception a row shorter than 95 characters or a repeated index raises; a log without the table gives no results |
| PoeSummary.TaskResults | FileParser/Program.cs:1697-1712 | the loop over the rows from the start index splits and keys them as `ToDictionary` does and collects each `Result` |
| PoeSummary.PrefixedNothing | FileParser/Program.cs:1709-1712 | putting nothing in front of a result leaves it unchanged |
| PoeSummary.PrefixedTwice | FileParser/Program.cs:1709-1712 | putting `b` and then `a` in front is putting `a + b` in front |
| PoeSummary.DetailsRunCons | FileParser/Program.cs:1697-1704 | the run over the rows from a table row splits that row and goes on with the rest |
| PoeSummary.TaskDetailsWithoutTable | FileParser/Program.cs:1684-1690 | a log without the `Index    Task Name` header gives an empty list |
| PoeSummary.FreshKeysCons | FileParser/Program.cs:1701-1702 | the rows have fresh keys exactly when the first row's key is fresh and the rest have fresh keys given it |
| PoeSummary.DetailsRunOk | FileParser/Program.cs:1697-1704 | the run succeeds exactly when every row has at least 95 characters and no index repeats |
| PoeSummary.AllLongCons | FileParser/Program.cs:1700 | every row is long enough exactly when the first is and the rest are |
| PoeSummary.DetailsRunOkCons | FileParser/Program.cs:1697-1704 | the run succeeds exactly when the first row splits with a fresh key and the rest succeed |
| PoeSummary.DetailsRunOkStep | FileParser/Program.cs:1697-1712 | a successful run split the first row, keyed it freshly, and put its `Result` before the rest |
| PoeSummary.DetailsRunValues | FileParser/Program.cs:1709-1712 | a successful run lists each row's `Result` column in row order, one per row |
| PoeSummary.DetailsRunLength | FileParser/Program.cs:1709-1712 | a successful run gives one result per row |
| PoeSummary.DetailsRunAt | FileParser/Program.cs:1709-1712 | the i-th result of a successful run is row i's trimmed text from character 95 on |
| PoeSummary.TaskDetailsSpec | FileParser/Program.cs:1681-1728 | the task details fail exactly on a row shorter than 95 characters or a repeated index; on success they are one trimmed `Result` column per table row, in order |
| PoeBlocks.ScanBlock | FileParser/Program.cs:1437-1460 | the `foreach` scan (a start line opens the block and is skipped, later lines give their rows, the first `====` line inside ends the scan) computes the reference block function |
| PoeBlocks.BlockFrom | FileParser/Program.cs:1437-1460 | the rows of the lines after a start line, start lines being skipped wherever they occur, up to the first `====` line inside the block |
| PoeBlocks.BlockWithoutStart | FileParser/Program.cs:1437-1460 | a log without a start line gives no rows |
| PoeBlocks.BlockBeforeStart | FileParser/Program.cs:1439-1443 | lines before the first start line are not read: the scan goes on after it inside the block |
| PoeBlocks.BlockBody | FileParser/Program.cs:1445-1458 | inside the block, the rows are those of the lines up to the first `====` line |
| PoeBlocks.BlockBetween | FileParser/Program.cs:1437-1460 | with the first start line at h and the first `====` line after it at e, the rows are those of the lines strictly between them |
| PoeBlocks.BlockRows | FileParser/Program.cs:1453-1457 | every row of a block is a row some line gives, so a property of all rows holds of the block |
| PoeBlocks.PortRow | FileParser/Program.cs:1453-1457 | a port-table line gives a row only when its first word matches the port pattern |
| PoeBlocks.TableRow | FileParser/Program.cs:1496-1500 | a byte- or VLAN-table line gives a row only when no word starts a table rule |
| PoeBlocks.PortsArePortIds | FileParser/Program.cs:1454-1456 | every port of the port table matches the port pattern |
| PoeBlocks.TableRowsHaveNoRules | FileParser/Program.cs:1497-1522 | no row of the byte or VLAN table holds a rule word |
| PoeBlocks.AssignTable | FileParser/Program.cs:1530-1539 | the double loop (each port, each header, when the row has that column) computes the reference assignment |
| PoeBlocks.ExtractFinalResult1 | FileParser/Program.cs:1417-1565 | the method (three block scans, then the port, byte and VLAN assignments in that order) returns the reference dictionary |
| PoeBlocks.FinalResult | FileParser/Program.cs:1417-1565 | the map of the port, byte and VLAN tables, keyed by header and port |
| PoeBlocks.CellKeySamePort | FileParser/Program.cs:1536 | for one port, the key `{header}_{port}` names its header uniquely |
| PoeBlocks.CellKeyInjective | FileParser/Program.cs:1536 | for headers without `_`, the key determines both header and port |
| PoeBlocks.AssignRowUntouched | FileParser/Program.cs:1532-1538 | one row's assignments leave every other key alone |
| PoeBlocks.AssignRowCell | FileParser/Program.cs:1532-1538 | with distinct headers, each present column of a row sets its own cell |
| PoeBlocks.AssignAllUntouched | FileParser/Program.cs:1530-1539 | a key that is no cell key of the ports is left as it was |
| PoeBlocks.AssignAllCell | FileParser/Program.cs:1530-1539 | with distinct ports and distinct `_`-free headers, port i's cell under header j holds row i's j-th value |
| PoeBlocks.TablesApart | FileParser/Program.cs:1536-1560 | tables with different `_`-free headers never share a cell key, whatever the ports |
| PoeBlocks.CellSurvives | FileParser/Program.cs:1541-1563 | a later table with other headers leaves an earlier table's cells alone |
| PoeBlocks.PortHeadersDistinct | FileParser/Program.cs:1427-1428 | the port headers are distinct |
| PoeBlocks.PortHeadersNoUnderscore | FileParser/Program.cs:1427-1428 | no port header holds `_` |
| PoeBlocks.ByteHeadersDistinct | FileParser/Program.cs:1476 | the byte headers are distinct and hold no `_` |
| PoeBlocks.VlanHeadersDistinct | FileParser/Program.cs:1430-1433 | the VLAN headers are distinct |
| PoeBlocks.VlanHeadersNoUnderscore | FileParser/Program.cs:1430-1433 | no VLAN header holds `_` |
| PoeBlocks.PortByteApart | FileParser/Program.cs:1427-1476 | no port header is a byte header |
| PoeBlocks.PortVlanApart | FileParser/Program.cs:1427-1433 | no port header is a VLAN header |
| PoeBlocks.ByteVlanApart | FileParser/Program.cs:1430-1476 | no byte header is a VLAN header |
| PoeBlocks.FinalSteps | FileParser/Program.cs:1553-1564 | the result is the VLAN assignment applied after the port and byte assignments |
| PoeBlocks.FinalPortCell | FileParser/Program.cs:1530-1539 | with distinct ports, port i's cell under port header j holds that port's j-th value |
| PoeBlocks.FinalByteCell | FileParser/Program.cs:1542-1551 | the i-th byte-table row belongs to the i-th port, whatever the byte table's own first column says |
| PoeBlocks.FinalVlanCell | FileParser/Program.cs:1554-1563 | the i-th VLAN-table row belongs to the i-th port |
| PoeBlocks.FinalOnlyCells | FileParser/Program.cs:1417-1565 | only cell keys of the scanned ports occur; in particular a log with no port rows gives the empty dictionary |
| PoeBlocks.StreamKind | FileParser/Program.cs:1596-1599 | a data line that does not stop the table gives match values that are each a tuple or a run without whitespace |
| PoeBlocks.StreamKeySameRow | FileParser/Program.cs:1609 | within one row, the key `{header}({sPort})({dPort})` names its header uniquely |
| PoeBlocks.StreamHeadersDistinct | FileParser/Program.cs:1574-1583 | the seven stream headers are distinct |
| PoeBlocks.GetStreamCounterResults | FileParser/Program.cs:1567-1616 | returns the reference dictionary: empty without an `SPort` header, else the rows from two lines below it |
| PoeBlocks.StreamCounters | FileParser/Program.cs:1567-1616 | the stream-counter map: empty without an `SPort` header, else built from the rows that start two lines below it |
| PoeBlocks.StreamRows | FileParser/Program.cs:1594-1612 | the row loop (stop at a blank or `-----` line, skip rows with too few values, otherwise assign the counters) computes the reference run |
| PoeBlocks.PutStreamRow | FileParser/Program.cs:1607-1611 | the inner loop sets the row's counters as the reference assignment does |
| PoeBlocks.PutStreamCell | FileParser/Program.cs:1609-1610 | setting the counter under header j leaves exactly the assignments of the headers after j still to do |
| PoeBlocks.StreamRunCons | FileParser/Program.cs:1594-1612 | one loop iteration is one step of the reference run |
| PoeBlocks.StreamPutUntouched | FileParser/Program.cs:1607-1611 | a row's assignments leave every other key alone |
| PoeBlocks.StreamPutCell | FileParser/Program.cs:1607-1611 | with distinct headers a kept row sets each counter to the value two places after its header's index |
| PoeBlocks.StreamRowCells | FileParser/Program.cs:1602-1611 | a kept row sets its seven counters under the source's headers |
| PoeBlocks.StreamRunStops | FileParser/Program.cs:1597 | a stop line ends the table: nothing after it is read |
| PoeBlocks.StreamRunSkipsShort | FileParser/Program.cs:1600 | a row with fewer than nine values contributes nothing |
| PoeBlocks.StreamRunUntouched | FileParser/Program.cs:1594-1612 | the loop writes only keys of the counter-key shape |
| PoeBlocks.StreamCountersKeys | FileParser/Program.cs:1567-1616 | every entry is a counter key `{header}({sPort})({dPort})` |
| PoeBlocks.AssignRowSize | FileParser/Program.cs:1530-1539 | one port's row adds at most one entry per header |
| PoeBlocks.AssignAllSize | FileParser/Program.cs:1528-1540 | a table adds at most one entry per port and header |
| PoeBlocks.FinalResultSize | FileParser/Program.cs:1417-1565 | the result holds at most 12 + 5 + 7 = 24 entries per port |
| PoeDriver.FindSerial | FileParser/Program.cs:1121-1129 | the loop returns the reference serial value: every line holding `SN1#:` replaces the value so far |
| PoeDriver.SerialRun | FileParser/Program.cs:1121-1129 | the value after the last `SN1#:` line, trimmed, or the value given |
| PoeDriver.SerialRunAppend | FileParser/Program.cs:1121-1129 | one more line replaces the serial value exactly when it holds `SN1#:` |
| PoeDriver.SerialIsLastTagged | FileParser/Program.cs:1106-1129 | the serial number is the trimmed text after `SN1#:` on the last line holding it, and `Not Found` when no line does |
| PoeDriver.TablesOf | FileParser/Program.cs:1150-1153 | a section has exactly six tables |
| PoeDriver.ReadTables | FileParser/Program.cs:1142-1153 | the six extractors run on the section's lines give packet, learning, process-detail, process-time, final-result and stream-counter tables, in that order |
| PoeDriver.SectionListBy | FileParser/Program.cs:1140-1160 | one entry per section of the log |
| PoeDriver.CollectSections | FileParser/Program.cs:1139-1161 | the section loop builds one named six-table entry per section, in section order, and leaves the header list as the reference definition says |
| PoeDriver.CollectSectionsBy | FileParser/Program.cs:1140-1160 | the section loop computes the reference list and header list for any table reader equal to the six extractors |
| PoeDriver.ReadSection | FileParser/Program.cs:1142-1153 | one section becomes its name paired with its six tables |
| PoeDriver.ReadFile | FileParser/Program.cs:1104-1162 | one file is skipped unless it is a `.log` file of more than one line; otherwise its serial, summary, task results and sections are appended, or the fault of a repeated section name or a malformed task table is returned |
| PoeDriver.CollectFile | FileParser/Program.cs:1104-1162 | what one file adds to the collected lists, or the exception reading it raises |
| PoeDriver.ProcessPoeNetowrkData | FileParser/Program.cs:1088-1167 | a fault while reading any file aborts the run with that fault; otherwise the reports are those the reference assembly of the collected lists gives, unit for unit |
| PoeDriver.Collect | FileParser/Program.cs:1102-1163 | the lists collected over all files in order, up to the first exception |
| PoeDriver.CollectRunAligned | FileParser/Program.cs:1130-1161 | the serial, summary, task and section lists grow together, one entry per PoE log |
| PoeDriver.Logs | FileParser/Program.cs:1104 | the PoE logs among the files: all of them pass the file test, and there are no more of them than files |
| PoeDriver.DriverNeverMismatches | FileParser/Program.cs:98-102 | the serial and summary lists always agree in length, so the "do not match" branch is never taken, and there is one report per PoE log (with line 1166) |
| PoeDriver.HeadersStay | FileParser/Program.cs:1155-1159 | a header list that is set is never replaced |
| PoeDriver.FlatAppend | FileParser/Program.cs:1157 | flattening two table lists is flattening each and joining |
| PoeDriver.AllTablesAppend | FileParser/Program.cs:1157 | the tables of two section lists are the tables of each, joined |
| PoeDriver.AllKeysAppend | FileParser/Program.cs:1157 | the keys of two section lists are the keys of each, joined |
| PoeDriver.AllKeysOne | FileParser/Program.cs:1157 | the keys of one section are the keys of its flattened tables |
| PoeDriver.FirstKeysAppend | FileParser/Program.cs:1155-1159 | the first non-empty key list is kept once found; before it, all keys so far are none |
| PoeDriver.HeadersAreFirstKeys | FileParser/Program.cs:1155-1159 | from an empty header list, the headers are the key list of the first section whose tables have any key |
| PoeDriver.FirstKeysConcat | FileParser/Program.cs:1155-1159 | the first non-empty key list of `a + b` is that of `a` when `a` has one, else that of `b` |
| PoeDriver.CollectRunHeaders | FileParser/Program.cs:1102-1165 | across files, the header list stays the key list of the first section, over all logs read, that has any key |
| PoeDriver.DriverHeaders | FileParser/Program.cs:1098-1159 | the header list handed to `ConvertToJsonPoE` is the key list of the first section, over all PoE logs, whose tables have any key |
| PoeAssembly.Flat | FileParser/Program.cs:121 | a section without tables has no entries |
| PoeAssembly.SectionSpecs | FileParser/Program.cs:132-144 | one section record per header, the k-th pairing header k with value k |
| PoeAssembly.UnitSpec | FileParser/Program.cs:109-147 | a unit carries its serial number and summary, one task per section named after it with the section's status and one record per header, and has passed exactly when the sixth summary entry is `Pass` |
| PoeAssembly.Assemble | FileParser/Program.cs:96-149 | nothing is built exactly when the serial and summary counts differ; an out-of-range fault exactly when they agree but an indexer or `ElementAt(5)` is out of range; otherwise one unit per serial number |
| PoeAssembly.ConvertToJsonPoE | FileParser/Program.cs:87-149 | the method builds what the reference assembly says: the same fault, the same "nothing", or objects whose serialised views are the reference units, one for one |
| PoeAssembly.BuildUnits | FileParser/Program.cs:104-149 | the loop fails exactly when some unit cannot be built, and otherwise builds one object per serial whose view is that unit's reference record |
| PoeAssembly.BuildUnit | FileParser/Program.cs:106-148 | one unit fails exactly when a status or a value is missing, and otherwise its view is the reference record |
| PoeAssembly.AddTasks | FileParser/Program.cs:116-147 | the section loop succeeds exactly when every section has a status and a value per header; it then adds one task per section whose view is the reference task, and changes no other field of the report |
| PoeAssembly.BuildTask | FileParser/Program.cs:121-145 | the header loop fails exactly when the section has fewer values than headers, and otherwise builds a task whose sections are the reference records |
| PoeAssembly.SectionChartRoundTrip | FileParser/Program.cs:135-142 | the chart-type string of each record names the member the classifier picked for its header, a value that is not a number is charted `None`, and the data-set flag is the parse result |
| PoeAssembly.AlignedPairing | FileParser/Program.cs:121-143 | when a section's keys begin with the shared header list, each record pairs a header with the value stored under that very header |
| PoeAssembly.MisalignedPairing | FileParser/Program.cs:121-143 | names and values are paired by position only: a section listing the same keys in another order gets each value under the wrong name |
| AdacRules.RenameTrigg | FileParser/Program.cs:958 | each key keeps its position; a key containing `TRIGG` becomes `TRIGG` followed by its one-based position, every other key is unchanged |
| AdacRules.NonEmpty | FileParser/Program.cs:510 | the kept values are exactly the non-empty values of the input, none longer than it |
| AdacRules.Zip | FileParser/Program.cs:495-498 | one entry per value, the i-th pairing the prefixed i-th key with the i-th value |
| AdacRules.PairsCheck | FileParser/Program.cs:495-553 | the pair loop only completes when the values do not outnumber the keys it still indexes |
| AdacRules.PairsCheckStep | FileParser/Program.cs:532-553 | one pass of the pair loop: the limit-check result so far is joined with whether this "Ton Read" value lies in 1000..3000 |
| AdacRules.AssignPairs | FileParser/Program.cs:493-556 | the loop's result is its specification PairsRun: the first exception it raises, or every pair written in order and whether a "Ton Read" value lay within limits |
| AdacRules.PairsRun | FileParser/Program.cs:493-556 | the first failure of the pair loop, or the unit's map with key i set to value i for each pair, and whether the limit check passed |
| AdacRules.ZipSnoc | FileParser/Program.cs:495-498 | the entries for one more value are the earlier entries followed by the new pair |
| AdacRules.EqualsPairs | FileParser/Program.cs:458-466 | one entry per complete pair of parts, the k-th mapping the prefixed part 2k to part 2k+1; a trailing odd part is dropped |
| AdacRules.EqualsCheck | FileParser/Program.cs:460-485 | without the limit check the equals loop never fails and passes nothing |
| AdacRules.EqualsCheckStep | FileParser/Program.cs:468-483 | one pass of the equals loop joins the result so far with whether this pair is an in-range "Ton Read" |
| AdacRules.AssignEquals | FileParser/Program.cs:455-486 | the loop's result is its specification EqualsRun: the parse failure, or every complete pair written in order with the limit-check result |
| AdacRules.EqualsRun | FileParser/Program.cs:455-486 | the first failure of the check, or the unit's map with the parts around each `=` set as key and value, and whether the limit check passed |
| AdacRules.EqualsPairsStep | FileParser/Program.cs:460-466 | the entries of two more parts are the earlier entries followed by the new pair |
| AdacRules.EqualsPairsDone | FileParser/Program.cs:460 | the loop stops with every complete pair written |
| AdacRules.RuleStep | FileParser/Program.cs:488-566 | a rule whose trigger is absent changes nothing; a trigger whose look-ahead line is past the end throws; a rule that fires skips exactly one line; a rule that does not fire leaves the values and the limit flag untouched |
| AdacRules.ApplyRule | FileParser/Program.cs:488-520 | the imperative rule equals its specification RuleStep |
| AdacRules.PairsCheckErrWhenLonger | FileParser/Program.cs:495-498 | without the limit check, more values than keys always throws an index error |
| AdacRules.PairsCheckOkWhenCovered | FileParser/Program.cs:495-498 | without the limit check, a loop whose keys cover its values never fails |
| AdacRules.PairsRunMeaning | FileParser/Program.cs:493-499 | the pair loop throws if and only if the values outnumber the keys; otherwise, for distinct keys, each prefixed key holds its value and every other key is untouched |
| AdacRules.PrefixInjective | FileParser/Program.cs:466 | prefixing keys keeps them distinct |
| AdacRules.TonReadNotNumberThrows | FileParser/Program.cs:473-481 | a "Ton Read" value that is not a number makes the equals rule throw a format error |
| AdacScan.SetPhase | FileParser/Program.cs:380-450 | a `SEQ.n:` line turns sequence n on and the sequence before it off (sequence 11 for `SEQ.1:`, and sequence 1 too for `SEQ.11:`); no other flag changes |
| AdacScan.MarkerOf | FileParser/Program.cs:380-450 | the marker tests run in the source's order; `SEQ.1:` is recognised exactly when the line starts with it and not with `SEQ.11:` |
| AdacScan.HeaderStep | FileParser/Program.cs:369-378 | a line without "Model" changes nothing; a "Model" line within three lines of the end throws; an opened unit has an empty row and an empty verdict under a serial number not seen before, with its values and verdict reset; a repeated serial number throws a duplicate-key error |
| AdacScan.MarkerStep | FileParser/Program.cs:380-450 | a marker line sets the verdict to whether it says "PASS" and switches the flags; any other line changes nothing |
| AdacScan.Commit | FileParser/Program.cs:1074-1078 | the unit's serial number gets the current values and "PASS" or "FALSE"; every other serial number and the rest of the state keep their values |
| AdacScan.FirstActive | FileParser/Program.cs:570 | no prefix exactly when none of the block's sequences is on; otherwise the prefix of a sequence that is on (with line 860) |
| AdacScan.RulesRun | FileParser/Program.cs:488-566 | a block's table rules, applied in order, advance the line index by at most one per rule |
| AdacScan.BlockStep | FileParser/Program.cs:452-1079 | a block none of whose sequences is on changes nothing; a block never changes the flags, the serial number or the verdict, advances by at most one line per rule, and touches the result tables only when it is the sequence 11 block committing on a 71-dash line |
| AdacScan.BlocksRun | FileParser/Program.cs:452-1079 | running all blocks never moves the index back and never changes the flags, the serial number or the verdict |
| AdacScan.LineStep | FileParser/Program.cs:365-1081 | one pass of the second loop never moves the index back |
| AdacScan.LineStepMarker | FileParser/Program.cs:380-450 | after a line, a marker line has set the verdict and the flags as `SetPhase` says, and any other line has left the flags alone |
| AdacScan.HeaderAt | FileParser/Program.cs:340-361 | reading a line of the first pass throws exactly when "Model" appears within the last three lines |
| AdacScan.HeaderPass | FileParser/Program.cs:338-362 | the first pass only appends, one serial number, one model name and one date per unit header |
| AdacScan.RulesRunStep | FileParser/Program.cs:488-566 | running the rules from i is rule i followed by the rules after it |
| AdacScan.RulesRunFails | FileParser/Program.cs:488-566 | a rule that throws ends its block with that exception |
| AdacScan.ApplyRules | FileParser/Program.cs:488-566 | the imperative rule sequence equals its specification `RulesRun` |
| AdacScan.ApplyBlock | FileParser/Program.cs:452-1079 | the imperative block equals its specification `BlockStep` |
| AdacScan.BlocksRunStep | FileParser/Program.cs:452-1079 | running the blocks from i is block i followed by the blocks after it, or block i's exception |
| AdacScan.ScanLine | FileParser/Program.cs:367-1080 | the imperative loop body equals its specification `LineStep` |
| AdacScan.CollectHeaders | FileParser/Program.cs:338-362 | the first loop equals its specification `HeaderPass` |
| AdacScan.ScanLines | FileParser/Program.cs:365-1081 | the second loop, including the rules' `j++`, equals its specification `ScanFrom` |
| AdacScan.ScanFrom | FileParser/Program.cs:365-1081 | the second loop from line j, as `ScanBy` over its body |
| AdacScan.ScanBy | FileParser/Program.cs:365-1081 | the loop over j below n whose body may advance the index, stopping at the first exception |
| AdacScan.ProcessAdacData | FileParser/Program.cs:305-1085 | the lines of the first file, or none, run through both loops; the result is the serial numbers, dates, rows, column headers and verdicts handed to the CSV writer, or the exception that ends the run |
| AdacScan.AdacRun | FileParser/Program.cs:305-1085 | both loops over the lines of the first file and the report they leave |
| AdacScan.PhasesInOrder | FileParser/Program.cs:380-450 | the scan starts with only sequence 1 on, and markers in the order 1 to 11 and back to 1 keep exactly one sequence on (with lines 324-326) |
| AdacScan.SkippedMarkerLeavesTwoOn | FileParser/Program.cs:380-450 | a marker out of order leaves the old sequence on beside the new one |
| AdacScan.VppLimitsUnreachable | FileParser/Program.cs:635-642 | the Vpp limit lookup never finds a key, because it prefixes "Seq1-" while the table's keys start with "Seq2-" |
| AdacScan.ScanIgnoresPassed | FileParser/Program.cs:328 | the scan's result, and whether it throws, do not depend on `firstSeqPassed` (with lines 480, 550, 649) |
| AdacScan.InactiveBlocksSkipped | FileParser/Program.cs:452-1006 | blocks whose sequences are all off leave the line to the blocks after them |
| AdacScan.DashLineCommits | FileParser/Program.cs:1006-1078 | in sequence 11, a 71-dash line commits the unit's values and its verdict from the latest `SEQ` line to its serial number |
| ValidateLimits.DropSpaceBeforeParen | scripts/validate_limits.py:95 | the substitution adds no character, keeps a non-blank first character and a non-blank last end, and empties only the empty text |
| ValidateLimits.ParenCleanAppend | scripts/validate_limits.py:95 | two texts with no blank before a '(' join into one such text unless a blank meets a '(' at the seam |
| ValidateLimits.CleanAfterKept | scripts/validate_limits.py:95 | a kept first character before a clean rest gives a clean result |
| ValidateLimits.CleanAfterDropped | scripts/validate_limits.py:95 | a run of blanks before '(' becomes the '(' and leaves the result clean |
| ValidateLimits.CleanAfterBlanks | scripts/validate_limits.py:95 | a run of blanks before anything other than '(' is kept and leaves the result clean |
| ValidateLimits.DropSpaceBeforeParenClean | scripts/validate_limits.py:95 | after the substitution no blank stands directly before a '(' |
| ValidateLimits.DropSpaceBeforeParenFixed | scripts/validate_limits.py:95 | a text with no blank before a '(' is left unchanged |
| ValidateLimits.TrimmedNoBreaks | scripts/validate_limits.py:94 | after the three replacements and the strip, no newline, carriage return or double quote is left |
| ValidateLimits.NormalizeKeyIsNormal | scripts/validate_limits.py:93-96 | a normalised key has no newline, carriage return or double quote, no blank at either end and no blank before '(' |
| ValidateLimits.NormalizeKey | scripts/validate_limits.py:93-96 | the key with newlines read as spaces, carriage returns and double quotes removed, stripped, and whitespace before an opening parenthesis removed |
| ValidateLimits.NormalizeKeyIdempotent | scripts/validate_limits.py:93-96 | a key already in normal form is unchanged, so normalising twice equals normalising once |
| ValidateLimits.NormalFixed | scripts/validate_limits.py:93-96 | `normalize_key` returns a normal key unchanged |
| ValidateLimits.RowGet | scripts/validate_limits.py:100-161 | the value under a present key, otherwise the default |
| ValidateLimits.FirstPresent | scripts/validate_limits.py:101-104 | None when no listed name is present; otherwise the value of the first listed name that is present |
| ValidateLimits.SectionEntries | scripts/validate_limits.py:124-126 | one assignment per limit in order, under its normalised key, holding its lower and upper limits |
| ValidateLimits.LoadLimits | scripts/validate_limits.py:122-127 | the loops equal their specification `FlatLimits`: every section's entries assigned in document order |
| ValidateLimits.FlatLimits | scripts/validate_limits.py:122-127 | the limit entries of all sections, normalised key by key, a later key replacing an earlier one in place |
| ValidateLimits.LoadStep | scripts/validate_limits.py:125-126 | one more limit is one more assignment |
| ValidateLimits.LoadSectionDone | scripts/validate_limits.py:123-124 | a finished section is one more section of the flattened entries |
| ValidateLimits.FlatLimitsLastWins | scripts/validate_limits.py:126 | a key holds the bounds of the last entry that normalises to it |
| ValidateLimits.FlatLimitsOnlyNormalKeys | scripts/validate_limits.py:125-126 | a key that no entry normalises to is absent |
| ValidateLimits.SerialOf | scripts/validate_limits.py:132-133 | a missing, empty or non-string serial field reads as "N/A" |
| ValidateLimits.GetField | scripts/validate_limits.py:98-104 | the cell of the one field name, or of the first listed name the row holds, or None |
| ValidateLimits.CollectStep | scripts/validate_limits.py:131-160 | the findings from part k on are part k's findings followed by the rest, or part k's exception |
| ValidateLimits.CollectFault | scripts/validate_limits.py:131-160 | a part that raises ends the run with its exception |
| ValidateLimits.CollectDone | scripts/validate_limits.py:173 | when no parts are left, the findings are those gathered so far |
| ValidateLimits.CollectStart | scripts/validate_limits.py:130 | the run starts with no findings |
| ValidateLimits.CollectNumbered | scripts/validate_limits.py:131 | when each part reports only its own row number, the findings are numbered within the range, in row order |
| ValidateLimits.CollectSameRow | scripts/validate_limits.py:160-171 | when every part reports for one row, so does the whole |
| ValidateLimits.CollectSingles | scripts/validate_limits.py:160-171 | parts with one finding each give those findings, in order |
| ValidateLimits.RecordFindings | scripts/validate_limits.py:139-158 | a record row gives at most one finding, for its own row: a missing key when the key is falsy, a missing value when the value is "", the exception `float` raises on an unconvertible cell, no finding when the text does not parse, and otherwise no finding or an out-of-range one |
| ValidateLimits.FlatOne | scripts/validate_limits.py:160-171 | one limit of a flat row gives at most one finding: a missing value when the column is falsy, an AttributeError on a non-string cell, no finding when the text does not parse even with a comma read as the decimal point, and otherwise no finding or an out-of-range one |
| ValidateLimits.RowPartAt | scripts/validate_limits.py:131 | part i of the loop is the row numbered i + 1 |
| ValidateLimits.RowFindings | scripts/validate_limits.py:131-171 | the findings of one row: the record check when the row has both the key field and the value field, the flat check otherwise |
| ValidateLimits.FlatRow | scripts/validate_limits.py:160-171 | the inner loop equals its specification `FlatFindings` |
| ValidateLimits.FlatFindings | scripts/validate_limits.py:160-171 | the findings of the limits of a flat row, in the order of the limits, up to the first exception |
| ValidateLimits.ValidateRows | scripts/validate_limits.py:129-173 | the loop equals its specification `Validate`: each row's findings in row order, or the first exception raised |
| ValidateLimits.Validate | scripts/validate_limits.py:129-173 | the findings of the rows in order, rows numbered from 1, up to the first exception |
| ValidateLimits.FindingsInRowOrder | scripts/validate_limits.py:131-171 | every finding is numbered between 1 and the number of rows, and the findings come in row order |
| ValidateLimits.RowFindingsNumbered | scripts/validate_limits.py:144-171 | every finding of a row carries that row's number |
| ValidateLimits.RecordVerdict | scripts/validate_limits.py:148-158 | a record value that reads as a number (a parsed text, a number or a boolean) is reported exactly when it lies outside its key's bounds, where a missing bound is no bound |
| ValidateLimits.FlatVerdict | scripts/validate_limits.py:163-171 | a flat text value that parses once its comma is read as the decimal point is reported exactly when the number lies outside the bounds |
| ValidateLimits.FlatAllMissing | scripts/validate_limits.py:160-164 | a flat row holding none of the limit keys reports each key as a missing value, in limit order |
| ValidateLimits.SerialOfBlank | scripts/validate_limits.py:132-133 | a serial field of blanks only is kept and stripped to the empty string rather than read as "N/A" |
| FailedMeasurements.Member | analyze_json_zip.py:30-34 | the value under a present key, otherwise the default |
| FailedMeasurements.PyGet | analyze_json_zip.py:9-25 | `get` raises exactly on a value that is not a dict; otherwise it gives the member or the default |
| FailedMeasurements.Iter | analyze_json_zip.py:17-29 | iterating raises exactly on null, booleans and numbers; a list gives its items, and the count is the length of a list, string or dict |
| FailedMeasurements.ToFloat | analyze_json_zip.py:37 | a number converts to itself; null, lists and dicts fail to convert |
| FailedMeasurements.LastSep | analyze_json_zip.py:9 | the position of the last path separator, or -1 when there is none |
| FailedMeasurements.LastDot | analyze_json_zip.py:9 | the position of the last '.', or -1 when there is none |
| FailedMeasurements.Stem | analyze_json_zip.py:9 | the stem is a prefix of the name, and when shorter it stops at a '.' after which comes no '.' and no separator |
| FailedMeasurements.LastSepAppend | analyze_json_zip.py:9 | appending text without separators keeps the last separator |
| FailedMeasurements.LastDotAppend | analyze_json_zip.py:9 | appending an extension moves the last dot to the extension's dot |
| FailedMeasurements.StemDropsExtension | analyze_json_zip.py:9 | a name with an extension gives back the name without it, when its last component is not all dots |
| FailedMeasurements.Classify | analyze_json_zip.py:43-51 | above the upper limit exactly when one is set and exceeded, checked first; below the lower exactly when not above and under a set lower limit; each with the positive distance; otherwise within limits |
| FailedMeasurements.MeasureRow | analyze_json_zip.py:29-61 | a measurement raises exactly when it is not a dict, and any row it gives carries the unit under test |
| FailedMeasurements.ChainStep | analyze_json_zip.py:28-29 | a run from part k is part k's rows followed by the rest, or part k's rows and exception |
| FailedMeasurements.ChainStart | analyze_json_zip.py:28 | a run starts from the results so far and adds nothing of its own yet |
| FailedMeasurements.ChainFile | analyze_json_zip.py:53-54 | parts that only give rows of one unit give a run of rows of that unit |
| FailedMeasurements.MeasurePartAt | analyze_json_zip.py:29 | part k of a list is its k-th measurement |
| FailedMeasurements.MeasureStep | analyze_json_zip.py:29-61 | a measurement that raises ends the run with the rows before it; one that does not adds its row, if any |
| FailedMeasurements.FieldOfEach | analyze_json_zip.py:17-25 | one list per item, each the item's field or [], raising exactly when some item is not a dict |
| FailedMeasurements.MeasureLists | analyze_json_zip.py:10-25 | a report that is not a dict raises AttributeError; without sequences but with `vcpDatas` the single list is `vcpDatas`; with none of the three there are no lists |
| FailedMeasurements.SerialOf | analyze_json_zip.py:9 | a report without `serialNumber` is named by its file's stem; a report that is not a dict raises |
| FailedMeasurements.MeasureList | analyze_json_zip.py:29-61 | the inner loop equals its specification `ListRun`, appended to the results so far |
| FailedMeasurements.MeasureLoop | analyze_json_zip.py:29-61 | the loop over the measurements equals its specification `Chain` of `MeasureRow`, appended to the results so far |
| FailedMeasurements.ProcessJsonData | analyze_json_zip.py:8-61 | the function equals its specification `Process`: the rows it appends and the exception that stopped it, if any |
| FailedMeasurements.Process | analyze_json_zip.py:8-61 | the rows one report appends and the exception that stops it, if any |
| FailedMeasurements.ProcessRowsOfUnit | analyze_json_zip.py:9-54 | every appended row carries the report's serial number, or its file's stem |
| FailedMeasurements.ListRows | analyze_json_zip.py:54 | every row of one list carries the given unit |
| FailedMeasurements.MissingHasPassedIsPass | analyze_json_zip.py:30 | a measurement without `hasPassed`, or with a truthy one, gives no row |
| FailedMeasurements.FailedMeasureReported | analyze_json_zip.py:30-61 | a falsy `hasPassed` whose numbers convert gives exactly one row with the name, the value, both limits and their classification |
| FailedMeasurements.BadNumberSkipped | analyze_json_zip.py:36-41 | a value or a present limit that fails to convert drops the measurement |
| FailedMeasurements.SequencesFirst | analyze_json_zip.py:16-25 | with any sequence present, `vcpDatas` and `networkTasks` are ignored |
| FailedMeasurements.NetworkTasksLast | analyze_json_zip.py:23-25 | without sequences and without `vcpDatas`, network tasks give each task's `taskSections` as the lists |
| FailedMeasurements.StrLeTotal | analyze_json_zip.py:96 | the string order is total |
| FailedMeasurements.StrLeTrans | analyze_json_zip.py:96 | the string order is transitive |
| FailedMeasurements.StrLeAntisym | analyze_json_zip.py:96 | the string order is antisymmetric |
| FailedMeasurements.Insert | analyze_json_zip.py:96 | insertion adds exactly the one row |
| FailedMeasurements.SortByFile | analyze_json_zip.py:96 | the sort is a permutation of the results |
| FailedMeasurements.InsertSorted | analyze_json_zip.py:96 | inserting into rows sorted by unit keeps them sorted |
| FailedMeasurements.OfFile | analyze_json_zip.py:96 | the rows of one unit are rows of the input with that unit |
| FailedMeasurements.InsertStable | analyze_json_zip.py:96 | insertion keeps the order of each unit's rows |
| FailedMeasurements.SortByFileStable | analyze_json_zip.py:96 | the sort orders the rows by unit, is a permutation, and is stable: each unit's rows keep their order |
| FailedMeasurements.GroupedStep | analyze_json_zip.py:111-116 | writing result i after the rows so far leaves the rows of the results after it |
| FailedMeasurements.WriteRows | analyze_json_zip.py:110-116 | the writer loop equals its specification `Grouped`, starting from no previous unit |
| FailedMeasurements.Grouped | analyze_json_zip.py:110-116 | the CSV rows: each result, with a blank row before it when its file differs from the previous result's |
| FailedMeasurements.GroupedData | analyze_json_zip.py:111-116 | dropping the blank rows gives back the results, in order |
| FailedMeasurements.DataRowsConcat | analyze_json_zip.py:116 | the results of two row blocks are the results of the first followed by those of the second |
| FailedMeasurements.GroupedHead | analyze_json_zip.py:112-116 | the rows open with a blank exactly when the first result's unit differs from the previous one, and the first result follows |
| FailedMeasurements.GroupedSplit | analyze_json_zip.py:112-116 | the rows are an optional blank, the first result, and the rows of the rest |
| FailedMeasurements.GroupedEndsWithData | analyze_json_zip.py:111-116 | the rows never end with a blank |
| FailedMeasurements.GroupedAdjacentSameFile | analyze_json_zip.py:112-116 | two results written one after the other belong to the same unit |
| FailedMeasurements.GroupedBlankSeparates | analyze_json_zip.py:112-115 | every blank row stands between results of two different units |
| FailedMeasurements.GroupedStartsWithData | analyze_json_zip.py:110-116 | written from the start, the rows open with the first result |
| FailedMeasurements.Analyze | analyze_json_zip.py:92-116 | nothing is written exactly when no report gave a row; otherwise the written results are the sorted results and the rows open with a result |
| FailedMeasurements.AllResults | analyze_json_zip.py:63-90 | the rows of every report in order, including those a report appended before an exception stopped it |
| FailedMeasurements.AnalyzeFailedMeasurements | analyze_json_zip.py:63-116 | the function equals its specification `Analyze` over the reports, each kept up to its first exception |
| MtfAnalysis.GetLimit | scripts/analyze_mtf_data.py:43-54 | a zone has a limit exactly when its index is 0 to 16: 64.0 for the centre, 45.1 for zones 1-4, 47.5 for 5-10 and 59.7 for 11-16 |
| MtfAnalysis.LimitsBelowCentre | scripts/analyze_mtf_data.py:43-54 | every limit lies between the inner ring's 45.1 and the centre's 64.0 |
| MtfAnalysis.ColumnIndex | scripts/analyze_mtf_data.py:85 | -1 exactly when the column is absent; otherwise a position holding that name |
| MtfAnalysis.RowGet | scripts/analyze_mtf_data.py:74-75 | an absent column gives the default |
| MtfAnalysis.Mean | scripts/analyze_mtf_data.py:87 | the average is a number exactly when both readings are, and then lies between them |
| MtfAnalysis.PairAverage | scripts/analyze_mtf_data.py:81-89 | a zone missing either column has no average |
| MtfAnalysis.AnyFailsIff | scripts/analyze_mtf_data.py:80-97 | clearing the flag zone by zone is the same as some limited zone averaging strictly below its limit |
| MtfAnalysis.OutputColumns | scripts/analyze_mtf_data.py:65-67 | the header is NO, SN., Barcode, Result followed by one `B<i>_H_V` per zone, in zone order |
| MtfAnalysis.Averages | scripts/analyze_mtf_data.py:80-91 | one average per zone, in zone order |
| MtfAnalysis.JudgeRow | scripts/analyze_mtf_data.py:78-99 | the zone loop gives every zone's average, and passes exactly when no zone fails |
| MtfAnalysis.ZoneAverage | scripts/analyze_mtf_data.py:81-89 | one zone's average equals its specification `PairAverage` |
| MtfAnalysis.OutputColumnsSnoc | scripts/analyze_mtf_data.py:66-67 | one more zone appends exactly its column name |
| MtfAnalysis.BuildHeader | scripts/analyze_mtf_data.py:65-67 | the header loop equals its specification `OutputColumns` |
| MtfAnalysis.ProcessSheet | scripts/analyze_mtf_data.py:61-102 | the header and one output row per data row, in order, each as `ShapeRow` makes it |
| MtfAnalysis.ShapeRow | scripts/analyze_mtf_data.py:71-100 | one output row: its number, serial, barcode, verdict and zone averages |
| MtfAnalysis.ProcessRows | scripts/analyze_mtf_data.py:71-102 | one output row per data row, in order |
| MtfAnalysis.ProcessRowsShape | scripts/analyze_mtf_data.py:71-100 | rows are numbered from 1 in order, each has one average per zone and says PASS or FAIL, and FAIL exactly when some limited zone averages below its limit |
| MtfAnalysis.AtLimitPasses | scripts/analyze_mtf_data.py:96 | an average equal to its limit passes |
| MtfAnalysis.UnreadableZoneNeverFails | scripts/analyze_mtf_data.py:85-97 | a zone with a missing column, an empty cell, a cell of another type or a text cell that `float` does not convert never fails the row |
| MtfAnalysis.ZonesPastSixteenIgnored | scripts/analyze_mtf_data.py:53-97 | zones from 17 on have no limit, so only zones 0 to 16 decide the verdict |
| MtfAnalysis.SerialFallback | scripts/analyze_mtf_data.py:74 | the serial comes from "SN.", else from "SN", else is empty |
| MtfAnalysis.VerdictTexts | scripts/analyze_mtf_data.py:99-163 | the summary counts a "FAIL" verdict as a failure and a "PASS" one not |
| MtfAnalysis.FailText | scripts/analyze_mtf_data.py:163 | "FAIL" is counted as a failure |
| MtfAnalysis.LowerFail | scripts/analyze_mtf_data.py:163 | lower-casing "FAIL" gives "fail" |
| MtfAnalysis.PassText | scripts/analyze_mtf_data.py:163 | "PASS" is not counted as a failure |
| MtfAnalysis.CountFails | scripts/analyze_mtf_data.py:163 | the fail count never exceeds the number of results |
| MtfAnalysis.RatioAtMostOne | scripts/analyze_mtf_data.py:164 | fails over total lies between 0 and 1 |
| MtfAnalysis.Summarize | scripts/analyze_mtf_data.py:161-164 | the total is the number of results, the fails are the results that say FAIL, and the percentage is fails over total times 100, lying between 0 and 100, and 0 without samples |
| MtfAnalysis.Verdicts | scripts/analyze_mtf_data.py:161 | the Result column holds each output row's verdict, in order |
| MtfAnalysis.SummaryCountsFailures | scripts/analyze_mtf_data.py:99-163 | on a processed sheet the fail count is the number of failing rows |
| MtfAnalysis.SummaryOfSheet | scripts/analyze_mtf_data.py:99-164 | the summary block of a processed sheet counts one sample per row and its failing rows, and gives their share of the rows as a percentage |
| MtfAnalysis.FailRows | scripts/analyze_mtf_data.py:163 | the failing rows are rows of the sheet that say FAIL |
| MtfAnalysis.SummaryBlock | scripts/analyze_mtf_data.py:158-160 | a summary is added exactly to the AVG_MTF_FOCUS and AVG_MTF_LCE sheets that have a Result column |
| CsvSplit.Slice | scripts/split_csv_tests.py:33 | a slice holds n lines, or the lines left when fewer remain |
| CsvSplit.NextStart | scripts/split_csv_tests.py:32 | the next part starts after the current one and no later than the end of the data |
| CsvSplit.Split | scripts/split_csv_tests.py:18-40 | fewer than four lines raise IndexError; a step of 0 raises ValueError; a negative step or no data line leaves `part_num` unbound at the closing message |
| CsvSplit.PartsAt | scripts/split_csv_tests.py:32-38 | the parts from a data line on are the part there followed by the parts after it |
| CsvSplit.PartsStep | scripts/split_csv_tests.py:32-38 | writing the part at i after the parts so far leaves the parts after it to write |
| CsvSplit.WriteParts | scripts/split_csv_tests.py:32-38 | the loop writes its specification `Parts` in order and leaves `part_num` at the last part's number, unset exactly when no part was written |
| CsvSplit.Parts | scripts/split_csv_tests.py:32-38 | the parts from data line i on, each the four head lines and the next n data lines |
| CsvSplit.PartName | scripts/split_csv_tests.py:35 | the file name `<prefix>_part<number>.csv` |
| CsvSplit.SplitCsvPreserveFormat | scripts/split_csv_tests.py:18-40 | the function equals its specification `Split` |
| CsvSplit.PartHasHead | scripts/split_csv_tests.py:23-37 | every part opens with the three filler lines and the header |
| CsvSplit.PartsConcat | scripts/split_csv_tests.py:32-38 | the parts' slices, in order, give back the data lines |
| CsvSplit.PartsReassemble | scripts/split_csv_tests.py:32-38 | each part opens with the leading lines, and the slices, in order, give back the data |
| CsvSplit.PartNumbered | scripts/split_csv_tests.py:34 | the k-th part is numbered k + 1 |
| CsvSplit.PartsSized | scripts/split_csv_tests.py:33 | every part but the last holds exactly n data lines, and the last holds 1 to n |
| CsvSplit.PartsSlices | scripts/split_csv_tests.py:32 | there is one part per slice of n lines of the data left |
| CsvSplit.SlicesBounds | scripts/split_csv_tests.py:32 | no slices only for no lines; otherwise the slice count times n covers the lines and one slice fewer falls short |
| CsvSplit.PartsCounted | scripts/split_csv_tests.py:32 | no parts exactly when no data is left; otherwise the parts cover the data with less than one part to spare |
| CsvSplit.SplitCountsParts | scripts/split_csv_tests.py:32-40 | a successful split writes ⌈data lines / n⌉ files numbered 1 upwards, `part_num` is that count, every file opens with the leading lines, every file but the last has n data lines, the last has 1 to n, and the slices give back the data |
| CsvSplit.PartNamesDistinct | scripts/split_csv_tests.py:35 | parts with different numbers go to different file names, so no part overwrites another |
| CsvSplit.SplitSucceeds | scripts/split_csv_tests.py:32-40 | an input with a data line and a positive step splits without error |
| CsvSplitFixed.SplitFixed | split_csv_tests.py:4-46 | the fixed run is the general splitter with 5004 lines per part |
| CsvSplitFixed.FixedFailsOnlyWhenShort | split_csv_tests.py:9-26 | with the step fixed at 5004 the run fails exactly on an input of at most four lines: IndexError below four, an unbound `part_num` at four |
| CsvSplitFixed.FixedSingleFile | split_csv_tests.py:18-46 | up to 5004 data lines stay in one file, part 1, a copy of the input |

## Left out

I/O and interaction:

- **`Main`** (FileParser/Program.cs:15-62). The console menu and prompts are interactive I/O. The chosen dialect and file are parameters here.
- **`ExtractArchiveFilesToMemory`** (1743-1767). Archive reading goes through SharpCompress. The engine's input is the sequence of archive entries: a name and an optional line array each.
- **`WriteToCsv`** (210-291). It writes the file through CsvHelper. `ProcessAdacData` stops at the values it hands over, and the row layout of the file is not modelled.
- **JSON serialisation and file output** of `ConvertToJsonPoE` (151-164). `Assemble` and `BuildUnit` stop at the record objects.
- **Console diagnostics.** The `Console.WriteLine` calls print text and change nothing else.
- **Python file and config loading.** This covers `parse_csv`, `parse_xlsx`, `parse_txt_json_array`, `load_config`, `validate_file` and `main` in scripts/validate_limits.py, and the zip opening and JSON decoding in analyze_json_zip.py (63-90). Rows, limit documents and JSON values are inputs here. The member names in an archive are given already filtered to `.json`.
- **openpyxl and pandas.** The styling and Excel I/O in scripts/analyze_mtf_data.py (105-241) are left out. `process_sheet` works on a table of cells.
- **Output folders and file names.** `get_output_folder` and the file-name derivation in the split scripts are left out. The output prefix is a parameter.
- **`ensure_package`.** It installs packages through pip at start-up.

Library behaviour:

- **Number parsing.** `decimal.Parse`/`TryParse` and Python `float()` are parameters: partial functions from text to a real. Culture and number-format rules are not modelled.
- **Regular expressions.** The .NET patterns are concrete tokenizers and recognizers written for the patterns the source uses. They do not run a regex engine.
- **Text handling.** Whitespace is a fixed set of characters: space, tab, the line breaks, form feed, U+0085 and U+00A0. Digits and case folding are ASCII only.
- **Culture-sensitive matching.** The source's `IndexOf(string)`, `StartsWith(string)` and `EndsWith(string)` calls use the current culture under .NET. Examples are `line.IndexOf(key)` (FileParser/Program.cs:296), `IndexOf("SN1#:")` (1126, 1183), `IndexOf(" ")` (1285), `StartsWith("SEQ.1:")` and its kin (380, 444, 1447, 1585, 1597, 1699), `StartsWith("Test Time")` (1287) and the quote tests (76-77). Culture-sensitive matching differs from ordinal matching only on ignorable code points and contractions. The model matches ordinally (`Text.IndexOf`, `Text.IndexOfFrom`, `Text.StartsWith`).
- **Floating point.** MTF averages, limits and deviations are reals. IEEE rounding and the `:.2f`/`:.3f` formatting are not modelled.

Dead code:

- **`ExtractFinalResult`, `GetHeaderByIndex` and `ExtractHeaders`.** Nothing calls them.
- **The `result` dictionary in `GetTaskDetails`** (1715-1725). It is built and then discarded.
- **The `headerLine` argument of `SplitHeaderLine`.** It is never used.
- **The `snValue` of `GetSummaryData`** (1172, 1180-1185). It is computed and never returned.
- **The `serialNumbersFromFileText` list** of `ProcessPoeNetowrkData`. It is filled and never read.
- **The "Ref Ton from LOAD:" branch** (561-566). It is a stub. Only its effect is modelled: the look-ahead index that can fall past the end.
- **The Vpp limit table** (635-642). No key ever hits, so it is modelled as a rule without a limit check.
- **`firstSeqPassed`.** It is kept only as the value `ScanBy` carries along. `AdacScan.ScanIgnoresPassed` shows that it changes nothing.
- **The other `generalInfo` fields of `ProcessAdacData`** (345-355). Only the serial number, model name and date are kept. The other fields are written and never read.

Modelling limits:

- FailedMeasurements.SerialOf: a `serialNumber` that is not a string counts as a `TypeError`. The model then drops that report. Python keeps such a serial, and `results.sort` (analyze_json_zip.py:96) fails only when it has to compare the serial with a string. Only string serials are modelled, since sorting values of mixed types has no single meaning here.
- FailedMeasurements.Analyze: on a single file. The input is the list of decoded reports of an archive; a member that fails to decode is simply absent from it. A report that raises keeps the rows added before the exception, and the scan goes on with the next report. That is the archive path. For a single `.json`/`.txt` file that raises, the script returns without writing anything. The model, which treats that file as a one-member archive, still writes the rows added before the exception.
- ValidateLimits.LimitEntry, ValidateLimits.Cell and ValidateLimits.Finding: typed inputs and structured findings. These types rule out four exceptions that `validate_limits.py` can raise:
  - a `KeyError` for a limit without `key`, `lowerLimit` or `upperLimit` (scripts/validate_limits.py:125-126);
  - an `AttributeError` from `normalize_key` on a key that is not a string (94);
  - a `TypeError` when a value is compared with a bound stored as text (153, 169);
  - a `TypeError` from `float()` on a list or dict cell (`Cell` has no list or dict).

  A finding is a `Finding` value with the row, the serial and what was found. The f-string message texts of lines 144-171 are not modelled, including the `-∞`/`∞` range text and the `❌` marker.
- MtfAnalysis.ProcessSheet: row numbers. `idx + 1` from pandas assumes the default `RangeIndex`, so the row number is the position plus one.
- **Scripts outside the core.** scripts/download_img_url.py, cli_tool.py, format_mic_calibration_file.py and convert_csv_excel_headers.py are not part of this model.
