# Monaco CSV converter — verified model

`csv_to_individual_configs.py` reads a CSV of synthetic browser monitors and,
for every row that has a `monitor_id`, writes a directory
`projects/synthetic-monitor/<monitor_id>` holding a `monitor.json` monitor
document and a `project.yaml` project descriptor for the Monaco deployment tool.

This project models the row transformation and the row loop in Dafny:

- `wrappers.dfy` — `Option`.
- `text.dfy` (module `Text`) — the Python string operations the converter relies on:
  `str.isspace`, `strip`, `split(';')` with `join` as its inverse, `split(':', 1)`,
  ASCII `lower`, `int()` and `str()` of an integer.
- `monitor.dfy` (module `MonitorConfig`) — `create_monitor_json_content`. A row is a
  `map<string, string>`; an absent column is a missing key. The monitor document is a
  datatype with the JSON object's fields; the sub-documents that never vary
  (anomaly detection, key performance metrics, script configuration) are constants.
  The functions `Locations`, `Tags`, `Enabled`, `Frequency`, `Description` and
  `MonitorFor` state what the document is. The method `CreateMonitorJsonContent`
  builds it the way the source does, with the tag list appended in loops, and is
  proved equal to `MonitorFor`.
- `project.dfy` (module `ProjectDescriptor`) — `create_project_yaml_content` as exact
  string concatenation. `ReadProject` reads the id and name back: it is the partner
  that shows what the text does and does not determine. The values are inserted
  without escaping. For quote-free values the text determines them. With a double
  quote, two different (id, name) pairs can give the same text.
- `generate.dfy` (module `Generator`) — the loop of `main`. Rows with an absent or
  empty `monitor_id` are skipped. Each other row appends `os.path.join(base, id)` to
  the directory list and records the document and descriptor it writes there.
  `GenerateProjects` is proved equal to the run function `Generate`. The lemmas
  describe `Generate` row by row.

Assumptions about Python built-ins:

- `strip()` removes the full set for which Python's `str.isspace()` holds: TAB..CR,
  FS..US, space, U+0085, U+00A0, U+1680, U+2000..U+200A, U+2028, U+2029, U+202F,
  U+205F and U+3000.
- `int()` skips a smaller set around its digits. It first turns non-ASCII white
  space into a space. Among ASCII characters it then skips only TAB..CR and the
  space. So a number behind FS..US (U+001C..U+001F) is rejected, although `strip()`
  would remove those characters. `Text.IsIntSpace` is that set.
- `lower()` folds only ASCII letters. For the one comparison the converter makes,
  `lower() == "true"`, this is exact. The only non-ASCII characters that Python
  lower-cases to ASCII are U+212A (to `k`) and U+0130 (to `i` plus a combining dot),
  and neither letter is in "true".
- `int()` accepts an optional sign and ASCII digits, with that white space around
  them. It rejects more than 4300 digits, the default limit of CPython 3.11 and later.
- `os.path.join` follows POSIX rules: an absolute second part replaces the base.

## Model

| member | source | states |
|---|---|---|
| `Text.Strip` | csv_to_individual_configs.py:18 | the result has no white space at either end, and is empty exactly when the input is all white space |
| `Text.StripIsSlice` | csv_to_individual_configs.py:18 | the stripped text is the slice of the input between a white-space prefix and a white-space suffix |
| `Text.StripPadded` | csv_to_individual_configs.py:35 | white space added around a stripped non-empty value is removed again |
| `Text.StripIdempotent` | csv_to_individual_configs.py:40 | stripping twice is stripping once (the custom entries are stripped again at line 46) |
| `Text.Split` | csv_to_individual_configs.py:18 | `split(';')` gives at least one piece, no piece holds `;`, and joining the pieces with `;` gives the cell back |
| `Text.SplitJoin` | csv_to_individual_configs.py:18 | splitting a `;`-joined list of `;`-free parts gives exactly those parts |
| `Text.SplitOnce` | csv_to_individual_configs.py:43 | `split(':', 1)` gives a colon-free key and the rest, and key, `:` and rest rebuild the entry |
| `Text.SplitOnceOf` | csv_to_individual_configs.py:43 | the split is at the first colon, so the value keeps any further colons |
| `Text.Lower` | csv_to_individual_configs.py:53 | the result has the input's length, no upper-case ASCII letter, and at each position the same letter as the input up to case |
| `Text.LowerMatches` | csv_to_individual_configs.py:53 | comparing `lower()` with a lower-case word is a case-insensitive comparison with that word |
| `Text.IntTrim` | csv_to_individual_configs.py:59 | the text `int()` reads is empty exactly when the cell is only skippable white space, and otherwise starts and ends with something `int()` does not skip |
| `Text.ParseInt` | csv_to_individual_configs.py:59 | `int()`: skipped white space, an optional sign and one to 4300 ASCII digits give their value; anything else is the `ValueError` (`None`); stated in both directions by `ParseIntAccepts` and `ParseIntSound` |
| `Text.IntTrimPadded` | csv_to_individual_configs.py:59 | white space that `int()` skips, added around a text, is skipped again |
| `Text.ParseShowInt` | csv_to_individual_configs.py:59 | `int(str(n)) == n` for every integer, zero and negatives included, of at most 4300 digits |
| `Text.ParseIntAccepts` | csv_to_individual_configs.py:59 | every string made of skipped white space, an optional `+` or `-`, one to 4300 ASCII digits (leading zeros allowed) and skipped white space is accepted, with the signed value of its digits |
| `Text.ParseIntSound` | csv_to_individual_configs.py:59 | every accepted string has exactly that shape and that value, so any other string is the `ValueError` |
| `Text.ParseIntTooManyDigits` | csv_to_individual_configs.py:59 | `int()` rejects more than 4300 digits |
| `Text.ParseIntSeparatorPadding` | csv_to_individual_configs.py:59 | `"\x1c45"` strips to `"45"`, yet `int()` rejects it |
| `MonitorConfig.Entries` | csv_to_individual_configs.py:18 | every parsed list entry is non-empty, stripped and free of `;` |
| `MonitorConfig.StrippedNonBlankAppend` | csv_to_individual_configs.py:18 | the list comprehension works piece by piece: filtering two runs of pieces is filtering each and concatenating, in order |
| `MonitorConfig.StrippedNonBlankSingle` | csv_to_individual_configs.py:18 | a single blank piece is dropped, and any other piece is kept stripped |
| `MonitorConfig.EntriesJoin` | csv_to_individual_configs.py:18 | a cell written as entries joined by `;` parses back to exactly those entries |
| `MonitorConfig.EntriesOfSeparators` | csv_to_individual_configs.py:18 | a cell of only `;` and white space has no entries |
| `MonitorConfig.Locations` | csv_to_individual_configs.py:16-22 | every location is a non-empty, stripped, `;`-free entry |
| `MonitorConfig.LocationsColumnChoice` | csv_to_individual_configs.py:16-22 | for any cells: a non-empty `locations` cell alone gives the locations, whatever `location_id` or any other column holds; else a non-empty `location_id` cell gives them; else they are exactly the default location |
| `MonitorConfig.LocationsRules` | csv_to_individual_configs.py:16-22 | a chosen cell written as entries joined by `;` gives exactly those entries as the locations; with both columns empty or absent, the default location |
| `MonitorConfig.LocationsNoFallback` | csv_to_individual_configs.py:17-18 | a non-empty `locations` cell of only separators and blanks gives no locations, with no fallback |
| `MonitorConfig.RequiredTagsSound` | csv_to_individual_configs.py:27-35 | each fixed-purpose tag is contextless, comes from a non-blank fixed-purpose column, and holds that column's stripped value under its key |
| `MonitorConfig.RequiredTagsOrdered` | csv_to_individual_configs.py:27-35 | the fixed-purpose tags are in the order Purpose, Industry, Owner, ExpiryDate |
| `MonitorConfig.RequiredTagsComplete` | csv_to_individual_configs.py:33-35 | every non-blank fixed-purpose column gives its tag |
| `MonitorConfig.RequiredTagsAbsent` | csv_to_individual_configs.py:33-35 | with no non-blank fixed-purpose column there is no fixed-purpose tag |
| `MonitorConfig.RequiredTags` | csv_to_individual_configs.py:27-35 | the fixed-purpose tags, defined column by column in the order of `required_tags_map`; pinned down by the four lemmas below |
| `MonitorConfig.CustomTag` | csv_to_individual_configs.py:42-46 | one custom entry to one tag; pinned down by `CustomTagOf` |
| `MonitorConfig.CustomTagOf` | csv_to_individual_configs.py:42-46 | `key:value` gives the stripped key and the stripped value, and an entry without a colon gives a key with no value |
| `MonitorConfig.CustomTagsInOrder` | csv_to_individual_configs.py:40-46 | one custom tag per entry, in entry order |
| `MonitorConfig.CustomTagsExample` | csv_to_individual_configs.py:38-46 | `env:prod;urgent` gives env=prod and then urgent with no value |
| `MonitorConfig.Tags` | csv_to_individual_configs.py:24-50 | the fixed-purpose tags, then the custom tags, or the sentinel tag alone; pinned down by the two lemmas below |
| `MonitorConfig.TagsNeverEmpty` | csv_to_individual_configs.py:48-50 | the tag list is never empty; it is the fixed-purpose tags and then the custom tags when either tier gave one, and the sentinel tag alone otherwise |
| `MonitorConfig.SentinelWhenNoTagColumns` | csv_to_individual_configs.py:25-50 | with no fixed-purpose column and `tag_custom` blank or absent, the only tag is `MonacoCsvGenerated` |
| `MonitorConfig.Enabled` | csv_to_individual_configs.py:53 | `get('enabled', 'true').lower() == 'true'`; pinned down by `EnabledIff` |
| `MonitorConfig.EnabledIff` | csv_to_individual_configs.py:53 | enabled exactly when the column is absent or reads "true" in any letter case, with no trimming |
| `MonitorConfig.EnabledExamples` | csv_to_individual_configs.py:53 | "TRUE", "True" and "true" enable; "" and " true" do not |
| `MonitorConfig.Frequency` | csv_to_individual_configs.py:56-62 | a warning always comes with the default 60, and only for a non-empty cell |
| `MonitorConfig.FrequencyOfDigits` | csv_to_individual_configs.py:56-62 | any cell `int()` accepts (sign, leading zeros and skipped white space included) gives the signed value of its digits and no warning |
| `MonitorConfig.FrequencyExampleSignAndZeros` | csv_to_individual_configs.py:56-62 | `" +007\n"` gives 7 with no warning |
| `MonitorConfig.FrequencyOfNumber` | csv_to_individual_configs.py:56-62 | any integer of at most 4300 digits written in decimal, with or without the white space `int()` skips around it, is taken as it is and gives no warning; there is no range check |
| `MonitorConfig.FrequencyTooManyDigits` | csv_to_individual_configs.py:57-62 | a cell of more than 4300 digits gives 60 with the warning |
| `MonitorConfig.FrequencyExampleSeparatorPadding` | csv_to_individual_configs.py:57-62 | `"\x1c45"` gives 60 with the warning |
| `MonitorConfig.FrequencyDefaults` | csv_to_individual_configs.py:56-62 | an absent or empty cell gives 60 with no warning; a cell `int()` rejects gives 60 with the warning |
| `MonitorConfig.FrequencyExampleNumber` | csv_to_individual_configs.py:57-59 | "45" gives 45 |
| `MonitorConfig.FrequencyExampleNoRangeCheck` | csv_to_individual_configs.py:57-59 | "0" gives 0 and "-5" gives -5 |
| `MonitorConfig.FrequencyExampleInvalid` | csv_to_individual_configs.py:60-62 | "abc" gives 60 with the warning |
| `MonitorConfig.Description` | csv_to_individual_configs.py:65-67 | the `description` cell, else "Navigate to " and the url after its default; stated by `DefaultsOnlyWhenAbsent` |
| `MonitorConfig.MonitorFor` | csv_to_individual_configs.py:12-113 | the whole document of one row; its fields are pinned down by the lemmas on locations, tags, enabled, frequency, defaults, the event and the fixed shape |
| `MonitorConfig.DefaultsOnlyWhenAbsent` | csv_to_individual_configs.py:64-67 | name, url, script type and description are the row's cells whenever the columns exist, empty cells included; the description default uses the url after its own default |
| `MonitorConfig.OneNavigateEvent` | csv_to_individual_configs.py:99-106 | the script has exactly one event, a navigate to the row's url with the row's description, waiting for page_complete |
| `MonitorConfig.FixedShape` | csv_to_individual_configs.py:70-112 | for every row, anomaly detection, the key performance metrics (VISUALLY_COMPLETE twice), the script configuration (WiFi, `disable-web-security` false, Desktop, landscape), the empty lists, script version "1.0" and type BROWSER are the literal's constants |
| `MonitorConfig.CollectRequiredTags` | csv_to_individual_configs.py:27-35 | the fixed-purpose loop appends exactly the fixed-purpose tags |
| `MonitorConfig.ParseCustomTag` | csv_to_individual_configs.py:42-46 | the body of the custom loop: for `key:value` with a colon-free key, the stripped key and the stripped value; for an entry without a colon, the stripped entry with no value |
| `MonitorConfig.AppendEntryTags` | csv_to_individual_configs.py:41-46 | the custom loop appends one tag per entry, in order |
| `MonitorConfig.AppendCustomTags` | csv_to_individual_configs.py:38-46 | a non-blank `tag_custom` cell adds its custom tags; otherwise nothing is added |
| `MonitorConfig.CreateMonitorJsonContent` | csv_to_individual_configs.py:12-113 | builds exactly the document `MonitorFor` describes, with at least one tag, and reports the frequency warning exactly when `int()` rejects a non-empty cell |
| `ProjectDescriptor.CreateProjectYamlContent` | csv_to_individual_configs.py:115-126 | the f-string with the id and the name pasted in; what the text determines is stated by the four lemmas below |
| `ProjectDescriptor.ReadProjectRoundTrip` | csv_to_individual_configs.py:115-126 | an id and a name without double quotes are read back from the descriptor exactly |
| `ProjectDescriptor.ReadProjectSound` | csv_to_individual_configs.py:115-126 | any text read back is the descriptor of the values read |
| `ProjectDescriptor.ProjectYamlInjective` | csv_to_individual_configs.py:115-126 | for quote-free values, equal descriptors mean equal ids and names |
| `ProjectDescriptor.ProjectYamlAmbiguousWithQuotes` | csv_to_individual_configs.py:117-125 | values are inserted without escaping: with a double quote, two different (id, name) pairs give the same text |
| `Generator.PathJoin` | csv_to_individual_configs.py:157 | `os.path.join` on POSIX: the result ends with the id; an absolute id is the result; otherwise the result starts with the base |
| `Generator.RowOutput` | csv_to_individual_configs.py:157-171 | what one kept row writes; stated by `RowOutputShape` |
| `Generator.Generate` | csv_to_individual_configs.py:148-171 | the outputs of a run, in row order; pinned down by the lemmas below |
| `Generator.GenerateProjects` | csv_to_individual_configs.py:146-175 | the loop writes exactly the run `Generate` describes, and its directory list is the list of the written directories |
| `Generator.GenerateAppend` | csv_to_individual_configs.py:148-161 | a run over two batches of rows is the first run followed by the second |
| `Generator.RowContribution` | csv_to_individual_configs.py:148-161 | a row with an absent or empty id adds nothing; any other row adds exactly its own output at its place, even when its id was seen before |
| `Generator.GenerateSound` | csv_to_individual_configs.py:148-161 | every output comes from a row with an id, and there are no more outputs than rows |
| `Generator.GenerateComplete` | csv_to_individual_configs.py:148-161 | every row with an id has its output in the run |
| `Generator.DirsOfOutputs` | csv_to_individual_configs.py:157-161 | the reported directories are the written directories, one per kept row, in order |
| `Generator.RowOutputShape` | csv_to_individual_configs.py:157-171 | a kept row writes to `base/monitor_id` (or to the id itself when it is absolute), a document with one navigate step to the row's url, and the descriptor of its id and name |
| `Generator.ExampleRowSchedule` | csv_to_individual_configs.py:53-62 | a row with only id, name and url gives an enabled monitor that runs every 60 minutes |
| `Generator.ExampleRowSettings` | csv_to_individual_configs.py:16-67 | that row's monitor runs at the default location, with the row's name and url |
| `Generator.ExampleRowTags` | csv_to_individual_configs.py:48-50 | that row's only tag is the sentinel |
| `Generator.SingleRowRun` | csv_to_individual_configs.py:148-161 | a run over one row with a monitor id writes exactly that row's output |
| `Generator.EndToEnd` | csv_to_individual_configs.py:148-175 | that row alone gives one output in projects/synthetic-monitor/mon-1, with its document and the descriptor for "mon-1" and "Home Page Check" |

## Left out

- File system effects are not modelled: the existence checks, `os.makedirs` and the file writes (lines 129-136, 157-175). Each write is recorded as a `Generated` value instead. Overwriting a directory that a repeated id already used is not modelled as file-system state.
- CSV decoding is not modelled: `csv.DictReader` and the byte-order mark (lines 139-144) are library code, so rows arrive as maps. The missing-file and missing-header errors are left out with it. Short rows give `None` cells, which crash `.lower()`; that crash is not modelled.
- JSON serialisation (`json.dump`, line 167) is left out: the document is a datatype, not its text.
- All `print` output is left out: the warnings, the progress lines, the summary and the next-steps text (lines 130-192). The frequency warning is returned as a boolean. The catch-all `except` at line 195 is left out too.
- `Text.ParseInt` does not accept digit-group underscores (`"1_000"`) or non-ASCII decimal digits, which Python's `int()` accepts. For such a cell the model gives 60 with the warning.
- `Text.ParseInt` fixes the digit limit at CPython's default of 4300. The limit can be changed with `PYTHONINTMAXSTRDIGITS` or `sys.set_int_max_str_digits`, and Python releases without the limit (before 3.11, apart from the late security releases of 3.7 to 3.10) accept any length; neither is modelled.
- `Text.Lower` folds only ASCII letters. This changes no result of the model, as explained above.
- Idempotence across runs is not stated as a lemma. It holds because every output is a function of the input rows: the model has no clock and no randomness.
