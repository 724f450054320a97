# Fitness calculator and usability-testing tool: a Dafny model

The repository holds two small form-driven tools. The fitness calculator (`app.py`)
maps the labels picked in its selectors to the tokens of a nutrition API and sends up
to three requests. The usability-testing tool (`usability.py`, with an earlier draft in
`test.py`) records consent, demographics, task results and an exit questionnaire as
rows appended to four CSV files, and times one task with a start/stop timer kept in
the browser session.

This project models the parts of that code that are logic rather than presentation:

- `optional.dfy`, module `Optional`: the `Option` type standing for Python's `None`.
- `calculator.dfy`, module `Calculator` (`app.py`, pure): the four lookup tables of
  `maps`, with defaults for diet and climate; the re-mapping of the activity and goal
  tokens before the macronutrient request; and which tokens reach which query string.
- `csv_log.dfy`, module `CsvLog` (pure specification of the files): the file system as
  a map from path to rows; `save_to_csv` as `usability.py` writes it (`Append`) and as
  `test.py` writes it (`AppendWithHeader`); `load_from_csv` (`Load`); folds of many
  saves, and the lemmas about them.
- `task_timer.dfy`, module `TaskTimer` (pure): the two session keys `start_time` and
  `task_duration` as a state machine over Start, Stop and Save presses, with lemmas
  about sequences of presses.
- `usability.dfy`, module `Usability` (`usability.py`, imperative): class `Session` with
  the two timer keys and the files as fields, and a method per button. Each method is
  proved against the functions of `CsvLog` and `TaskTimer`. The module also has the
  record layouts of the four logs and the task selector.
- `usability_draft.dfy`, module `UsabilityDraft` (`test.py`, imperative): class
  `DraftSession`, whose `save_to_csv` writes the header on every call, and its consent
  gate.

The clock is an integer parameter, and timestamps are strings passed in. Cell values
are text, whole numbers or booleans. A header row is the record's field names, as text
cells.

## Model

| member | source | states |
|---|---|---|
| Calculator.Lookup | app.py:194 | `dict.get`: a value exactly when the key is in the table, and then the table's value |
| Calculator.Maps | app.py:167-194 | a level token exactly for the five activity options; a goal token exactly for the three goal options; a diet token exactly for the four options other than "Regular"; a climate token exactly for the three climate options; any other label gives absent |
| Calculator.LevelTokens | app.py:169-175 | each activity label's token, e.g. "Extremely Active" gives "extra_active" |
| Calculator.GoalTokens | app.py:176-180 | "Cut", "Maintain" and "Bulk" give "weight_loss", "maintenance" and "weight_gain" |
| Calculator.DietTokens | app.py:181-187 | "Regular" gives absent; the other four diets give their lower-case tokens, "Gluten-Free" giving "gluten-free" |
| Calculator.ClimateTokensAndDefaults | app.py:167-192 | "Cold", "Average" and "Hot" give "cold", "normal" and "hot"; the defaults are no diet and an "Average" climate, so diet is absent and climate is "normal" |
| Calculator.AdjustLevel | app.py:122-127 | the result is never "lightly_active" or "extra_active"; any other token, or absent, is unchanged |
| Calculator.AdjustGoal | app.py:123-129 | the result is never "weight_gain"; any other goal is unchanged |
| Calculator.AdjustedLevelsOfOptions | app.py:122-136 | every activity option reaches the macronutrient request as "sedentary", "moderately_active" or "very_active"; "Lightly Active" arrives as "moderately_active", "Extremely Active" as "very_active", "Bulk" as "muscle_gain" |
| Calculator.Preferences | app.py:49-57 | in Advanced mode, `maps` gets the diet and climate picks; otherwise no diet and "Average" |
| Calculator.SubmitRequests | app.py:65-136 | the water and macronutrient requests are built exactly in Advanced mode (unless reading an earlier response raises, see below); the calorie request carries the level and goal tokens of `maps`; the water request carries that same unadjusted activity token and the climate pick's token; the macronutrient request carries the adjusted activity and goal tokens and the diet pick's token |
| Calculator.AdvancedPreferences | app.py:49-65 | in Advanced mode, for every offered pick: the diet is sent as a dietary preference exactly when it is not "Regular", and every climate option reaches the water request as a token |
| CsvLog.HeaderRow | usability.py:15-18 | the header row is the record's field names, in order |
| CsvLog.DataRow | usability.py:15-20 | the data row is the record's values, in order |
| CsvLog.Append | usability.py:15-20 | a missing file is created with exactly the header row and the data row; an existing file keeps all its rows and gets exactly one data row appended, with no check of its header; every other path is unchanged |
| CsvLog.Load | usability.py:22-26 | a missing file gives an empty table; otherwise the column row followed by the data rows is the file |
| CsvLog.Fields | usability.py:22-26 | a data row read under a column row pairs each column name with the cell in the same position |
| CsvLog.Records | usability.py:22-26 | one record per data row, in file order |
| CsvLog.FieldsOfRecord | usability.py:15-26 | a record's data row read under its own header row is the record |
| CsvLog.DataRows | usability.py:19-20 | one data row per record, in order |
| CsvLog.SaveAllExisting | usability.py:19-20 | saves into an existing file append the records' data rows, in order, after the old rows |
| CsvLog.SaveAllFresh | usability.py:15-20 | saves into a missing file give one header row, from the first record, then one data row per record |
| CsvLog.SaveAllElsewhere | usability.py:15-20 | saves to one path leave every other path, present or missing, as it was |
| CsvLog.LoadAfterSaves | usability.py:15-26 | saving records that share one schema into a missing file and loading it gives back exactly those records, in order |
| CsvLog.LoadedUnderFirstHeader | usability.py:15-26 | after saves into a missing file, every record reads back as its own values under the first record's field names, with no check that its names match |
| CsvLog.SchemaDriftMislabels | usability.py:19-20 | for instance, a second record with another field name is read back under the first record's name |
| CsvLog.AppendWithHeader | test.py:15-20 | whether or not the file exists, its old rows are kept and exactly a header row and a data row are appended; other paths are unchanged |
| CsvLog.Interleaved | test.py:19-20 | for n records: 2n rows, the header of record i at position 2i and its data row at 2i+1 |
| CsvLog.SaveAllWithHeaderRows | test.py:15-20 | after n saves a file holds its old rows followed by n header rows interleaved with n data rows |
| CsvLog.RepeatedHeaderReadAsData | test.py:15-26 | loading n ≥ 2 saves gives 2n - 1 data rows, the second of them the second record's header |
| TaskTimer.Start | usability.py:34-35 | the start key becomes the clock, overwriting any earlier start; the duration key is kept |
| TaskTimer.Stop | usability.py:38-40 | without a start nothing changes; with one the start is kept and the duration becomes now minus start |
| TaskTimer.Step | usability.py:33-61 | a start press acts as Start, a stop press as Stop, and a save press removes both keys |
| TaskTimer.StartThenStop | usability.py:34-40 | Start at a, then Stop at b, stores the duration b - a, which is not negative when a ≤ b |
| TaskTimer.StepKeepsPaired | usability.py:34-61 | no press leaves a duration stored without a start |
| TaskTimer.RunKeepsPaired | usability.py:34-61 | any sequence of presses from a paired state, in particular from a new session, ends paired |
| TaskTimer.RunConcat | usability.py:28-61 | running two sequences of presses is running one after the other |
| TaskTimer.SaveResets | usability.py:58-61 | after a save, neither key is present, whatever happened before |
| TaskTimer.StopsAloneStoreNothing | usability.py:38-40 | in a new session, Stop presses alone never store a duration |
| Usability.LogPathsDistinct | usability.py:10-13 | the four logs are four different files |
| Usability.ConsentRecord | usability.py:99-102 | columns timestamp and consent_given; the row is the timestamp and true |
| Usability.DemographicRecord | usability.py:118-124 | columns timestamp, name, age, occupation, familiarity, with the form's values |
| Usability.TaskRecord | usability.py:48-54 | columns timestamp, task_name, success, duration_seconds, notes, with the given values |
| Usability.ExitRecord | usability.py:164-169 | columns timestamp, satisfaction, difficulty, open_feedback, with the given values |
| Usability.TaskLogRoundTrip | usability.py:46-55 | task records all have the task columns, so the task log reads back exactly the saved records, in order |
| Usability.DurationCell | usability.py:47 | the stored duration if there is one, otherwise the empty string |
| Usability.SelectTask | usability.py:132-149 | only the first option shows the timed Task 1 page; Task 2 is shown only for a label the selector does not offer, so no offered option reaches it |
| Usability.Task2OptionShowsTask3 | usability.py:132-149 | the option "Task 2: Advanced Mode Testing" shows the same untimed Task 3 page as the third option |
| Usability.SelectTaskIntended | usability.py:132-149 | the i-th offered option shows Task i+1, and only Task 1 is timed |
| Usability.TimerPress | usability.py:33-46 | on the timed page Start gives a start press and Stop a stop press at the current clock; on an untimed page the timer buttons do nothing; Save gives a save press on every page; no button gives no press |
| Usability.Session.constructor | usability.py:64-67 | a new session has no timer keys and sees the files already on disk |
| Usability.Session.SaveToCsv | usability.py:15-20 | the files become those of `CsvLog.Append`; the timer keys are untouched |
| Usability.Session.LoadFromCsv | usability.py:22-26 | the table is `CsvLog.Load` of the files; nothing changes |
| Usability.Session.StartTaskTimer | usability.py:34-35 | the timer becomes `TaskTimer.Start` of the old one; the files are untouched |
| Usability.Session.StopTaskTimer | usability.py:38-40 | the timer becomes `TaskTimer.Stop` of the old one; the files are untouched |
| Usability.Session.SaveTaskResults | usability.py:46-61 | exactly one task record is appended to the task log, carrying the stored duration or ""; then both timer keys are gone |
| Usability.Session.TaskPage | usability.py:28-61 | on the page the selector picks, the press moves the timer as `TaskTimer.Step`; only Save writes, appending one record named after that page's task |
| Usability.Session.SubmitConsent | usability.py:92-103 | unticked: no file changes; ticked: exactly one consent record is appended to the consent log, and no other path changes |
| Usability.Session.SubmitDemographics | usability.py:108-125 | one demographic record is appended to the demographic log |
| Usability.Session.SubmitExit | usability.py:155-170 | one exit record is appended to the exit log |
| Usability.LeftoverDurationScenario | usability.py:28-61 | a duration timed on the Task 1 page and not saved there is written by the next save, on the untimed Task 3 page |
| Usability.ConsentScenario | usability.py:92-103 | an unticked then a ticked submission on an empty disk leave only the consent log, holding its header and the one ticked record |
| UsabilityDraft.DraftSession.constructor | test.py:29-32 | the draft session sees the files already on disk |
| UsabilityDraft.DraftSession.SaveToCsv | test.py:15-20 | the files become those of `CsvLog.AppendWithHeader` |
| UsabilityDraft.DraftSession.LoadFromCsv | test.py:22-26 | the table is `CsvLog.Load` of the files; nothing changes |
| UsabilityDraft.DraftSession.SubmitConsent | test.py:52-63 | unticked: no file changes; ticked: a header row and one consent record are appended to the consent log only |
| UsabilityDraft.TwoConsentsScenario | test.py:15-63 | two ticked consents leave a header before each record, and reading back gives the second header as a data row |

## Findings

| source | as written | input that shows it | evidently intended | confidence | as-written member | corrected member |
|---|---|---|---|---|---|---|
| usability.py:140 | the Task 2 branch compares the selection with "Task 2: Enable Advanced Mode", a label the selector at line 132 does not offer | selecting "Task 2: Advanced Mode Testing" shows the Task 3 page and saves records named "Task 3" | the second option shows the Task 2 page | high; not executed | Usability.Task2OptionShowsTask3 | Usability.SelectTaskIntended |
| test.py:20 | an append to an existing file writes the header row again | two saves to one path, then `load_from_csv`: the second header is read as a data row | no header on append, as usability.py:20 does | high; not executed | CsvLog.RepeatedHeaderReadAsData | CsvLog.LoadAfterSaves |

`Usability.Session.TaskPage` keeps the dispatch as written (`Usability.SelectTask`), and
`UsabilityDraft.DraftSession` keeps test.py's header-on-every-append, so that both
classes show what the two programs do. The corrected definitions are
`Usability.SelectTaskIntended` and `CsvLog.Append`, and their properties are proved.

## Left out

- The Streamlit layer: tabs, forms, widgets, messages, spinners, the task pages'
  headings and descriptions. A button press is a method call, and the widget values
  it reads are its parameters.
- The three HTTP requests to the nutrition API, their JSON fields and the API key from
  `config`. Only the token part of each query string is modelled. A failed calorie
  request followed by the macronutrient branch (an unbound `calories_value` in the
  source) is not modelled.
- Floating point: the imperial-to-metric conversion, parsing the calorie string, the
  macronutrient grams, and the report's averages. Age, height and weight are not in
  the queries of the model.
- Calculator.SubmitRequests: does not model a Submit ending early because reading an
  earlier response raised: a 200 calorie response whose calories string is empty or
  not a number (app.py:93), a water response without `water_intake` (app.py:116) or
  with a value that cannot be formatted (app.py:118). In those cases the later requests
  are never sent, but the model still lists them for Advanced mode.
- The report tab. It only loads the four logs and renders them.
- pandas and matplotlib rendering; the pie chart.
- CsvLog.Load: does not model pandas' parsing. Cell types are not re-inferred, a row
  wider than the header is not a parse error, and an existing empty file gives an
  empty table rather than an error. The tool's own writes never create an empty file.
- Cell text: numbers and booleans are cells of their own kind. How pandas formats
  them as text is not modelled.
- `time.time()`: the clock is an integer parameter, so a duration is a whole number of
  ticks rather than float seconds.
- `time.strftime`: timestamps are opaque string parameters. This includes the exit
  form's format string, whose "$H" is written literally where the hour was meant.
- Creating the `data` directory at import time, and appends from concurrent sessions
  to the same file.
