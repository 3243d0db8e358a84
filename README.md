# Brewery batch sheets and QA logs, in Dafny

This project models the logic of a brewery's tablet app. The app records
brewing batches ("mẻ nấu") as JSON files, follows them through fermentation
tanks, and keeps the QA filter and fermentation logs. The model covers:

- **The auto-calculation engine of the River brewing sheet** (`Engine`, `TimeCalc`, `Formula`).
  `resolveAutoValues` recomputes every `auto`/`autofixed` field that carries a
  `calculate` text. It runs passes in schema order, at most 30, and stops after
  the first pass that changes nothing.
  - A `=` formula is a clock-time sum over `C<n>` codes, with the hours wrapping at 24.
  - Any other formula is arithmetic over `field_NNN` references.
  - A failing formula stores `Err`.
  - The field schema (`river.json`) is a parameter.
- **The batch tabs of that sheet** (`BatchTabs`): adding, deleting, editing and submitting batches.
- **Batch file names** (`FileNames`): how they are built when saving, when
  migrating old files and when saving through `saveBatchFile`; how the batch
  list and the file manager read them back; and the migration's format check.
- **The batch file manager and the migration** (`BatchFiles`): marking
  batches completed or active, a tank's batches newest first, folder
  statistics, migration counters and rollback.
- **The lists**: the batch list (`BatchList`), the list of incomplete sheets with
  its progress figures (`Completeness`), beer-type detection and its
  mappers (`BeerTypes`), and the CSV export (`CsvExport`).
- **Tank status** (`TankData`, `TankList`): the capacity tables, the colour
  thresholds, and the two aggregations of a tank's batches.
- **The QA screens**:
  - the filter log with its lot numbering (`FilterLog`);
  - the fermentation log's batch list (`LenMen`);
  - the QA dashboard's date window and tallies (`QaDashboard`).

Shared JavaScript semantics live in `Js` and `JsNum`:
- `||` chains over string records (`Pick`);
- `padStart`, `trim`, `split`;
- `toLowerCase` and `toUpperCase` on ASCII letters;
- string order by code point;
- `parseFloat` and `parseInt`;
- the IEEE special values `NaN` and ±`Infinity` (`Num`).

`Sorting` is the sort used for the app's in-place sorts.

Records are `map<string, string>`. A JavaScript falsy value is an absent key
or the empty string. Every JSON value is taken as a string.

Everything the app gets from outside is a parameter:
- directory listings and file contents (`Entry` with `None` for a file that cannot be read or parsed);
- server replies;
- the clock (`Moment`, `nowIso`, `today`);
- `new Date(...)` on a text (`stamp`);
- the text of a non-integral JavaScript number (`show`).

Where the app keeps state that its handlers update, the model keeps a class:
- the sheet's tabs (`BatchTabs.Tabs`);
- a day's filter log (`FilterLog.Log`);
- the fermentation log screen (`LenMen.Screen`).

Loops of the source are methods with loop invariants. Each method is proved
equal to a function, and lemmas state the properties of that function.

Resolving an already resolved record need not return it unchanged:
- `Engine.ResolveIdempotent` proves idempotence for a record that settles cleanly within the 30 passes;
- `Engine.ResolveTwiceDiffers` shows a record that does not settle cleanly: a quiet pass that wrote `Err`.

## Model

| member | source | states |
|---|---|---|
| Js.Pick | screens/AllBatchListScreen.js:50-55 | `a \|\| b \|\| dflt` over record keys: the value of the first key holding a non-empty value, else the default |
| Js.PadStart | screens/RiverScreen.js:81 | `padStart`: a text at least `n` long is unchanged; a shorter one is filled on the left to exactly `n` with the fill character |
| Js.Pad2 | screens/RiverScreen.js:477-481 | a number below 100 padded to two digits is two digits with that value |
| TimeCalc.DurationMinutes | screens/RiverScreen.js:34-45 | the minutes a second operand of `addTime` stands for; for an `H:MM`/`HH:MM` text it is hours·60 + minutes |
| TimeCalc.ClockOf | screens/RiverScreen.js:50-54 | the `HH:MM` result text for a minute count is five characters: two digits of `floor(t/60) % 24` (so below 24), a colon, two digits of `t % 60` (so below 60); its value is the count modulo 1440 |
| TimeCalc.ClockOfMod | screens/RiverScreen.js:51-52 | the result depends only on the minute count modulo a day |
| TimeCalc.ClockOfPeriodic | screens/RiverScreen.js:51-52 | minute counts a whole number of days apart give the same clock text |
| TimeCalc.AddTimeOfClock | screens/RiverScreen.js:27-58 | `addTime(t1, t2)` of a clock text and a duration text is the zero-padded clock text of the total minutes; its value is the total modulo 1440 |
| TimeCalc.AddTimeCommutes | screens/RiverScreen.js:31-57 | on two `H:MM`/`HH:MM` operands `addTime` is commutative |
| TimeCalc.AddTimeNothing | screens/RiverScreen.js:35-37 | an empty second operand adds nothing |
| TimeCalc.AddTimeIgnoresMalformed | screens/RiverScreen.js:38-45 | for every first operand, a non-empty second operand that is neither `H:MM`/`HH:MM` nor 1-2 digits gives the same result as the empty one |
| TimeCalc.AddTimeIgnoresThreeParts | screens/RiverScreen.js:38-45 | `addTime("08:15", "1:2:3")` is `08:15` |
| TimeCalc.AddTimeToClockOf | screens/RiverScreen.js:112 | adding a duration to the clock text of `t` minutes gives the clock text of `t` plus the duration |
| TimeCalc.FieldKey | screens/RiverScreen.js:75-81 | code `C<n>` names key `field_` followed by `n` zero-padded to three places, so at least three digits with the value of `n` |
| TimeCalc.GetFieldValue | screens/RiverScreen.js:74-99 | a malformed code reads `00:00`; a missing or empty field reads `00:00`; 1-2 digits `v` read `00:` + `v` padded to two; a clock text and any other non-duration text are returned verbatim; every duration reads as a clock text of the same minutes |
| TimeCalc.MinutesPastMidnight | screens/RiverScreen.js:93-94 | a 1-2 digit value becomes `00:` and two digits, a clock text of that many minutes |
| TimeCalc.RefValue | screens/RiverScreen.js:82-98 | a code naming a duration field reads as a clock text of its minutes |
| TimeCalc.FoldTimesOfDurations | screens/RiverScreen.js:104-114 | folding duration texts onto a clock time gives the clock text of the total minutes |
| TimeCalc.TimeFormulaOfDurations | screens/RiverScreen.js:102-122 | a `+` sum whose codes all name durations (or are malformed) evaluates to the clock text of the sum of their minutes |
| Formula.RefNum | screens/RiverScreen.js:137-140 | a reference is replaced by `parseFloat(value) \|\| 0`, never `NaN` |
| Formula.RefDefault | screens/RiverScreen.js:138 | a missing, empty or non-numeric field reads as 0 |
| Formula.RefDigits | screens/RiverScreen.js:138 | a field holding digits reads as their value |
| Formula.Run | screens/RiverScreen.js:137-145 | `String(eval(formula))` after substitution: a formula with no tokens is `undefined`; text that does not tokenize throws |
| Formula.ParseUnparse | screens/RiverScreen.js:145 | the formula parser reads back every rendered arithmetic expression as that expression |
| Formula.EvalReal | screens/RiverScreen.js:145 | sums, differences and products of finite references evaluate to their exact real value |
| Engine.ComputedIds | screens/RiverScreen.js:68 | exactly the ids of `auto`/`autofixed` fields with a non-empty `calculate` |
| Engine.Evaluate | screens/RiverScreen.js:70-157 | a `=` formula always yields a value; any other formula that does not tokenize fails, and one with no tokens is `undefined` |
| Engine.EvaluateTimeSum | screens/RiverScreen.js:100-131 | a `=` formula whose codes name duration fields (or are malformed): with `+`, the clock text of the total minutes modulo a day; a single code, a clock text of its minutes |
| Engine.TimeSum | screens/RiverScreen.js:102-131 | the loop over the `+` parts computes the time formula's value |
| Engine.EvaluateField | screens/RiverScreen.js:69-157 | one field's evaluation yields `Evaluate` of its formula |
| Engine.ResolveAutoValues | screens/RiverScreen.js:61-164 | the imperative pass loop (shallow copy, at most 30 passes, `changed` flag, early `break`) returns `Resolve` of the record |
| Engine.PassWrites | screens/RiverScreen.js:67-159 | a pass writes no key other than the computed fields' ids |
| Engine.IterateWrites | screens/RiverScreen.js:64-162 | any number of passes writes no key other than the computed fields' ids |
| Engine.ResolveWrites | screens/RiverScreen.js:62-163 | every key that is not a computed field keeps its presence and value |
| Engine.QuietPassOnlyErr | screens/RiverScreen.js:116-157 | a pass that reports no change has written nothing but `Err` |
| Engine.SettledIsFixed | screens/RiverScreen.js:161 | after a run that stops cleanly, one more pass changes nothing and reports no change |
| Engine.ResolveIdempotent | screens/RiverScreen.js:64-162 | a record that settles cleanly within 30 passes resolves to a fixed point, and resolving it again changes nothing |
| Engine.CopyOfC2 | screens/RiverScreen.js:123-131 | `=C2` copies the text of `field_002` when that is not a duration |
| Engine.OpenParenFails | screens/RiverScreen.js:145-157 | an unbalanced parenthesis makes the arithmetic fail |
| Engine.FirstPass | screens/RiverScreen.js:153-157 | a failing field gets `Err` without the pass counting as a change |
| Engine.SecondPass | screens/RiverScreen.js:124-130 | a later pass copies the `Err` into the field that refers to it |
| Engine.ThirdPass | screens/RiverScreen.js:161 | after that a pass changes nothing |
| Engine.ResolveTwiceDiffers | screens/RiverScreen.js:64-162 | a record on which resolving twice differs from resolving once |
| BatchTabs.BaseData | screens/RiverScreen.js:386-390 | a new tab starts with the date, the operator (default `Không rõ`) and `beer_type` `river`, and nothing else |
| BatchTabs.LastPresetWins | screens/RiverScreen.js:393-397 | the last field with a non-empty preset for a key decides its value |
| BatchTabs.NoPresetKeeps | screens/RiverScreen.js:393-397 | a key no field presets keeps its presence and value |
| BatchTabs.EditData | screens/RiverScreen.js:184-189 | in edit mode the stored record keeps every other key, the date and operator are defaulted, and the beer type is forced to `river` |
| BatchTabs.FirstMissing | screens/RiverScreen.js:416 | the first required schema field left empty, or none when every required field is filled |
| BatchTabs.SaveData | screens/RiverScreen.js:436-445 | the saved record adds `me_so`, `tank_so`, `ngay_nau`, `batch_id`, `beer_type`, `created_at` with their fallbacks; `nhan_vien` is the record's non-empty operator, else the user's name, and absent when the user has no name; every other key is kept |
| BatchTabs.Seed | screens/RiverScreen.js:195-207 | the loop writes every non-empty preset over the base record, as InitialData states |
| BatchTabs.Tabs.Create | screens/RiverScreen.js:192-211 | create mode: tab 1 holds the seeded record resolved by `resolveAutoValues`, and is active |
| BatchTabs.Tabs.Edit | screens/RiverScreen.js:181-191 | edit mode: tab 1 holds the stored record with date and operator defaulted and beer type `river`, resolved, and is active |
| BatchTabs.Tabs.LargestId | screens/RiverScreen.js:383 | `Math.max` of the ids: an id no smaller than any other |
| BatchTabs.Tabs.SmallestId | screens/RiverScreen.js:372-374 | the first key `Object.keys` lists: the smallest id |
| BatchTabs.Tabs.AddBatch | screens/RiverScreen.js:382-406 | the new id is the largest plus one; the new tab holds the seeded, resolved record and becomes active; other tabs are kept |
| BatchTabs.Tabs.DeleteBatch | screens/RiverScreen.js:361-379 | the last tab is never removed; otherwise the tab goes and the smallest remaining id becomes active |
| BatchTabs.Tabs.SetField | screens/RiverScreen.js:216-229 | one field of the active tab is set and the tab resolved again; other tabs are kept |
| BatchTabs.Tabs.Submit | screens/RiverScreen.js:409-427 | the active tab is resolved and stored, and the result is its first missing required field |
| FileNames.DateText | screens/RiverScreen.js:476-478 | `YYYY-MM-DD` with month and day padded to two digits |
| FileNames.TimeText | screens/RiverScreen.js:479-481 | `HHMMSS`, six digits with each part padded to two |
| FileNames.BatchNameParts | screens/RiverScreen.js:486 | in `date_me<b>_tank<t>_<time>.json` (a ten-character date, six time digits) each part sits at its place between `_me`, `_tank`, `_` and `.json` |
| FileNames.ParseOldName | utils/MigrationScript.js:97-100 | a parsed old name has a `YYYY-MM-DD` date, a non-empty digit batch and six time digits |
| FileNames.OldNameRoundTrip | utils/MigrationScript.js:97-105 | an old name `YYYY-MM-DD__me<N>__HHMMSS.json` parses back to its date, batch and time |
| FileNames.ParseOldNameIsOld | utils/MigrationScript.js:97-100 | a name that parses as old is the old name of its parts |
| FileNames.TaggedFrom | screens/AllBatchListScreen.js:112-120 | the digits after a `_me`/`_tank` tag, non-empty when found |
| FileNames.PaddedShort | screens/RiverScreen.js:483-484 | a 1-2 digit number padded to two digits keeps its value |
| FileNames.BatchNameFormat | utils/MigrationScript.js:151 | a built name passes the migration's format check iff batch and tank have exactly two digits |
| FileNames.ValidFormatIsBatchName | utils/MigrationScript.js:151 | every name passing the format check is a batch name of its parts |
| FileNames.RiverFileNameValid | screens/RiverScreen.js:475-486 | the sheet's file name passes the format check whenever batch and tank have at most two digits |
| FileNames.SaveBatchFileNameFormat | utils/saveBatchFile.js:5-17 | `saveBatchFile` does not pad batch and tank, so its name passes the format check iff both have exactly two digits |
| FileNames.SaveBatchFileNameDefault | utils/saveBatchFile.js:14-17 | with no batch number the default `XX` makes the name fail the format check |
| FileNames.MigratedNameValid | utils/MigrationScript.js:95-120 | the migrated name (old-name conversion or fallback) passes the format check when batch and tank have at most two digits |
| FileNames.MigratedNameReadBack | utils/MigrationScript.js:97-104 | a converted old name keeps its batch (padded), its tank and its date and time as the file manager reads them |
| FileNames.TimeOfBatchName | utils/BatchFileManager.js:137-147 | a batch name's date reads back as `DD/MM/YYYY` in the list; its time reads as today's date plus `THH:MM:SSZ` in the list and as its own date and time in the file manager |
| FileNames.ParseMeOfBatchName | screens/AllBatchListScreen.js:112-115 | the list reads a batch name's batch number back |
| FileNames.ParseTankOfBatchName | screens/AllBatchListScreen.js:117-120 | the list reads a batch name's tank number back |
| FileNames.TankFileOwnTank | utils/BatchFileManager.js:95-98 | a batch name with the tank padded to two digits is one of that tank's files |
| FileNames.TankFileOnlyOwnTank | utils/BatchFileManager.js:95-98 | a batch name is a tank's file only if its tank part is that tank padded to two digits |
| FileNames.RiverFileNameReadBack | screens/RiverScreen.js:475-486 | the sheet's file name reads back as its padded batch and tank, the save date as `DD/MM/YYYY`, and the save time |
| FileNames.RiverFileNameTank | utils/BatchFileManager.js:95-98 | the sheet's file is a tank's file iff its padded tank equals that tank padded |
| BatchFiles.MarkCompleted | utils/BatchFileManager.js:34-35 | `status` is `completed`, `completed_at` the time, every other field kept |
| BatchFiles.MarkActive | utils/BatchFileManager.js:71-72 | `completed_at` removed, `status` is `active`, every other field kept |
| BatchFiles.MarkRoundTrip | utils/MigrationScript.js:123-127 | a record marked completed should be completed, one marked active should not, and marking active undoes marking completed |
| BatchFiles.BatchOf | utils/BatchFileManager.js:105-113 | a tank file's entry: tank, batch, volume, beer type (default `river`) and creation time (else the name's time) |
| BatchFiles.TankBatches | utils/BatchFileManager.js:95-117 | exactly the readable files whose name marks the tank, each as its entry |
| BatchFiles.ActiveBatchesForTank | utils/BatchFileManager.js:90-128 | the tank's readable files, sorted newest first |
| BatchFiles.LatestBatchForTank | utils/BatchFileManager.js:131-134 | none iff the tank has no readable file; otherwise one of them with the newest creation time |
| BatchFiles.CountJson | utils/BatchFileManager.js:190-191 | the number of positions whose name ends in `.json` |
| BatchFiles.CountTypesCounts | utils/BatchFileManager.js:210-234 | `counts[type]++` from a start object: a key that starts finite ends at its start plus its readable records of that type (a missing type counts as `river`); a key without a start appears exactly when some readable record has that type, and then holds `NaN` |
| BatchFiles.FolderStatsCounts | utils/BatchFileManager.js:190-234 | in a folder's one counter object, `total` is the `.json` count plus the readable records typed `total`; `river`, `hanoi`, `chaihg` count their readable records; any other type is a key iff met, holding `NaN` |
| BatchFiles.TallyFolder | utils/BatchFileManager.js:194-221 | one folder's loop leaves the counter object `FolderStats` |
| BatchFiles.Statistics | utils/BatchFileManager.js:183-237 | `stats.active` and `stats.completed` are the two folders' counter objects |
| BatchFiles.OldJsonFiles | utils/MigrationScript.js:43 | exactly the `.json` names that are files, not folders |
| BatchFiles.WithMigrationInfo | utils/MigrationScript.js:65-66 | the record gains `migrated_at` and `original_filename`, every other field kept |
| BatchFiles.MigrationsExact | utils/MigrationScript.js:49-81 | the moves are exactly the migrations (folder, new name, record with metadata) of the readable files |
| BatchFiles.MigratedOrError | utils/MigrationScript.js:49-83 | every processed file is migrated or counted as an error |
| BatchFiles.MigrateOldFiles | utils/MigrationScript.js:33-92 | the moves of the old `.json` files; migrated + errors equals the number processed; `skipped` is 0 |
| BatchFiles.ValidFormatIsJson | utils/MigrationScript.js:151 | a name passing the format check ends in `.json` |
| BatchFiles.JsonNames | utils/MigrationScript.js:137-138 | the number of positions whose name ends in `.json` |
| BatchFiles.ValidNames | utils/MigrationScript.js:146-159 | the number of positions whose name passes the format check, at most the `.json` names |
| BatchFiles.ValidateMigration | utils/MigrationScript.js:130-170 | folder counts, and valid + invalid formats equal the `.json` names of both folders |
| BatchFiles.RollbackUndoesMigration | utils/MigrationScript.js:224-228 | rolling back a migrated record restores its original name and removes the two metadata fields, giving back the record |
| BatchFiles.RestorationsExact | utils/MigrationScript.js:218-242 | the files written back are exactly the restorations (original name, record without metadata) of the readable `.json` files |
| BatchFiles.RestoredOrError | utils/MigrationScript.js:218-242 | every `.json` file is restored or counted as an error |
| BatchFiles.RestoreFolder | utils/MigrationScript.js:218-242 | one folder's loop: the restored files and errors, together the `.json` count |
| BatchFiles.RollbackMigration | utils/MigrationScript.js:207-272 | both folders restored; restored + errors equals their `.json` count |
| BatchList.ItemOf | screens/AllBatchListScreen.js:50-59 | display fields prefer `field_00x`, then the legacy key, then the name; complete iff `field_002` and `field_003` are filled |
| BatchList.ErrorItem | screens/AllBatchListScreen.js:74-88 | an unreadable file is listed without data, incomplete, with no time |
| BatchList.Items | screens/AllBatchListScreen.js:43-90 | one item per `.json` file |
| BatchList.LoadAllFiles | screens/AllBatchListScreen.js:31-100 | the loop builds the items, one per `.json` file |
| BatchList.ItemFallsBackToName | screens/AllBatchListScreen.js:50-52 | a record without batch, tank and date shows those read from the sheet's file name |
| BeerTypes.HintOf | screens/AllBatchListScreen.js:148-150 | on the lower-cased name: `hanoi` iff it contains `hanoi`; `chaihg` iff it contains `chai` (which `chaihg` contains) but not `hanoi`; none iff it contains neither |
| BeerTypes.ChaiCoversChaihg | screens/AllBatchListScreen.js:150 | a name with `chaihg` contains `chai`, so the first test is redundant |
| BeerTypes.ListDetect | screens/AllBatchListScreen.js:143-152 | the record's type wins, lower-cased; then `hanoi`, then `chaihg`/`chai` in the name; then `river` |
| BeerTypes.ViewDetect | screens/ViewBatchScreen.js:28-40 | the name wins; then the record's type, lower-cased; then `river` |
| BeerTypes.DetectorsAgree | screens/ViewBatchScreen.js:28-40 | the two detectors agree unless the record's type and the name both speak |
| BeerTypes.DetectorsDisagree | screens/ViewBatchScreen.js:28-40 | a River record under a name mentioning Hanoi: the list says `river`, the viewer `hanoi` |
| BeerTypes.DetectLowerCase | screens/AllBatchListScreen.js:143-152 | both detectors return lower-case text |
| BeerTypes.MappersIgnoreCase | screens/AllBatchListScreen.js:154-170 | icon, name, screen and display read their argument case-insensitively |
| BeerTypes.KnownTypes | screens/AllBatchListScreen.js:154-170 | a type has its own icon iff it has its own name iff it is one of the three; the viewer shows that name and icon; an unknown type is shown as River with `RiverScreen` |
| Completeness.MissingOf | screens/IncompleteBatchListScreen.js:61-63 | exactly the required fields whose key is absent |
| Completeness.EmptyOf | screens/IncompleteBatchListScreen.js:64-65 | exactly the required fields present but empty |
| Completeness.GapsPartition | screens/IncompleteBatchListScreen.js:61-67 | no field is both missing and empty; together they are the unfilled required fields |
| Completeness.GapsBounded | screens/IncompleteBatchListScreen.js:61-67 | missing plus empty is at most the number of required fields |
| Completeness.Classify | screens/IncompleteBatchListScreen.js:58-67 | the loop yields the missing and the empty fields |
| Completeness.GapItem | screens/IncompleteBatchListScreen.js:71-89 | the listed item: `totalMissing` = missing + empty, with the batch and date fallbacks |
| Completeness.ErrorItem | screens/IncompleteBatchListScreen.js:94-106 | an unreadable file is listed with the sentinel 999 |
| Completeness.Check | screens/IncompleteBatchListScreen.js:52-107 | a readable file is listed iff some required field is missing or empty |
| Completeness.CheckListsGaps | screens/IncompleteBatchListScreen.js:70 | listed iff some required field is unfilled, with the right total |
| Completeness.Incomplete | screens/IncompleteBatchListScreen.js:51-109 | every listed total is at most 8 or the sentinel |
| Completeness.LoadIncompleteFiles | screens/IncompleteBatchListScreen.js:41-125 | the listed files, sorted by their totals |
| Completeness.SortedGaps | screens/IncompleteBatchListScreen.js:112-116 | after sorting the totals ascend and sentinel entries come last |
| Completeness.ProgressPercent | screens/IncompleteBatchListScreen.js:171-176 | 0 for the sentinel; otherwise the nearest whole number to the filled share of the 8 required fields times 100 (halves rounded up), so 100 with nothing missing and within 0-100 |
| Completeness.ProgressMonotone | screens/IncompleteBatchListScreen.js:171-176 | more missing fields never show more progress |
| Completeness.MissingTextNames | screens/IncompleteBatchListScreen.js:160-168 | `File bị lỗi` for the sentinel; up to three gaps: `Thiếu: ` followed by text in which every gap occurs; more: `Thiếu <d> thông tin` with `d` the decimal digits of their number |
| CsvExport.Clean | screens/ViewBatchScreen.js:124-125 | every `,` becomes `;` and every newline a space, nothing else changes, so a cell has neither |
| CsvExport.ExportCsv | screens/ViewBatchScreen.js:119-134 | the header, one row per schema field in order, then the metadata rows |
| CsvExport.RowsLines | screens/ViewBatchScreen.js:123-127 | the field rows hold exactly one line per schema field |
| FilterLog.SameBbt | screens/LocScreen.js:339 | the number of positions whose lot has the given BBT |
| FilterLog.CountBbt | screens/LocScreen.js:339-340 | the loop counts the lots with the given BBT |
| FilterLog.TotalAfterAdd | screens/LocScreen.js:250 | adding a lot adds `parseFloat(volume \|\| 0)` to `total_volume_filtered`; an empty volume adds 0 |
| FilterLog.TotalAfterAddWhole | screens/LocScreen.js:250 | a whole-number volume text adds exactly that number |
| FilterLog.CodeInjective | screens/LocScreen.js:341 | a code `tank.bbt.n` determines its BBT and number |
| FilterLog.CodesDistinct | screens/LocScreen.js:339-341 | a list numbered by `handleAdd` has distinct codes |
| FilterLog.NumberedAppend | screens/LocScreen.js:339-352 | appending with the next number for its BBT keeps the list well numbered |
| FilterLog.Log.constructor | screens/LocScreen.js:9-13 | an empty, open log for the tank |
| FilterLog.Log.Add | screens/LocScreen.js:327-359 | rejected when BBT, volume or CO₂ is empty, or the volume is not positive; otherwise one lot `tank.bbt.(k+1)` is appended and the earlier lots are kept |
| FilterLog.Log.Close | screens/LocScreen.js:394-399 | the log is closed with its lots unchanged, and the total is their volume |
| FilterLog.Log.SyncAsWritten | screens/LocScreen.js:169-205 | the server's list and flag replace the log iff the server has a lot or is closed, since the test compares with the first render's empty, open state; otherwise nothing changes |
| FilterLog.Log.Sync | screens/LocScreen.js:190-193 | intended sync: the server's list replaces the log iff it is longer or its closed flag differs, so with equal flags the log never gets shorter |
| FilterLog.SyncDropsLocalLots | screens/LocScreen.js:169-205 | a log of three open lots synced with a server holding one open lot keeps one lot as written and three as intended |
| TankData.Capacity | utils/tankDataManager.js:5-17 | 42000 for tanks 1-6, 28000 for 11-14, 10500 for every other tank |
| TankData.TableTanks | utils/tankDataManager.js:5-11 | the capacity table lists tanks 1 to 20 |
| TankData.ColorWarmer | utils/tankDataManager.js:20-25 | a warmer tank never gets a cooler colour; no temperature is grey |
| TankData.StoredOf | utils/tankDataManager.js:47-61 | batch number and final volume read with their fallbacks |
| TankData.TankRecordsExact | utils/tankDataManager.js:39-66 | exactly the readable `.json` files whose parsed tank is the tank, each as its stored element |
| TankData.StatusOfRule | utils/tankDataManager.js:68-104 | with no batch: `empty`, volume and fill 0, nothing known; otherwise volume = the running total, fill = `min(total/capacity·100, 100)`, temperature 10, date, type and number of the first (latest) batch, and `filled` iff the total is positive |
| TankData.StatusForRecords | utils/tankDataManager.js:28-104 | the status counts and carries exactly the tank's records, largest batch number first; no record gives `empty` with volume 0 and no latest batch |
| TankData.CalculateTankStatus | utils/tankDataManager.js:28-121 | the loop over the files yields the tank's status |
| TankData.LatestIsLargest | utils/tankDataManager.js:84-85 | the latest batch has the largest batch number |
| TankData.TotalIsSum | utils/tankDataManager.js:88 | over finite, non-negative volumes the `reduce` total is their exact, non-negative sum |
| TankData.SumPermutation | utils/tankDataManager.js:84-88 | the sum of the volumes does not depend on the order of the batches, so sorting does not change it |
| TankData.Percentage | utils/tankDataManager.js:90 | `Math.min(total/capacity·100, 100)` is the exact capped percentage and lies in 0-100 |
| TankData.FillBounded | utils/tankDataManager.js:84-102 | with finite, non-negative volumes: the volume is the exact sum of the tank's records in folder order, the fill is that sum as a percentage of the capacity capped at 100, and the tank is `filled` iff the sum is positive |
| TankData.Statuses | utils/tankDataManager.js:124-133 | one status per tank: entry `j` is the status of tank `j+1`, so the list is in ascending tank order |
| TankData.AllTanksStatus | utils/tankDataManager.js:124-134 | the statuses of tanks 1 to 20 in order |
| TankList.Capacity | screens/TankListScreen.js:7-25 | the list's table agrees with the file manager's for tanks 1-17 |
| TankList.ColorWarmer | screens/TankListScreen.js:29-36 | a warmer tank never gets a cooler colour; no temperature is `#999` |
| TankList.BatchNumbers | screens/TankListScreen.js:196-200 | exactly the batches' non-empty numbers |
| TankList.FileDates | screens/TankListScreen.js:202-207 | exactly the `YYYY-MM-DD` prefixes of the batches' file names |
| TankList.Chosen | screens/TankListScreen.js:209-216 | the batch the loop picks is one of them |
| TankList.ChosenIsLatest | screens/TankListScreen.js:209-216 | the picked batch has the greatest `created_at` text, the first such unless that text is empty |
| TankList.Hashed | screens/TankListScreen.js:255 | each number prefixed with `#` |
| TankList.Label | screens/TankListScreen.js:254-256 | `#Unknown` with no numbers, else starting with the first `#n` |
| TankList.Greatest | screens/TankListScreen.js:221-230 | the lexicographically latest date |
| TankList.DayFirst | screens/TankListScreen.js:233-234 | `YYYY-MM-DD` rendered `DD/MM/YYYY`: the day, then the month, then the year, separated by `/` |
| TankList.TankStatus | screens/TankListScreen.js:155-300 | the loop and the view give the tank's view |
| TankList.EmptyTank | screens/TankListScreen.js:160-177 | no active batch: an empty tank with volume 0 |
| TankList.VolumeRules | screens/TankListScreen.js:189-260 | initial volume is the sum of `field_103`; current is `max(0, initial − filtered)`; `active` iff current is positive |
| TankList.Remaining | screens/TankListScreen.js:244 | `max(0, initial − filtered)` is never negative |
| TankList.BeerTypeOfLatest | screens/TankListScreen.js:209-216 | the beer type comes from the batch with the greatest `created_at` |
| TankList.NoDates | screens/TankListScreen.js:219-221 | no date iff no file name starts with a date |
| TankList.DateRule | screens/TankListScreen.js:219-235 | the shown date is the latest file-name date as `DD/MM/YYYY`, or none |
| TankList.LabelRule | screens/TankListScreen.js:253-256 | the label joins `#n` with `, `, or is `#Unknown` |
| TankList.Views | screens/TankListScreen.js:116-152 | one view per tank, in tank order |
| TankList.ViewsAt | screens/TankListScreen.js:286-305 | a tank whose status computation threw gets the `error` entry, every other tank its own view |
| TankList.AllTanksStatus | screens/TankListScreen.js:116-153 | 17 views in tank order |
| QaDashboard.LenMenFiles | screens/QaDashboardScreen.js:21 | exactly the `tank_*.json` files |
| QaDashboard.LocFiles | screens/QaDashboardScreen.js:22 | exactly the `loc_tank*.json` files |
| QaDashboard.Window | screens/QaDashboardScreen.js:30-31 | a single bound serves as both ends |
| QaDashboard.DayDateFrom | screens/QaDashboardScreen.js:35 | the date after the first `day_` followed by a date |
| QaDashboard.InRangeBetween | screens/QaDashboardScreen.js:32-39 | without bounds everything is in range; otherwise a file is in range iff it has a date and from ≤ date ≤ to |
| QaDashboard.LocNameDated | screens/LocScreen.js:21 | a filter log's file name is a QA filter file dated its own day |
| QaDashboard.TankNames | screens/QaDashboardScreen.js:84 | `"1"` to `"17"` |
| QaDashboard.TankNamesRule | screens/QaDashboardScreen.js:84 | a name is listed iff it is some `n` with 1 ≤ n ≤ 17 |
| QaDashboard.WithoutLog | screens/QaDashboardScreen.js:84 | exactly the listed tanks without a log |
| QaDashboard.Filtering | screens/QaDashboardScreen.js:83 | exactly the logged tanks not closed |
| QaDashboard.LoadDashboard | screens/QaDashboardScreen.js:18-102 | the two loops and the summary, `totalRemain` included, give the dashboard, none when a read fails |
| QaDashboard.TotalRemain | screens/QaDashboardScreen.js:86 | the loop over the entries gives the sum of their remaining volumes, whatever order it takes them in |
| QaDashboard.SumOverAny | screens/QaDashboardScreen.js:86 | the sum does not depend on the order: any entry may be added last |
| QaDashboard.ReadLenMen | screens/QaDashboardScreen.js:41-54 | the fermentation-log loop |
| QaDashboard.ReadLocs | screens/QaDashboardScreen.js:56-80 | the filter-log loop |
| QaDashboard.ApplyLots | screens/QaDashboardScreen.js:64-79 | the lot loop |
| QaDashboard.TanksWithoutLog | screens/QaDashboardScreen.js:84 | the tanks without a log |
| QaDashboard.LenMenFailureStays | screens/QaDashboardScreen.js:41-54 | a failed read aborts the dashboard |
| QaDashboard.LocFailureStays | screens/QaDashboardScreen.js:56-80 | a failed read aborts the dashboard |
| QaDashboard.LastLogOf | screens/QaDashboardScreen.js:45 | a log of the tank, or none exactly when the tank has no log |
| QaDashboard.LastLogOfIsLast | screens/QaDashboardScreen.js:45 | the log found is log `i` whenever log `i` is of the tank and no later log is: later logs overwrite earlier ones |
| QaDashboard.LotVolumes | screens/QaDashboardScreen.js:65 | the parsed volumes of the lots |
| QaDashboard.LenMenPhaseSucceeds | screens/QaDashboardScreen.js:41-54 | the log phase succeeds iff every file in range can be read |
| QaDashboard.LenMenPhaseEntries | screens/QaDashboardScreen.js:41-54 | a tank has an entry iff it has a log, and the entry comes from its last log |
| QaDashboard.EntriesOfLogged | screens/QaDashboardScreen.js:82 | the entries are exactly the logged tanks |
| QaDashboard.LotsPhaseRule | screens/QaDashboardScreen.js:64-79 | the lots add to the total and each lot is subtracted from its tank's remaining volume |
| QaDashboard.LocPhaseSucceeds | screens/QaDashboardScreen.js:56-80 | the filter phase succeeds iff every file can be read and every closed tank has a log |
| QaDashboard.LocPhaseTotals | screens/QaDashboardScreen.js:56-80 | the total counts every lot, also of tanks without a log |
| QaDashboard.LocPhaseEntries | screens/QaDashboardScreen.js:56-80 | each entry: closed iff some filter log closed it; remaining volume less its lots |
| QaDashboard.LocStepEntry | screens/QaDashboardScreen.js:59-79 | one filter log: close and subtract for its own tank only |
| QaDashboard.FilteringAfter | screens/QaDashboardScreen.js:83 | the filtering tanks are those no filter log closed |
| QaDashboard.DashboardSummary | screens/QaDashboardScreen.js:82-96 | logged, filtering, lot count and total volume as stated by the logs |
| QaDashboard.DashboardRemain | screens/QaDashboardScreen.js:41-93 | `totalRemain` is the sum, over the tanks with a log, of each one's last logged volume less the volumes of its filtered lots |
| QaDashboard.DashboardNoLog | screens/QaDashboardScreen.js:84 | a tank is listed as without log iff it is one of `1`..`17` and has no log |
| LenMen.LastWithNumber | screens/LenMenScreen.js:40-50 | a batch with the number, or none exactly when no batch has it |
| LenMen.LastWithNumberIsLast | screens/LenMenScreen.js:40-50 | the batch found is batch `i` whenever batch `i` has the number and no later batch does |
| LenMen.MeNumbersRule | screens/LenMenScreen.js:36-37 | a number is listed iff it is non-empty and some batch has it |
| LenMen.InfoMapRule | screens/LenMenScreen.js:39-50 | a number has info iff some batch has it; the info comes from the last such batch, with the defaults |
| LenMen.FindActive | screens/LenMenScreen.js:73 | the first active batch with that number, or none |
| LenMen.FirstMatchRule | screens/LenMenScreen.js:93-118 | the search stops at the first matching file; not found iff every file was passed over |
| LenMen.SearchFiles | screens/LenMenScreen.js:93-115 | the loop with its `found` flag and `break` finds the first match |
| LenMen.Screen.constructor | screens/LenMenScreen.js:10-14 | an empty screen for the tank |
| LenMen.Screen.SetCurrentMe | screens/LenMenScreen.js:137 | only the input changes |
| LenMen.Screen.LoadActiveBatches | screens/LenMenScreen.js:23-62 | the batch list and info map come from a non-empty reply; a failure clears the active batches only |
| LenMen.Screen.CollectNumbers | screens/LenMenScreen.js:36 | the numbers of the batches |
| LenMen.Screen.CollectInfo | screens/LenMenScreen.js:39-50 | the info map of the batches |
| LenMen.Screen.AddMe | screens/LenMenScreen.js:64-122 | blank does nothing; a duplicate is rejected; otherwise the number is appended once, from an active batch first, else from the first matching file |
| LenMen.Screen.Append | screens/LenMenScreen.js:75-85 | the number appended at the end with its info, and the input cleared |
| Sorting.SortBy | screens/IncompleteBatchListScreen.js:112-116 | a sorted permutation of its input |
| Sorting.HeadIsLeast | utils/BatchFileManager.js:120 | the first element has the least key |

## Findings

| source | as written | input that shows it | evidently intended | confidence | as-written member | corrected member |
|---|---|---|---|---|---|---|
| screens/LocScreen.js:190 | `syncFromServerOnStartup` runs in the first render's closure, so it compares the server's list with the initial `data = []` and `daDong = false`, not with the lots `loadFile` read | a local file with three open lots and a server log with one open lot: the server's lot replaces the three and the local file is rewritten with it | compare with the loaded log, so a longer local log is kept | not executed | FilterLog.SyncDropsLocalLots | FilterLog.Log.Sync |

## Left out

- File-system reads, writes, moves and deletes, `fetch`, image picking, sharing, alerts, React state, rendering, polling timers and logging. Their inputs are parameters and their effects are outputs.
- The clock is a parameter (`Moment`, `nowIso`, `today`). So is `new Date(...)` on a text (`stamp`). Dates are not parsed.
- IEEE-754 arithmetic and number-to-text formatting are not modelled. Numbers are exact reals plus `NaN` and ±`Infinity`, and the text of a non-integral number is the parameter `show`.
- Js.ToLower, Js.ToUpper: map the ASCII letters only. JavaScript also maps other letters, such as Vietnamese capitals, and turns `ß` into `SS`. So the beer-type detectors and mappers and the beer type in CsvExport.Metadata agree with the source on ASCII text only.
- Js.StrLess: compares code points, where JavaScript compares UTF-16 code units. The two orders differ only between a character above U+FFFF and one in U+E000-U+FFFF. The texts compared are timestamps and ISO dates.
- `parseFloat` and `Number()` (JsNum.ToNumber) are modelled without exponents, and `Number()` also without `0x`, `0o` and `0b` prefixes: `Number("1e1")` and `Number("0x10")` give `NaN` in the model and a number in JavaScript. JSON values are taken as strings. A missing key reads as the empty string, not `undefined`.
- Formula.Run: `eval` is a small arithmetic evaluator (`+ - * / %`, parentheses, signs, numbers). Other JavaScript syntax is rejected rather than evaluated. Textual quirks of the substitution, such as `5--3`, are not reproduced.
- Engine.ResolveIdempotent: proved only for records that settle within 30 passes without an `Err` write. Other records are not idempotent, and `Engine.ResolveTwiceDiffers` shows one.
- Sorting.SortBy: the source's in-place sorts are a value-level sort. The order of equal keys and of JavaScript's inconsistent comparators are not modelled, including the batch list's mixed `createdAt` comparator at screens/AllBatchListScreen.js:94-99.
- BatchList.LoadAllFiles: its sort is left out for that reason, so the items are in folder order.
- TankData.LatestIsLargest: assumes every batch number parses. A `NaN` batch number makes the comparator inconsistent.
- TankData.CalculateTankStatus: the error status after an exception is not modelled.
- TankData.StatusOf: an empty tank's status carries `batches: []`, where the source's object has no `batches` key.
- BatchFiles.LatestBatchForTank: among equally new batches, which one is returned is not pinned, because the sort's order of equal keys is not modelled.
- TankList.TankStatus: the server replies are parameters; a helper whose request fails answers with its default (no batches, 0 filtered, temperature 10 and pressure 0), which is an ordinary `Some` reply. `None` stands for a throw inside `getTankStatus` itself (for example a `null` batch), which its `catch` turns into the error entry; which malformed replies throw is not modelled, nor the `error` message the entry carries.
- TankList.VolumeRules: states no bound on the fill percentage, because this screen does not cap it at 100.
- FilterLog.Log.Sync: the log has no separate record of what the local file held; `SyncAsWritten` takes the source's comparison with the initial empty state, and `Sync` compares with the log as it stands.
- LocScreen's network test, server sync requests and close-log request to the server are left out. Only the overwrite rule and the local state are modelled.
- QaDashboard.DashboardSummary: no lemma is given for `remainByType`. `totalRemain` is stated by DashboardRemain; numbers are exact, so floating-point rounding, the one way `Object.values` order could change the sum, is not modelled.
- LenMen.Screen.AddMe: `batchNumber` is compared as text, and an active batch's volume is taken as a number.
- BatchFiles.Migrations: one clock reading serves every file of a run, where the source reads the clock again for each fallback name.
- utils/MigrationCheckScript.js is not part of this model. Its name generator is a copy of the one in utils/MigrationScript.js.
- `cleanupOldCompletedFiles` in utils/BatchFileManager.js is left out: it only deletes files by modification time, which is file-system state.
- `updateTankQAData` and `getTankQAData` in utils/tankDataManager.js are left out: they only read and write a QA file.
- utils/beerTypeHandler.js is not part of this model.
