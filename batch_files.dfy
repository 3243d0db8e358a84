/**
  * The batch file manager and the one-off migration: moving a batch between
  * the active and completed folders, listing a tank's batches newest first,
  * folder statistics, and the migration of old names with its validation
  * and rollback. Folders are sequences of entries; reading, writing and
  * deleting files are not modelled, only what is written where.
  */
module BatchFiles {
  import opened Js
  import opened JsNum
  import opened Sorting
  import opened FileNames

  /** A file in a folder: its name and its JSON content, `None` when it cannot be read or parsed. */
  datatype Entry = Entry(name: string, content: Option<Record>)

  predicate IsJson(name: string) {
    EndsWith(name, ".json")
  }

  // ---------------------------------------------------------------------
  // Completed and active

  /** `markBatchAsCompleted`: the record as written to the completed folder. */
  function MarkCompleted(data: Record, nowIso: string): (r: Record)
    ensures r.Keys == data.Keys + {"completed_at", "status"}
    ensures r["completed_at"] == nowIso && r["status"] == "completed"
    ensures forall k :: k in data && k != "completed_at" && k != "status" ==> r[k] == data[k]
  {
    data["completed_at" := nowIso]["status" := "completed"]
  }

  /** `markBatchAsActive`: the record as written back to the active folder. */
  function MarkActive(data: Record): (r: Record)
    ensures r.Keys == data.Keys - {"completed_at"} + {"status"}
    ensures r["status"] == "active"
    ensures forall k :: k in data && k != "completed_at" && k != "status" ==> r[k] == data[k]
  {
    (data - {"completed_at"})["status" := "active"]
  }

  /** `shouldBeCompleted`: marked completed, or carrying a completion time. */
  predicate ShouldBeCompleted(data: Record) {
    Get(data, "status") == "completed" || Truthy(data, "completed_at")
  }

  /**
    * A record marked completed is one the migration files as completed, one
    * marked active is not, and marking active undoes marking completed.
    */
  lemma MarkRoundTrip(data: Record, nowIso: string)
    ensures ShouldBeCompleted(MarkCompleted(data, nowIso))
    ensures !ShouldBeCompleted(MarkActive(data))
    ensures MarkActive(MarkCompleted(data, nowIso)) == MarkActive(data)
  {
    assert MarkActive(MarkCompleted(data, nowIso)).Keys == MarkActive(data).Keys;
  }

  // ---------------------------------------------------------------------
  // A tank's batches

  /** One entry of `getActiveBatchesForTank`. */
  datatype TankBatch = TankBatch(fileName: string, data: Record, tankNumber: Option<int>,
                                 batchNumber: string, volume: Num, beerType: string, createdAt: string)

  /** The entry built from a tank file; `None` as tank number stands for `NaN`. */
  function BatchOf(file: string, data: Record, tank: nat, nowIso: string): (b: TankBatch)
    ensures b.fileName == file && b.data == data
    ensures b.tankNumber == ParseInt(Pick(data, ["field_003", "tank_so"], NatToString(tank)))
    ensures b.batchNumber == Pick(data, ["field_002", "me_so"], "")
    ensures b.volume == ParseFloat(Pick(data, ["field_025", "the_tich_dau"], "0"))
    ensures b.beerType == OrElse(Get(data, "beer_type"), "river")
    ensures Truthy(data, "created_at") ==> b.createdAt == data["created_at"]
    ensures !Truthy(data, "created_at") ==> b.createdAt == ManagerTime(file, nowIso)
  {
    TankBatch(file, data, ParseInt(Pick(data, ["field_003", "tank_so"], NatToString(tank))),
              Pick(data, ["field_002", "me_so"], ""), ParseFloat(Pick(data, ["field_025", "the_tich_dau"], "0")),
              OrElse(Get(data, "beer_type"), "river"), OrElse(Get(data, "created_at"), ManagerTime(file, nowIso)))
  }

  /** The readable tank files of a folder, as entries, in folder order. */
  function TankBatches(files: seq<Entry>, tank: nat, nowIso: string): (r: seq<TankBatch>)
    ensures |r| <= |files|
    ensures forall b :: b in r ==> TankFile(b.fileName, tank) && Entry(b.fileName, Some(b.data)) in files
    ensures forall b :: b in r ==> b == BatchOf(b.fileName, b.data, tank, nowIso)
    ensures forall e :: e in files && TankFile(e.name, tank) && e.content.Some? ==> BatchOf(e.name, e.content.value, tank, nowIso) in r
  {
    if files == [] then []
    else
      var init := TankBatches(files[..|files| - 1], tank, nowIso);
      var e := files[|files| - 1];
      assert forall x :: x in files[..|files| - 1] ==> x in files;
      assert forall x :: x in files ==> x in files[..|files| - 1] || x == e;
      if TankFile(e.name, tank) && e.content.Some? then
        assert Entry(e.name, Some(e.content.value)) == e;
        init + [BatchOf(e.name, e.content.value, tank, nowIso)]
      else init
  }

  /** Newest first, by the timestamp a `createdAt` text denotes. */
  function Newest(stamp: string -> int): TankBatch -> int {
    (b: TankBatch) => -stamp(b.createdAt)
  }

  /**
    * `getActiveBatchesForTank`: the readable files of the tank, newest first.
    * `stamp` stands for `new Date(...)` on a timestamp text.
    */
  method ActiveBatchesForTank(files: seq<Entry>, tank: nat, nowIso: string, stamp: string -> int)
    returns (batches: seq<TankBatch>)
    ensures batches == SortBy(TankBatches(files, tank, nowIso), Newest(stamp))
  {
    var found: seq<TankBatch> := [];
    for i := 0 to |files|
      invariant found == TankBatches(files[..i], tank, nowIso)
    {
      assert files[..i + 1][..i] == files[..i];
      var e := files[i];
      if TankFile(e.name, tank) && e.content.Some? {
        found := found + [BatchOf(e.name, e.content.value, tank, nowIso)];
      }
    }
    assert files[..|files|] == files;
    batches := SortBy(found, Newest(stamp));
  }

  /** `getLatestBatchForTank`: the newest readable batch of the tank, if any. */
  method LatestBatchForTank(files: seq<Entry>, tank: nat, nowIso: string, stamp: string -> int)
    returns (latest: Option<TankBatch>)
    ensures latest.None? <==> TankBatches(files, tank, nowIso) == []
    ensures latest.Some? ==> latest.value in TankBatches(files, tank, nowIso)
    ensures latest.Some? ==> forall b :: b in TankBatches(files, tank, nowIso) ==> stamp(b.createdAt) <= stamp(latest.value.createdAt)
  {
    var batches := ActiveBatchesForTank(files, tank, nowIso, stamp);
    var all := TankBatches(files, tank, nowIso);
    if |batches| > 0 {
      latest := Some(batches[0]);
      assert batches[0] in multiset(all);
      forall b | b in all ensures stamp(b.createdAt) <= stamp(batches[0].createdAt) {
        HeadIsLeast(all, Newest(stamp), b);
      }
    } else {
      latest := None;
      assert |all| == 0;
    }
  }

  // ---------------------------------------------------------------------
  // Statistics

  predicate JsonEntry(e: Entry) {
    IsJson(e.name)
  }

  /** `files.filter(f => f.endsWith('.json')).length`. */
  function CountJson(files: seq<Entry>): (n: nat)
    ensures n == |Where(files, JsonEntry)| && n <= |files|
  {
    if files == [] then 0
    else
      WhereLast(files, JsonEntry);
      CountJson(files[..|files| - 1]) + (if IsJson(files[|files| - 1].name) then 1 else 0)
  }

  /** The beer type `getStatistics` files a record under. */
  function TypeOf(data: Record): string {
    OrElse(Get(data, "beer_type"), "river")
  }

  /**
    * The counters a folder starts from: its JSON total and 0 for each known
    * type, all keys of the one object the loop then increments.
    */
  function StartCounts(total: nat): map<string, Num> {
    map["total" := Fin(total as real), "river" := Fin(0.0), "hanoi" := Fin(0.0), "chaihg" := Fin(0.0)]
  }

  /**
    * `counts[beerType]++` over the readable JSON files, from `start`: a key
    * already there counts up; a key that is not there counts up from
    * `undefined`, so it becomes `NaN`.
    */
  function CountTypes(start: map<string, Num>, files: seq<Entry>): map<string, Num> {
    if files == [] then start
    else
      var m := CountTypes(start, files[..|files| - 1]);
      var e := files[|files| - 1];
      if IsJson(e.name) && e.content.Some? then
        var t := TypeOf(e.content.value);
        m[t := Add(if t in m then m[t] else NaN, Fin(1.0))]
      else m
  }

  /** The readable JSON files of beer type `t`. */
  function OfType(files: seq<Entry>, t: string): nat {
    if files == [] then 0
    else
      var e := files[|files| - 1];
      OfType(files[..|files| - 1], t) + (if IsJson(e.name) && e.content.Some? && TypeOf(e.content.value) == t then 1 else 0)
  }

  /** A counter that starts finite counts its records; a key met without a counter is `NaN`. */
  lemma {:induction false} CountTypesCounts(start: map<string, Num>, files: seq<Entry>, t: string)
    ensures t in start && start[t].Fin? ==>
              t in CountTypes(start, files) && CountTypes(start, files)[t] == Fin(start[t].r + OfType(files, t) as real)
    ensures t !in start ==> (t in CountTypes(start, files) <==> OfType(files, t) > 0)
    ensures t !in start && t in CountTypes(start, files) ==> CountTypes(start, files)[t] == NaN
  {
    if files != [] {
      CountTypesCounts(start, files[..|files| - 1], t);
    }
  }

  /** One folder's `stats.active` or `stats.completed`. */
  function FolderStats(files: seq<Entry>): map<string, Num> {
    CountTypes(StartCounts(CountJson(files)), files)
  }

  /**
    * A folder's `total` is its number of JSON names plus its readable
    * records typed `total` (the type counters share its object);
    * `river` (also the type of a record without one), `hanoi` and `chaihg`
    * count their readable records; any other type is a key exactly when
    * some readable record has it, and then holds `NaN`.
    */
  lemma FolderStatsCounts(files: seq<Entry>, t: string)
    ensures "total" in FolderStats(files) &&
      FolderStats(files)["total"] == Fin((CountJson(files) + OfType(files, "total")) as real)
    ensures t == "river" || t == "hanoi" || t == "chaihg" ==>
      t in FolderStats(files) && FolderStats(files)[t] == Fin(OfType(files, t) as real)
    ensures t != "total" && t != "river" && t != "hanoi" && t != "chaihg" ==>
      (t in FolderStats(files) <==> OfType(files, t) > 0) && (t in FolderStats(files) ==> FolderStats(files)[t] == NaN)
  {
    var start := StartCounts(CountJson(files));
    CountTypesCounts(start, files, "total");
    CountTypesCounts(start, files, t);
  }

  /** One folder's loop of `getStatistics`, after the JSON names are counted. */
  method TallyFolder(files: seq<Entry>) returns (counts: map<string, Num>)
    ensures counts == FolderStats(files)
  {
    var start := StartCounts(CountJson(files));
    counts := start;
    for i := 0 to |files|
      invariant counts == CountTypes(start, files[..i])
    {
      assert files[..i + 1][..i] == files[..i];
      var e := files[i];
      if IsJson(e.name) && e.content.Some? {
        var t := TypeOf(e.content.value);
        counts := counts[t := Add(if t in counts then counts[t] else NaN, Fin(1.0))];
      }
    }
    assert files[..|files|] == files;
  }

  /** `getStatistics`: the counters of the active and the completed folder. */
  method Statistics(active: seq<Entry>, completed: seq<Entry>) returns (a: map<string, Num>, c: map<string, Num>)
    ensures a == FolderStats(active) && c == FolderStats(completed)
  {
    a := TallyFolder(active);
    c := TallyFolder(completed);
  }

  // ---------------------------------------------------------------------
  // Migration

  /** The old folder's files the migration takes: JSON names without a `/`, in order. */
  function OldJsonFiles(files: seq<Entry>): (r: seq<Entry>)
    ensures |r| <= |files|
    ensures forall e :: e in r <==> e in files && IsJson(e.name) && '/' !in e.name
  {
    if files == [] then []
    else
      var init := OldJsonFiles(files[..|files| - 1]);
      var e := files[|files| - 1];
      assert files == files[..|files| - 1] + [e];
      if IsJson(e.name) && '/' !in e.name then init + [e] else init
  }

  /** The migration's record: the original plus `migrated_at` and `original_filename`. */
  function WithMigrationInfo(data: Record, original: string, nowIso: string): (r: Record)
    ensures r.Keys == data.Keys + {"migrated_at", "original_filename"}
    ensures r["migrated_at"] == nowIso && r["original_filename"] == original
    ensures forall k :: k in data && k != "migrated_at" && k != "original_filename" ==> r[k] == data[k]
  {
    data["migrated_at" := nowIso]["original_filename" := original]
  }

  /** A migrated file: which folder, which name, what content. */
  datatype Moved = Moved(completed: bool, name: string, data: Record)

  function MigrateOne(e: Entry, data: Record, now: Moment, nowIso: string): Moved
    requires ValidMoment(now)
  {
    Moved(ShouldBeCompleted(data), MigratedName(e.name, data, now), WithMigrationInfo(data, e.name, nowIso))
  }

  /**
    * What the migration writes for a list of old files, in order; unreadable
    * files write nothing. One clock reading `now` serves the whole run, where
    * the source reads `new Date()` again for each fallback name, so fallback
    * names made a second apart may differ in the source and not here.
    */
  function Migrations(files: seq<Entry>, now: Moment, nowIso: string): (r: seq<Moved>)
    requires ValidMoment(now)
    ensures |r| <= |files|
  {
    if files == [] then []
    else
      var init := Migrations(files[..|files| - 1], now, nowIso);
      var e := files[|files| - 1];
      match e.content
      case None => init
      case Some(data) => init + [MigrateOne(e, data, now, nowIso)]
  }

  /** The moves are exactly the migrations of the readable files. */
  lemma {:induction false} MigrationsExact(files: seq<Entry>, now: Moment, nowIso: string)
    requires ValidMoment(now)
    ensures forall m :: m in Migrations(files, now, nowIso) ==>
              exists e :: e in files && e.content.Some? && m == MigrateOne(e, e.content.value, now, nowIso)
    ensures forall e :: e in files && e.content.Some? ==> MigrateOne(e, e.content.value, now, nowIso) in Migrations(files, now, nowIso)
  {
    if files != [] {
      var init := files[..|files| - 1];
      var e := files[|files| - 1];
      MigrationsExact(init, now, nowIso);
      assert files == init + [e];
      assert forall x :: x in init ==> x in files;
      assert forall x :: x in files ==> x in init || x == e;
    }
  }

  /** The unreadable files of a list. */
  function Unreadable(files: seq<Entry>): (n: nat)
    ensures n <= |files|
  {
    if files == [] then 0
    else Unreadable(files[..|files| - 1]) + (if files[|files| - 1].content.None? then 1 else 0)
  }

  /** Each old file is either migrated or an error. */
  lemma {:induction false} MigratedOrError(files: seq<Entry>, now: Moment, nowIso: string)
    requires ValidMoment(now)
    ensures |Migrations(files, now, nowIso)| + Unreadable(files) == |files|
  {
    if files != [] {
      MigratedOrError(files[..|files| - 1], now, nowIso);
    }
  }

  /**
    * `migrateOldFiles`: one clock reading for the run; the files written,
    * and the counters it reports.
    */
  method MigrateOldFiles(files: seq<Entry>, now: Moment, nowIso: string)
    returns (moved: seq<Moved>, migrated: nat, skipped: nat, errors: nat)
    requires ValidMoment(now)
    ensures moved == Migrations(OldJsonFiles(files), now, nowIso)
    ensures migrated == |moved| && skipped == 0 && errors == Unreadable(OldJsonFiles(files))
    ensures migrated + errors == |OldJsonFiles(files)|
  {
    var todo := OldJsonFiles(files);
    moved, migrated, skipped, errors := [], 0, 0, 0;
    for i := 0 to |todo|
      invariant moved == Migrations(todo[..i], now, nowIso) && migrated == |moved|
      invariant errors == Unreadable(todo[..i])
    {
      assert todo[..i + 1][..i] == todo[..i];
      match todo[i].content
      case None =>
        errors := errors + 1;
      case Some(data) =>
        moved := moved + [MigrateOne(todo[i], data, now, nowIso)];
        migrated := migrated + 1;
    }
    assert todo[..|todo|] == todo;
    MigratedOrError(todo, now, nowIso);
  }

  /** A name in the new format is a JSON name. */
  lemma ValidFormatIsJson(s: string)
    ensures ValidFormat(s) ==> IsJson(s)
  {
    if ValidFormat(s) {
      assert s[|s| - 5..] == s[29..];
    }
  }

  /** The JSON names of a list of names. */
  function JsonNames(names: seq<string>): (n: nat)
    ensures n == |Where(names, IsJson)| && n <= |names|
  {
    if names == [] then 0
    else
      WhereLast(names, IsJson);
      JsonNames(names[..|names| - 1]) + (if IsJson(names[|names| - 1]) then 1 else 0)
  }

  /** The names that pass the new-format check, all of them JSON names. */
  function ValidNames(names: seq<string>): (n: nat)
    ensures n == |Where(names, ValidFormat)| && n <= JsonNames(names)
  {
    if names == [] then 0
    else
      var s := names[|names| - 1];
      ValidFormatIsJson(s);
      WhereLast(names, ValidFormat);
      ValidNames(names[..|names| - 1]) + (if ValidFormat(s) then 1 else 0)
  }

  /**
    * `validateMigration`: the JSON counts of both folders and how many of
    * their names pass and fail the new-format check.
    */
  method ValidateMigration(active: seq<string>, completed: seq<string>)
    returns (activeCount: nat, completedCount: nat, validFormat: nat, invalidFormat: nat)
    ensures activeCount == JsonNames(active) && completedCount == JsonNames(completed)
    ensures validFormat == ValidNames(active + completed)
    ensures validFormat + invalidFormat == JsonNames(active + completed)
  {
    activeCount := JsonNames(active);
    completedCount := JsonNames(completed);
    var all := active + completed;
    validFormat, invalidFormat := 0, 0;
    for i := 0 to |all|
      invariant validFormat == ValidNames(all[..i])
      invariant validFormat + invalidFormat == JsonNames(all[..i])
    {
      assert all[..i + 1][..i] == all[..i];
      var file := all[i];
      if IsJson(file) {
        if ValidFormat(file) {
          validFormat := validFormat + 1;
        } else {
          invalidFormat := invalidFormat + 1;
        }
      } else {
        ValidFormatIsJson(file);
      }
    }
    assert all[..|all|] == all;
  }

  /** The name a migrated file goes back to and the record without the migration's keys. */
  function Restore(data: Record, file: string): (string, Record) {
    (OrElse(Get(data, "original_filename"), file), data - {"migrated_at", "original_filename"})
  }

  /**
    * Rolling back a migrated file restores its original name and its record
    * as it was, when that record had no migration keys of its own.
    */
  lemma RollbackUndoesMigration(data: Record, original: string, nowIso: string, file: string)
    requires original != ""
    ensures Restore(WithMigrationInfo(data, original, nowIso), file).0 == original
    ensures Restore(WithMigrationInfo(data, original, nowIso), file).1 == data - {"migrated_at", "original_filename"}
    ensures "migrated_at" !in data && "original_filename" !in data ==>
      Restore(WithMigrationInfo(data, original, nowIso), file).1 == data
  {
    var r := Restore(WithMigrationInfo(data, original, nowIso), file).1;
    assert r.Keys == (data - {"migrated_at", "original_filename"}).Keys;
    if "migrated_at" !in data && "original_filename" !in data {
      assert r.Keys == data.Keys;
    }
  }

  /** What the rollback writes back for one folder, in order; unreadable files write nothing. */
  function Restorations(files: seq<Entry>): (r: seq<(string, Record)>)
    ensures |r| <= |files|
  {
    if files == [] then []
    else
      var init := Restorations(files[..|files| - 1]);
      var e := files[|files| - 1];
      if IsJson(e.name) && e.content.Some? then init + [Restore(e.content.value, e.name)] else init
  }

  /** The restored files are exactly the restorations of the folder's readable JSON files. */
  lemma {:induction false} RestorationsExact(files: seq<Entry>)
    ensures forall r :: r in Restorations(files) ==>
              exists e :: e in files && IsJson(e.name) && e.content.Some? && r == Restore(e.content.value, e.name)
    ensures forall e :: e in files && IsJson(e.name) && e.content.Some? ==> Restore(e.content.value, e.name) in Restorations(files)
  {
    if files != [] {
      var init := files[..|files| - 1];
      var e := files[|files| - 1];
      RestorationsExact(init);
      assert files == init + [e];
      assert forall x :: x in init ==> x in files;
      assert forall x :: x in files ==> x in init || x == e;
    }
  }

  /** The unreadable JSON files of a folder. */
  function JsonErrors(files: seq<Entry>): nat {
    if files == [] then 0
    else
      var e := files[|files| - 1];
      JsonErrors(files[..|files| - 1]) + (if IsJson(e.name) && e.content.None? then 1 else 0)
  }

  /** Each JSON file of a folder is either restored or an error. */
  lemma {:induction false} RestoredOrError(files: seq<Entry>)
    ensures |Restorations(files)| + JsonErrors(files) == CountJson(files)
  {
    if files != [] {
      RestoredOrError(files[..|files| - 1]);
    }
  }

  /** One folder's loop of `rollbackMigration`. */
  method RestoreFolder(files: seq<Entry>) returns (written: seq<(string, Record)>, errors: nat)
    ensures written == Restorations(files) && errors == JsonErrors(files)
    ensures |written| + errors == CountJson(files)
  {
    written, errors := [], 0;
    for i := 0 to |files|
      invariant written == Restorations(files[..i]) && errors == JsonErrors(files[..i])
    {
      assert files[..i + 1][..i] == files[..i];
      var e := files[i];
      if IsJson(e.name) {
        match e.content
        case None =>
          errors := errors + 1;
        case Some(data) =>
          written := written + [Restore(data, e.name)];
      }
    }
    assert files[..|files|] == files;
    RestoredOrError(files);
  }

  /** `rollbackMigration`: what is written back to the old folder, and the counters. */
  method RollbackMigration(active: seq<Entry>, completed: seq<Entry>)
    returns (written: seq<(string, Record)>, restored: nat, errors: nat)
    ensures written == Restorations(active) + Restorations(completed)
    ensures restored == |written| && errors == JsonErrors(active) + JsonErrors(completed)
    ensures restored + errors == CountJson(active) + CountJson(completed)
  {
    var fromActive, activeErrors := RestoreFolder(active);
    var fromCompleted, completedErrors := RestoreFolder(completed);
    written := fromActive + fromCompleted;
    restored := |written|;
    errors := activeErrors + completedErrors;
  }
}
