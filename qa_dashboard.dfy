/**
  * The QA dashboard: over the fermentation logs (`tank_*.json`) and the
  * filter logs (`loc_tank*.json`) whose `day_YYYY-MM-DD` date falls in the
  * chosen window, it keeps one entry per logged tank with the volume left
  * after filtering, tallies the volume by beer type and the filtered
  * volume overall, lists every filtered lot, and names the tanks without a
  * log. A log that cannot be parsed, or a closed filter log for a tank
  * without a fermentation log, makes the whole load fail.
  */
module QaDashboard {
  import opened Js
  import opened JsNum
  import opened FileNames
  import opened FilterLog

  /** A parsed QA file: its text fields, its `da_dong` flag and its `lo_list`. */
  datatype QaJson = QaJson(fields: Record, closed: bool, lots: seq<Lot>)

  /** A file of the QA folder; `None` when it cannot be read or parsed. */
  datatype QaFile = QaFile(name: string, content: Option<QaJson>)

  predicate IsLenMen(name: string) {
    StartsWith(name, "tank_") && EndsWith(name, ".json")
  }

  predicate IsLoc(name: string) {
    StartsWith(name, "loc_tank") && EndsWith(name, ".json")
  }

  /** `files.filter(...)` for the fermentation logs. */
  function LenMenFiles(files: seq<QaFile>): (r: seq<QaFile>)
    ensures forall f :: f in r <==> f in files && IsLenMen(f.name)
  {
    if files == [] then []
    else
      var init := LenMenFiles(files[..|files| - 1]);
      var f := files[|files| - 1];
      assert files == files[..|files| - 1] + [f];
      if IsLenMen(f.name) then init + [f] else init
  }

  /** `files.filter(...)` for the filter logs. */
  function LocFiles(files: seq<QaFile>): (r: seq<QaFile>)
    ensures forall f :: f in r <==> f in files && IsLoc(f.name)
  {
    if files == [] then []
    else
      var init := LocFiles(files[..|files| - 1]);
      var f := files[|files| - 1];
      assert files == files[..|files| - 1] + [f];
      if IsLoc(f.name) then init + [f] else init
  }

  // ---------------------------------------------------------------------
  // The date window

  /** `from = fromDate || toDate || ''` and `to = toDate || fromDate || ''`: one bound given serves as both. */
  function Window(fromDate: string, toDate: string): (w: (string, string))
    ensures fromDate == "" && toDate == "" ==> w == ("", "")
    ensures fromDate == "" && toDate != "" ==> w == (toDate, toDate)
    ensures fromDate != "" && toDate == "" ==> w == (fromDate, fromDate)
    ensures fromDate != "" && toDate != "" ==> w == (fromDate, toDate)
  {
    (OrElse(fromDate, OrElse(toDate, "")), OrElse(toDate, OrElse(fromDate, "")))
  }

  /** `day_` followed by a `YYYY-MM-DD` date starts at position `j` of `name`. */
  predicate DayAt(name: string, j: nat) {
    j + 14 <= |name| && name[j..j + 4] == "day_" && IsDateText(name[j + 4..j + 14])
  }

  /** `name.match(/day_(\d{4}-\d{2}-\d{2})/)` from position `i`: the date of the leftmost match. */
  function DayDateFrom(name: string, i: nat): (r: Option<string>)
    decreases |name| - i
    ensures r.Some? ==> IsDateText(r.value)
    ensures r.Some? ==> exists j: nat :: i <= j && DayAt(name, j) && name[j + 4..j + 14] == r.value &&
                                        forall k: nat :: i <= k < j ==> !DayAt(name, k)
    ensures r.None? ==> forall j: nat :: i <= j ==> !DayAt(name, j)
  {
    if i + 14 > |name| then None
    else if DayAt(name, i) then Some(name[i + 4..i + 14])
    else DayDateFrom(name, i + 1)
  }

  function DayDate(name: string): Option<string> {
    DayDateFrom(name, 0)
  }

  /** `inRange`: every file when no bound is given; else a file whose date lies within the bounds. */
  predicate InRange(name: string, from: string, to: string) {
    if from == "" && to == "" then true
    else match DayDate(name)
      case None => false
      case Some(d) => !StrLess(d, from) && !StrLess(to, d)
  }

  /** With a bound given, a file is in range exactly when its date lies between the bounds. */
  lemma InRangeBetween(name: string, fromDate: string, toDate: string)
    ensures fromDate == "" && toDate == "" ==> InRange(name, Window(fromDate, toDate).0, Window(fromDate, toDate).1)
    ensures fromDate != "" || toDate != "" ==>
      var (from, to) := Window(fromDate, toDate);
      (InRange(name, from, to) <==> DayDate(name).Some? && StrLessEq(from, DayDate(name).value) && StrLessEq(DayDate(name).value, to))
  {
    var (from, to) := Window(fromDate, toDate);
    if DayDate(name).Some? {
      var d := DayDate(name).value;
      StrLessTotal(d, from);
      StrLessAsym(d, from);
      StrLessTotal(to, d);
      StrLessAsym(to, d);
    }
  }

  // ---------------------------------------------------------------------
  // The tallies

  /** A logged tank: closed or not, the volume left, its beer type. */
  datatype Info = Info(closed: bool, remain: Num, beerType: string)

  /** A row of the lot list. */
  datatype Row = Row(code: string, tank: string, volume: string, co2: string, time: string, beerType: string)

  /** `tankInfo`, `totalVolumeByType`, `totalLocVolume` and `logListTmp`. */
  datatype Tally = Tally(info: map<string, Info>, byType: map<string, Num>, locTotal: Num, rows: seq<Row>)

  const Start := Tally(map[], map[], Fin(0.0), [])
  const UnknownType := "Không rõ"

  /** The entry a fermentation log gives its tank: open, its whole volume left, its type. */
  function InfoOf(j: QaJson): Info {
    Info(false, ParseFloat(Get(j.fields, "tong_the_tich")), OrElse(Get(j.fields, "loai_bia"), UnknownType))
  }

  /** One fermentation log: its tank's entry is (re)set, its volume added to its type. */
  function LenMenStep(t: Tally, j: QaJson): Tally {
    var inf := InfoOf(j);
    var prior := if inf.beerType in t.byType then OrZero(t.byType[inf.beerType]) else Fin(0.0);
    Tally(t.info[Get(j.fields, "tank_so") := inf], t.byType[inf.beerType := Add(prior, inf.remain)], t.locTotal, t.rows)
  }

  /** The fermentation-log loop; `None` once a log in range cannot be parsed. */
  function LenMenPhase(files: seq<QaFile>, from: string, to: string): Option<Tally> {
    if files == [] then Some(Start)
    else
      match LenMenPhase(files[..|files| - 1], from, to)
      case None => None
      case Some(t) =>
        var f := files[|files| - 1];
        if !InRange(f.name, from, to) then Some(t)
        else match f.content
          case None => None
          case Some(j) => Some(LenMenStep(t, j))
  }

  /** `undefined - v` is NaN. */
  function TypeTotal(byType: map<string, Num>, ty: string): Num {
    if ty in byType then byType[ty] else NaN
  }

  /** One lot of a filter log of tank `tank`. */
  function LotStep(t: Tally, tank: string, lot: Lot): Tally {
    var v := ParseFloat(lot.volume);
    if tank in t.info then
      var inf := t.info[tank];
      Tally(t.info[tank := inf.(remain := Sub(inf.remain, v))], t.byType[inf.beerType := Sub(TypeTotal(t.byType, inf.beerType), v)],
            Add(t.locTotal, v), t.rows + [Row(lot.code, tank, lot.volume, lot.co2, lot.time, OrElse(inf.beerType, UnknownType))])
    else
      Tally(t.info, t.byType, Add(t.locTotal, v), t.rows + [Row(lot.code, tank, lot.volume, lot.co2, lot.time, UnknownType)])
  }

  function LotsPhase(t: Tally, tank: string, lots: seq<Lot>): Tally {
    if lots == [] then t else LotStep(LotsPhase(t, tank, lots[..|lots| - 1]), tank, lots[|lots| - 1])
  }

  /** One filter log; marking a tank closed that has no entry fails. */
  function LocStep(t: Tally, j: QaJson): Option<Tally> {
    var tank := Get(j.fields, "tank");
    if j.closed && tank !in t.info then None
    else
      var t1 := if j.closed then t.(info := t.info[tank := t.info[tank].(closed := true)]) else t;
      Some(LotsPhase(t1, tank, j.lots))
  }

  /** The filter-log loop; `None` once a log in range cannot be parsed or fails. */
  function LocPhase(t: Tally, files: seq<QaFile>, from: string, to: string): Option<Tally> {
    if files == [] then Some(t)
    else
      match LocPhase(t, files[..|files| - 1], from, to)
      case None => None
      case Some(u) =>
        var f := files[|files| - 1];
        if !InRange(f.name, from, to) then Some(u)
        else match f.content
          case None => None
          case Some(j) => LocStep(u, j)
  }

  // ---------------------------------------------------------------------
  // The summary

  /** The tanks of the cellar are numbered 1 to 17. */
  const TankCount: nat := 17

  /** The tank names `"1"` to `"n"`, in order. */
  function TankNames(n: nat): (r: seq<string>)
    ensures |r| == n && forall i :: 0 <= i < n ==> r[i] == NatToString(i + 1)
  {
    if n == 0 then [] else TankNames(n - 1) + [NatToString(n)]
  }

  /** The names among `names` without an entry, in order. */
  function WithoutLog(names: seq<string>, info: map<string, Info>): (r: seq<string>)
    ensures forall t :: t in r <==> t in names && t !in info
  {
    if names == [] then []
    else
      var init := WithoutLog(names[..|names| - 1], info);
      var t := names[|names| - 1];
      assert names == names[..|names| - 1] + [t];
      if t !in info then init + [t] else init
  }

  /** The logged tanks still being filtered. */
  function Filtering(info: map<string, Info>): (r: set<string>)
    ensures forall t :: t in r <==> t in info && !info[t].closed
  {
    set t | t in info && !info[t].closed
  }

  /**
    * The sum of `f` over the names `ks`, taken in no particular order:
    * `SumOverAny` shows that every order gives the same sum.
    */
  ghost function SumOver(ks: set<string>, f: string -> Num): Num
    decreases ks
  {
    if ks == {} then Fin(0.0)
    else
      var k :| k in ks;
      Add(SumOver(ks - {k}, f), f(k))
  }

  /** Any name of `ks` may be added last. */
  lemma {:induction false} SumOverAny(ks: set<string>, f: string -> Num, k: string)
    requires k in ks
    ensures SumOver(ks, f) == Add(SumOver(ks - {k}, f), f(k))
    decreases ks
  {
    var c :| c in ks && SumOver(ks, f) == Add(SumOver(ks - {c}, f), f(c));
    if c != k {
      var rest := ks - {c} - {k};
      assert ks - {c} - {k} == ks - {k} - {c};
      SumOverAny(ks - {c}, f, k);
      SumOverAny(ks - {k}, f, c);
      AddAssociates(SumOver(rest, f), f(k), f(c));
      AddCommutes(f(k), f(c));
      AddAssociates(SumOver(rest, f), f(c), f(k));
    }
  }

  /** Sums of functions that agree on the names are equal. */
  lemma {:induction false} SumOverAgrees(ks: set<string>, f: string -> Num, g: string -> Num)
    requires forall k :: k in ks ==> f(k) == g(k)
    ensures SumOver(ks, f) == SumOver(ks, g)
    decreases ks
  {
    if ks != {} {
      var k :| k in ks;
      SumOverAny(ks, f, k);
      SumOverAny(ks, g, k);
      SumOverAgrees(ks - {k}, f, g);
    }
  }

  /** The volume left in each logged tank, 0 for any other name. */
  function RemainIn(info: map<string, Info>): string -> Num {
    k => if k in info then info[k].remain else Fin(0.0)
  }

  /** `Object.values(tankInfo).reduce((a, b) => a + b.con_lai, 0)`, in whatever order the entries come. */
  method TotalRemain(info: map<string, Info>) returns (total: Num)
    ensures total == SumOver(info.Keys, RemainIn(info))
  {
    total := Fin(0.0);
    var left := info.Keys;
    while left != {}
      invariant left <= info.Keys
      invariant total == SumOver(info.Keys - left, RemainIn(info))
      decreases left
    {
      var k :| k in left;
      var done := info.Keys - left;
      SumOverAny(done + {k}, RemainIn(info), k);
      assert done + {k} - {k} == done;
      assert info.Keys - (left - {k}) == done + {k};
      total := Add(total, info[k].remain);
      left := left - {k};
    }
    assert info.Keys - left == info.Keys;
  }

  datatype Summary = Summary(tanksWithLog: nat, tanksFiltering: nat, locsToday: nat, tanksNoLog: seq<string>,
                             totalRemain: Num, remainByType: map<string, Num>, totalLocVolume: Num)

  ghost function Summarize(u: Tally): Summary {
    Summary(|u.info|, |Filtering(u.info)|, |u.rows|, WithoutLog(TankNames(TankCount), u.info),
            SumOver(u.info.Keys, RemainIn(u.info)), u.byType, u.locTotal)
  }

  /** What `loadDashboard` shows, or `None` when it fails. */
  ghost function Dashboard(files: seq<QaFile>, fromDate: string, toDate: string): Option<(Summary, seq<Row>)> {
    var (from, to) := Window(fromDate, toDate);
    match LenMenPhase(LenMenFiles(files), from, to)
    case None => None
    case Some(t) =>
      match LocPhase(t, LocFiles(files), from, to)
      case None => None
      case Some(u) => Some((Summarize(u), u.rows))
  }

  /** `loadDashboard`: the fermentation logs, then the filter logs, then the summary. */
  method LoadDashboard(files: seq<QaFile>, fromDate: string, toDate: string) returns (r: Option<(Summary, seq<Row>)>)
    ensures r == Dashboard(files, fromDate, toDate)
  {
    var (from, to) := Window(fromDate, toDate);
    var lenmen := ReadLenMen(LenMenFiles(files), from, to);
    if lenmen.None? {
      return None;
    }
    var loc := ReadLocs(lenmen.value, LocFiles(files), from, to);
    if loc.None? {
      return None;
    }
    var u := loc.value;
    var noLog := TanksWithoutLog(u.info);
    var totalRemain := TotalRemain(u.info);
    r := Some((Summary(|u.info|, |Filtering(u.info)|, |u.rows|, noLog, totalRemain, u.byType, u.locTotal), u.rows));
  }

  /** The loop over the fermentation logs. */
  method ReadLenMen(lenmen: seq<QaFile>, from: string, to: string) returns (r: Option<Tally>)
    ensures r == LenMenPhase(lenmen, from, to)
  {
    var info: map<string, Info> := map[];
    var byType: map<string, Num> := map[];
    for i := 0 to |lenmen|
      invariant LenMenPhase(lenmen[..i], from, to) == Some(Tally(info, byType, Fin(0.0), []))
    {
      assert lenmen[..i + 1][..i] == lenmen[..i];
      var f := lenmen[i];
      if InRange(f.name, from, to) {
        match f.content {
          case None =>
            LenMenFailureStays(lenmen, i + 1, from, to);
            return None;
          case Some(j) =>
            var tank := Get(j.fields, "tank_so");
            var total := ParseFloat(Get(j.fields, "tong_the_tich"));
            var ty := OrElse(Get(j.fields, "loai_bia"), UnknownType);
            info := info[tank := Info(false, total, ty)];
            var prior := if ty in byType then OrZero(byType[ty]) else Fin(0.0);
            byType := byType[ty := Add(prior, total)];
        }
      }
    }
    assert lenmen[..|lenmen|] == lenmen;
    r := Some(Tally(info, byType, Fin(0.0), []));
  }

  /** The loop over the filter logs. */
  method ReadLocs(t: Tally, locs: seq<QaFile>, from: string, to: string) returns (r: Option<Tally>)
    ensures r == LocPhase(t, locs, from, to)
  {
    var u := t;
    for i := 0 to |locs|
      invariant LocPhase(t, locs[..i], from, to) == Some(u)
    {
      assert locs[..i + 1][..i] == locs[..i];
      var f := locs[i];
      if InRange(f.name, from, to) {
        match f.content {
          case None =>
            LocFailureStays(t, locs, i + 1, from, to);
            return None;
          case Some(j) =>
            var tank := Get(j.fields, "tank");
            if j.closed {
              if tank !in u.info {
                LocFailureStays(t, locs, i + 1, from, to);
                return None;
              }
              u := u.(info := u.info[tank := u.info[tank].(closed := true)]);
            }
            u := ApplyLots(u, tank, j.lots);
        }
      }
    }
    assert locs[..|locs|] == locs;
    r := Some(u);
  }

  /** The loop over the lots of one filter log of tank `tank`. */
  method ApplyLots(t: Tally, tank: string, lots: seq<Lot>) returns (u: Tally)
    ensures u == LotsPhase(t, tank, lots)
  {
    var info, byType, locTotal, rows := t.info, t.byType, t.locTotal, t.rows;
    for k := 0 to |lots|
      invariant LotsPhase(t, tank, lots[..k]) == Tally(info, byType, locTotal, rows)
    {
      assert lots[..k + 1][..k] == lots[..k];
      var lot := lots[k];
      var v := ParseFloat(lot.volume);
      locTotal := Add(locTotal, v);
      if tank in info {
        var inf := info[tank];
        info := info[tank := inf.(remain := Sub(inf.remain, v))];
        byType := byType[inf.beerType := Sub(TypeTotal(byType, inf.beerType), v)];
        rows := rows + [Row(lot.code, tank, lot.volume, lot.co2, lot.time, OrElse(inf.beerType, UnknownType))];
      } else {
        rows := rows + [Row(lot.code, tank, lot.volume, lot.co2, lot.time, UnknownType)];
      }
    }
    assert lots[..|lots|] == lots;
    u := Tally(info, byType, locTotal, rows);
  }

  /** `tanksNoLog`: the tanks 1 to 17 without an entry, in order. */
  method TanksWithoutLog(info: map<string, Info>) returns (noLog: seq<string>)
    ensures noLog == WithoutLog(TankNames(TankCount), info)
  {
    noLog := [];
    for n := 1 to TankCount + 1
      invariant noLog == WithoutLog(TankNames(n - 1), info)
    {
      var name := NatToString(n);
      assert TankNames(n)[..n - 1] == TankNames(n - 1);
      if name !in info {
        noLog := noLog + [name];
      }
    }
  }

  /** Once a prefix of the fermentation logs fails, the whole loop fails. */
  lemma {:induction false} LenMenFailureStays(files: seq<QaFile>, i: nat, from: string, to: string)
    requires i <= |files| && LenMenPhase(files[..i], from, to).None?
    ensures LenMenPhase(files, from, to).None?
    decreases |files| - i
  {
    if i < |files| {
      assert files[..i + 1][..i] == files[..i];
      LenMenFailureStays(files, i + 1, from, to);
    } else {
      assert files[..i] == files;
    }
  }

  /** Once a prefix of the filter logs fails, the whole loop fails. */
  lemma {:induction false} LocFailureStays(t: Tally, files: seq<QaFile>, i: nat, from: string, to: string)
    requires i <= |files| && LocPhase(t, files[..i], from, to).None?
    ensures LocPhase(t, files, from, to).None?
    decreases |files| - i
  {
    if i < |files| {
      assert files[..i + 1][..i] == files[..i];
      LocFailureStays(t, files, i + 1, from, to);
    } else {
      assert files[..i] == files;
    }
  }

  // ---------------------------------------------------------------------
  // What the loops compute

  /** Every file in range can be read. */
  predicate Readable(files: seq<QaFile>, from: string, to: string) {
    forall i :: 0 <= i < |files| && InRange(files[i].name, from, to) ==> files[i].content.Some?
  }

  /** The parsed files in range, in order. */
  function Jsons(files: seq<QaFile>, from: string, to: string): seq<QaJson> {
    if files == [] then []
    else
      var f := files[|files| - 1];
      Jsons(files[..|files| - 1], from, to) + (if InRange(f.name, from, to) && f.content.Some? then [f.content.value] else [])
  }

  /** The last fermentation log of tank `tank`. */
  function LastLogOf(js: seq<QaJson>, tank: string): (r: Option<QaJson>)
    ensures r.Some? ==> r.value in js && Get(r.value.fields, "tank_so") == tank
    ensures r.None? ==> forall j :: j in js ==> Get(j.fields, "tank_so") != tank
  {
    if js == [] then None
    else if Get(js[|js| - 1].fields, "tank_so") == tank then Some(js[|js| - 1])
    else LastLogOf(js[..|js| - 1], tank)
  }

  /** The log found is the last one of the tank: log `i` when no later log is of that tank. */
  lemma {:induction false} LastLogOfIsLast(js: seq<QaJson>, tank: string, i: nat)
    requires i < |js| && Get(js[i].fields, "tank_so") == tank
    requires forall k :: i < k < |js| ==> Get(js[k].fields, "tank_so") != tank
    ensures LastLogOf(js, tank) == Some(js[i])
  {
    var n := |js| - 1;
    if i < n {
      assert Get(js[n].fields, "tank_so") != tank;
      LastLogOfIsLast(js[..n], tank, i);
    }
  }

  /** A lot's volume, as parsed. */
  function ParsedVolume(lot: Lot): Num {
    ParseFloat(lot.volume)
  }

  /** The volumes of some lots, as parsed. */
  function LotVolumes(lots: seq<Lot>): (r: seq<Num>)
    ensures |r| == |lots| && forall i :: 0 <= i < |lots| ==> r[i] == ParseFloat(lots[i].volume)
  {
    MapAll(lots, ParsedVolume)
  }

  /** The volumes of every lot of some filter logs, in order. */
  function AllVolumes(js: seq<QaJson>): seq<Num> {
    if js == [] then [] else AllVolumes(js[..|js| - 1]) + LotVolumes(js[|js| - 1].lots)
  }

  /** The volumes of the lots of the filter logs of tank `tank`, in order. */
  function TankVolumes(js: seq<QaJson>, tank: string): seq<Num> {
    if js == [] then []
    else
      var j := js[|js| - 1];
      TankVolumes(js[..|js| - 1], tank) + (if Get(j.fields, "tank") == tank then LotVolumes(j.lots) else [])
  }

  /** Some filter log closes tank `tank`. */
  predicate ClosedIn(js: seq<QaJson>, tank: string) {
    exists j :: j in js && j.closed && Get(j.fields, "tank") == tank
  }

  /** Every closed filter log names a tank of `known`. */
  predicate ClosuresKnown(js: seq<QaJson>, known: map<string, Info>) {
    forall j :: j in js && j.closed ==> Get(j.fields, "tank") in known
  }

  /** `x + v1 + v2 + ...`, left to right. */
  function AddAll(x: Num, vs: seq<Num>): Num {
    if vs == [] then x else Add(AddAll(x, vs[..|vs| - 1]), vs[|vs| - 1])
  }

  /** `x - v1 - v2 - ...`, left to right. */
  function SubAll(x: Num, vs: seq<Num>): Num {
    if vs == [] then x else Sub(SubAll(x, vs[..|vs| - 1]), vs[|vs| - 1])
  }

  lemma {:induction false} AddAllAppend(x: Num, a: seq<Num>, b: seq<Num>)
    ensures AddAll(x, a + b) == AddAll(AddAll(x, a), b)
  {
    if b != [] {
      assert (a + b)[..|a + b| - 1] == a + b[..|b| - 1];
      AddAllAppend(x, a, b[..|b| - 1]);
    } else {
      assert a + b == a;
    }
  }

  lemma {:induction false} SubAllAppend(x: Num, a: seq<Num>, b: seq<Num>)
    ensures SubAll(x, a + b) == SubAll(SubAll(x, a), b)
  {
    if b != [] {
      assert (a + b)[..|a + b| - 1] == a + b[..|b| - 1];
      SubAllAppend(x, a, b[..|b| - 1]);
    } else {
      assert a + b == a;
    }
  }

  /** The fermentation-log loop succeeds exactly when every log in range can be read. */
  lemma {:induction false} LenMenPhaseSucceeds(files: seq<QaFile>, from: string, to: string)
    ensures LenMenPhase(files, from, to).Some? <==> Readable(files, from, to)
  {
    if files != [] {
      LenMenPhaseSucceeds(files[..|files| - 1], from, to);
      ReadableSnoc(files, from, to);
    }
  }

  /** After the fermentation-log loop, each tank's entry is the one its last log gives, open, and nothing is filtered yet. */
  lemma {:induction false} LenMenPhaseEntries(files: seq<QaFile>, from: string, to: string)
    requires LenMenPhase(files, from, to).Some?
    ensures var t := LenMenPhase(files, from, to).value;
      t.locTotal == Fin(0.0) && t.rows == [] &&
      forall k :: (k in t.info <==> LastLogOf(Jsons(files, from, to), k).Some?) &&
                  (k in t.info ==> t.info[k] == InfoOf(LastLogOf(Jsons(files, from, to), k).value))
  {
    if files != [] {
      var init := files[..|files| - 1];
      var f := files[|files| - 1];
      LenMenPhaseEntries(init, from, to);
      var js0 := Jsons(init, from, to);
      var js := Jsons(files, from, to);
      if InRange(f.name, from, to) {
        var j := f.content.value;
        assert js == js0 + [j];
        assert js[..|js| - 1] == js0;
      } else {
        assert js == js0;
      }
    }
  }

  /** The lots of one filter log: what they subtract from their tank and add to the filtered total. */
  lemma {:induction false} LotsPhaseRule(t: Tally, tank: string, lots: seq<Lot>)
    ensures var u := LotsPhase(t, tank, lots);
      u.info.Keys == t.info.Keys &&
      u.locTotal == AddAll(t.locTotal, LotVolumes(lots)) &&
      |u.rows| == |t.rows| + |lots| &&
      forall k :: k in t.info ==>
        u.info[k].closed == t.info[k].closed && u.info[k].beerType == t.info[k].beerType &&
        u.info[k].remain == (if k == tank then SubAll(t.info[k].remain, LotVolumes(lots)) else t.info[k].remain)
  {
    if lots != [] {
      var init := lots[..|lots| - 1];
      LotsPhaseRule(t, tank, init);
      assert LotVolumes(lots)[..|lots| - 1] == LotVolumes(init);
    }
  }

  /** A filter log in range that is read and closes a tank. */
  lemma ClosuresSnoc(js0: seq<QaJson>, j: QaJson, known: map<string, Info>)
    ensures ClosuresKnown(js0 + [j], known) <==> ClosuresKnown(js0, known) && (j.closed ==> Get(j.fields, "tank") in known)
  {
    assert j in js0 + [j];
    assert forall x :: x in js0 ==> x in js0 + [j];
  }

  /**
    * The filter-log loop succeeds exactly when every log in range can be
    * read and every closed one is of a tank with an entry: a closed log of
    * a tank without a fermentation log makes the load fail.
    */
  lemma {:induction false} LocPhaseSucceeds(t: Tally, files: seq<QaFile>, from: string, to: string)
    ensures LocPhase(t, files, from, to).Some? <==> Readable(files, from, to) && ClosuresKnown(Jsons(files, from, to), t.info)
  {
    if files != [] {
      var init := files[..|files| - 1];
      var f := files[|files| - 1];
      LocPhaseSucceeds(t, init, from, to);
      ReadableSnoc(files, from, to);
      var js0 := Jsons(init, from, to);
      if InRange(f.name, from, to) && f.content.Some? {
        var j := f.content.value;
        ClosuresSnoc(js0, j, t.info);
        if LocPhase(t, init, from, to).Some? {
          LocPhaseTotals(t, init, from, to);
        }
      }
    }
  }

  /** The filter-log loop keeps the set of entries and adds every lot's volume to the filtered total and a row for it. */
  lemma {:induction false} LocPhaseTotals(t: Tally, files: seq<QaFile>, from: string, to: string)
    requires LocPhase(t, files, from, to).Some?
    ensures var u := LocPhase(t, files, from, to).value;
      var js := Jsons(files, from, to);
      u.info.Keys == t.info.Keys &&
      u.locTotal == AddAll(t.locTotal, AllVolumes(js)) &&
      |u.rows| == |t.rows| + |AllVolumes(js)|
  {
    if files != [] {
      var init := files[..|files| - 1];
      var f := files[|files| - 1];
      LocPhaseTotals(t, init, from, to);
      var js0 := Jsons(init, from, to);
      var js := Jsons(files, from, to);
      if InRange(f.name, from, to) {
        var j := f.content.value;
        var u0 := LocPhase(t, init, from, to).value;
        var tank := Get(j.fields, "tank");
        var t1 := if j.closed then u0.(info := u0.info[tank := u0.info[tank].(closed := true)]) else u0;
        LotsPhaseRule(t1, tank, j.lots);
        AddAllAppend(t.locTotal, AllVolumes(js0), LotVolumes(j.lots));
        assert js == js0 + [j];
        assert js[..|js| - 1] == js0;
      } else {
        assert js == js0;
      }
    }
  }

  /**
    * After the filter-log loop, a tank is closed when it was or some log
    * closes it, keeps its type, and is left with its volume minus the
    * volumes of its lots.
    */
  lemma {:induction false} LocPhaseEntries(t: Tally, files: seq<QaFile>, from: string, to: string)
    requires LocPhase(t, files, from, to).Some?
    ensures forall k :: k in t.info ==> EntryAfter(t, LocPhase(t, files, from, to).value, Jsons(files, from, to), k)
  {
    if files != [] {
      var init := files[..|files| - 1];
      var f := files[|files| - 1];
      LocPhaseEntries(t, init, from, to);
      LocPhaseTotals(t, init, from, to);
      var js0 := Jsons(init, from, to);
      var js := Jsons(files, from, to);
      if InRange(f.name, from, to) {
        var j := f.content.value;
        var u0 := LocPhase(t, init, from, to).value;
        var tank := Get(j.fields, "tank");
        assert js == js0 + [j];
        assert js[..|js| - 1] == js0;
        forall k | k in t.info
          ensures EntryAfter(t, LocStep(u0, j).value, js, k)
        {
          EntrySnoc(t, u0, j, js0, k);
        }
      } else {
        assert js == js0;
      }
    }
  }

  /** What the filter logs `js` leave of the entry of tank `k`, from `t` to `u`. */
  predicate EntryAfter(t: Tally, u: Tally, js: seq<QaJson>, k: string)
    requires k in t.info
  {
    k in u.info &&
    (u.info[k].closed <==> t.info[k].closed || ClosedIn(js, k)) &&
    u.info[k].beerType == t.info[k].beerType &&
    u.info[k].remain == SubAll(t.info[k].remain, TankVolumes(js, k))
  }

  lemma EntrySnoc(t: Tally, u0: Tally, j: QaJson, js0: seq<QaJson>, k: string)
    requires k in t.info && EntryAfter(t, u0, js0, k) && LocStep(u0, j).Some?
    ensures EntryAfter(t, LocStep(u0, j).value, js0 + [j], k)
  {
    var js := js0 + [j];
    var tank := Get(j.fields, "tank");
    LocStepEntry(u0, j, k);
    assert ClosedIn(js, k) <==> ClosedIn(js0, k) || (j.closed && tank == k) by {
      assert j in js;
      assert forall x :: x in js0 ==> x in js;
    }
    var extra := if tank == k then LotVolumes(j.lots) else [];
    assert js[..|js| - 1] == js0;
    assert TankVolumes(js, k) == TankVolumes(js0, k) + extra;
    SubAllAppend(t.info[k].remain, TankVolumes(js0, k), extra);
  }

  /** One filter log: what it does to the entry of tank `k`. */
  lemma LocStepEntry(u0: Tally, j: QaJson, k: string)
    requires LocStep(u0, j).Some? && k in u0.info
    ensures var u := LocStep(u0, j).value;
      var tank := Get(j.fields, "tank");
      k in u.info &&
      (u.info[k].closed <==> u0.info[k].closed || (j.closed && tank == k)) &&
      u.info[k].beerType == u0.info[k].beerType &&
      u.info[k].remain == SubAll(u0.info[k].remain, if tank == k then LotVolumes(j.lots) else [])
  {
    var tank := Get(j.fields, "tank");
    var t1 := if j.closed then u0.(info := u0.info[tank := u0.info[tank].(closed := true)]) else u0;
    LotsPhaseRule(t1, tank, j.lots);
  }

  lemma ReadableSnoc(files: seq<QaFile>, from: string, to: string)
    requires files != []
    ensures var f := files[|files| - 1];
      Readable(files, from, to) <==> Readable(files[..|files| - 1], from, to) && (InRange(f.name, from, to) ==> f.content.Some?)
  {
    var init := files[..|files| - 1];
    var f := files[|files| - 1];
    if Readable(init, from, to) && (InRange(f.name, from, to) ==> f.content.Some?) {
      forall i | 0 <= i < |files| && InRange(files[i].name, from, to) ensures files[i].content.Some? {
        if i < |init| {
          assert files[i] == init[i];
        }
      }
    }
    if Readable(files, from, to) {
      forall i | 0 <= i < |init| && InRange(init[i].name, from, to) ensures init[i].content.Some? {
        assert files[i] == init[i];
      }
    }
  }

  // ---------------------------------------------------------------------
  // The dashboard

  /** The tanks with a fermentation log. */
  function LoggedTanks(js: seq<QaJson>): set<string> {
    set j | j in js :: Get(j.fields, "tank_so")
  }

  /** The names `"1"` to `"m"` are the texts of the numbers 1 to `m`. */
  lemma TankNamesRule(m: nat, name: string)
    ensures name in TankNames(m) <==> exists n: nat :: 1 <= n <= m && name == NatToString(n)
  {
    var names := TankNames(m);
    if name in names {
      var i :| 0 <= i < |names| && names[i] == name;
      var n: nat := i + 1;
      assert 1 <= n <= m && name == NatToString(n);
      assert exists n: nat :: 1 <= n <= m && name == NatToString(n);
    } else {
      forall n: nat | 1 <= n <= m ensures name != NatToString(n) {
        assert names[n - 1] == NatToString(n);
      }
      assert !exists n: nat :: 1 <= n <= m && name == NatToString(n);
    }
  }

  /** The entries after the fermentation logs are those of the tanks with a log. */
  lemma EntriesOfLogged(files: seq<QaFile>, from: string, to: string)
    requires LenMenPhase(files, from, to).Some?
    ensures LenMenPhase(files, from, to).value.info.Keys == LoggedTanks(Jsons(files, from, to))
  {
    var logs := Jsons(files, from, to);
    LenMenPhaseEntries(files, from, to);
    forall k ensures k in LenMenPhase(files, from, to).value.info <==> k in LoggedTanks(logs) {
      if k in LoggedTanks(logs) {
        var j :| j in logs && Get(j.fields, "tank_so") == k;
      }
    }
  }

  /** The tanks still being filtered after the filter logs: those that no log closes. */
  lemma FilteringAfter(t: Tally, files: seq<QaFile>, from: string, to: string)
    requires LocPhase(t, files, from, to).Some?
    requires forall k :: k in t.info ==> !t.info[k].closed
    ensures Filtering(LocPhase(t, files, from, to).value.info) == set k | k in t.info && !ClosedIn(Jsons(files, from, to), k)
  {
    var u := LocPhase(t, files, from, to).value;
    LocPhaseTotals(t, files, from, to);
    LocPhaseEntries(t, files, from, to);
    forall k | k in t.info ensures !u.info[k].closed <==> !ClosedIn(Jsons(files, from, to), k) {
      assert EntryAfter(t, u, Jsons(files, from, to), k);
    }
  }

  /**
    * The dashboard, when it loads: one entry per tank with a fermentation
    * log in range; a tank is being filtered while no filter log in range
    * closes it; every lot of the filter logs in range is listed and its
    * volume counted in the filtered total.
    */
  lemma DashboardSummary(files: seq<QaFile>, fromDate: string, toDate: string)
    requires Dashboard(files, fromDate, toDate).Some?
    ensures var (from, to) := Window(fromDate, toDate);
      var logs := Jsons(LenMenFiles(files), from, to);
      var filters := Jsons(LocFiles(files), from, to);
      var (s, rows) := Dashboard(files, fromDate, toDate).value;
      s.tanksWithLog == |LoggedTanks(logs)| &&
      s.tanksFiltering == |set k | k in LoggedTanks(logs) && !ClosedIn(filters, k)| &&
      s.locsToday == |rows| == |AllVolumes(filters)| &&
      s.totalLocVolume == AddAll(Fin(0.0), AllVolumes(filters))
  {
    var (from, to) := Window(fromDate, toDate);
    var t := LenMenPhase(LenMenFiles(files), from, to).value;
    LenMenPhaseEntries(LenMenFiles(files), from, to);
    EntriesOfLogged(LenMenFiles(files), from, to);
    LocPhaseTotals(t, LocFiles(files), from, to);
    FilteringAfter(t, LocFiles(files), from, to);
  }

  /** What is left of tank `k`: the volume of its last fermentation log less the volumes of its filtered lots. */
  function Remaining(logs: seq<QaJson>, filters: seq<QaJson>, k: string): Num {
    match LastLogOf(logs, k)
    case None => Fin(0.0)
    case Some(j) => SubAll(InfoOf(j).remain, TankVolumes(filters, k))
  }

  /** The total left is the sum, over the tanks with a log, of each one's last logged volume less its filtered lots. */
  lemma DashboardRemain(files: seq<QaFile>, fromDate: string, toDate: string)
    requires Dashboard(files, fromDate, toDate).Some?
    ensures var (from, to) := Window(fromDate, toDate);
      var logs := Jsons(LenMenFiles(files), from, to);
      var filters := Jsons(LocFiles(files), from, to);
      Dashboard(files, fromDate, toDate).value.0.totalRemain == SumOver(LoggedTanks(logs), k => Remaining(logs, filters, k))
  {
    var (from, to) := Window(fromDate, toDate);
    var logs := Jsons(LenMenFiles(files), from, to);
    var filters := Jsons(LocFiles(files), from, to);
    var t := LenMenPhase(LenMenFiles(files), from, to).value;
    var u := LocPhase(t, LocFiles(files), from, to).value;
    LenMenPhaseEntries(LenMenFiles(files), from, to);
    EntriesOfLogged(LenMenFiles(files), from, to);
    LocPhaseTotals(t, LocFiles(files), from, to);
    LocPhaseEntries(t, LocFiles(files), from, to);
    forall k | k in u.info.Keys ensures RemainIn(u.info)(k) == Remaining(logs, filters, k) {
      assert EntryAfter(t, u, filters, k);
    }
    SumOverAgrees(u.info.Keys, RemainIn(u.info), k => Remaining(logs, filters, k));
  }

  /** The tanks without a log are those of 1 to 17 without a fermentation log in range. */
  lemma DashboardNoLog(files: seq<QaFile>, fromDate: string, toDate: string, name: string)
    requires Dashboard(files, fromDate, toDate).Some?
    ensures var (from, to) := Window(fromDate, toDate);
      name in Dashboard(files, fromDate, toDate).value.0.tanksNoLog <==>
        name !in LoggedTanks(Jsons(LenMenFiles(files), from, to)) && exists n: nat :: 1 <= n <= TankCount && name == NatToString(n)
  {
    var (from, to) := Window(fromDate, toDate);
    var t := LenMenPhase(LenMenFiles(files), from, to).value;
    var u := LocPhase(t, LocFiles(files), from, to).value;
    EntriesOfLogged(LenMenFiles(files), from, to);
    LocPhaseTotals(t, LocFiles(files), from, to);
    TankNamesRule(TankCount, name);
  }

  /** The filter log's own file name, `loc_tank<tank>_day_<date>.json`. */
  function LocName(tank: string, date: string): string {
    "loc_tank" + tank + "_day_" + date + ".json"
  }

  /** No match starts before `p` and one starts at `p`: the leftmost match is at `p`. */
  lemma {:induction false} DayDateSkips(name: string, i: nat, p: nat)
    requires i <= p && DayAt(name, p)
    requires forall j: nat :: i <= j < p ==> !DayAt(name, j)
    ensures DayDateFrom(name, i) == Some(name[p + 4..p + 14])
    decreases p - i
  {
    if i < p {
      DayDateSkips(name, i + 1, p);
    }
  }

  /**
    * A filter log saved for a numbered tank is one the dashboard reads, and
    * its date is the date in its name: it is counted exactly when that date
    * lies in the window.
    */
  lemma LocNameDated(tank: string, date: string)
    requires IsDigits(tank) && IsDateText(date)
    ensures IsLoc(LocName(tank, date)) && DayDate(LocName(tank, date)) == Some(date)
  {
    var name := LocName(tank, date);
    var p := 9 + |tank|;
    assert name[..8] == "loc_tank";
    assert name[|name| - 5..] == ".json";
    assert name[p..p + 4] == "day_";
    assert name[p + 4..p + 14] == date;
    forall j: nat | j < p ensures !DayAt(name, j) {
      if j < 8 {
        assert name[j] == "loc_tank"[j];
      } else if j < 8 + |tank| {
        assert name[j] == tank[j - 8];
      } else {
        assert name[j] == '_';
      }
      assert name[j] != 'd';
    }
    DayDateSkips(name, 0, p);
  }
}
