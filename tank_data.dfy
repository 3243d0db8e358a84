/**
  * The tank data manager: the capacity table, the temperature colour, and a
  * tank's status aggregated from the batch files whose tank number matches,
  * for one tank and for every tank of the table.
  */
module TankData {
  import opened Js
  import opened JsNum
  import opened Sorting
  import opened BatchFiles

  /** `TANK_CAPACITIES`, in litres. */
  const Capacities: map<int, nat> := map[
    1 := 42000, 2 := 42000, 3 := 42000, 4 := 42000, 5 := 42000, 6 := 42000,
    11 := 28000, 12 := 28000, 13 := 28000, 14 := 28000,
    7 := 10500, 8 := 10500, 9 := 10500, 10 := 10500,
    15 := 10500, 16 := 10500, 17 := 10500, 18 := 10500, 19 := 10500, 20 := 10500]

  /** `getTankCapacity`: the table's entry, else 10500. */
  function Capacity(tank: int): (c: nat)
    ensures 1 <= tank <= 6 ==> c == 42000
    ensures 11 <= tank <= 14 ==> c == 28000
    ensures !(1 <= tank <= 6) && !(11 <= tank <= 14) ==> c == 10500
  {
    if tank in Capacities && Capacities[tank] != 0 then Capacities[tank] else 10500
  }

  /** `temperature >= x`; false for NaN. */
  predicate AtLeast(t: Num, x: real) {
    t != NaN && !Less(t, Fin(x))
  }

  /** `getTankColor`; `None` is `null` or `undefined`. */
  function Color(temperature: Option<Num>): (c: string) {
    match temperature
    case None => "#E0E0E0"
    case Some(t) =>
      if AtLeast(t, 12.0) then "#FF4D4D"
      else if AtLeast(t, 10.0) then "#FFA500"
      else "#4CAF50"
  }

  /** How warm a colour says the tank is: green, orange, red. */
  function Warmth(c: string): int {
    if c == "#FF4D4D" then 2 else if c == "#FFA500" then 1 else 0
  }

  /** A warmer tank never shows a cooler colour; only an unknown temperature is grey. */
  lemma ColorWarmer(a: real, b: real)
    requires a <= b
    ensures Warmth(Color(Some(Fin(a)))) <= Warmth(Color(Some(Fin(b))))
    ensures Color(Some(Fin(a))) != "#E0E0E0" && Color(None) == "#E0E0E0"
  {
  }

  // ---------------------------------------------------------------------
  // One tank

  /** One element of `tankBatches`; `None` as batch number stands for `NaN`. */
  datatype StoredBatch = StoredBatch(file: string, batchNumber: Option<int>, volume: Num,
                                     ngayNau: string, beerType: string, createdAt: string, data: Record)

  /** `parseInt(data.field_003 || data.tank_so || 0) === parseInt(tank)`. */
  predicate InTank(data: Record, tank: int) {
    ParseInt(Pick(data, ["field_003", "tank_so"], "0")) == Some(tank)
  }

  /** The element pushed for a matching file. */
  function StoredOf(file: string, data: Record): (b: StoredBatch)
    ensures b.file == file && b.data == data
    ensures b.batchNumber == ParseInt(Pick(data, ["field_002", "me_so"], "0"))
    ensures b.volume == ParseFloat(Pick(data, ["field_080", "the_tich_cuoi"], "0"))
  {
    StoredBatch(file, ParseInt(Pick(data, ["field_002", "me_so"], "0")),
                ParseFloat(Pick(data, ["field_080", "the_tich_cuoi"], "0")),
                Pick(data, ["field_001", "ngay_nau"], ""), Pick(data, ["beer_type"], "unknown"),
                Pick(data, ["created_at"], ""), data)
  }

  /** The readable JSON files of the tank, in folder order (see `TankRecordsExact`). */
  function TankRecords(files: seq<Entry>, tank: int): (r: seq<StoredBatch>)
    ensures |r| <= |files|
  {
    if files == [] then []
    else
      var init := TankRecords(files[..|files| - 1], tank);
      var e := files[|files| - 1];
      if IsJson(e.name) && e.content.Some? && InTank(e.content.value, tank) then
        init + [StoredOf(e.name, e.content.value)]
      else init
  }

  /** A tank's records are exactly its readable JSON files whose tank number matches. */
  lemma TankRecordsExact(files: seq<Entry>, tank: int)
    ensures forall b :: b in TankRecords(files, tank) ==>
              IsJson(b.file) && InTank(b.data, tank) && Entry(b.file, Some(b.data)) in files && b == StoredOf(b.file, b.data)
    ensures forall e :: e in files && IsJson(e.name) && e.content.Some? && InTank(e.content.value, tank) ==>
              StoredOf(e.name, e.content.value) in TankRecords(files, tank)
  {
    TankRecordsSound(files, tank);
    TankRecordsComplete(files, tank);
  }

  lemma {:induction false} TankRecordsSound(files: seq<Entry>, tank: int)
    ensures forall b :: b in TankRecords(files, tank) ==>
              IsJson(b.file) && InTank(b.data, tank) && Entry(b.file, Some(b.data)) in files && b == StoredOf(b.file, b.data)
  {
    if files != [] {
      var init := files[..|files| - 1];
      var e := files[|files| - 1];
      TankRecordsSound(init, tank);
      assert forall x :: x in init ==> x in files;
      if IsJson(e.name) && e.content.Some? && InTank(e.content.value, tank) {
        assert Entry(e.name, Some(e.content.value)) == e;
      }
    }
  }

  lemma {:induction false} TankRecordsComplete(files: seq<Entry>, tank: int)
    ensures forall e :: e in files && IsJson(e.name) && e.content.Some? && InTank(e.content.value, tank) ==>
              StoredOf(e.name, e.content.value) in TankRecords(files, tank)
  {
    if files != [] {
      var init := files[..|files| - 1];
      var e := files[|files| - 1];
      TankRecordsComplete(init, tank);
      assert files == init + [e];
      assert forall x :: x in files ==> x in init || x == e;
    }
  }

  /** `reduce((sum, b) => sum + b.volume, 0)`. */
  function Total(bs: seq<StoredBatch>): Num {
    if bs == [] then Fin(0.0) else Add(Total(bs[..|bs| - 1]), bs[|bs| - 1].volume)
  }

  /** `(a, b) => b.batchNumber - a.batchNumber`, largest number first. */
  function LargestFirst(b: StoredBatch): int {
    match b.batchNumber
    case Some(n) => -n
    case None => 0
  }

  /**
    * The status object. `latestBatch` is `None` for `null` and
    * `Some(None)` for a batch number that is `NaN`.
    */
  datatype TankStatus = TankStatus(tankNumber: int, capacity: nat, currentVolume: Num, fillPercentage: Num,
                                   temperature: Option<Num>, lastFillDate: Option<string>, beerType: Option<string>,
                                   batchCount: nat, latestBatch: Option<Option<int>>, status: string,
                                   batches: seq<StoredBatch>)

  /** `Math.min((total / capacity) * 100, 100)`. */
  function FillOf(total: Num, capacity: nat): Num {
    Min(Mul(Div(total, Fin(capacity as real)), Fin(100.0)), Fin(100.0))
  }

  /** The status built from the tank's batches, already sorted (see `StatusOfRule`). */
  function StatusOf(tank: int, sorted: seq<StoredBatch>): (st: TankStatus)
    ensures st.tankNumber == tank && st.capacity == Capacity(tank) && st.batches == sorted
  {
    var capacity := Capacity(tank);
    if sorted == [] then
      TankStatus(tank, capacity, Fin(0.0), Fin(0.0), None, None, None, 0, None, "empty", [])
    else
      var total := Total(sorted);
      var latest := sorted[0];
      TankStatus(tank, capacity, total, FillOf(total, capacity),
                 Some(Fin(10.0)), Some(latest.ngayNau), Some(latest.beerType), |sorted|, Some(latest.batchNumber),
                 if Positive(total) then "filled" else "empty", sorted)
  }

  /**
    * With no batch the tank is empty and nothing is known of it; otherwise
    * it holds the total volume at its fill of the capacity, the default
    * temperature 10, the date, type and number of the first (latest)
    * batch, and it is `filled` exactly when the total is positive.
    */
  lemma StatusOfRule(tank: int, sorted: seq<StoredBatch>)
    ensures var st := StatusOf(tank, sorted);
      st.batchCount == |sorted| &&
      (sorted == [] ==>
        st.currentVolume == Fin(0.0) && st.fillPercentage == Fin(0.0) && st.status == "empty" &&
        st.temperature.None? && st.lastFillDate.None? && st.beerType.None? && st.latestBatch.None?) &&
      (sorted != [] ==>
        st.currentVolume == Total(sorted) && st.fillPercentage == FillOf(Total(sorted), Capacity(tank)) &&
        st.temperature == Some(Fin(10.0)) && st.lastFillDate == Some(sorted[0].ngayNau) &&
        st.beerType == Some(sorted[0].beerType) && st.latestBatch == Some(sorted[0].batchNumber) &&
        (st.status == "filled" <==> Positive(Total(sorted))) && (st.status == "filled" || st.status == "empty"))
  {
  }

  /** What `calculateTankStatus` returns for the folder `files` (see `StatusForRecords`). */
  function StatusFor(tank: int, files: seq<Entry>): (st: TankStatus)
    ensures st.tankNumber == tank
  {
    StatusOf(tank, SortBy(TankRecords(files, tank), LargestFirst))
  }

  /**
    * The status of a tank aggregates exactly the tank's records, largest
    * batch number first; with no record the tank is empty and holds nothing.
    */
  lemma StatusForRecords(tank: int, files: seq<Entry>)
    ensures var st := StatusFor(tank, files);
      st.capacity == Capacity(tank) && st.batchCount == |TankRecords(files, tank)| &&
      multiset(st.batches) == multiset(TankRecords(files, tank)) && SortedBy(st.batches, LargestFirst) &&
      (TankRecords(files, tank) == [] <==> st.latestBatch.None?) &&
      (TankRecords(files, tank) == [] ==> st.status == "empty" && st.currentVolume == Fin(0.0))
  {
  }

  /** `calculateTankStatus`: collect the tank's batches, largest number first, and aggregate. */
  method CalculateTankStatus(tank: int, files: seq<Entry>) returns (st: TankStatus)
    ensures st == StatusFor(tank, files)
  {
    var tankBatches: seq<StoredBatch> := [];
    for i := 0 to |files|
      invariant tankBatches == TankRecords(files[..i], tank)
    {
      assert files[..i + 1][..i] == files[..i];
      var e := files[i];
      if IsJson(e.name) {
        match e.content
        case None =>
        case Some(data) =>
          if InTank(data, tank) {
            tankBatches := tankBatches + [StoredOf(e.name, data)];
          }
      }
    }
    assert files[..|files|] == files;
    var sorted := SortBy(tankBatches, LargestFirst);
    st := StatusOf(tank, sorted);
  }

  /** When every batch number parses, the latest batch has the largest one. */
  lemma LatestIsLargest(tank: int, files: seq<Entry>, b: StoredBatch)
    requires b in TankRecords(files, tank)
    requires forall x :: x in TankRecords(files, tank) ==> x.batchNumber.Some?
    ensures StatusFor(tank, files).latestBatch.Some? && StatusFor(tank, files).latestBatch.value.Some?
    ensures b.batchNumber.value <= StatusFor(tank, files).latestBatch.value.value
  {
    var all := TankRecords(files, tank);
    var sorted := SortBy(all, LargestFirst);
    HeadIsLeast(all, LargestFirst, b);
    assert sorted[0] in multiset(all);
  }

  // ---------------------------------------------------------------------
  // The volume and the fill as exact numbers

  /** Every volume is a finite, non-negative number. */
  predicate Measured(bs: seq<StoredBatch>) {
    forall i :: 0 <= i < |bs| ==> bs[i].volume.Fin? && bs[i].volume.r >= 0.0
  }

  /** The exact sum of the volumes. */
  function VolumeSum(bs: seq<StoredBatch>): real
    requires Measured(bs)
  {
    if bs == [] then 0.0 else VolumeSum(bs[..|bs| - 1]) + bs[|bs| - 1].volume.r
  }

  /** On measured volumes the running `+` is the exact sum, which is not negative. */
  lemma {:induction false} TotalIsSum(bs: seq<StoredBatch>)
    requires Measured(bs)
    ensures Total(bs) == Fin(VolumeSum(bs)) && VolumeSum(bs) >= 0.0
  {
    if bs != [] {
      TotalIsSum(bs[..|bs| - 1]);
    }
  }

  lemma {:induction false} SumConcat(a: seq<StoredBatch>, b: seq<StoredBatch>)
    requires Measured(a) && Measured(b)
    ensures Measured(a + b) && VolumeSum(a + b) == VolumeSum(a) + VolumeSum(b)
  {
    if b == [] {
      assert a + b == a;
    } else {
      var b0 := b[..|b| - 1];
      assert (a + b)[..|a + b| - 1] == a + b0;
      assert (a + b)[|a + b| - 1] == b[|b| - 1];
      SumConcat(a, b0);
    }
  }

  lemma SplitAt<T>(t: seq<T>, j: nat)
    requires j < |t|
    ensures t == t[..j] + [t[j]] + t[j + 1..]
  {
    assert t == t[..j] + t[j..];
    assert t[j..] == [t[j]] + t[j + 1..];
  }

  /** Removing the element at `j` removes one occurrence of it. */
  lemma MultisetRemoveAt(t: seq<StoredBatch>, j: nat)
    requires j < |t|
    ensures multiset(t[..j] + t[j + 1..]) == multiset(t) - multiset{t[j]}
  {
    SplitAt(t, j);
  }

  /** Removing the element at `j` takes its volume off the sum. */
  lemma SumRemoveAt(t: seq<StoredBatch>, j: nat)
    requires Measured(t) && j < |t|
    ensures Measured(t[..j] + t[j + 1..])
    ensures VolumeSum(t) == VolumeSum(t[..j] + t[j + 1..]) + t[j].volume.r
  {
    var a, x, b := t[..j], t[j], t[j + 1..];
    SplitAt(t, j);
    MeasuredPieces(t, j);
    SumConcat(a, [x]);
    SumConcat(a + [x], b);
    SumConcat(a, b);
    assert VolumeSum([x]) == x.volume.r by { assert [x][..0] == []; }
  }

  lemma MeasuredPieces(t: seq<StoredBatch>, j: nat)
    requires Measured(t) && j < |t|
    ensures Measured(t[..j]) && Measured(t[j + 1..]) && Measured([t[j]])
  {
    var b := t[j + 1..];
    forall i | 0 <= i < |b| ensures b[i].volume.Fin? && b[i].volume.r >= 0.0 {
      assert b[i] == t[j + 1 + i];
    }
  }

  lemma MeasuredPermutation(s: seq<StoredBatch>, t: seq<StoredBatch>)
    requires Measured(s) && multiset(s) == multiset(t)
    ensures Measured(t)
  {
    forall i | 0 <= i < |t| ensures t[i].volume.Fin? && t[i].volume.r >= 0.0 {
      assert t[i] in multiset(s);
    }
  }

  /** The sum does not depend on the order of the batches. */
  lemma {:induction false} SumPermutation(s: seq<StoredBatch>, t: seq<StoredBatch>)
    requires Measured(s) && multiset(s) == multiset(t)
    ensures Measured(t) && VolumeSum(s) == VolumeSum(t)
    decreases |s|
  {
    MeasuredPermutation(s, t);
    if s != [] {
      var x, s0 := s[|s| - 1], s[..|s| - 1];
      assert s == s0 + [x];
      assert Measured(s0);
      assert x in multiset(t);
      var j :| 0 <= j < |t| && t[j] == x;
      MultisetRemoveAt(t, j);
      assert multiset(s0) == multiset(s) - multiset{x};
      SumRemoveAt(t, j);
      SumPermutation(s0, t[..j] + t[j + 1..]);
    }
  }

  /** The volume `v` as a percentage of the capacity `c`, capped at 100. */
  function FillPercent(v: real, c: nat): real
    requires c > 0
  {
    if v / c as real * 100.0 < 100.0 then v / c as real * 100.0 else 100.0
  }

  /** `Math.min(v / c * 100, 100)` of a non-negative volume and a positive capacity lies in 0-100. */
  lemma Percentage(v: real, c: nat)
    requires v >= 0.0 && c > 0
    ensures FillOf(Fin(v), c) == Fin(FillPercent(v, c)) && 0.0 <= FillPercent(v, c) <= 100.0
  {
    assert v / c as real >= 0.0;
    assert v / c as real * 100.0 >= 0.0;
  }

  /** The status of measured batches in exact numbers. */
  lemma StatusOfMeasured(tank: int, sorted: seq<StoredBatch>)
    requires Measured(sorted)
    ensures var st := StatusOf(tank, sorted);
      var v := VolumeSum(sorted);
      v >= 0.0 && st.currentVolume == Fin(v) &&
      st.fillPercentage == Fin(FillPercent(v, Capacity(tank))) &&
      0.0 <= st.fillPercentage.r <= 100.0 &&
      (st.status == "filled" <==> v > 0.0)
  {
    StatusOfRule(tank, sorted);
    TotalIsSum(sorted);
    if sorted == [] {
      assert FillPercent(0.0, Capacity(tank)) == 0.0;
    } else {
      Percentage(VolumeSum(sorted), Capacity(tank));
    }
  }

  /**
    * With finite, non-negative volumes the tank holds the exact sum of its
    * records' volumes in any order, its fill is that sum as a percentage of
    * the capacity capped at 100, and it is `filled` exactly when the sum is
    * positive.
    */
  lemma FillBounded(tank: int, files: seq<Entry>)
    requires Measured(TankRecords(files, tank))
    ensures var st := StatusFor(tank, files);
      var v := VolumeSum(TankRecords(files, tank));
      v >= 0.0 && st.currentVolume == Fin(v) &&
      st.fillPercentage == Fin(FillPercent(v, Capacity(tank))) &&
      0.0 <= st.fillPercentage.r <= 100.0 &&
      (st.status == "filled" <==> v > 0.0)
  {
    var all := TankRecords(files, tank);
    var sorted := SortBy(all, LargestFirst);
    SumPermutation(all, sorted);
    StatusOfMeasured(tank, sorted);
    assert StatusFor(tank, files) == StatusOf(tank, sorted);
  }

  // ---------------------------------------------------------------------
  // All tanks

  /** The table lists tanks 1 to 20, which `Object.keys` yields in ascending order. */
  lemma TableTanks()
    ensures forall t :: t in Capacities <==> 1 <= t <= 20
  {
  }

  function ByTank(st: TankStatus): int {
    st.tankNumber
  }

  /** `[f(1), ..., f(n)]`. */
  function Tabulate<T>(f: int -> T, n: nat): (r: seq<T>)
    ensures |r| == n && forall j :: 0 <= j < n ==> r[j] == f(j + 1)
  {
    if n == 0 then [] else Tabulate(f, n - 1) + [f(n)]
  }

  /** The statuses of tanks 1 to `n`, in that order: entry `j` is the status of tank `j + 1`. */
  function Statuses(files: seq<Entry>, n: nat): (r: seq<TankStatus>)
    ensures |r| == n
    ensures forall j :: 0 <= j < n ==> r[j] == StatusFor(j + 1, files)
    ensures forall j :: 0 <= j < n ==> r[j].tankNumber == j + 1
  {
    var r := Tabulate(t => StatusFor(t, files), n);
    assert forall j :: 0 <= j < n ==> r[j] == StatusFor(j + 1, files);
    r
  }

  /** `getAllTanksStatus`: one status per tank of the table (tanks 1 to 20, see `TableTanks`), in tank order. */
  method AllTanksStatus(files: seq<Entry>) returns (statuses: seq<TankStatus>)
    ensures statuses == Statuses(files, 20)
  {
    var found: seq<TankStatus> := [];
    for i := 0 to 20
      invariant found == Statuses(files, i)
    {
      var st := CalculateTankStatus(i + 1, files);
      found := found + [st];
    }
    SortBySorted(found, ByTank);
    statuses := SortBy(found, ByTank);
  }
}
