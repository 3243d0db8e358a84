/**
  * The tank list screen: for each of the 17 tanks, the active batches the
  * server reports are summed into an initial volume, the filtered volume is
  * taken off, and the batch numbers, the latest filling date and the beer
  * type of the most recently created batch are picked out. Server replies
  * (batches, filtered volume, temperature and pressure) are inputs.
  */
module TankList {
  import opened Js
  import opened JsNum
  import opened Sorting
  import TankData

  /** The capacities of `TANK_CONFIG`, in litres. */
  const Config: map<int, nat> := map[
    1 := 42000, 2 := 42000, 3 := 42000, 4 := 42000, 5 := 42000, 6 := 42000,
    7 := 10500, 8 := 10500, 9 := 10500, 10 := 10500,
    11 := 28000, 12 := 28000, 13 := 28000, 14 := 28000,
    15 := 10500, 16 := 10500, 17 := 10500]

  predicate ValidTank(tank: int) {
    1 <= tank <= 17
  }

  /** `TANK_CONFIG[tank].capacity`. */
  function Capacity(tank: int): (c: nat)
    requires ValidTank(tank)
    ensures c == TankData.Capacity(tank)
  {
    assert tank in Config;
    Config[tank]
  }

  /** The screen's `getTankColor`; `None` is `null` or `undefined`. */
  function Color(temperature: Option<Num>): string {
    match temperature
    case None => "#999"
    case Some(t) =>
      if AtMost(t, 2.0) then "#29B6F6"
      else if AtMost(t, 5.0) then "#4FC3F7"
      else if Less(t, Fin(10.0)) then "#66BB6A"
      else if Less(t, Fin(15.0)) then "#FFA726"
      else "#EF5350"
  }

  /** `t <= x`; false for NaN. */
  predicate AtMost(t: Num, x: real) {
    t != NaN && !Less(Fin(x), t)
  }

  /** How warm a colour says the tank is, from very cold to hot. */
  function Warmth(c: string): int {
    match c
    case "#29B6F6" => 0
    case "#4FC3F7" => 1
    case "#66BB6A" => 2
    case "#FFA726" => 3
    case _ => 4
  }

  /** A warmer tank never shows a cooler colour; only an unknown temperature is grey. */
  lemma ColorWarmer(a: real, b: real)
    requires a <= b
    ensures Warmth(Color(Some(Fin(a)))) <= Warmth(Color(Some(Fin(b))))
    ensures Color(Some(Fin(a))) != "#999" && Color(None) == "#999"
  {
  }

  // ---------------------------------------------------------------------
  // One tank

  /** What the server said about a tank: its active batches, filtered volume, temperature and pressure. */
  datatype Reply = Reply(batches: seq<Record>, filtered: Num, temperature: Num, pressure: Num)

  /** One tank as the screen shows it. */
  datatype TankView = TankView(tankNumber: int, status: string, capacity: nat, currentVolume: Num,
                               initialVolume: Num, filteredVolume: Num, fillPercentage: Num,
                               temperature: Option<Num>, pressure: Num, beerType: Option<string>,
                               batchCount: nat, latestBatch: Option<string>, lastFillDate: Option<string>,
                               allBatches: seq<string>)

  /** `parseFloat(batch.field_103 || 0)`. */
  function VolumeOf(b: Record): Num {
    ParseFloat(Pick(b, ["field_103"], "0"))
  }

  /** `totalInitialVolume`: the volumes added up in order, from 0. */
  function InitialVolume(bs: seq<Record>): Num {
    if bs == [] then Fin(0.0) else Add(InitialVolume(bs[..|bs| - 1]), VolumeOf(bs[|bs| - 1]))
  }

  /** `field_002 || me_so`. */
  function NumberOf(b: Record): string {
    Pick(b, ["field_002", "me_so"], "")
  }

  /** `allBatchNumbers`: the batch numbers that are not empty, in order. */
  function BatchNumbers(bs: seq<Record>): (r: seq<string>)
    ensures forall n :: n in r <==> exists b :: b in bs && NumberOf(b) == n && n != ""
  {
    if bs == [] then []
    else
      var init := BatchNumbers(bs[..|bs| - 1]);
      var b := bs[|bs| - 1];
      assert bs == bs[..|bs| - 1] + [b];
      if NumberOf(b) != "" then init + [NumberOf(b)] else init
  }

  /** The text begins with `\d{4}-\d{2}-\d{2}`. */
  predicate DatePrefix(s: string) {
    |s| >= 10 && IsDigits(s[..4]) && s[4] == '-' && IsDigits(s[5..7]) && s[7] == '-' && IsDigits(s[8..10])
  }

  /** `batch.filename || ''`. */
  function FileOf(b: Record): string {
    Pick(b, ["filename"], "")
  }

  /** `allFileDates`: the dates that begin the file names, in order. */
  function FileDates(bs: seq<Record>): (r: seq<string>)
    ensures forall d :: d in r ==> |d| == 10 && DatePrefix(d)
    ensures forall d :: d in r <==> exists b :: b in bs && DatePrefix(FileOf(b)) && FileOf(b)[..10] == d
  {
    if bs == [] then []
    else
      var init := FileDates(bs[..|bs| - 1]);
      var f := FileOf(bs[|bs| - 1]);
      assert bs == bs[..|bs| - 1] + [bs[|bs| - 1]];
      if DatePrefix(f) then
        assert f[..10][..4] == f[..4] && f[..10][5..7] == f[5..7] && f[..10][8..10] == f[8..10];
        init + [f[..10]]
      else init
  }

  /** `batch.created_at || batch.ngay_nau || ''`. */
  function CreatedOf(b: Record): string {
    Pick(b, ["created_at", "ngay_nau"], "")
  }

  /**
    * The batch the `forEach` keeps as the latest: a batch replaces the kept
    * one when the kept creation time is empty (or there is none yet) or the
    * new one is greater.
    */
  function Chosen(bs: seq<Record>): (k: nat)
    requires bs != []
    ensures k < |bs|
  {
    if |bs| == 1 then 0
    else
      var k := Chosen(bs[..|bs| - 1]);
      var last := |bs| - 1;
      if CreatedOf(bs[k]) == "" || StrLess(CreatedOf(bs[k]), CreatedOf(bs[last])) then last else k
  }

  /**
    * The kept batch has the greatest creation time, and is the first with
    * it; when every creation time is empty it is the last batch.
    */
  lemma {:induction false} ChosenIsLatest(bs: seq<Record>)
    requires bs != []
    ensures forall j :: 0 <= j < |bs| ==> StrLessEq(CreatedOf(bs[j]), CreatedOf(bs[Chosen(bs)]))
    ensures CreatedOf(bs[Chosen(bs)]) != "" ==> forall j :: 0 <= j < Chosen(bs) ==> StrLess(CreatedOf(bs[j]), CreatedOf(bs[Chosen(bs)]))
    ensures CreatedOf(bs[Chosen(bs)]) == "" ==> Chosen(bs) == |bs| - 1
  {
    if |bs| > 1 {
      var init := bs[..|bs| - 1];
      var last := |bs| - 1;
      ChosenIsLatest(init);
      var k := Chosen(init);
      assert forall j :: 0 <= j < last ==> bs[j] == init[j];
      var ck, cl := CreatedOf(bs[k]), CreatedOf(bs[last]);
      if ck == "" || StrLess(ck, cl) {
        forall j | 0 <= j < last
          ensures StrLessEq(CreatedOf(bs[j]), cl)
          ensures cl != "" ==> StrLess(CreatedOf(bs[j]), cl)
        {
          var cj := CreatedOf(bs[j]);
          assert StrLessEq(cj, ck);
          if ck == "" {
            assert cj == "";
          } else if cj != ck {
            StrLessTrans(cj, ck, cl);
          }
        }
      } else {
        StrLessTotal(ck, cl);
      }
    }
  }

  /** `#n` for each batch number. */
  function Hashed(nums: seq<string>): (r: seq<string>)
    ensures |r| == |nums| && forall i :: 0 <= i < |nums| ==> r[i] == "#" + nums[i]
  {
    if nums == [] then [] else ["#" + nums[0]] + Hashed(nums[1..])
  }

  /** `batchDisplay`: the numbers as `#n, #m, ...`, or `#Unknown` when there are none. */
  function Label(nums: seq<string>): (r: string)
    ensures nums == [] ==> r == "#Unknown"
    ensures nums != [] ==> StartsWith(r, "#" + nums[0])
  {
    if nums == [] then "#Unknown" else Join(Hashed(nums), ", ")
  }

  /** `uniqueDates.sort().pop()`: the greatest date (a single date is its own greatest). */
  function Greatest(ds: seq<string>): (r: string)
    requires ds != []
    ensures r in ds && forall d :: d in ds ==> StrLessEq(d, r)
  {
    if |ds| == 1 then ds[0]
    else
      var m := Greatest(ds[..|ds| - 1]);
      var d := ds[|ds| - 1];
      assert ds == ds[..|ds| - 1] + [d];
      StrLessTotal(m, d);
      if StrLess(m, d) then
        forall x | x in ds[..|ds| - 1] ensures StrLessEq(x, d) {
          if x != m { StrLessTrans(x, m, d); }
        }
        d
      else m
  }

  /** `YYYY-MM-DD` as `DD/MM/YYYY`: the three parts between the dashes, reversed. */
  function DayFirst(d: string): (r: string)
    requires |d| == 10
    ensures |r| == 10 && r[2] == '/' && r[5] == '/'
    ensures r[..2] == d[8..10] && r[3..5] == d[5..7] && r[6..] == d[..4]
  {
    d[8..10] + "/" + d[5..7] + "/" + d[..4]
  }

  /** `x || d` on a number: NaN and zero give the default. */
  function NumOr(x: Num, d: real): Num {
    if x == NaN || x == Fin(0.0) then Fin(d) else x
  }

  /** The entry of a tank without active batches. */
  function EmptyView(tank: int): TankView
    requires ValidTank(tank)
  {
    TankView(tank, "empty", Capacity(tank), Fin(0.0), Fin(0.0), Fin(0.0), Fin(0.0), None, Fin(0.0), None, 0, None, None, [])
  }

  /**
    * The entry `getTankStatus`'s own `catch` returns when computing the
    * tank's status throws (a malformed batch in the reply, say).
    */
  function ErrorView(tank: int): TankView
    requires ValidTank(tank)
  {
    TankView(tank, "error", Capacity(tank), Fin(0.0), Fin(0.0), Fin(0.0), Fin(0.0), None, Fin(0.0), None, 0, None, None, [])
  }

  /** What `getTankStatus` returns for a tank with batches, from its accumulated values. */
  function ViewFrom(tank: int, reply: Reply, initial: Num, nums: seq<string>, dates: seq<string>, beerType: string): TankView
    requires ValidTank(tank) && reply.batches != []
    requires forall d :: d in dates ==> |d| == 10
  {
    var current := Max(Fin(0.0), Sub(initial, reply.filtered));
    var capacity := Capacity(tank);
    TankView(tank, if Positive(current) then "active" else "empty", capacity, current, initial, reply.filtered,
             Mul(Div(current, Fin(capacity as real)), Fin(100.0)),
             Some(NumOr(reply.temperature, 10.0)), NumOr(reply.pressure, 0.0), Some(beerType),
             |reply.batches|, Some(Label(nums)),
             if dates == [] then None else Some(DayFirst(Greatest(dates))), nums)
  }

  /** `getTankStatus` on the server's reply. */
  function ViewOf(tank: int, reply: Reply): TankView
    requires ValidTank(tank)
  {
    var bs := reply.batches;
    if bs == [] then EmptyView(tank)
    else ViewFrom(tank, reply, InitialVolume(bs), BatchNumbers(bs), FileDates(bs),
                  Pick(bs[Chosen(bs)], ["beer_type"], "river"))
  }

  /** What one more batch does to each accumulator. */
  lemma Step(bs: seq<Record>, i: nat)
    requires i < |bs|
    ensures InitialVolume(bs[..i + 1]) == Add(InitialVolume(bs[..i]), VolumeOf(bs[i]))
    ensures BatchNumbers(bs[..i + 1]) == BatchNumbers(bs[..i]) + (if NumberOf(bs[i]) != "" then [NumberOf(bs[i])] else [])
    ensures FileDates(bs[..i + 1]) == FileDates(bs[..i]) + (if DatePrefix(FileOf(bs[i])) then [FileOf(bs[i])[..10]] else [])
    ensures i > 0 ==>
      Chosen(bs[..i + 1]) == (if CreatedOf(bs[Chosen(bs[..i])]) == "" || StrLess(CreatedOf(bs[Chosen(bs[..i])]), CreatedOf(bs[i])) then i else Chosen(bs[..i]))
  {
    var pre := bs[..i + 1];
    assert pre[..i] == bs[..i] && pre[i] == bs[i];
    if i > 0 {
      assert pre[Chosen(bs[..i])] == bs[Chosen(bs[..i])];
    }
  }

  /** `getTankStatus`: one pass over the batches updating the accumulators. */
  method TankStatus(tank: int, reply: Reply) returns (view: TankView)
    requires ValidTank(tank)
    ensures view == ViewOf(tank, reply)
  {
    var bs := reply.batches;
    if |bs| == 0 {
      return EmptyView(tank);
    }
    var total := Fin(0.0);
    var nums: seq<string> := [];
    var dates: seq<string> := [];
    var latestCreatedAt := "";  // `null` and `''` alike: both are replaced by the next batch
    var beerType := "river";
    ghost var k := 0;
    for i := 0 to |bs|
      invariant total == InitialVolume(bs[..i]) && nums == BatchNumbers(bs[..i]) && dates == FileDates(bs[..i])
      invariant i > 0 ==> k == Chosen(bs[..i]) && latestCreatedAt == CreatedOf(bs[k]) && beerType == Pick(bs[k], ["beer_type"], "river")
      invariant i == 0 ==> latestCreatedAt == ""
    {
      var b := bs[i];
      Step(bs, i);
      total := Add(total, VolumeOf(b));
      var number := NumberOf(b);
      if number != "" {
        nums := nums + [number];
      }
      var file := FileOf(b);
      if DatePrefix(file) {
        dates := dates + [file[..10]];
      }
      var createdAt := CreatedOf(b);
      if latestCreatedAt == "" || StrLess(latestCreatedAt, createdAt) {
        latestCreatedAt := createdAt;
        beerType := Pick(b, ["beer_type"], "river");
        k := i;
      }
    }
    assert bs[..|bs|] == bs;
    view := ViewFrom(tank, reply, total, nums, dates, beerType);
  }

  // ---------------------------------------------------------------------
  // What the entry says

  /** A tank without active batches is empty and holds nothing. */
  lemma EmptyTank(tank: int, reply: Reply)
    requires ValidTank(tank) && reply.batches == []
    ensures var v := ViewOf(tank, reply);
      v.status == "empty" && v.currentVolume == Fin(0.0) && v.batchCount == 0 && v.beerType.None?
  {
  }

  /**
    * The current volume is the initial volume less the filtered one, never
    * below zero; the tank is `active` exactly when something is left.
    */
  lemma VolumeRules(tank: int, reply: Reply)
    requires ValidTank(tank) && reply.batches != []
    ensures var v := ViewOf(tank, reply);
      v.initialVolume == InitialVolume(reply.batches) && v.batchCount == |reply.batches| &&
      (v.currentVolume == NaN || !Less(v.currentVolume, Fin(0.0))) &&
      (v.status == "active" <==> Positive(v.currentVolume))
    ensures var v := ViewOf(tank, reply);
      v.initialVolume.Fin? && reply.filtered.Fin? ==>
        var left := v.initialVolume.r - reply.filtered.r;
        v.currentVolume == Fin(if left > 0.0 then left else 0.0) && (v.status == "active" <==> left > 0.0)
  {
    var bs := reply.batches;
    var v := ViewOf(tank, reply);
    var current := Max(Fin(0.0), Sub(InitialVolume(bs), reply.filtered));
    assert v.currentVolume == current && v.initialVolume == InitialVolume(bs);
    assert v.status == if Positive(current) then "active" else "empty";
    Remaining(InitialVolume(bs), reply.filtered);
  }

  /** `Math.max(0, initial - filtered)`. */
  lemma Remaining(initial: Num, filtered: Num)
    ensures var current := Max(Fin(0.0), Sub(initial, filtered));
      (current == NaN || !Less(current, Fin(0.0))) &&
      (initial.Fin? && filtered.Fin? ==>
        var left := initial.r - filtered.r;
        current == Fin(if left > 0.0 then left else 0.0) && (Positive(current) <==> left > 0.0))
  {
    MaxZeroNotNegative(Sub(initial, filtered));
  }

  /** The beer type is that of the batch created last (the first of them, or the last batch if no time is known). */
  lemma BeerTypeOfLatest(tank: int, reply: Reply)
    requires ValidTank(tank) && reply.batches != []
    ensures var bs := reply.batches;
      var k := Chosen(bs);
      ViewOf(tank, reply).beerType == Some(Pick(bs[k], ["beer_type"], "river")) &&
      (forall j :: 0 <= j < |bs| ==> StrLessEq(CreatedOf(bs[j]), CreatedOf(bs[k]))) &&
      (CreatedOf(bs[k]) != "" ==> forall j :: 0 <= j < k ==> StrLess(CreatedOf(bs[j]), CreatedOf(bs[k])))
  {
    ChosenIsLatest(reply.batches);
  }

  /** No date is collected exactly when no file name begins with a date. */
  lemma NoDates(bs: seq<Record>)
    ensures FileDates(bs) == [] <==> forall b :: b in bs ==> !DatePrefix(FileOf(b))
  {
    if FileDates(bs) != [] {
      assert FileDates(bs)[0] in FileDates(bs);
    }
  }

  /**
    * The date shown is the greatest date that begins a batch's file name,
    * day first; there is none exactly when no file name begins with a date.
    */
  lemma DateRule(tank: int, reply: Reply)
    requires ValidTank(tank) && reply.batches != []
    ensures var v := ViewOf(tank, reply);
      (v.lastFillDate.None? <==> forall b :: b in reply.batches ==> !DatePrefix(FileOf(b))) &&
      (v.lastFillDate.Some? ==> exists d :: d in FileDates(reply.batches) && v.lastFillDate.value == DayFirst(d) &&
                                  forall e :: e in FileDates(reply.batches) ==> StrLessEq(e, d))
  {
    var dates := FileDates(reply.batches);
    var v := ViewOf(tank, reply);
    assert v.lastFillDate == if dates == [] then None else Some(DayFirst(Greatest(dates)));
    NoDates(reply.batches);
    if dates != [] {
      var d := Greatest(dates);
      assert d in dates && v.lastFillDate.value == DayFirst(d);
    }
  }

  /** The label names every non-empty batch number, or says `#Unknown`. */
  lemma LabelRule(tank: int, reply: Reply)
    requires ValidTank(tank) && reply.batches != []
    ensures var v := ViewOf(tank, reply);
      var nums := BatchNumbers(reply.batches);
      v.allBatches == nums &&
      ((forall b :: b in reply.batches ==> NumberOf(b) == "") ==> v.latestBatch == Some("#Unknown")) &&
      (nums != [] ==> v.latestBatch == Some(Join(Hashed(nums), ", ")) && StartsWith(v.latestBatch.value, "#" + nums[0]))
  {
    var nums := BatchNumbers(reply.batches);
    if nums != [] {
      assert nums[0] in nums;
    }
  }

  // ---------------------------------------------------------------------
  // All tanks

  /**
    * The entries of tanks 1 to `n`. `None` stands for a tank whose
    * `getTankStatus` threw and answered with its error entry; the helpers
    * that query the server catch their own failures and reply with their
    * defaults, which is a `Some` reply.
    */
  function Views(replies: seq<Option<Reply>>, n: nat): (r: seq<TankView>)
    requires n <= |replies| <= 17
    ensures |r| == n && forall j :: 0 <= j < n ==> r[j].tankNumber == j + 1
  {
    if n == 0 then []
    else
      Views(replies, n - 1) + [match replies[n - 1] case None => ErrorView(n) case Some(reply) => ViewOf(n, reply)]
  }

  /** Entry `j` is tank `j + 1`'s: the error entry when its status computation threw, else its view. */
  lemma {:induction false} ViewsAt(replies: seq<Option<Reply>>, n: nat, j: nat)
    requires j < n <= |replies| <= 17
    ensures replies[j].None? ==> Views(replies, n)[j] == ErrorView(j + 1)
    ensures replies[j].Some? ==> Views(replies, n)[j] == ViewOf(j + 1, replies[j].value)
  {
    var init := Views(replies, n - 1);
    var last := match replies[n - 1] case None => ErrorView(n) case Some(reply) => ViewOf(n, reply);
    assert Views(replies, n) == init + [last];
    if j < n - 1 {
      ViewsAt(replies, n - 1, j);
      assert (init + [last])[j] == init[j];
    }
  }

  function ByTank(v: TankView): int {
    v.tankNumber
  }

  /** `getAllTanksStatus`: the 17 entries in tank order. */
  method AllTanksStatus(replies: seq<Option<Reply>>) returns (tanks: seq<TankView>)
    requires |replies| == 17
    ensures tanks == Views(replies, 17)
  {
    var found: seq<TankView> := [];
    for i := 0 to 17
      invariant found == Views(replies, i)
    {
      match replies[i]
      case None =>
        found := found + [ErrorView(i + 1)];
      case Some(reply) =>
        var view := TankStatus(i + 1, reply);
        found := found + [view];
    }
    SortBySorted(found, ByTank);
    tanks := SortBy(found, ByTank);
  }
}
