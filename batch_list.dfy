/**
  * The all-batches list: one item per JSON file of a folder, with batch,
  * tank, date, operator, time and type taken from the record and, where the
  * record lacks them, from the file name; unreadable files get an error item.
  */
module BatchList {
  import opened Js
  import opened FileNames
  import opened BeerTypes
  import opened BatchFiles

  datatype Item = Item(file: string, data: Option<Record>, meSo: string, ngay: string, tankSo: string,
                       nhanVien: string, createdAt: string, beerType: string, isComplete: bool, caption: string)

  /** Both `field_002` and `field_003` are filled in. */
  predicate IsComplete(data: Record) {
    Truthy(data, "field_002") && Truthy(data, "field_003")
  }

  /** The item of a readable file; `today` is the clock's date. */
  function ItemOf(file: string, data: Record, today: string): (item: Item)
    ensures item.file == file && item.data == Some(data)
    ensures item.isComplete <==> Truthy(data, "field_002") && Truthy(data, "field_003")
    ensures item.meSo == Pick(data, ["field_002", "me_so"], ParseMe(file))
    ensures item.tankSo == Pick(data, ["field_003", "tank_so"], ParseTank(file))
    ensures item.ngay == Pick(data, ["field_001", "ngay_nau"], ParseDate(file))
    ensures item.createdAt == Pick(data, ["created_at"], ListTime(file, today))
    ensures item.beerType == Pick(data, ["beer_type"], ListDetect(data, file))
  {
    var meSo := Pick(data, ["field_002", "me_so"], ParseMe(file));
    var tankSo := Pick(data, ["field_003", "tank_so"], ParseTank(file));
    var ngay := Pick(data, ["field_001", "ngay_nau"], ParseDate(file));
    var beerType := Pick(data, ["beer_type"], ListDetect(data, file));
    Item(file, Some(data), meSo, ngay, tankSo, Pick(data, ["field_004", "nhan_vien"], ""),
         Pick(data, ["created_at"], ListTime(file, today)), beerType, IsComplete(data),
         Icon(beerType) + " Mẻ " + meSo + " - Tank " + tankSo + " - " + ngay)
  }

  /** The item of a file that cannot be read or parsed. */
  function ErrorItem(file: string): (item: Item)
    ensures item.data.None? && !item.isComplete && item.createdAt == ""
  {
    Item(file, None, "???", "Lỗi file", "", "", "", "unknown", false, "❌ " + file + " (Lỗi)")
  }

  /** The items of a folder's JSON files, in folder order. */
  function Items(files: seq<Entry>, today: string): (r: seq<Item>)
    ensures |r| == CountJson(files)
  {
    if files == [] then []
    else
      var init := Items(files[..|files| - 1], today);
      var e := files[|files| - 1];
      if !IsJson(e.name) then init
      else match e.content
        case None => init + [ErrorItem(e.name)]
        case Some(data) => init + [ItemOf(e.name, data, today)]
  }

  /** The loop of `loadAllFiles`, before its sort. */
  method LoadAllFiles(files: seq<Entry>, today: string) returns (result: seq<Item>)
    ensures result == Items(files, today)
    ensures |result| == CountJson(files)
  {
    result := [];
    for i := 0 to |files|
      invariant result == Items(files[..i], today)
    {
      assert files[..i + 1][..i] == files[..i];
      var e := files[i];
      if IsJson(e.name) {
        match e.content
        case None =>
          result := result + [ErrorItem(e.name)];
        case Some(data) =>
          result := result + [ItemOf(e.name, data, today)];
      }
    }
    assert files[..|files|] == files;
  }

  /**
    * A River file whose record has lost its batch, tank and date still shows
    * them, read back from its name.
    */
  lemma ItemFallsBackToName(saved: Record, tab: nat, now: Moment, data: Record, today: string)
    requires ValidMoment(now) && 1000 <= now.year < 10000
    requires IsDigits(Pick(saved, ["field_002", "me_so"], NatToString(tab)))
    requires IsDigits(Pick(saved, ["field_003", "tank_so"], "00"))
    requires !Truthy(data, "field_002") && !Truthy(data, "me_so") && !Truthy(data, "field_003")
    requires !Truthy(data, "tank_so") && !Truthy(data, "field_001") && !Truthy(data, "ngay_nau")
    ensures var item := ItemOf(RiverFileName(saved, tab, now), data, today);
      item.meSo == Padded(Pick(saved, ["field_002", "me_so"], NatToString(tab))) &&
      item.tankSo == Padded(Pick(saved, ["field_003", "tank_so"], "00")) &&
      item.ngay == Pad2(now.day) + "/" + Pad2(now.month) + "/" + NatToString(now.year) &&
      !item.isComplete
  {
    var file := RiverFileName(saved, tab, now);
    RiverFileNameReadBack(saved, tab, now, today, "");
    PickNeither(data, "field_002", "me_so", ParseMe(file));
    PickNeither(data, "field_003", "tank_so", ParseTank(file));
    PickNeither(data, "field_001", "ngay_nau", ParseDate(file));
  }
}
