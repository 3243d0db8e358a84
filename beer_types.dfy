/**
  * The three beer types (`hanoi`, `chaihg`, `river`): how the batch list and
  * the batch viewer tell a batch's type, and the icon, name, display and
  * screen each type maps to. Every mapper lower-cases its argument first.
  */
module BeerTypes {
  import opened Js

  /** The types with their own icon, name and screen. */
  predicate Known(t: string) {
    t == "hanoi" || t == "chaihg" || t == "river"
  }

  /**
    * The file name names the type, ignoring case: `hanoi` wins; otherwise
    * `chai` (and so `chaihg`) names `chaihg`; otherwise nothing.
    */
  function HintOf(file: string): (r: Option<string>)
    ensures r.Some? ==> Known(r.value) && r.value != "river"
    ensures r == Some("hanoi") <==> Contains(ToLower(file), "hanoi")
    ensures r == Some("chaihg") <==> !Contains(ToLower(file), "hanoi") && Contains(ToLower(file), "chai")
    ensures r == None <==> !Contains(ToLower(file), "hanoi") && !Contains(ToLower(file), "chai")
  {
    var lower := ToLower(file);
    ChaiCoversChaihg(lower);
    if Includes(lower, "hanoi") then Some("hanoi")
    else if Includes(lower, "chaihg") || Includes(lower, "chai") then Some("chaihg")
    else None
  }

  /** `chai` inside `chaihg` makes the first test of the `chaihg` hint redundant. */
  lemma ChaiCoversChaihg(s: string)
    ensures Includes(s, "chaihg") ==> Includes(s, "chai")
  {
    if Includes(s, "chaihg") {
      var i :| 0 <= i <= |s| && OccursAt(s, "chaihg", i);
      assert s[i..i + 4] == s[i..i + 6][..4];
      assert OccursAt(s, "chai", i);
    }
  }

  /** The batch list's `detectBeerTypeFromData`: the record's type wins, lower-cased; then the file name; then `river`. */
  function ListDetect(data: Record, file: string): (t: string)
    ensures Truthy(data, "beer_type") ==> t == ToLower(data["beer_type"])
    ensures !Truthy(data, "beer_type") && HintOf(file).Some? ==> t == HintOf(file).value
    ensures !Truthy(data, "beer_type") && HintOf(file).None? ==> t == "river"
  {
    if Truthy(data, "beer_type") then ToLower(data["beer_type"])
    else match HintOf(file)
      case Some(h) => h
      case None => "river"
  }

  /**
    * The viewer's `detectBeerTypeFromData`: the file name wins; then the
    * record's type, lower-cased; then `river`. A missing record is `None`,
    * a missing file name is empty.
    */
  function ViewDetect(data: Option<Record>, file: string): (t: string)
    ensures HintOf(file).Some? ==> t == HintOf(file).value
    ensures HintOf(file).None? && data.Some? && Truthy(data.value, "beer_type") ==> t == ToLower(data.value["beer_type"])
    ensures HintOf(file).None? && !(data.Some? && Truthy(data.value, "beer_type")) ==> t == "river"
  {
    if file != "" && HintOf(file).Some? then HintOf(file).value
    else if data.Some? && Truthy(data.value, "beer_type") then ToLower(data.value["beer_type"])
    else "river"
  }

  /** The two detectors agree unless the record's type and the file name disagree. */
  lemma DetectorsAgree(data: Record, file: string)
    requires !Truthy(data, "beer_type") || HintOf(file).None?
    ensures ListDetect(data, file) == ViewDetect(Some(data), file)
  {
  }

  /** Text without capital letters is its own lower case. */
  lemma LowerUnchanged(s: string)
    requires forall i :: 0 <= i < |s| ==> !('A' <= s[i] <= 'Z')
    ensures ToLower(s) == s
  {
  }

  /** A River record stored under a name mentioning Hanoi: the list says `river`, the viewer `hanoi`. */
  lemma DetectorsDisagree()
    ensures ListDetect(map["beer_type" := "river"], "hanoi.json") == "river"
    ensures ViewDetect(Some(map["beer_type" := "river"]), "hanoi.json") == "hanoi"
  {
    assert "beer_type" in map["beer_type" := "river"];
    LowerRiver();
    HanoiHint();
  }

  lemma LowerRiver()
    ensures ToLower("river") == "river"
  {
    LowerUnchanged("river");
  }

  /** `hanoi.json` names the Hanoi type. */
  lemma HanoiHint()
    ensures HintOf("hanoi.json") == Some("hanoi")
  {
    LowerUnchanged("hanoi.json");
    assert "hanoi.json"[0..5] == "hanoi";
    assert OccursAt("hanoi.json", "hanoi", 0);
  }

  /** Both detectors return lower-case text. */
  lemma DetectLowerCase(data: Record, file: string)
    ensures ToLower(ListDetect(data, file)) == ListDetect(data, file)
    ensures ToLower(ViewDetect(Some(data), file)) == ViewDetect(Some(data), file)
  {
    if Truthy(data, "beer_type") {
      ToLowerIdempotent(data["beer_type"]);
    }
    LowerTypeNames();
  }

  /** The built-in type names are lower-case. */
  lemma LowerTypeNames()
    ensures ToLower("river") == "river" && ToLower("hanoi") == "hanoi" && ToLower("chaihg") == "chaihg"
  {
    LowerRiver();
    LowerUnchanged("hanoi");
    LowerUnchanged("chaihg");
  }

  // ---------------------------------------------------------------------
  // Mappers

  /** The batch list's `getBeerTypeIcon`. */
  function Icon(t: string): string {
    match ToLower(t)
    case "hanoi" => "🏯"
    case "chaihg" => "👑"
    case "river" => "🍺"
    case _ => "❓"
  }

  /** The batch list's `getBeerTypeName`. */
  function Name(t: string): string {
    match ToLower(t)
    case "hanoi" => "Bia Hà Nội"
    case "chaihg" => "Bia Chai Hoàng Gia"
    case "river" => "Bia River"
    case _ => "Không rõ"
  }

  /** `getScreenNameForBeerType`, the same in the list and the viewer. */
  function ScreenFor(t: string): string {
    match ToLower(t)
    case "hanoi" => "HanoiScreen"
    case "chaihg" => "ChaihgScreen"
    case _ => "RiverScreen"
  }

  datatype DisplayInfo = DisplayInfo(name: string, icon: string, color: string, description: string)

  /** The viewer's `getBeerTypeDisplayInfo`: anything else is shown as River. */
  function Display(t: string): DisplayInfo {
    match ToLower(t)
    case "hanoi" => DisplayInfo("Bia Hà Nội", "🏯", "#dc3545", "Bia Hà Nội truyền thống")
    case "chaihg" => DisplayInfo("Bia Chai Hoàng Gia", "👑", "#ffc107", "Bia Chai Hoàng Gia cao cấp")
    case _ => DisplayInfo("Bia River", "🍺", "#007bff", "Bia River thủ công")
  }

  /** Every mapper reads its argument case-insensitively. */
  lemma MappersIgnoreCase(t: string)
    ensures Icon(t) == Icon(ToLower(t)) && Name(t) == Name(ToLower(t))
    ensures ScreenFor(t) == ScreenFor(ToLower(t)) && Display(t) == Display(ToLower(t))
  {
    ToLowerIdempotent(t);
  }

  /** A type has its own icon exactly when it has its own name, and then the viewer shows that name and icon. */
  lemma KnownTypes(t: string)
    ensures Icon(t) != "❓" <==> Known(ToLower(t))
    ensures Name(t) != "Không rõ" <==> Known(ToLower(t))
    ensures Known(ToLower(t)) ==> Display(t).name == Name(t) && Display(t).icon == Icon(t)
    ensures !Known(ToLower(t)) ==> Display(t) == Display("river") && ScreenFor(t) == "RiverScreen"
  {
    KnownIconName(t);
    UnknownShownAsRiver(t);
  }

  lemma KnownIconName(t: string)
    ensures Icon(t) != "❓" <==> Known(ToLower(t))
    ensures Name(t) != "Không rõ" <==> Known(ToLower(t))
    ensures Known(ToLower(t)) ==> Display(t).name == Name(t) && Display(t).icon == Icon(t)
  {
  }

  lemma UnknownShownAsRiver(t: string)
    ensures !Known(ToLower(t)) ==> Display(t) == Display("river") && ScreenFor(t) == "RiverScreen"
  {
    LowerRiver();
  }
}
