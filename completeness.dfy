/**
  * The list of incomplete batches: each JSON file is checked against the
  * required fields; a field is missing when its key is absent and empty
  * when present but blank. Incomplete and unreadable files are listed,
  * fewest gaps first with unreadable files last, with a progress figure
  * and a short description of what is missing.
  */
module Completeness {
  import opened Js
  import opened Sorting
  import opened BatchFiles

  const RequiredFields: seq<string> := ["field_002", "field_003", "field_005", "field_007", "field_008", "field_010", "field_011", "field_013"]

  /** The `totalMissing` of a file that cannot be read or parsed. */
  const Unreadable: nat := 999

  /** The fields among `fields` whose key is absent, in order. */
  function MissingOf(fields: seq<string>, data: Record): (r: seq<string>)
    ensures |r| <= |fields|
    ensures forall k :: k in r <==> k in fields && k !in data
  {
    if fields == [] then []
    else
      var init := MissingOf(fields[..|fields| - 1], data);
      var k := fields[|fields| - 1];
      assert fields == fields[..|fields| - 1] + [k];
      if k !in data then init + [k] else init
  }

  /** The fields among `fields` present but blank, in order. */
  function EmptyOf(fields: seq<string>, data: Record): (r: seq<string>)
    ensures |r| <= |fields|
    ensures forall k :: k in r <==> k in fields && k in data && data[k] == ""
  {
    if fields == [] then []
    else
      var init := EmptyOf(fields[..|fields| - 1], data);
      var k := fields[|fields| - 1];
      assert fields == fields[..|fields| - 1] + [k];
      if k in data && data[k] == "" then init + [k] else init
  }

  /** Each field is counted at most once, in one list or the other. */
  lemma {:induction false} GapsBounded(fields: seq<string>, data: Record)
    ensures |MissingOf(fields, data)| + |EmptyOf(fields, data)| <= |fields|
  {
    if fields != [] {
      GapsBounded(fields[..|fields| - 1], data);
    }
  }

  /** The two lists never share a field and together hold exactly the fields not filled in. */
  lemma GapsPartition(fields: seq<string>, data: Record)
    ensures forall k :: !(k in MissingOf(fields, data) && k in EmptyOf(fields, data))
    ensures forall k :: k in MissingOf(fields, data) || k in EmptyOf(fields, data) <==> k in fields && !Truthy(data, k)
  {
  }

  /**
    * The `forEach` over the required fields (`RequiredFields` in the
    * screen): the missing and the empty ones, which never share a field and
    * together are exactly those not filled in.
    */
  method Classify(fields: seq<string>, data: Record) returns (missing: seq<string>, empty: seq<string>)
    ensures missing == MissingOf(fields, data) && empty == EmptyOf(fields, data)
    ensures forall k :: !(k in missing && k in empty)
    ensures forall k :: k in missing || k in empty <==> k in fields && !Truthy(data, k)
    ensures |missing| + |empty| <= |fields|
  {
    missing, empty := [], [];
    for i := 0 to |fields|
      invariant missing == MissingOf(fields[..i], data) && empty == EmptyOf(fields[..i], data)
    {
      assert fields[..i + 1][..i] == fields[..i];
      var k := fields[i];
      if k !in data {
        missing := missing + [k];
      } else if data[k] == "" {
        empty := empty + [k];
      }
    }
    assert fields[..|fields|] == fields;
    GapsBounded(fields, data);
    GapsPartition(fields, data);
  }

  datatype Item = Item(file: string, data: Option<Record>, meSo: string, ngay: string, tankSo: string,
                       nhanVien: string, createdAt: string, missingFields: seq<string>, emptyFields: seq<string>,
                       totalMissing: nat, caption: string)

  /** The item listed for a readable record with gaps. */
  function GapItem(file: string, data: Record, missing: seq<string>, empty: seq<string>): (it: Item)
    ensures it.file == file && it.data == Some(data) && it.totalMissing == |missing| + |empty|
    ensures it.missingFields == missing && it.emptyFields == empty
    ensures it.meSo == Pick(data, ["field_002", "me_so"], "???")
    ensures it.ngay == Pick(data, ["field_001", "ngay_nau"], "Không rõ ngày")
  {
    var meSo := Pick(data, ["field_002", "me_so"], "???");
    var ngay := Pick(data, ["field_001", "ngay_nau"], "Không rõ ngày");
    var tankSo := Pick(data, ["field_003", "tank_so"], "");
    Item(file, Some(data), meSo, ngay, tankSo, Pick(data, ["field_004", "nhan_vien"], ""),
         Pick(data, ["created_at"], ""), missing, empty, |missing| + |empty|,
         "Mẻ " + meSo + " - Tank " + tankSo + " - " + ngay)
  }

  /** The item listed for a file that cannot be read or parsed. */
  function ErrorItem(file: string): (it: Item)
    ensures it.file == file && it.data.None? && it.totalMissing == Unreadable && it.meSo == "???"
  {
    Item(file, None, "???", "Lỗi file", "", "", "", [], [], Unreadable, "❌ " + file + " (Lỗi parse)")
  }

  /** The item listed for a file, or `None` when the file is complete. */
  function Check(e: Entry): (r: Option<Item>)
    ensures e.content.None? ==> r == Some(ErrorItem(e.name))
    ensures e.content.Some? ==>
      var missing, empty := MissingOf(RequiredFields, e.content.value), EmptyOf(RequiredFields, e.content.value);
      r == if missing != [] || empty != [] then Some(GapItem(e.name, e.content.value, missing, empty)) else None
    ensures r.Some? ==> r.value.file == e.name && (r.value.totalMissing <= |RequiredFields| || r.value.totalMissing == Unreadable)
  {
    match e.content
    case None => Some(ErrorItem(e.name))
    case Some(data) =>
      var missing, empty := MissingOf(RequiredFields, data), EmptyOf(RequiredFields, data);
      GapsBounded(RequiredFields, data);
      if missing != [] || empty != [] then Some(GapItem(e.name, data, missing, empty)) else None
  }

  /** A readable file is listed exactly when some required field is not filled in, with one gap counted per such field. */
  lemma CheckListsGaps(e: Entry)
    requires e.content.Some?
    ensures Check(e).Some? <==> exists k :: k in RequiredFields && !Truthy(e.content.value, k)
    ensures Check(e).Some? ==> Check(e).value.totalMissing == |MissingOf(RequiredFields, e.content.value)| + |EmptyOf(RequiredFields, e.content.value)|
  {
    var data := e.content.value;
    var missing, empty := MissingOf(RequiredFields, data), EmptyOf(RequiredFields, data);
    if missing != [] {
      assert missing[0] in missing;
    } else if empty != [] {
      assert empty[0] in empty;
    } else {
      forall k | k in RequiredFields ensures Truthy(data, k) {
        assert k !in missing && k !in empty;
      }
    }
  }

  /** The items of a folder's JSON files, in folder order. */
  function Incomplete(files: seq<Entry>): (r: seq<Item>)
    ensures |r| <= |files|
    ensures forall it :: it in r ==> it.totalMissing <= |RequiredFields| || it.totalMissing == Unreadable
  {
    if files == [] then []
    else
      var init := Incomplete(files[..|files| - 1]);
      var e := files[|files| - 1];
      if IsJson(e.name) && Check(e).Some? then init + [Check(e).value] else init
  }

  /** Fewest gaps first; the sentinel sorts after every real count. */
  function Gaps(it: Item): int {
    it.totalMissing
  }

  /** `loadIncompleteFiles`: the listed items, sorted. */
  method LoadIncompleteFiles(files: seq<Entry>) returns (result: seq<Item>)
    ensures result == SortBy(Incomplete(files), Gaps)
  {
    var found: seq<Item> := [];
    for i := 0 to |files|
      invariant found == Incomplete(files[..i])
    {
      assert files[..i + 1][..i] == files[..i];
      var e := files[i];
      if IsJson(e.name) {
        match e.content
        case None =>
          found := found + [ErrorItem(e.name)];
        case Some(data) =>
          var missing, empty := Classify(RequiredFields, data);
          if |missing| > 0 || |empty| > 0 {
            found := found + [GapItem(e.name, data, missing, empty)];
          }
      }
    }
    assert files[..|files|] == files;
    result := SortBy(found, Gaps);
  }

  /** After the sort, counts ascend and unreadable files come after every readable one. */
  lemma SortedGaps(files: seq<Entry>)
    ensures var r := SortBy(Incomplete(files), Gaps);
      (forall i, j :: 0 <= i < j < |r| ==> r[i].totalMissing <= r[j].totalMissing) &&
      (forall i, j :: 0 <= i < j < |r| && r[i].totalMissing == Unreadable ==> r[j].totalMissing == Unreadable)
  {
    var s := Incomplete(files);
    var r := SortBy(s, Gaps);
    forall i | 0 <= i < |r| ensures r[i].totalMissing <= |RequiredFields| || r[i].totalMissing == Unreadable {
      assert r[i] in multiset(s);
    }
  }

  /** `getProgressPercent`: 0 for an unreadable file, else the share of required fields filled in, rounded. */
  function ProgressPercent(totalMissing: nat): (p: int)
    ensures totalMissing == Unreadable ==> p == 0
    ensures totalMissing != Unreadable && totalMissing <= |RequiredFields| ==> 0 <= p <= 100
    ensures totalMissing == 0 ==> p == 100
    ensures totalMissing != Unreadable ==>
      var exact := (|RequiredFields| - totalMissing) as real * 100.0 / |RequiredFields| as real;
      p as real - 0.5 <= exact < p as real + 0.5
  {
    if totalMissing == Unreadable then 0
    else
      var done := |RequiredFields| - totalMissing;
      ((done as real / |RequiredFields| as real) * 100.0 + 0.5).Floor
  }

  /** Fewer gaps never show less progress. */
  lemma ProgressMonotone(a: nat, b: nat)
    requires a <= b <= |RequiredFields|
    ensures ProgressPercent(b) <= ProgressPercent(a)
  {
  }

  /** `getMissingFieldsText`. */
  function MissingText(it: Item): (s: string)
    ensures it.totalMissing == Unreadable ==> s == "File bị lỗi"
  {
    if it.totalMissing == Unreadable then "File bị lỗi"
    else
      var missing := it.missingFields + it.emptyFields;
      if |missing| <= 3 then "Thiếu: " + Join(missing, ", ")
      else "Thiếu " + NatToString(|missing|) + " thông tin"
  }

  /**
    * An unreadable file is reported as such; up to three gaps are named,
    * each of them occurring in the text; more are only counted, the text
    * holding the decimal digits of their number.
    */
  lemma MissingTextNames(it: Item)
    ensures it.totalMissing == Unreadable ==> MissingText(it) == "File bị lỗi"
    ensures var missing := it.missingFields + it.emptyFields;
      it.totalMissing != Unreadable && |missing| <= 3 ==>
        StartsWith(MissingText(it), "Thiếu: ") && forall g :: g in missing ==> Contains(MissingText(it), g)
    ensures var missing := it.missingFields + it.emptyFields;
      it.totalMissing != Unreadable && |missing| > 3 ==>
        exists d :: IsDigits(d) && DigitsValue(d) == |missing| && MissingText(it) == "Thiếu " + d + " thông tin"
  {
    var missing := it.missingFields + it.emptyFields;
    if it.totalMissing != Unreadable {
      var s := MissingText(it);
      if |missing| <= 3 {
        var prefix := "Thiếu: ";
        assert s == prefix + Join(missing, ", ");
        assert s[..|prefix|] == prefix;
        forall g | g in missing ensures Contains(s, g) {
          var i :| 0 <= i < |missing| && missing[i] == g;
          JoinHasPart(missing, ", ", i);
          var k :| 0 <= k <= |Join(missing, ", ")| && OccursAt(Join(missing, ", "), g, k);
          OccursAfter(prefix, Join(missing, ", "), g, k);
        }
      } else {
        NatToStringRoundTrip(|missing|);
        assert s == "Thiếu " + NatToString(|missing|) + " thông tin";
      }
    }
  }
}
