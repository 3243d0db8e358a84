/**
  * The fermentation-log screen's batch list for one tank: it is filled from
  * the tank's active batches, and a batch number typed by the operator is
  * appended once, with its details, when an active batch or a stored batch
  * file carries that number.
  */
module LenMen {
  import opened Js
  import opened JsNum
  import opened BatchFiles

  /** What the screen records of a batch: tank, final Plato, volume and operator. */
  datatype MeInfo = MeInfo(tank: string, plato: string, volume: Num, operator: string)

  /**
    * An active batch as the server sends it: its flat fields (`field_002`,
    * `me_so`, `batchNumber`, `tankNumber`, ...), its nested `data` and its
    * numeric `volume`.
    */
  datatype ActiveBatch = ActiveBatch(fields: Record, data: Record, volume: Num)

  /** `b.field_002 || b.me_so`, empty when neither is set. */
  function NumberOf(rec: Record): string {
    Pick(rec, ["field_002", "me_so"], "")
  }

  /** The details kept of a batch record; the tank falls back to the screen's own. */
  function InfoFromRecord(rec: Record, tankNumber: string): MeInfo {
    MeInfo(Pick(rec, ["field_003", "tank_so"], tankNumber), Pick(rec, ["field_020"], "12"),
           ParseFloat(Pick(rec, ["field_025", "the_tich_dau"], "0")), Pick(rec, ["field_004", "nhan_vien"], "Unknown"))
  }

  /** The details kept of an active batch found by its `batchNumber`. */
  function InfoFromActive(b: ActiveBatch): MeInfo {
    MeInfo(Get(b.fields, "tankNumber"), Pick(b.data, ["field_020"], "12"), OrZero(b.volume),
           Pick(b.data, ["field_004", "nhan_vien"], "Unknown"))
  }

  /** `batches.map(b => b.field_002 || b.me_so).filter(Boolean)`. */
  function MeNumbers(bs: seq<ActiveBatch>): seq<string> {
    if bs == [] then []
    else
      var m := NumberOf(bs[|bs| - 1].fields);
      MeNumbers(bs[..|bs| - 1]) + (if m != "" then [m] else [])
  }

  /** The `forEach` that fills `meInfoMap`: a later batch with the same number overwrites. */
  function InfoMap(bs: seq<ActiveBatch>, tankNumber: string): map<string, MeInfo> {
    if bs == [] then map[]
    else
      var b := bs[|bs| - 1];
      var m := NumberOf(b.fields);
      var init := InfoMap(bs[..|bs| - 1], tankNumber);
      if m != "" then init[m := InfoFromRecord(b.fields, tankNumber)] else init
  }

  /** The last batch carrying number `m`. */
  function LastWithNumber(bs: seq<ActiveBatch>, m: string): (r: Option<ActiveBatch>)
    ensures r.Some? ==> r.value in bs && NumberOf(r.value.fields) == m
    ensures r.None? ==> forall b :: b in bs ==> NumberOf(b.fields) != m
  {
    if bs == [] then None
    else if NumberOf(bs[|bs| - 1].fields) == m then Some(bs[|bs| - 1])
    else LastWithNumber(bs[..|bs| - 1], m)
  }

  /** The batch found is the last one carrying the number: batch `i` when no later batch carries it. */
  lemma {:induction false} LastWithNumberIsLast(bs: seq<ActiveBatch>, m: string, i: nat)
    requires i < |bs| && NumberOf(bs[i].fields) == m
    requires forall k :: i < k < |bs| ==> NumberOf(bs[k].fields) != m
    ensures LastWithNumber(bs, m) == Some(bs[i])
  {
    if i < |bs| - 1 {
      LastWithNumberSkips(bs, m, i);
      LastWithNumberIsLast(bs[..|bs| - 1], m, i);
    }
  }

  /** Past a last batch without the number, the search goes on in the others. */
  lemma LastWithNumberSkips(bs: seq<ActiveBatch>, m: string, i: nat)
    requires i < |bs| - 1 && NumberOf(bs[i].fields) == m
    requires forall k :: i < k < |bs| ==> NumberOf(bs[k].fields) != m
    ensures LastWithNumber(bs, m) == LastWithNumber(bs[..|bs| - 1], m)
    ensures var init := bs[..|bs| - 1];
      NumberOf(init[i].fields) == m && forall k :: i < k < |init| ==> NumberOf(init[k].fields) != m
  {
    assert NumberOf(bs[|bs| - 1].fields) != m;
  }

  /** The list holds exactly the non-empty numbers of the batches. */
  lemma {:induction false} MeNumbersRule(bs: seq<ActiveBatch>, m: string)
    ensures m in MeNumbers(bs) <==> m != "" && LastWithNumber(bs, m).Some?
  {
    if bs != [] {
      MeNumbersRule(bs[..|bs| - 1], m);
    }
  }

  /**
    * A number has details exactly when some batch carries it, and they are
    * those of the last batch with that number.
    */
  lemma {:induction false} InfoMapRule(bs: seq<ActiveBatch>, tankNumber: string, m: string)
    ensures m in InfoMap(bs, tankNumber) ==> m != "" && LastWithNumber(bs, m).Some?
    ensures m != "" && LastWithNumber(bs, m).Some? ==>
              m in InfoMap(bs, tankNumber) && InfoMap(bs, tankNumber)[m] == InfoFromRecord(LastWithNumber(bs, m).value.fields, tankNumber)
  {
    if bs != [] {
      var init := bs[..|bs| - 1];
      var b := bs[|bs| - 1];
      var n := NumberOf(b.fields);
      InfoMapRule(init, tankNumber, m);
      if n == m {
        assert LastWithNumber(bs, m) == Some(b);
      } else {
        assert LastWithNumber(bs, m) == LastWithNumber(init, m);
        assert m in InfoMap(bs, tankNumber) <==> m in InfoMap(init, tankNumber);
      }
    }
  }

  /** `activeBatches.find(b => b.batchNumber === me)`. */
  function FindActive(bs: seq<ActiveBatch>, me: string): (r: Option<ActiveBatch>)
    ensures r.Some? ==> r.value in bs && Get(r.value.fields, "batchNumber") == me
    ensures r.None? ==> forall b :: b in bs ==> Get(b.fields, "batchNumber") != me
    ensures r.Some? ==> exists i :: 0 <= i < |bs| && bs[i] == r.value && forall j :: 0 <= j < i ==> Get(bs[j].fields, "batchNumber") != me
  {
    if bs == [] then None
    else if Get(bs[0].fields, "batchNumber") == me then Some(bs[0])
    else
      var r := FindActive(bs[1..], me);
      assert forall b :: b in bs[1..] ==> b in bs;
      if r.Some? then
        var i :| 0 <= i < |bs[1..]| && bs[1..][i] == r.value && forall j :: 0 <= j < i ==> Get(bs[1..][j].fields, "batchNumber") != me;
        assert bs[i + 1] == r.value;
        assert forall j :: 1 <= j < i + 1 ==> bs[j] == bs[1..][j - 1];
        r
      else r
  }

  /** The outcome of the search through the stored batch files. */
  datatype Search = Found(data: Record) | Missing | Broken

  /**
    * The fallback scan over the stored files: the first `.json` file whose
    * batch number is `me`; a `.json` file that cannot be parsed before it
    * ends the scan with an error.
    */
  function FirstMatch(files: seq<Entry>, me: string): Search {
    if files == [] then Missing
    else if !IsJson(files[0].name) then FirstMatch(files[1..], me)
    else match files[0].content
      case None => Broken
      case Some(d) => if NumberOf(d) == me then Found(d) else FirstMatch(files[1..], me)
  }

  /** File `i` is passed over: not a `.json` file, or a readable one of another batch. */
  predicate PassedOver(files: seq<Entry>, i: int, me: string)
    requires 0 <= i < |files|
  {
    !IsJson(files[i].name) || (files[i].content.Some? && NumberOf(files[i].content.value) != me)
  }

  /**
    * The scan finds a batch exactly at the first `.json` file that is not
    * passed over and is readable; it finds nothing exactly when every file
    * is passed over.
    */
  lemma {:induction false} FirstMatchRule(files: seq<Entry>, me: string)
    ensures FirstMatch(files, me).Found? ==>
              exists i :: (0 <= i < |files| && IsJson(files[i].name) &&
                           files[i].content == Some(FirstMatch(files, me).data) && NumberOf(FirstMatch(files, me).data) == me &&
                           forall j :: 0 <= j < i ==> PassedOver(files, j, me))
    ensures FirstMatch(files, me).Missing? <==> forall i :: 0 <= i < |files| ==> PassedOver(files, i, me)
    ensures FirstMatch(files, me).Broken? ==>
              exists i :: (0 <= i < |files| && IsJson(files[i].name) && files[i].content.None? &&
                           forall j :: 0 <= j < i ==> PassedOver(files, j, me))
  {
    if files != [] {
      var rest := files[1..];
      FirstMatchRule(rest, me);
      forall j | 0 <= j < |rest| ensures PassedOver(rest, j, me) == PassedOver(files, j + 1, me) {
        assert rest[j] == files[j + 1];
      }
      if PassedOver(files, 0, me) {
        var r := FirstMatch(rest, me);
        assert FirstMatch(files, me) == r;
        if r.Found? || r.Broken? {
          var i :| 0 <= i < |rest| && IsJson(rest[i].name) && (if r.Found? then rest[i].content == Some(r.data) else rest[i].content.None?) &&
                   forall j :: 0 <= j < i ==> PassedOver(rest, j, me);
          assert files[i + 1] == rest[i];
          forall j | 0 <= j < i + 1 ensures PassedOver(files, j, me) {
            if j > 0 {
              assert PassedOver(rest, j - 1, me);
            }
          }
        }
        if r.Missing? {
          forall i | 0 <= i < |files| ensures PassedOver(files, i, me) {
            if i > 0 {
              assert PassedOver(rest, i - 1, me);
            }
          }
        }
      }
    }
  }

  /** The loop of the fallback scan, with its `break`. */
  method SearchFiles(files: seq<Entry>, me: string) returns (r: Search)
    ensures r == FirstMatch(files, me)
  {
    for i := 0 to |files|
      invariant FirstMatch(files, me) == FirstMatch(files[i..], me)
    {
      assert files[i..][1..] == files[i + 1..];
      var file := files[i];
      if IsJson(file.name) {
        match file.content {
          case None =>
            return Broken;
          case Some(d) =>
            if NumberOf(d) == me {
              return Found(d);
            }
        }
      }
    }
    r := Missing;
  }

  /** No number appears twice. */
  predicate NoDuplicates(s: seq<string>) {
    forall i, j :: 0 <= i < j < |s| ==> s[i] != s[j]
  }

  /** What adding a number did. */
  datatype AddOutcome = Blank | Duplicate | FromActive | FromFile | NotFound | SearchFailed

  predicate Added(o: AddOutcome) {
    o == FromActive || o == FromFile
  }

  /** The screen's state for tank `tankNumber`. */
  class Screen {
    const tankNumber: string
    var meSoList: seq<string>
    var meInfo: map<string, MeInfo>
    var currentMe: string
    var activeBatches: seq<ActiveBatch>

    /** Every listed number has its details. */
    ghost predicate Valid()
      reads this
    {
      forall m :: m in meSoList ==> m in meInfo
    }

    constructor (tankNumber: string)
      ensures Valid()
      ensures this.tankNumber == tankNumber && meSoList == [] && meInfo == map[] && currentMe == "" && activeBatches == []
    {
      this.tankNumber := tankNumber;
      meSoList := [];
      meInfo := map[];
      currentMe := "";
      activeBatches := [];
    }

    /** `onChangeText`: the text being typed. */
    method SetCurrentMe(text: string)
      modifies this
      ensures currentMe == text
      ensures meSoList == old(meSoList) && meInfo == old(meInfo) && activeBatches == old(activeBatches)
    {
      currentMe := text;
    }

    /**
      * `loadActiveBatches`: `reply` is the server's `result.batches || []`,
      * or `None` when the request fails. A non-empty reply replaces the list
      * and the details; an empty one leaves them.
      */
    method LoadActiveBatches(reply: Option<seq<ActiveBatch>>)
      modifies this
      ensures old(Valid()) ==> Valid()
      ensures currentMe == old(currentMe)
      ensures activeBatches == (if reply.Some? then reply.value else [])
      ensures reply.Some? && reply.value != [] ==> meSoList == MeNumbers(reply.value) && meInfo == InfoMap(reply.value, tankNumber)
      ensures reply.None? || reply.value == [] ==> meSoList == old(meSoList) && meInfo == old(meInfo)
    {
      if reply.None? {
        activeBatches := [];
        return;
      }
      var batches := reply.value;
      activeBatches := batches;
      if |batches| > 0 {
        var numbers := CollectNumbers(batches);
        var infoMap := CollectInfo(batches);
        meSoList := numbers;
        meInfo := infoMap;
        forall m | m in meSoList ensures m in meInfo {
          MeNumbersRule(batches, m);
          InfoMapRule(batches, tankNumber, m);
        }
      }
    }

    /** `batches.map(...).filter(Boolean)`. */
    method CollectNumbers(batches: seq<ActiveBatch>) returns (numbers: seq<string>)
      ensures numbers == MeNumbers(batches)
    {
      numbers := [];
      for i := 0 to |batches|
        invariant numbers == MeNumbers(batches[..i])
      {
        assert batches[..i + 1][..i] == batches[..i];
        var m := NumberOf(batches[i].fields);
        if m != "" {
          numbers := numbers + [m];
        }
      }
      assert batches[..|batches|] == batches;
    }

    /** The `forEach` that fills `meInfoMap`. */
    method CollectInfo(batches: seq<ActiveBatch>) returns (infoMap: map<string, MeInfo>)
      ensures infoMap == InfoMap(batches, tankNumber)
    {
      infoMap := map[];
      for i := 0 to |batches|
        invariant infoMap == InfoMap(batches[..i], tankNumber)
      {
        assert batches[..i + 1][..i] == batches[..i];
        var m := NumberOf(batches[i].fields);
        if m != "" {
          infoMap := infoMap[m := InfoFromRecord(batches[i].fields, tankNumber)];
        }
      }
      assert batches[..|batches|] == batches;
    }

    /**
      * `handleAddMe`: the trimmed text is ignored when empty and rejected
      * when already listed; otherwise it is looked up among the active
      * batches, then through the stored files (`None` when the folder cannot
      * be read), and appended with its details when found.
      */
    method AddMe(files: Option<seq<Entry>>) returns (outcome: AddOutcome)
      modifies this
      ensures old(Valid()) ==> Valid()
      ensures NoDuplicates(old(meSoList)) ==> NoDuplicates(meSoList)
      ensures activeBatches == old(activeBatches)
      ensures Trim(old(currentMe)) == "" <==> outcome == Blank
      ensures outcome == Duplicate <==> Trim(old(currentMe)) != "" && Trim(old(currentMe)) in old(meSoList)
      ensures outcome == FromActive <==>
                Trim(old(currentMe)) != "" && Trim(old(currentMe)) !in old(meSoList) && FindActive(old(activeBatches), Trim(old(currentMe))).Some?
      ensures outcome == FromActive ==> meInfo == old(meInfo)[Trim(old(currentMe)) := InfoFromActive(FindActive(old(activeBatches), Trim(old(currentMe))).value)]
      ensures outcome == FromFile ==>
                files.Some? && FirstMatch(files.value, Trim(old(currentMe))).Found? &&
                meInfo == old(meInfo)[Trim(old(currentMe)) := InfoFromRecord(FirstMatch(files.value, Trim(old(currentMe))).data, tankNumber)]
      ensures outcome == NotFound ==> files.Some? && FirstMatch(files.value, Trim(old(currentMe))).Missing?
      ensures outcome == SearchFailed ==> files.None? || FirstMatch(files.value, Trim(old(currentMe))).Broken?
      ensures Added(outcome) ==> meSoList == old(meSoList) + [Trim(old(currentMe))] && currentMe == ""
      ensures !Added(outcome) ==> meSoList == old(meSoList) && meInfo == old(meInfo) && currentMe == old(currentMe)
    {
      var me := Trim(currentMe);
      if me == "" {
        return Blank;
      }
      if me in meSoList {
        return Duplicate;
      }
      var found := FindActive(activeBatches, me);
      if found.Some? {
        Append(me, InfoFromActive(found.value));
        return FromActive;
      }
      if files.None? {
        return SearchFailed;
      }
      var search := SearchFiles(files.value, me);
      match search {
        case Found(d) =>
          Append(me, InfoFromRecord(d, tankNumber));
          outcome := FromFile;
        case Missing =>
          outcome := NotFound;
        case Broken =>
          outcome := SearchFailed;
      }
    }
 
    /** `setMeSoList(prev => [...prev, me])`, the details recorded and the input cleared. */
    method Append(me: string, info: MeInfo)
      requires me !in meSoList
      modifies this
      ensures old(Valid()) ==> Valid()
      ensures NoDuplicates(old(meSoList)) ==> NoDuplicates(meSoList)
      ensures meSoList == old(meSoList) + [me] && meInfo == old(meInfo)[me := info] && currentMe == ""
      ensures activeBatches == old(activeBatches)
    {
      meSoList := meSoList + [me];
      meInfo := meInfo[me := info];
      currentMe := "";
    }
  }
}
