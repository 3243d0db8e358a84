/**
  * The batch tabs of the River brewing sheet: a keyed map of batch records
  * with one active tab. New tabs are seeded from the date, the operator and
  * the schema's preset values and then resolved; deleting never removes the
  * last tab; submitting resolves the active batch and reports the first
  * required field left empty.
  */
module BatchTabs {
  import opened Js
  import opened Engine

  const UnknownOperator := "Không rõ"

  /** `{field_001: date, field_004: operator || 'Không rõ', beer_type: 'river'}`. */
  function BaseData(nowDate: string, operator: string): (r: Record)
    ensures r.Keys == {"field_001", "field_004", "beer_type"}
    ensures r["field_001"] == nowDate && r["beer_type"] == "river"
    ensures r["field_004"] == (if operator != "" then operator else UnknownOperator)
  {
    map["field_001" := nowDate, "field_004" := OrElse(operator, UnknownOperator), "beer_type" := "river"]
  }

  /** Each field's non-empty preset `value` written over `data`, in schema order. */
  function WithPresets(data: Record, fields: seq<Field>): Record {
    if fields == [] then data
    else
      var r := WithPresets(data, fields[..|fields| - 1]);
      var f := fields[|fields| - 1];
      if f.value != "" then r[f.id := f.value] else r
  }

  /** Field `i` presets key `k`. */
  predicate Presets(fields: seq<Field>, i: int, k: string)
    requires 0 <= i < |fields|
  {
    fields[i].id == k && fields[i].value != ""
  }

  /** Field `i` is the last field that presets key `k`. */
  predicate LastPreset(fields: seq<Field>, i: int, k: string) {
    0 <= i < |fields| && Presets(fields, i, k) && forall j :: i < j < |fields| ==> !Presets(fields, j, k)
  }

  /** The last field that presets a key decides its value. */
  lemma {:induction false} LastPresetWins(data: Record, fields: seq<Field>, i: int, k: string)
    requires LastPreset(fields, i, k)
    ensures k in WithPresets(data, fields) && WithPresets(data, fields)[k] == fields[i].value
  {
    var init := fields[..|fields| - 1];
    if i < |init| {
      assert !Presets(fields, |fields| - 1, k);
      assert LastPreset(init, i, k) by {
        forall j | i < j < |init| ensures !Presets(init, j, k) {
          assert !Presets(fields, j, k);
        }
      }
      LastPresetWins(data, init, i, k);
    }
  }

  /** A key that no field presets keeps its presence and its value. */
  lemma {:induction false} NoPresetKeeps(data: Record, fields: seq<Field>, k: string)
    requires forall i :: 0 <= i < |fields| ==> !Presets(fields, i, k)
    ensures k in WithPresets(data, fields) <==> k in data
    ensures k in data ==> WithPresets(data, fields)[k] == data[k]
  {
    if fields != [] {
      var init := fields[..|fields| - 1];
      assert !Presets(fields, |fields| - 1, k);
      assert forall i :: 0 <= i < |init| ==> !Presets(init, i, k) by {
        forall i | 0 <= i < |init| ensures !Presets(init, i, k) {
          assert !Presets(fields, i, k);
        }
      }
      NoPresetKeeps(data, init, k);
    }
  }

  /** The record a new tab starts from, before resolving. */
  function InitialData(schema: Schema, nowDate: string, operator: string): Record {
    WithPresets(BaseData(nowDate, operator), schema)
  }

  /**
    * The record loaded in edit mode, before resolving: the stored record with
    * date and operator defaulted and the beer type forced to `river`.
    */
  function EditData(stored: Record, nowDate: string, operator: string): (r: Record)
    ensures r.Keys == stored.Keys + {"field_001", "field_004", "beer_type"}
    ensures r["field_001"] == Pick(stored, ["field_001"], nowDate)
    ensures r["field_004"] == Pick(stored, ["field_004"], OrElse(operator, UnknownOperator))
    ensures r["beer_type"] == "river"
    ensures forall k :: k in stored && k != "field_001" && k != "field_004" && k != "beer_type" ==> r[k] == stored[k]
  {
    stored["field_001" := Pick(stored, ["field_001"], nowDate)]
          ["field_004" := Pick(stored, ["field_004"], OrElse(operator, UnknownOperator))]
          ["beer_type" := "river"]
  }

  /** `schema.find(f => f.required && !rec[f.field_id])`, as an index. */
  function FirstMissing(schema: Schema, rec: Record): (r: Option<nat>)
    ensures r.Some? ==> r.value < |schema| && schema[r.value].required && !Truthy(rec, schema[r.value].id)
    ensures r.Some? ==> forall j :: 0 <= j < r.value ==> !schema[j].required || Truthy(rec, schema[j].id)
    ensures r.None? ==> forall j :: 0 <= j < |schema| ==> !schema[j].required || Truthy(rec, schema[j].id)
  {
    if schema == [] then None
    else if schema[0].required && !Truthy(rec, schema[0].id) then Some(0)
    else
      match FirstMissing(schema[1..], rec)
      case None => None
      case Some(i) => Some(i + 1)
  }

  const SaveKeys: set<string> := {"me_so", "tank_so", "nhan_vien", "ngay_nau", "batch_id", "beer_type", "created_at"}

  /**
    * The record `saveBatch` writes: the batch plus `me_so`, `tank_so`,
    * `nhan_vien`, `ngay_nau`, `batch_id`, `beer_type` and `created_at`.
    * `operator` is `user?.full_name`: `None` when there is no user or the
    * user has no name, which leaves `nhan_vien` out when the record has no
    * operator either, as `JSON.stringify` drops an undefined property; an
    * empty name is kept as an empty `nhan_vien`.
    */
  function SaveData(batch: Record, tab: nat, operator: Option<string>, nowDate: string, createdAt: string): (r: Record)
    ensures SaveKeys - {"nhan_vien"} <= r.Keys
    ensures r["me_so"] == Pick(batch, ["field_002"], IntToString(tab))
    ensures r["tank_so"] == Pick(batch, ["field_003"], "unknown")
    ensures r["ngay_nau"] == Pick(batch, ["field_001"], nowDate)
    ensures r["batch_id"] == IntToString(tab) && r["beer_type"] == "river" && r["created_at"] == createdAt
    ensures "nhan_vien" in r <==> Truthy(batch, "field_004") || operator.Some?
    ensures Truthy(batch, "field_004") ==> r["nhan_vien"] == batch["field_004"]
    ensures !Truthy(batch, "field_004") && operator.Some? ==> r["nhan_vien"] == operator.value
    ensures forall k :: k in batch && k !in SaveKeys ==>
              k in r && r[k] == batch[k]
  {
    var worker: Option<string> := if Truthy(batch, "field_004") then Some(batch["field_004"]) else operator;
    var withWorker := if worker.Some? then batch["nhan_vien" := worker.value] else batch - {"nhan_vien"};
    withWorker["me_so" := Pick(batch, ["field_002"], IntToString(tab))]
              ["tank_so" := Pick(batch, ["field_003"], "unknown")]
              ["ngay_nau" := Pick(batch, ["field_001"], nowDate)]
              ["batch_id" := IntToString(tab)]
              ["beer_type" := "river"]
              ["created_at" := createdAt]
  }

  /** The base record with every non-empty preset of the schema written over it, field by field. */
  method Seed(schema: Schema, nowDate: string, operator: string) returns (data: Record)
    ensures data == InitialData(schema, nowDate, operator)
  {
    data := BaseData(nowDate, operator);
    for i := 0 to |schema|
      invariant data == WithPresets(BaseData(nowDate, operator), schema[..i])
    {
      assert schema[..i + 1][..i] == schema[..i];
      if schema[i].value != "" {
        data := data[schema[i].id := schema[i].value];
      }
    }
    assert schema[..|schema|] == schema;
  }

  /** The tabs: batch id -> record, and the active id. */
  class Tabs {
    var batches: map<nat, Record>
    var active: nat

    /** The active tab exists (so there is always at least one). */
    ghost predicate Valid()
      reads this
    {
      active in batches
    }

    /** Create mode: tab 1 holds the seeded record, resolved, and is active. */
    constructor Create(schema: Schema, nowDate: string, operator: string, show: real -> string)
      ensures Valid()
      ensures batches == map[1 := Resolve(InitialData(schema, nowDate, operator), schema, AppEvaluator(show))]
      ensures active == 1
    {
      var data := Seed(schema, nowDate, operator);
      var first := ResolveAutoValues(data, schema, show);
      batches := map[1 := first];
      active := 1;
    }

    /** Edit mode: tab 1 holds the stored record, defaulted and resolved, and is active. */
    constructor Edit(stored: Record, schema: Schema, nowDate: string, operator: string, show: real -> string)
      ensures Valid()
      ensures batches == map[1 := Resolve(EditData(stored, nowDate, operator), schema, AppEvaluator(show))]
      ensures active == 1
    {
      var first := ResolveAutoValues(EditData(stored, nowDate, operator), schema, show);
      batches := map[1 := first];
      active := 1;
    }

    /** `Math.max(...ids)`. */
    method LargestId() returns (m: nat)
      requires Valid()
      ensures m in batches && forall k :: k in batches ==> k <= m
    {
      var left := batches.Keys;
      m := active;
      while left != {}
        invariant left <= batches.Keys && m in batches
        invariant forall k :: k in batches && k !in left ==> k <= m
        decreases |left|
      {
        var k :| k in left;
        if k > m {
          m := k;
        }
        left := left - {k};
      }
    }

    /** The first id `Object.keys` lists: the smallest. */
    method SmallestId() returns (m: nat)
      requires batches != map[]
      ensures m in batches && forall k :: k in batches ==> m <= k
    {
      var left := batches.Keys;
      m :| m in batches;
      while left != {}
        invariant left <= batches.Keys && m in batches
        invariant forall k :: k in batches && k !in left ==> m <= k
        decreases |left|
      {
        var k :| k in left;
        if k < m {
          m := k;
        }
        left := left - {k};
      }
    }

    /** `handleAddBatch`: a new tab after the largest id, seeded, resolved and made active. */
    method AddBatch(schema: Schema, nowDate: string, operator: string, show: real -> string) returns (newId: nat)
      requires Valid()
      modifies this
      ensures Valid()
      ensures newId !in old(batches) && forall k :: k in old(batches) ==> k < newId
      ensures newId - 1 in old(batches)
      ensures batches == old(batches)[newId := Resolve(InitialData(schema, nowDate, operator), schema, AppEvaluator(show))]
      ensures active == newId
    {
      var largest := LargestId();
      newId := largest + 1;
      var data := Seed(schema, nowDate, operator);
      var resolved := ResolveAutoValues(data, schema, show);
      batches := batches[newId := resolved];
      active := newId;
    }

    /**
      * `handleDeleteBatch` once confirmed: nothing happens to the last tab;
      * otherwise the tab goes and the smallest remaining id becomes active.
      */
    method DeleteBatch(id: nat)
      requires Valid()
      modifies this
      ensures Valid()
      ensures |old(batches)| == 1 ==> batches == old(batches) && active == old(active)
      ensures |old(batches)| != 1 ==> batches == old(batches) - {id}
      ensures |old(batches)| != 1 ==> forall k :: k in batches ==> active <= k
    {
      if |batches| == 1 {
        return;
      }
      var remain := batches - {id};
      assert remain != map[] by {
        var other :| other in batches && other != id by {
          var a := active;
          if a == id {
            assert batches.Keys != {a};
            var b :| b in batches.Keys && b != a;
          }
        }
        assert other in remain;
      }
      batches := remain;
      active := SmallestId();
    }

    /** `handleInputChange`: set one field of the active batch and resolve it again. */
    method SetField(fieldId: string, value: string, schema: Schema, show: real -> string)
      requires Valid()
      modifies this
      ensures Valid() && active == old(active)
      ensures batches == old(batches)[active := Resolve(old(batches)[active][fieldId := value], schema, AppEvaluator(show))]
    {
      var resolved := ResolveAutoValues(batches[active][fieldId := value], schema, show);
      batches := batches[active := resolved];
    }

    /**
      * `handleSubmit`: resolve and store the active batch; the result is the
      * first required field that is still empty, if any.
      */
    method Submit(schema: Schema, show: real -> string) returns (missing: Option<nat>)
      requires Valid()
      modifies this
      ensures Valid() && active == old(active)
      ensures batches == old(batches)[active := Resolve(old(batches)[active], schema, AppEvaluator(show))]
      ensures missing == FirstMissing(schema, batches[active])
    {
      var current := ResolveAutoValues(batches[active], schema, show);
      batches := batches[active := current];
      missing := FirstMissing(schema, current);
    }
  }
}
