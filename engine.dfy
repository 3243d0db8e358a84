/**
  * `resolveAutoValues`: the recomputation of every auto-calculated field of
  * a batch record. A pass walks the schema in order and, for each field of
  * type `auto` or `autofixed` with a `calculate` text, evaluates it against
  * the record as it stands (so later fields see earlier writes of the same
  * pass) and stores the result when it differs; a failing evaluation stores
  * `Err` without counting as a change. Passes repeat until one changes
  * nothing, at most 30 times.
  */
module Engine {
  import opened Js
  import opened JsNum
  import opened TimeCalc
  import Formula

  /** One declaration of the field schema. */
  datatype Field = Field(id: string, kind: string, calculate: string, caption: string, value: string, required: bool)

  type Schema = seq<Field>

  const MaxPasses: nat := 30

  /** A field the engine recomputes. */
  predicate Computed(f: Field) {
    (f.kind == "auto" || f.kind == "autofixed") && f.calculate != ""
  }

  /** The ids of the computed fields: the only keys a resolve may write. */
  function ComputedIds(schema: Schema): (ids: set<string>)
    ensures forall i :: 0 <= i < |schema| && Computed(schema[i]) ==> schema[i].id in ids
    ensures forall k :: k in ids ==> exists i :: 0 <= i < |schema| && Computed(schema[i]) && schema[i].id == k
  {
    set i | 0 <= i < |schema| && Computed(schema[i]) :: schema[i].id
  }

  /**
    * The value of a `calculate` text, or None where the evaluation throws:
    * `=` introduces a time sum over `C<n>` codes, which never throws;
    * anything else is an arithmetic formula over `field_NNN` references,
    * which throws on text it cannot read.
    */
  function Evaluate(rec: Record, formula: string, show: real -> string): (r: Option<string>)
    ensures StartsWith(formula, "=") ==> r.Some?
    ensures !StartsWith(formula, "=") && Formula.Tokenize(formula) == None ==> r == None
    ensures !StartsWith(formula, "=") && Formula.Tokenize(formula) == Some([]) ==> r == Some("undefined")
  {
    if StartsWith(formula, "=") then Some(TimeFormula(rec, Trim(formula[1..]), show))
    else Formula.Run(rec, formula, show)
  }

  /**
    * A `=` formula whose codes all name fields holding duration texts (or
    * are malformed, reading `00:00`): a `+` sum evaluates to the clock text
    * of the total minutes modulo a day, a single code to a clock text of
    * its own minutes.
    */
  lemma EvaluateTimeSum(rec: Record, formula: string, show: real -> string)
    requires StartsWith(formula, "=")
    requires forall p | p in TimeParts(Trim(formula[1..])) :: RefersToDuration(rec, p)
    ensures var expr := Trim(formula[1..]);
      '+' in expr ==> Evaluate(rec, formula, show) == Some(ClockOf(SumRefs(rec, TimeParts(expr))))
    ensures var expr := Trim(formula[1..]); var r := Evaluate(rec, formula, show);
      '+' !in expr ==> r.Some? && IsClock(r.value) && ClockMinutes(r.value) == SumRefs(rec, TimeParts(expr))
  {
    var expr := Trim(formula[1..]);
    IncludesChar(expr, '+');
    if '+' in expr {
      TimeFormulaOfDurations(rec, expr, show);
    } else {
      assert expr in TimeParts(expr);
      RefValue(rec, expr);
      assert SumRefs(rec, [expr]) == SumRefs(rec, []) + RefMinutes(rec, expr);
    }
  }

  /** A way of evaluating a `calculate` text against a record. */
  type Evaluator = (Record, string) -> Option<string>

  /** The app's evaluator, with `show` as the text of non-integral numbers. */
  function AppEvaluator(show: real -> string): (ev: Evaluator)
    ensures forall rec, formula :: ev(rec, formula) == Evaluate(rec, formula, show)
  {
    (rec, formula) => Evaluate(rec, formula, show)
  }

  /** One field of a pass: the record and the `changed` flag after it. */
  function Apply(rec: Record, changed: bool, f: Field, ev: Evaluator): (Record, bool) {
    if !Computed(f) then (rec, changed)
    else
      match ev(rec, f.calculate)
      case Some(v) => if f.id in rec && rec[f.id] == v then (rec, changed) else (rec[f.id := v], true)
      case None => (rec[f.id := "Err"], changed)
  }

  /** `forEach` over `fields` from a fresh `changed = false`. */
  function PassOver(rec: Record, fields: seq<Field>, ev: Evaluator): (Record, bool) {
    if fields == [] then (rec, false)
    else
      var p := PassOver(rec, fields[..|fields| - 1], ev);
      Apply(p.0, p.1, fields[|fields| - 1], ev)
  }

  /** At most `passes` passes, stopping after the first that changes nothing. */
  function Iterate(rec: Record, schema: Schema, ev: Evaluator, passes: nat): Record
    decreases passes
  {
    if passes == 0 then rec
    else
      var p := PassOver(rec, schema, ev);
      if p.1 then Iterate(p.0, schema, ev, passes - 1) else p.0
  }

  function Resolve(rec: Record, schema: Schema, ev: Evaluator): Record {
    Iterate(rec, schema, ev, MaxPasses)
  }

  // ---------------------------------------------------------------------
  // The imperative engine

  /** The `=` branch: the first part's value, then `addTime` with each further part. */
  method TimeSum(rec: Record, expr: string, show: real -> string) returns (result: string)
    ensures result == TimeFormula(rec, expr, show)
  {
    if Includes(expr, "+") {
      var parts := TrimAll(Split(expr, '+'));
      var first := GetFieldValue(rec, parts[0]);
      result := first;
      FoldValuesStart(first, rec, parts, show);
      for i := 1 to |parts|
        invariant result == FoldTimes(first, FieldValues(rec, parts[1..i]), show)
      {
        var next := GetFieldValue(rec, parts[i]);
        FoldValuesNext(first, rec, parts, i, show);
        result := AddTime(result, next, show);
      }
      TimeFormulaParts(rec, expr, show);
    } else {
      result := GetFieldValue(rec, expr);
    }
  }

  method EvaluateField(rec: Record, formula: string, show: real -> string) returns (r: Option<string>)
    ensures r == Evaluate(rec, formula, show)
  {
    if StartsWith(formula, "=") {
      var v := TimeSum(rec, Trim(formula[1..]), show);
      r := Some(v);
    } else {
      r := Formula.Run(rec, formula, show);
    }
  }

  /** `resolveAutoValues(data)` over the schema `schema`. */
  method ResolveAutoValues(data: Record, schema: Schema, show: real -> string) returns (updated: Record)
    ensures updated == Resolve(data, schema, AppEvaluator(show))
  {
    ghost var ev := AppEvaluator(show);
    updated := data;
    var loop := 0;
    while loop < MaxPasses
      invariant 0 <= loop <= MaxPasses
      invariant Iterate(updated, schema, ev, MaxPasses - loop) == Resolve(data, schema, ev)
    {
      var changed := false;
      ghost var start := updated;
      for i := 0 to |schema|
        invariant (updated, changed) == PassOver(start, schema[..i], ev)
      {
        var field := schema[i];
        assert schema[..i + 1][..i] == schema[..i];
        if Computed(field) {
          var r := EvaluateField(updated, field.calculate, show);
          match r
          case Some(v) =>
            if !(field.id in updated && updated[field.id] == v) {
              updated := updated[field.id := v];
              changed := true;
            }
          case None =>
            updated := updated[field.id := "Err"];
        }
      }
      assert schema[..|schema|] == schema;
      if !changed {
        break;
      }
      loop := loop + 1;
    }
  }

  // ---------------------------------------------------------------------
  // Only computed fields are written

  /** `a` and `b` agree on every key outside `ids`: same presence, same value. */
  ghost predicate SameOutside(a: Record, b: Record, ids: set<string>) {
    forall k :: k !in ids ==> (k in a <==> k in b) && (k in a ==> a[k] == b[k])
  }

  lemma {:induction false} PassWrites(rec: Record, fields: seq<Field>, schema: Schema, ev: Evaluator)
    requires forall i :: 0 <= i < |fields| ==> fields[i] in schema
    ensures SameOutside(rec, PassOver(rec, fields, ev).0, ComputedIds(schema))
  {
    if fields != [] {
      var init := fields[..|fields| - 1];
      PassWrites(rec, init, schema, ev);
      var f := fields[|fields| - 1];
      var i :| 0 <= i < |schema| && schema[i] == f;
      assert Computed(f) ==> f.id in ComputedIds(schema);
    }
  }

  lemma {:induction false} IterateWrites(rec: Record, schema: Schema, ev: Evaluator, passes: nat)
    ensures SameOutside(rec, Iterate(rec, schema, ev, passes), ComputedIds(schema))
    decreases passes
  {
    if passes > 0 {
      var p := PassOver(rec, schema, ev);
      PassWrites(rec, schema, schema, ev);
      if p.1 {
        IterateWrites(p.0, schema, ev, passes - 1);
      }
    }
  }

  /** Every key that is not a computed field's id keeps its presence and its value. */
  lemma ResolveWrites(rec: Record, schema: Schema, ev: Evaluator)
    ensures SameOutside(rec, Resolve(rec, schema, ev), ComputedIds(schema))
  {
    IterateWrites(rec, schema, ev, MaxPasses);
  }

  // ---------------------------------------------------------------------
  // The stopping pass

  /** `b` differs from `a` only where it holds `Err`, and drops no key. */
  predicate OnlyErrAdded(a: Record, b: Record) {
    (forall k :: k in a ==> k in b) && forall k :: k in b ==> (k in a && b[k] == a[k]) || b[k] == "Err"
  }

  /** A pass that reports no change has written nothing but `Err` values. */
  lemma {:induction false} QuietPassOnlyErr(rec: Record, fields: seq<Field>, ev: Evaluator)
    requires !PassOver(rec, fields, ev).1
    ensures OnlyErrAdded(rec, PassOver(rec, fields, ev).0)
  {
    if fields != [] {
      var init := fields[..|fields| - 1];
      var p := PassOver(rec, init, ev);
      assert !p.1;
      QuietPassOnlyErr(rec, init, ev);
    }
  }

  /**
    * The run ends within `passes` passes on a pass that reports no change
    * and writes nothing at all (no evaluation failed).
    */
  predicate SettlesCleanly(rec: Record, schema: Schema, ev: Evaluator, passes: nat)
    decreases passes
  {
    passes > 0 &&
    var p := PassOver(rec, schema, ev);
    if p.1 then SettlesCleanly(p.0, schema, ev, passes - 1) else p.0 == rec
  }

  lemma {:induction false} SettledIsFixed(rec: Record, schema: Schema, ev: Evaluator, passes: nat)
    requires SettlesCleanly(rec, schema, ev, passes)
    ensures PassOver(Iterate(rec, schema, ev, passes), schema, ev) == (Iterate(rec, schema, ev, passes), false)
    decreases passes
  {
    var p := PassOver(rec, schema, ev);
    if p.1 {
      SettledIsFixed(p.0, schema, ev, passes - 1);
    }
  }

  /**
    * A record whose resolve settles cleanly within the 30 passes is
    * resolved to a fixed point: resolving it again changes nothing.
    */
  lemma ResolveIdempotent(rec: Record, schema: Schema, ev: Evaluator)
    requires SettlesCleanly(rec, schema, ev, MaxPasses)
    ensures PassOver(Resolve(rec, schema, ev), schema, ev) == (Resolve(rec, schema, ev), false)
    ensures Resolve(Resolve(rec, schema, ev), schema, ev) == Resolve(rec, schema, ev)
  {
    SettledIsFixed(rec, schema, ev, MaxPasses);
  }

  // ---------------------------------------------------------------------
  // Without the clean-settling condition, resolving twice can differ

  /** `=C2` copies the text of `field_002` when it is not a duration. */
  lemma CopyOfC2(rec: Record, show: real -> string)
    requires "field_002" in rec && !IsDuration(rec["field_002"]) && rec["field_002"] != ""
    ensures Evaluate(rec, "=C2", show) == Some(rec["field_002"])
  {
    CodeC2();
    assert Evaluate(rec, "=C2", show) == Some(TimeFormula(rec, "C2", show));
    assert TimeFormula(rec, "C2", show) == GetFieldValue(rec, "C2");
  }

  /** `=C2` is the time formula over the single code `C2`, which names `field_002`. */
  lemma CodeC2()
    ensures StartsWith("=C2", "=") && Trim("=C2"[1..]) == "C2"
    ensures !Includes("C2", "+")
    ensures IsCode("C2") && FieldKey("C2") == "field_002"
  {
    TrimC2();
    NoPlusC2();
    KeyC2();
  }

  lemma TrimC2()
    ensures StartsWith("=C2", "=") && Trim("=C2"[1..]) == "C2"
  {
    assert "=C2"[..1] == "=";
    assert "=C2"[1..] == "C2";
    TrimUnchanged("C2");
  }

  lemma NoPlusC2()
    ensures !Includes("C2", "+")
  {
    forall i | 0 <= i <= 2 ensures !OccursAt("C2", "+", i) {
      if i + 1 <= 2 {
        assert "C2"[i..i + 1][0] == "C2"[i];
      }
    }
  }

  lemma KeyC2()
    ensures IsCode("C2") && FieldKey("C2") == "field_002"
  {
    assert "C2"[1..] == "2";
    assert IsCode("C2");
    assert PadStart("2", 3, '0') == "002";
  }

  /** An unbalanced parenthesis makes `eval` throw. */
  lemma OpenParenFails(rec: Record, show: real -> string)
    ensures Evaluate(rec, "(", show) == None
  {
    assert "("[..1][0] == '(';
    assert !StartsWith("(", "=");
    assert "("[0] == '(' && "("[1..] == [];
    assert Formula.Lex("(") == Some((Formula.TOpen, 1));
    assert [Formula.TOpen] + [] == [Formula.TOpen];
    assert Formula.Tokenize("(") == Some([Formula.TOpen]);
    assert Formula.ParseExpr([]) == None;
    assert [Formula.TOpen][1..] == [];
    assert Formula.ParseExpr([Formula.TOpen]) == None;
  }

  /** Neither `x` nor `Err` is a duration text. */
  lemma NotDurations()
    ensures !IsDuration("x") && !IsDuration("Err")
  {
    assert !IsDigit("x"[0]) && !IsDigit("Err"[0]);
  }

  /** `A` copies `B` by code; `B` is a formula that fails. */
  function Example(): Schema {
    [Field("field_001", "auto", "=C2", "A", "", false), Field("field_002", "auto", "(", "B", "", false)]
  }

  /** A pass over two fields. */
  lemma PassOverTwo(rec: Record, a: Field, b: Field, ev: Evaluator)
    ensures PassOver(rec, [a, b], ev) == (var p := Apply(rec, false, a, ev); Apply(p.0, p.1, b, ev))
  {
    assert [a, b][..1] == [a] && [a][..0] == [];
    assert PassOver(rec, [a], ev) == Apply(rec, false, a, ev);
  }

  lemma ApplyA(rec: Record, show: real -> string)
    requires "field_002" in rec && !IsDuration(rec["field_002"]) && rec["field_002"] != ""
    ensures Apply(rec, false, Example()[0], AppEvaluator(show))
         == if "field_001" in rec && rec["field_001"] == rec["field_002"] then (rec, false)
            else (rec["field_001" := rec["field_002"]], true)
  {
    CopyOfC2(rec, show);
  }

  lemma ApplyB(rec: Record, changed: bool, show: real -> string)
    ensures Apply(rec, changed, Example()[1], AppEvaluator(show)) == (rec["field_002" := "Err"], changed)
  {
    OpenParenFails(rec, show);
  }

  /** The first pass over the example keeps `A` and writes `Err` to `B` without reporting a change. */
  lemma FirstPass(show: real -> string)
    ensures PassOver(map["field_001" := "x", "field_002" := "x"], Example(), AppEvaluator(show))
         == (map["field_001" := "x", "field_002" := "Err"], false)
  {
    var rec := map["field_001" := "x", "field_002" := "x"];
    NotDurations();
    PassOverTwo(rec, Example()[0], Example()[1], AppEvaluator(show));
    ApplyA(rec, show);
    ApplyB(rec, false, show);
    assert rec["field_002" := "Err"] == map["field_001" := "x", "field_002" := "Err"];
  }

  /** The second pass copies `Err` into `A`. */
  lemma SecondPass(show: real -> string)
    ensures PassOver(map["field_001" := "x", "field_002" := "Err"], Example(), AppEvaluator(show))
         == (map["field_001" := "Err", "field_002" := "Err"], true)
  {
    var rec := map["field_001" := "x", "field_002" := "Err"];
    var twice := map["field_001" := "Err", "field_002" := "Err"];
    assert rec["field_001" := "Err"] == twice;
    assert twice["field_002" := "Err"] == twice;
    assert rec["field_001"] != rec["field_002"];
    NotDurations();
    PassOverTwo(rec, Example()[0], Example()[1], AppEvaluator(show));
    ApplyA(rec, show);
    ApplyB(twice, true, show);
  }

  /** After that, a pass changes nothing. */
  lemma ThirdPass(show: real -> string)
    ensures PassOver(map["field_001" := "Err", "field_002" := "Err"], Example(), AppEvaluator(show))
         == (map["field_001" := "Err", "field_002" := "Err"], false)
  {
    var twice := map["field_001" := "Err", "field_002" := "Err"];
    NotDurations();
    PassOverTwo(twice, Example()[0], Example()[1], AppEvaluator(show));
    ApplyA(twice, show);
    ApplyB(twice, false, show);
    assert twice["field_002" := "Err"] == twice;
  }

  /**
    * A failing field placed after the field that copies it: the first
    * resolve stops after one quiet pass that wrote `Err`, and resolving its
    * result copies the `Err` on.
    */
  lemma ResolveTwiceDiffers(show: real -> string)
    ensures var rec := map["field_001" := "x", "field_002" := "x"];
      var once := Resolve(rec, Example(), AppEvaluator(show));
      once == map["field_001" := "x", "field_002" := "Err"] &&
      Resolve(once, Example(), AppEvaluator(show)) == map["field_001" := "Err", "field_002" := "Err"]
  {
    var once := map["field_001" := "x", "field_002" := "Err"];
    var twice := map["field_001" := "Err", "field_002" := "Err"];
    FirstPass(show);
    SecondPass(show);
    ThirdPass(show);
    assert Iterate(twice, Example(), AppEvaluator(show), MaxPasses - 1) == twice;
  }
}
