/**
  * Time arithmetic of the River production form: `addTime`, which adds a
  * duration to a clock time of day, the `C<n>` field references of the
  * `=` formulas, and the sum `=C5 + C7 + ...` they denote.
  */
module TimeCalc {
  import opened Js
  import opened JsNum

  // ---------------------------------------------------------------------
  // Clock texts

  /** `/^\d{1,2}:\d{2}$/`: one or two digits of hours, a colon, two digits of minutes. */
  predicate IsClock(s: string) {
    (|s| == 4 || |s| == 5) && s[|s| - 3] == ':' && IsDigits(s[..|s| - 3]) && IsDigits(s[|s| - 2..])
  }

  /** `/^\d{1,2}$/`: a bare count of minutes. */
  predicate IsMinuteCount(s: string) {
    1 <= |s| <= 2 && IsDigits(s)
  }

  function ClockMinutes(s: string): nat
    requires IsClock(s)
  {
    DigitsValue(s[..|s| - 3]) * 60 + DigitsValue(s[|s| - 2..])
  }

  /** Text that `addTime` reads as a duration: empty, a clock or a minute count. */
  predicate IsDuration(s: string) {
    s == "" || IsClock(s) || IsMinuteCount(s)
  }

  /** The hours and minutes of a duration text. */
  function DurationParts(s: string): (nat, nat)
    requires IsDuration(s)
  {
    if IsClock(s) then (DigitsValue(s[..|s| - 3]), DigitsValue(s[|s| - 2..]))
    else if IsMinuteCount(s) then (0, DigitsValue(s))
    else (0, 0)
  }

  /** The number of minutes a duration text stands for. */
  function DurationMinutes(s: string): (n: nat)
    requires IsDuration(s)
    ensures IsClock(s) ==> n == ClockMinutes(s)
  {
    DurationParts(s).0 * 60 + DurationParts(s).1
  }

  lemma ModUnique(x: int, m: int, k: int, r: int)
    requires m > 0 && x == m * k + r && 0 <= r < m
    ensures x % m == r && x / m == k
  {
    var q, s := x / m, x % m;
    assert x == m * q + s;
    if k > q {
      MulAtLeast(m, k - q);
      assert false;
    } else if k < q {
      MulAtLeast(m, q - k);
      assert false;
    }
  }

  lemma {:induction false} MulAtLeast(m: int, d: int)
    requires m > 0 && d >= 1
    ensures m * d >= m
  {
    if d > 1 {
      MulAtLeast(m, d - 1);
      assert m * d == m * (d - 1) + m;
    }
  }

  /** Hours of the day times 60 plus minutes is the total modulo a day. */
  lemma DayMinutes(t: nat)
    ensures (t / 60 % 24) * 60 + t % 60 == t % 1440
  {
    var q, r := t / 60, t % 60;
    var k, h := q / 24, q % 24;
    assert t == 1440 * k + (60 * h + r);
    ModUnique(t, 1440, k, 60 * h + r);
  }

  /**
    * The text `HH:MM` of `t` minutes past some midnight: two digits of the
    * hour of the day (below 24) and two of the minute (below 60).
    */
  function ClockOf(t: nat): (r: string)
    ensures IsClock(r) && |r| == 5
    ensures DigitsValue(r[..2]) == t / 60 % 24 && DigitsValue(r[3..]) == t % 60
    ensures ClockMinutes(r) == t % 1440
  {
    var hh, mm := Pad2(t / 60 % 24), Pad2(t % 60);
    var r := hh + ":" + mm;
    assert r[..2] == hh && r[3..] == mm;
    DayMinutes(t);
    r
  }

  /** Clock texts of the same minute of the day are equal. */
  lemma {:induction false} ClockOfMod(t: nat)
    ensures ClockOf(t) == ClockOf(t % 1440)
  {
    var q, r := t / 60, t % 60;
    var k, h := q / 24, q % 24;
    assert t == 1440 * k + (60 * h + r);
    ModUnique(t, 1440, k, 60 * h + r);
    var u := t % 1440;
    ModUnique(u, 60, h, r);
    ModUnique(h, 24, 0, h);
  }

  // ---------------------------------------------------------------------
  // addTime

  /** `[h, m] = s.split(':').map(Number)` with `h` and `m` defaulting to 0 when absent. */
  function ClockFields(s: string): (Num, Num) {
    var p := Split(s, ':');
    (ToNumber(p[0]), if |p| >= 2 then ToNumber(p[1]) else Fin(0.0))
  }

  /**
    * How `addTime` reads its second operand: empty is zero, `H:MM` and `HH:MM`
    * are hours and minutes, one or two digits are minutes, anything else is zero.
    */
  function AddendFields(t2: string): (Num, Num) {
    if t2 == "" then (Fin(0.0), Fin(0.0))
    else if IsClock(t2) then ClockFields(t2)
    else if IsMinuteCount(t2) then (Fin(0.0), ToNumber(t2))
    else (Fin(0.0), Fin(0.0))
  }

  /** `h1 * 60 + m1 + h2 * 60 + m2`, evaluated left to right. */
  function Total(h1: Num, m1: Num, h2: Num, m2: Num): Num {
    Add(Add(Add(Mul(h1, Fin(60.0)), m1), Mul(h2, Fin(60.0))), m2)
  }

  /** The total number of minutes `addTime` computes from its operands. */
  function TotalMinutes(t1: string, t2: string): Num {
    var first, second := ClockFields(OrElse(t1, "00:00")), AddendFields(t2);
    Total(first.0, first.1, second.0, second.1)
  }

  /** `` `${hh}:${mm}` `` with `hh = Math.floor(total / 60) % 24` and `mm = total % 60`, each padded to two places. */
  function TimeOfDay(total: Num, show: real -> string): string {
    var hh := Rem(Floor(Div(total, Fin(60.0))), Fin(24.0));
    var mm := Rem(total, Fin(60.0));
    PadStart(Show(hh, show), 2, '0') + ":" + PadStart(Show(mm, show), 2, '0')
  }

  /**
    * `addTime(t1, t2)`: the clock time `t1` (empty means `00:00`) advanced by
    * the duration `t2`, wrapped to the day. Operands that are not clock texts
    * follow JavaScript's `Number`, `Math.floor` and `%`; the text of a
    * fractional number is the parameter `show`.
    */
  function AddTime(t1: string, t2: string, show: real -> string): string {
    TimeOfDay(TotalMinutes(t1, t2), show)
  }

  lemma SplitClock(s: string)
    requires IsClock(s)
    ensures Split(s, ':') == [s[..|s| - 3], s[|s| - 2..]]
  {
    var i := |s| - 3;
    assert ':' in s by { assert s[i] == ':'; }
    assert ':' !in s[..i] by { assert IsDigits(s[..i]); }
    assert FirstIndex(s, ':') == i;
    assert s[i + 1..] == s[|s| - 2..];
    assert ':' !in s[|s| - 2..] by { assert IsDigits(s[|s| - 2..]); }
  }

  lemma ClockFieldsOfClock(s: string)
    requires IsClock(s)
    ensures ClockFields(s) == (Fin(DigitsValue(s[..|s| - 3]) as real), Fin(DigitsValue(s[|s| - 2..]) as real))
  {
    SplitClock(s);
    ToNumberDigits(s[..|s| - 3]);
    ToNumberDigits(s[|s| - 2..]);
  }

  lemma AddendFieldsOfDuration(t2: string)
    requires IsDuration(t2)
    ensures AddendFields(t2) == (Fin(DurationParts(t2).0 as real), Fin(DurationParts(t2).1 as real))
  {
    if IsClock(t2) {
      AddendOfClock(t2);
    } else if IsMinuteCount(t2) {
      AddendOfMinuteCount(t2);
    }
  }

  lemma AddendOfClock(t2: string)
    requires IsClock(t2)
    ensures AddendFields(t2) == (Fin(DigitsValue(t2[..|t2| - 3]) as real), Fin(DigitsValue(t2[|t2| - 2..]) as real))
  {
    assert AddendFields(t2) == ClockFields(t2);
    ClockFieldsOfClock(t2);
  }

  lemma AddendOfMinuteCount(t2: string)
    requires IsMinuteCount(t2) && !IsClock(t2)
    ensures AddendFields(t2) == (Fin(0.0), Fin(DigitsValue(t2) as real))
  {
    assert AddendFields(t2) == (Fin(0.0), ToNumber(t2));
    ToNumberDigits(t2);
  }

  lemma TotalOfNats(a: nat, b: nat, c: nat, d: nat, n: nat)
    requires n == a * 60 + b + c * 60 + d
    ensures Total(Fin(a as real), Fin(b as real), Fin(c as real), Fin(d as real)) == Fin(n as real)
  {
  }

  lemma TotalOfClock(t1: string, t2: string, n: nat)
    requires IsClock(t1) && IsDuration(t2) && n == ClockMinutes(t1) + DurationMinutes(t2)
    ensures TotalMinutes(t1, t2) == Fin(n as real)
  {
    var a, b := DigitsValue(t1[..|t1| - 3]), DigitsValue(t1[|t1| - 2..]);
    var c, d := DurationParts(t2).0, DurationParts(t2).1;
    var first := ClockFields(t1);
    var second := AddendFields(t2);
    assert first == (Fin(a as real), Fin(b as real)) by {
      ClockFieldsOfClock(t1);
    }
    assert second == (Fin(c as real), Fin(d as real)) by {
      AddendFieldsOfDuration(t2);
    }
    assert TotalMinutes(t1, t2) == Total(first.0, first.1, second.0, second.1) by {
      assert OrElse(t1, "00:00") == t1;
    }
    assert n == a * 60 + b + c * 60 + d by {
      assert ClockMinutes(t1) == a * 60 + b;
      assert DurationMinutes(t2) == c * 60 + d;
    }
    TotalOfNats(a, b, c, d, n);
  }

  lemma TimeOfDayNat(t: nat, show: real -> string)
    ensures TimeOfDay(Fin(t as real), show) == ClockOf(t)
  {
    FloorOfQuotient(t, 60);
    var q := t / 60;
    assert Floor(Div(Fin(t as real), Fin(60.0))) == Fin(q as real);
    RemNatural(q, 24);
    RemNatural(t, 60);
    var a, b := q % 24, t % 60;
    assert Show(Fin(a as real), show) == NatToString(a);
    assert Show(Fin(b as real), show) == NatToString(b);
  }

  /**
    * Adding a duration to a clock time gives the clock time of the total
    * number of minutes `n`, modulo a day.
    */
  lemma AddTimeOfClock(t1: string, t2: string, show: real -> string, n: nat)
    requires IsClock(t1) && IsDuration(t2) && n == ClockMinutes(t1) + DurationMinutes(t2)
    ensures AddTime(t1, t2, show) == ClockOf(n)
    ensures IsClock(AddTime(t1, t2, show)) && ClockMinutes(AddTime(t1, t2, show)) == n % 1440
  {
    TotalOfClock(t1, t2, n);
    TimeOfDayNat(n, show);
  }

  /** For two clock times the order of the operands does not matter. */
  lemma AddTimeCommutes(t1: string, t2: string, show: real -> string)
    requires IsClock(t1) && IsClock(t2)
    ensures AddTime(t1, t2, show) == AddTime(t2, t1, show)
  {
    var n := ClockMinutes(t1) + ClockMinutes(t2);
    AddTimeOfClock(t1, t2, show, n);
    AddTimeOfClock(t2, t1, show, n);
  }

  /** Adding the empty duration to a clock time within the day gives the same time as `HH:MM`. */
  lemma AddTimeNothing(t1: string, show: real -> string)
    requires IsClock(t1) && ClockMinutes(t1) < 1440
    ensures IsClock(AddTime(t1, "", show)) && ClockMinutes(AddTime(t1, "", show)) == ClockMinutes(t1)
  {
    var n := ClockMinutes(t1);
    ModUnique(n, 1440, 0, n);
    AddTimeOfClock(t1, "", show, n);
  }

  /** `08:15` is the clock text of 495 minutes. */
  lemma EightFifteen()
    ensures IsClock("08:15") && ClockMinutes("08:15") == 495 && ClockOf(495) == "08:15"
  {
    EightFifteenMinutes();
    EightFifteenText();
  }

  lemma EightFifteenMinutes()
    ensures IsClock("08:15") && ClockMinutes("08:15") == 495
  {
    assert "08:15"[..2] == "08" && "08:15"[3..] == "15";
    assert DigitsValue("08") == 8 by { assert "08"[..1] == "0"; }
    assert DigitsValue("15") == 15 by { assert "15"[..1] == "1"; }
  }

  lemma EightFifteenText()
    ensures ClockOf(495) == "08:15"
  {
    ModUnique(495, 60, 8, 15);
    ModUnique(8, 24, 0, 8);
    PadEightFifteen();
    assert ClockOf(495) == Pad2(8) + ":" + Pad2(15);
  }

  lemma PadEightFifteen()
    ensures Pad2(8) == "08" && Pad2(15) == "15"
  {
    assert NatToString(8) == "8";
    assert NatToString(15) == NatToString(1) + "5";
  }

  /** A second operand that is not a duration text counts as no time at all. */
  lemma AddTimeIgnoresMalformed(t1: string, t2: string, show: real -> string)
    requires t2 != "" && !IsDuration(t2)
    ensures AddTime(t1, t2, show) == AddTime(t1, "", show)
  {
    assert AddendFields(t2) == AddendFields("");
  }

  /** `addTime("08:15", "1:2:3")` is `08:15`. */
  lemma AddTimeIgnoresThreeParts(show: real -> string)
    ensures AddTime("08:15", "1:2:3", show) == "08:15"
  {
    assert !IsClock("1:2:3") by { assert "1:2:3"[..2] == "1:"; assert !IsDigit(':'); }
    AddTimeIgnoresMalformed("08:15", "1:2:3", show);
    EightFifteen();
    AddTimeOfClock("08:15", "", show, 495);
  }

  // ---------------------------------------------------------------------
  // `C<n>` references and the time sum

  /** `/^[Cc](\d+)$/`. */
  predicate IsCode(code: string) {
    |code| >= 2 && (code[0] == 'C' || code[0] == 'c') && IsDigits(code[1..])
  }

  /** `field_` followed by the code's digits padded to three places. */
  function FieldKey(code: string): (k: string)
    requires IsCode(code)
    ensures |k| >= 9 && k[..6] == "field_" && IsDigits(k[6..])
    ensures DigitsValue(k[6..]) == DigitsValue(code[1..])
    ensures k == "field_" + PadStart(code[1..], 3, '0')
  {
    PadDigits(code[1..], 3);
    var k := "field_" + PadStart(code[1..], 3, '0');
    assert k[6..] == PadStart(code[1..], 3, '0');
    k
  }

  /**
    * `getFieldValue(code)`: the value of the field a code names, read as a
    * clock. A malformed code, a missing field and an empty field all read as
    * `00:00`; a bare minute count becomes `00:MM`; any other text is passed
    * on unchanged.
    */
  function GetFieldValue(rec: Record, code: string): (v: string)
    ensures !IsCode(code) ==> v == "00:00"
    ensures IsCode(code) && IsDuration(Get(rec, FieldKey(code))) ==>
              IsClock(v) && ClockMinutes(v) == DurationMinutes(Get(rec, FieldKey(code)))
    ensures IsCode(code) && !IsDuration(Get(rec, FieldKey(code))) ==> v == Get(rec, FieldKey(code))
    ensures IsCode(code) && Get(rec, FieldKey(code)) == "" ==> v == "00:00"
    ensures IsCode(code) && IsMinuteCount(Get(rec, FieldKey(code))) ==>
              v == "00:" + PadStart(Get(rec, FieldKey(code)), 2, '0')
    ensures IsCode(code) && IsClock(Get(rec, FieldKey(code))) ==> v == Get(rec, FieldKey(code))
  {
    if !IsCode(code) then "00:00"
    else
      var key := FieldKey(code);
      if key !in rec || rec[key] == "" then
        Midnight();
        "00:00"
      else
        var value := rec[key];
        if IsMinuteCount(value) then
          MinutesPastMidnight(value);
          "00:" + PadStart(value, 2, '0')
        else value
  }

  lemma Midnight()
    ensures IsClock("00:00") && ClockMinutes("00:00") == 0
  {
    assert "00:00"[..2] == "00" && "00:00"[3..] == "00";
    assert DigitsValue("00") == 0 by { assert "00"[..1] == "0"; }
  }

  lemma MinutesPastMidnight(m: string)
    requires IsMinuteCount(m)
    ensures IsClock("00:" + PadStart(m, 2, '0'))
    ensures ClockMinutes("00:" + PadStart(m, 2, '0')) == DigitsValue(m)
  {
    PadDigits(m, 2);
    var v := "00:" + PadStart(m, 2, '0');
    assert v[..2] == "00" && v[3..] == PadStart(m, 2, '0');
    assert DigitsValue("00") == 0 by { assert "00"[..1] == "0"; }
  }

  /** `result = addTime(result, v)` for each value in turn. */
  function FoldTimes(first: string, values: seq<string>, show: real -> string): string {
    if values == [] then first
    else AddTime(FoldTimes(first, values[..|values| - 1], show), values[|values| - 1], show)
  }

  function SumDurations(values: seq<string>): nat
    requires forall i :: 0 <= i < |values| ==> IsDuration(values[i])
  {
    if values == [] then 0
    else SumDurations(values[..|values| - 1]) + DurationMinutes(values[|values| - 1])
  }

  /** Clock texts a whole number of days apart are equal. */
  lemma ClockOfPeriodic(x: nat, q: nat, n: nat)
    requires n == x + 1440 * q
    ensures ClockOf(n) == ClockOf(x)
  {
    ModUnique(n, 60, x / 60 + 24 * q, x % 60);
    ModUnique(x / 60 + 24 * q, 24, x / 60 / 24 + q, x / 60 % 24);
    assert n / 60 % 24 == x / 60 % 24;
    assert n % 60 == x % 60;
  }

  /** Adding a duration to the clock text of `t` minutes gives the clock text of `t` plus the duration. */
  lemma AddTimeToClockOf(t: nat, t2: string, show: real -> string, n: nat)
    requires IsDuration(t2) && n == t + DurationMinutes(t2)
    ensures AddTime(ClockOf(t), t2, show) == ClockOf(n)
  {
    var m := t % 1440 + DurationMinutes(t2);
    AddTimeOfClock(ClockOf(t), t2, show, m);
    ClockOfPeriodic(m, t / 1440, n);
  }

  /**
    * Adding clock and minute texts one after another to a clock time gives
    * the clock text of the total number of minutes.
    */
  lemma {:induction false} FoldTimesOfDurations(first: string, values: seq<string>, show: real -> string, n: nat)
    requires IsClock(first) && values != []
    requires forall i :: 0 <= i < |values| ==> IsDuration(values[i])
    requires n == ClockMinutes(first) + SumDurations(values)
    ensures FoldTimes(first, values, show) == ClockOf(n)
  {
    var init, last := values[..|values| - 1], values[|values| - 1];
    assert SumDurations(values) == SumDurations(init) + DurationMinutes(last);
    if init == [] {
      assert FoldTimes(first, values, show) == AddTime(first, last, show);
      AddTimeOfClock(first, last, show, n);
    } else {
      var t := ClockMinutes(first) + SumDurations(init);
      FoldTimesOfDurations(first, init, show, t);
      assert FoldTimes(first, values, show) == AddTime(FoldTimes(first, init, show), last, show);
      AddTimeToClockOf(t, last, show, n);
    }
  }

  /** The values of a list of codes. */
  function FieldValues(rec: Record, codes: seq<string>): (vs: seq<string>)
    ensures |vs| == |codes| && forall i :: 0 <= i < |codes| ==> vs[i] == GetFieldValue(rec, codes[i])
  {
    seq(|codes|, i requires 0 <= i < |codes| => GetFieldValue(rec, codes[i]))
  }

  /** Folding the values of `codes` is folding all but the last, then adding the last. */
  lemma FoldValuesStep(first: string, rec: Record, codes: seq<string>, show: real -> string)
    requires codes != []
    ensures FoldTimes(first, FieldValues(rec, codes), show)
         == AddTime(FoldTimes(first, FieldValues(rec, codes[..|codes| - 1]), show), GetFieldValue(rec, codes[|codes| - 1]), show)
  {
    var vs := FieldValues(rec, codes);
    assert vs[..|vs| - 1] == FieldValues(rec, codes[..|codes| - 1]);
  }

  /** One more part of a `+` sum: the loop step of the time formula. */
  lemma FoldValuesNext(first: string, rec: Record, parts: seq<string>, i: nat, show: real -> string)
    requires 1 <= i < |parts|
    ensures FoldTimes(first, FieldValues(rec, parts[1..i + 1]), show)
         == AddTime(FoldTimes(first, FieldValues(rec, parts[1..i]), show), GetFieldValue(rec, parts[i]), show)
  {
    var codes := parts[1..i + 1];
    assert codes[..|codes| - 1] == parts[1..i];
    FoldValuesStep(first, rec, codes, show);
  }

  function TrimAll(parts: seq<string>): (r: seq<string>)
    ensures |r| == |parts| && forall i :: 0 <= i < |parts| ==> r[i] == Trim(parts[i])
  {
    seq(|parts|, i requires 0 <= i < |parts| => Trim(parts[i]))
  }

  /**
    * The value of a `=` formula with body `expr` (already trimmed): with a
    * `+`, the trimmed parts' values added with `addTime` from left to right;
    * otherwise the value of the one code.
    */
  function TimeFormula(rec: Record, expr: string, show: real -> string): string {
    if Includes(expr, "+") then
      var parts := TrimAll(Split(expr, '+'));
      FoldTimes(GetFieldValue(rec, parts[0]), FieldValues(rec, parts[1..]), show)
    else GetFieldValue(rec, expr)
  }

  /** The operands of a `=` formula's body: its trimmed `+` parts, or the body itself. */
  function TimeParts(expr: string): (ps: seq<string>)
    ensures |ps| >= 1
  {
    if '+' in expr then TrimAll(Split(expr, '+')) else [expr]
  }

  /** The `+` case of the time formula as the loop computes it: parts `1..|parts|`. */
  lemma TimeFormulaParts(rec: Record, expr: string, show: real -> string)
    requires Includes(expr, "+")
    ensures var parts := TrimAll(Split(expr, '+'));
      TimeFormula(rec, expr, show) == FoldTimes(GetFieldValue(rec, parts[0]), FieldValues(rec, parts[1..|parts|]), show)
  {
    var parts := TrimAll(Split(expr, '+'));
    assert parts[1..|parts|] == parts[1..];
  }

  /** Before the loop: no part added yet. */
  lemma FoldValuesStart(first: string, rec: Record, parts: seq<string>, show: real -> string)
    requires |parts| >= 1
    ensures FoldTimes(first, FieldValues(rec, parts[1..1]), show) == first
  {
    assert FieldValues(rec, parts[1..1]) == [];
  }

  /** A reference whose value `getFieldValue` reads as a duration. */
  predicate RefersToDuration(rec: Record, code: string) {
    !IsCode(code) || IsDuration(Get(rec, FieldKey(code)))
  }

  /** The minutes a reference contributes to a sum: malformed codes count as zero. */
  function RefMinutes(rec: Record, code: string): nat
    requires RefersToDuration(rec, code)
  {
    if IsCode(code) then DurationMinutes(Get(rec, FieldKey(code))) else 0
  }

  function SumRefs(rec: Record, codes: seq<string>): nat
    requires forall i :: 0 <= i < |codes| ==> RefersToDuration(rec, codes[i])
  {
    if codes == [] then 0
    else SumRefs(rec, codes[..|codes| - 1]) + RefMinutes(rec, codes[|codes| - 1])
  }

  /** The value of a reference to a duration is a clock text of its minutes. */
  lemma RefValue(rec: Record, code: string)
    requires RefersToDuration(rec, code)
    ensures IsClock(GetFieldValue(rec, code)) && ClockMinutes(GetFieldValue(rec, code)) == RefMinutes(rec, code)
  {
    Midnight();
  }

  lemma {:induction false} SumOfFieldValues(rec: Record, codes: seq<string>)
    requires forall i :: 0 <= i < |codes| ==> RefersToDuration(rec, codes[i])
    ensures forall i :: 0 <= i < |codes| ==> IsClock(FieldValues(rec, codes)[i])
    ensures SumDurations(FieldValues(rec, codes)) == SumRefs(rec, codes)
  {
    var vs := FieldValues(rec, codes);
    forall i | 0 <= i < |codes| ensures IsClock(vs[i]) {
      RefValue(rec, codes[i]);
    }
    if codes != [] {
      var init, last := codes[..|codes| - 1], codes[|codes| - 1];
      SumOfFieldValues(rec, init);
      assert FieldValues(rec, init) == vs[..|vs| - 1];
      RefValue(rec, last);
      assert SumDurations(vs) == SumDurations(vs[..|vs| - 1]) + ClockMinutes(vs[|vs| - 1]);
    }
  }

  lemma {:induction false} SumRefsFirst(rec: Record, codes: seq<string>)
    requires codes != [] && forall i :: 0 <= i < |codes| ==> RefersToDuration(rec, codes[i])
    ensures SumRefs(rec, codes) == RefMinutes(rec, codes[0]) + SumRefs(rec, codes[1..])
  {
    if |codes| > 1 {
      SumRefsFirst(rec, codes[..|codes| - 1]);
      assert codes[..|codes| - 1][1..] == codes[1..][..|codes| - 2];
    }
  }

  /**
    * A `=` formula with a `+` whose every code names a field holding a
    * duration text (or is malformed, which reads as `00:00`) evaluates to
    * the clock text of the total number of minutes, modulo a day.
    */
  lemma TimeFormulaOfDurations(rec: Record, expr: string, show: real -> string)
    requires '+' in expr
    requires forall p | p in TrimAll(Split(expr, '+')) :: RefersToDuration(rec, p)
    ensures TimeFormula(rec, expr, show) == ClockOf(SumRefs(rec, TrimAll(Split(expr, '+'))))
  {
    var parts := TrimAll(Split(expr, '+'));
    IncludesChar(expr, '+');
    assert forall i :: 0 <= i < |parts| ==> RefersToDuration(rec, parts[i]) by {
      forall i | 0 <= i < |parts| ensures RefersToDuration(rec, parts[i]) {
        assert parts[i] in parts;
      }
    }
    var first, rest := GetFieldValue(rec, parts[0]), parts[1..];
    var vs := FieldValues(rec, rest);
    assert TimeFormula(rec, expr, show) == FoldTimes(first, vs, show);
    SumOfFieldValues(rec, rest);
    RefValue(rec, parts[0]);
    SumRefsFirst(rec, parts);
    var n := SumRefs(rec, parts);
    assert n == ClockMinutes(first) + SumDurations(vs);
    FoldTimesOfDurations(first, vs, show, n);
  }

  /** A one-character text occurs in `s` exactly when the character does. */
  lemma IncludesChar(s: string, c: char)
    ensures Includes(s, [c]) <==> c in s
  {
    if c in s {
      var i :| 0 <= i < |s| && s[i] == c;
      assert OccursAt(s, [c], i);
    }
    if Includes(s, [c]) {
      var i :| 0 <= i <= |s| && OccursAt(s, [c], i);
      assert s[i] == s[i..i + 1][0];
    }
  }
}
