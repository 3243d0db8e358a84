/**
  * The batch file names `YYYY-MM-DD_me<batch>_tank<tank>_HHMMSS.json`: how
  * the River sheet, `saveBatchFile` and the migration build them, the
  * format `validateMigration` accepts, and how the batch lists and the
  * batch file manager read batch, tank, date and time back out of them.
  */
module FileNames {
  import opened Js
  import opened JsNum

  /** A reading of the device clock, in local time. */
  datatype Moment = Moment(year: nat, month: nat, day: nat, hour: nat, minute: nat, second: nat)

  predicate ValidMoment(m: Moment) {
    1 <= m.month <= 12 && 1 <= m.day <= 31 && m.hour < 24 && m.minute < 60 && m.second < 60
  }

  /** `${yyyy}-${mm}-${dd}`, month and day zero-padded. */
  function DateText(m: Moment): (s: string)
    requires ValidMoment(m)
    ensures 1000 <= m.year < 10000 ==> IsDateText(s)
    ensures 1000 <= m.year < 10000 ==> s[..4] == NatToString(m.year) && s[5..7] == Pad2(m.month) && s[8..] == Pad2(m.day)
  {
    NatToStringLength(m.year);
    var s := NatToString(m.year) + "-" + Pad2(m.month) + "-" + Pad2(m.day);
    assert 1000 <= m.year < 10000 ==> s[..4] == NatToString(m.year) && s[5..7] == Pad2(m.month) && s[8..] == Pad2(m.day);
    s
  }

  /** `${hh}${min}${ss}`, each zero-padded. */
  function TimeText(m: Moment): (s: string)
    requires ValidMoment(m)
    ensures |s| == 6 && IsDigits(s)
    ensures s[..2] == Pad2(m.hour) && s[2..4] == Pad2(m.minute) && s[4..] == Pad2(m.second)
  {
    Pad2(m.hour) + Pad2(m.minute) + Pad2(m.second)
  }

  /** `YYYY-MM-DD`. */
  predicate IsDateText(s: string) {
    |s| == 10 && IsDigits(s[..4]) && s[4] == '-' && IsDigits(s[5..7]) && s[7] == '-' && IsDigits(s[8..])
  }

  /** `${date}_me${batch}_tank${tank}_${time}.json`. */
  function BatchName(date: string, batch: string, tank: string, time: string): (s: string)
    ensures |s| == |date| + |batch| + |tank| + |time| + 14
  {
    date + ("_me" + (batch + ("_tank" + (tank + ("_" + (time + ".json"))))))
  }

  /** The batch and tank numbers padded to two places, as the River sheet and the migration write them. */
  function Padded(s: string): string {
    PadStart(s, 2, '0')
  }

  // ---------------------------------------------------------------------
  // The three writers

  /** `saveBatchFile`: batch and tank are written as found, not padded. */
  function SaveBatchFileName(data: Record, now: Moment): string
    requires ValidMoment(now)
  {
    BatchName(DateText(now), Pick(data, ["field_002", "me_so"], "XX"), Pick(data, ["field_003", "tank_so"], "YY"), TimeText(now))
  }

  /** The River sheet's new-file name: batch (else the tab id) and tank (else `00`) padded to two. */
  function RiverFileName(data: Record, tab: nat, now: Moment): string
    requires ValidMoment(now)
  {
    BatchName(DateText(now), Padded(Pick(data, ["field_002", "me_so"], NatToString(tab))),
              Padded(Pick(data, ["field_003", "tank_so"], "00")), TimeText(now))
  }

  /** `/^(\d{4}-\d{2}-\d{2})__me(\d+)__(\d{6})\.json$/`: date, batch digits and time of an old name. */
  function ParseOldName(s: string): (r: Option<(string, string, string)>)
    ensures r.Some? ==> IsDateText(r.value.0) && r.value.1 != [] && IsDigits(r.value.1)
    ensures r.Some? ==> |r.value.2| == 6 && IsDigits(r.value.2)
  {
    if |s| < 28 then None
    else
      var n := |s| - 13;
      if IsDateText(s[..10]) && s[10..14] == "__me" && IsDigits(s[14..n]) && s[n..n + 2] == "__"
         && IsDigits(s[n + 2..n + 8]) && s[n + 8..] == ".json"
      then Some((s[..10], s[14..n], s[n + 2..n + 8]))
      else None
  }

  /** `${date}__me${batch}__${time}.json`. */
  function OldName(date: string, batch: string, time: string): string {
    date + ("__me" + (batch + ("__" + (time + ".json"))))
  }

  /**
    * `generateNewFileName`: an old name keeps its date, batch and time, with
    * the tank from the record (else `01`); any other name gets the clock's
    * date and time and the record's batch (else `01`). Numbers are padded to two.
    */
  function MigratedName(original: string, data: Record, now: Moment): string
    requires ValidMoment(now)
  {
    var tank := Padded(Pick(data, ["field_003", "tank_so"], "01"));
    match ParseOldName(original)
    case Some((date, batch, time)) => BatchName(date, Padded(batch), tank, time)
    case None => BatchName(DateText(now), Padded(Pick(data, ["field_002", "me_so"], "01")), tank, TimeText(now))
  }

  /** `/^\d{4}-\d{2}-\d{2}_me\d{2}_tank\d{2}_\d{6}\.json$/`. */
  predicate ValidFormat(s: string) {
    |s| == 34 && IsDateText(s[..10]) && s[10..13] == "_me" && IsDigits(s[13..15]) && s[15..20] == "_tank"
    && IsDigits(s[20..22]) && s[22] == '_' && IsDigits(s[23..29]) && s[29..] == ".json"
  }

  // ---------------------------------------------------------------------
  // The readers

  /** `/<tag>(\d+)_/` matches at `i`. */
  predicate TagAt(s: string, tag: string, i: nat) {
    i + |tag| <= |s| && s[i..i + |tag|] == tag &&
    var d := LeadingDigits(s[i + |tag|..]);
    d != [] && i + |tag| + |d| < |s| && s[i + |tag| + |d|] == '_'
  }

  /** The digits of the first match of `/<tag>(\d+)_/` at or after `i`. */
  function TaggedFrom(s: string, tag: string, i: nat): (r: Option<string>)
    ensures r.Some? ==> r.value != [] && IsDigits(r.value)
    decreases |s| - i
  {
    if i + |tag| > |s| then None
    else if TagAt(s, tag, i) then Some(LeadingDigits(s[i + |tag|..]))
    else TaggedFrom(s, tag, i + 1)
  }

  /** `parseMeFromFilename`. */
  function ParseMe(s: string): string {
    match TaggedFrom(s, "_me", 0)
    case Some(d) => d
    case None => "???"
  }

  /** `parseTankFromFilename`. */
  function ParseTank(s: string): string {
    match TaggedFrom(s, "_tank", 0)
    case Some(d) => d
    case None => "???"
  }

  /** `parseDateFromFilename`: a leading `YYYY-MM-DD` as `DD/MM/YYYY`. */
  function ParseDate(s: string): string {
    if |s| >= 10 && IsDateText(s[..10]) then s[8..10] + "/" + s[5..7] + "/" + s[..4]
    else "Không rõ ngày"
  }

  /** The name ends `_HHMMSS.json`. */
  predicate HasTimeSuffix(s: string) {
    |s| >= 12 && s[|s| - 12] == '_' && IsDigits(s[|s| - 11..|s| - 5]) && s[|s| - 5..] == ".json"
  }

  /** `HH:MM:SS` from the six digits of the suffix. */
  function SuffixClock(s: string): string
    requires HasTimeSuffix(s)
  {
    ClockText(s[|s| - 11..|s| - 5])
  }

  /** `HHMMSS` as `HH:MM:SS`. */
  function ClockText(t: string): string
    requires |t| == 6
  {
    t[..2] + ":" + t[2..4] + ":" + t[4..]
  }

  /** The batch list's `parseTimeFromFilename`: today's date with the suffix time, else empty. */
  function ListTime(s: string, today: string): string {
    if HasTimeSuffix(s) then today + "T" + SuffixClock(s) + "Z" else ""
  }

  /** The file manager's `parseTimeFromFilename`: the name's own date and time, else the clock's timestamp. */
  function ManagerTime(s: string, nowIso: string): string {
    if |s| >= 22 && IsDateText(s[..10]) && HasTimeSuffix(s) then s[..10] + "T" + SuffixClock(s) + "Z"
    else nowIso
  }

  /** The tank file filter of `getActiveBatchesForTank`. */
  predicate TankFile(file: string, tank: nat) {
    Includes(file, "_tank" + Padded(NatToString(tank)) + "_") && EndsWith(file, ".json")
  }

  // ---------------------------------------------------------------------
  // The format

  /** One or two digits: a batch or tank number that pads to two. */
  predicate ShortNumber(s: string) {
    |s| <= 2 && IsDigits(s)
  }

  lemma PaddedShort(s: string)
    requires ShortNumber(s)
    ensures |Padded(s)| == 2 && IsDigits(Padded(s)) && DigitsValue(Padded(s)) == DigitsValue(s)
  {
    PadDigits(s, 2);
  }

  /** `date` has no underscore. */
  lemma DateNoUnderscore(d: string)
    requires IsDateText(d)
    ensures forall j :: 0 <= j < 10 ==> d[j] != '_'
  {
    forall j | 0 <= j < 10 ensures d[j] != '_' {
      if j < 4 {
        assert d[j] == d[..4][j];
      } else if 5 <= j < 7 {
        assert d[j] == d[5..7][j - 5];
      } else if 8 <= j {
        assert d[j] == d[8..][j - 8];
      }
    }
  }

  /** Where each part of a batch name sits. */
  lemma BatchNameParts(d: string, b: string, t: string, time: string)
    requires |d| == 10 && |time| == 6
    ensures var s := BatchName(d, b, t, time);
      s[..10] == d && s[10..13] == "_me" && s[13..13 + |b|] == b &&
      s[13 + |b|..18 + |b|] == "_tank" && s[18 + |b|..18 + |b| + |t|] == t &&
      s[18 + |b| + |t|] == '_' && s[19 + |b| + |t|..25 + |b| + |t|] == time &&
      s[25 + |b| + |t|..] == ".json"
  {
    var tail := "_tank" + (t + ("_" + (time + ".json")));
    var s := d + ("_me" + (b + tail));
    assert s == BatchName(d, b, t, time);
    FrontParts(s, d, b, tail);
    TailParts(s, 13 + |b|, tail, t, time);
  }

  /** The date, `_me` and the batch digits open the name. */
  lemma FrontParts(s: string, d: string, b: string, tail: string)
    requires |d| == 10 && s == d + ("_me" + (b + tail))
    ensures s[..10] == d && s[10..13] == "_me" && s[13..13 + |b|] == b && s[13 + |b|..] == tail
  {
    var r1 := "_me" + (b + tail);
    var r2 := b + tail;
    assert s[..10] == d && s[10..] == r1;
    assert r1[..3] == "_me" && r1[3..] == r2;
    assert r2[..|b|] == b && r2[|b|..] == tail;
    SliceOfSuffix(s, 10, r1, 3, 13);
    SliceOfSuffix(s, 13, r2, |b|, 13 + |b|);
  }

  /** `_tank`, the tank digits, `_`, the time and `.json` close the name from `i` on. */
  lemma TailParts(s: string, i: nat, tail: string, t: string, time: string)
    requires |time| == 6 && tail == "_tank" + (t + ("_" + (time + ".json")))
    requires i <= |s| && s[i..] == tail
    ensures s[i..i + 5] == "_tank" && s[i + 5..i + 5 + |t|] == t &&
      s[i + 5 + |t|] == '_' && s[i + 6 + |t|..i + 12 + |t|] == time &&
      s[i + 12 + |t|..] == ".json"
  {
    var r4 := t + ("_" + (time + ".json"));
    var r5 := "_" + (time + ".json");
    var r6 := time + ".json";
    assert tail[..5] == "_tank" && tail[5..] == r4;
    assert r4[..|t|] == t && r4[|t|..] == r5;
    assert r5[0] == '_' && r5[1..] == r6;
    assert r6[..6] == time && r6[6..] == ".json";
    SliceOfSuffix(s, i, tail, 5, i + 5);
    SliceOfSuffix(s, i + 5, r4, |t|, i + 5 + |t|);
    SliceOfSuffix(s, i + 6 + |t|, r6, 6, i + 12 + |t|);
  }

  /** A piece at the start of a suffix is a slice of the whole. */
  lemma SliceOfSuffix(s: string, i: nat, r: string, n: nat, j: nat)
    requires i <= |s| && s[i..] == r && n <= |r| && j == i + n
    ensures s[i..j] == r[..n] && s[j..] == r[n..]
  {
    assert s[i..j] == s[i..][..n];
  }

  /**
    * With digits for batch, tank and time, a batch name passes the migration
    * check exactly when batch and tank have two digits each.
    */
  lemma {:induction false} BatchNameFormat(d: string, b: string, t: string, time: string)
    requires IsDateText(d) && IsDigits(b) && IsDigits(t) && |time| == 6 && IsDigits(time)
    ensures ValidFormat(BatchName(d, b, t, time)) <==> |b| == 2 && |t| == 2
  {
    var s := BatchName(d, b, t, time);
    BatchNameParts(d, b, t, time);
    if |b| < 2 {
      assert s[13..15][|b|] == '_';
    } else if |b| > 2 {
      assert s[15] == b[2];
    } else if |t| < 2 {
      assert s[20..22][|t|] == '_';
    } else if |t| > 2 {
      assert s[22] == t[2];
    } else {
      assert s[23..29] == time;
    }
  }

  /** Every name that passes the check is a batch name of its parts. */
  lemma ValidFormatIsBatchName(s: string)
    requires ValidFormat(s)
    ensures s == BatchName(s[..10], s[13..15], s[20..22], s[23..29])
  {
    assert s == s[..10] + s[10..13] + s[13..15] + s[15..20] + s[20..22] + [s[22]] + s[23..29] + s[29..];
  }

  /** The River sheet's names pass the check when batch and tank have at most two digits. */
  lemma RiverFileNameValid(data: Record, tab: nat, now: Moment)
    requires ValidMoment(now) && 1000 <= now.year < 10000
    requires ShortNumber(Pick(data, ["field_002", "me_so"], NatToString(tab)))
    requires ShortNumber(Pick(data, ["field_003", "tank_so"], "00"))
    ensures ValidFormat(RiverFileName(data, tab, now))
  {
    PaddedShort(Pick(data, ["field_002", "me_so"], NatToString(tab)));
    PaddedShort(Pick(data, ["field_003", "tank_so"], "00"));
    BatchNameFormat(DateText(now), Padded(Pick(data, ["field_002", "me_so"], NatToString(tab))),
                    Padded(Pick(data, ["field_003", "tank_so"], "00")), TimeText(now));
  }

  /**
    * `saveBatchFile` does not pad: with digit values its names pass the
    * check only when both batch and tank already have two digits.
    */
  lemma SaveBatchFileNameFormat(data: Record, now: Moment)
    requires ValidMoment(now) && 1000 <= now.year < 10000
    requires IsDigits(Pick(data, ["field_002", "me_so"], "XX")) && IsDigits(Pick(data, ["field_003", "tank_so"], "YY"))
    ensures ValidFormat(SaveBatchFileName(data, now)) <==>
      |Pick(data, ["field_002", "me_so"], "XX")| == 2 && |Pick(data, ["field_003", "tank_so"], "YY")| == 2
  {
    BatchNameFormat(DateText(now), Pick(data, ["field_002", "me_so"], "XX"), Pick(data, ["field_003", "tank_so"], "YY"), TimeText(now));
  }

  /** A `saveBatchFile` name with no batch number carries `XX` and fails the check. */
  lemma SaveBatchFileNameDefault(data: Record, now: Moment)
    requires ValidMoment(now) && 1000 <= now.year < 10000
    requires !Truthy(data, "field_002") && !Truthy(data, "me_so")
    ensures !ValidFormat(SaveBatchFileName(data, now))
  {
    var batch := Pick(data, ["field_002", "me_so"], "XX");
    assert batch == "XX";
    BatchNameParts(DateText(now), batch, Pick(data, ["field_003", "tank_so"], "YY"), TimeText(now));
    assert !IsDigit(SaveBatchFileName(data, now)[13]);
  }

  // ---------------------------------------------------------------------
  // Migration

  /** An old-style name reads back as the date, batch and time it was built from. */
  lemma OldNameRoundTrip(d: string, b: string, time: string)
    requires IsDateText(d) && b != [] && IsDigits(b) && |time| == 6 && IsDigits(time)
    ensures ParseOldName(OldName(d, b, time)) == Some((d, b, time))
  {
    var s := OldName(d, b, time);
    var n := |s| - 13;
    assert s[..10] == d && s[10..14] == "__me";
    assert s[14..] == b + ("__" + (time + ".json"));
    assert s[14..n] == b && s[n..n + 2] == "__" && s[n + 2..n + 8] == time && s[n + 8..] == ".json";
  }

  /** What `ParseOldName` accepts is an old-style name of its three parts. */
  lemma ParseOldNameIsOld(s: string)
    requires ParseOldName(s).Some?
    ensures var (d, b, time) := ParseOldName(s).value; s == OldName(d, b, time)
  {
    var n := |s| - 13;
    assert s == s[..10] + s[10..14] + s[14..n] + s[n..n + 2] + s[n + 2..n + 8] + s[n + 8..];
  }

  /**
    * A migrated name passes the check when the numbers it is built from have
    * at most two digits (and the clock year has four).
    */
  lemma MigratedNameValid(original: string, data: Record, now: Moment)
    requires ValidMoment(now) && 1000 <= now.year < 10000
    requires ShortNumber(Pick(data, ["field_003", "tank_so"], "01"))
    requires ParseOldName(original).Some? ==> |ParseOldName(original).value.1| <= 2
    requires ParseOldName(original).None? ==> ShortNumber(Pick(data, ["field_002", "me_so"], "01"))
    ensures ValidFormat(MigratedName(original, data, now))
  {
    var tank := Pick(data, ["field_003", "tank_so"], "01");
    PaddedShort(tank);
    match ParseOldName(original)
    case Some((d, b, time)) =>
      PaddedShort(b);
      BatchNameFormat(d, Padded(b), Padded(tank), time);
    case None =>
      var b := Pick(data, ["field_002", "me_so"], "01");
      PaddedShort(b);
      BatchNameFormat(DateText(now), Padded(b), Padded(tank), TimeText(now));
  }

  // ---------------------------------------------------------------------
  // Reading names back

  lemma {:induction false} LeadingDigitsPrefix(d: string, rest: string)
    requires IsDigits(d) && rest != [] && !IsDigit(rest[0])
    ensures LeadingDigits(d + rest) == d
  {
    if d != [] {
      assert (d + rest)[1..] == d[1..] + rest;
      LeadingDigitsPrefix(d[1..], rest);
    }
  }

  /** `TaggedFrom` finds the first place the tag matches. */
  lemma {:induction false} TaggedFirst(s: string, tag: string, from: nat, i: nat)
    requires from <= i && TagAt(s, tag, i)
    requires forall j :: from <= j < i ==> !TagAt(s, tag, j)
    ensures TaggedFrom(s, tag, from) == Some(LeadingDigits(s[i + |tag|..]))
    decreases i - from
  {
    if from < i {
      TaggedFirst(s, tag, from + 1, i);
    }
  }

  /** A batch name is its front part followed by `_HHMMSS.json`. */
  lemma BatchNameSplit(d: string, b: string, t: string, time: string)
    ensures BatchName(d, b, t, time) == (d + "_me" + b + "_tank" + t) + ("_" + time + ".json")
    ensures BatchName(d, b, t, time) == d + ("_me" + b + "_tank" + t + "_" + time + ".json")
  {
  }

  lemma TimeSuffix(front: string, time: string)
    requires |time| == 6 && IsDigits(time)
    ensures HasTimeSuffix(front + ("_" + time + ".json"))
    ensures SuffixClock(front + ("_" + time + ".json")) == ClockText(time)
  {
    var s := front + ("_" + time + ".json");
    assert s[|s| - 12..] == "_" + time + ".json";
    assert s[|s| - 11..|s| - 5] == time;
  }

  /** The date, the time and (for the file manager) the timestamp read back from a batch name. */
  lemma TimeOfBatchName(d: string, b: string, t: string, time: string, today: string, nowIso: string)
    requires IsDateText(d) && |time| == 6 && IsDigits(time)
    ensures var s := BatchName(d, b, t, time);
      ParseDate(s) == d[8..10] + "/" + d[5..7] + "/" + d[..4] &&
      ListTime(s, today) == today + "T" + ClockText(time) + "Z" &&
      ManagerTime(s, nowIso) == d + "T" + ClockText(time) + "Z"
  {
    BatchNameSplit(d, b, t, time);
    var s := BatchName(d, b, t, time);
    var front := d + "_me" + b + "_tank" + t;
    assert s[..10] == d;
    assert s[8..10] == d[8..10] && s[5..7] == d[5..7] && s[..4] == d[..4];
    TimeSuffix(front, time);
  }

  /** No match of `tag` where its first or second character is missing. */
  lemma NotTagAt(s: string, tag: string, j: nat)
    requires 2 <= |tag| && j + 1 < |s|
    requires s[j] != tag[0] || s[j + 1] != tag[1]
    ensures !TagAt(s, tag, j)
  {
    if j + |tag| <= |s| {
      assert s[j..j + |tag|][0] == s[j] && s[j..j + |tag|][1] == s[j + 1];
    }
  }

  /** `parseMeFromFilename` reads back the batch number of a batch name. */
  lemma ParseMeOfBatchName(d: string, b: string, t: string, time: string)
    requires IsDateText(d) && b != [] && IsDigits(b) && |time| == 6
    ensures ParseMe(BatchName(d, b, t, time)) == b
  {
    var s := BatchName(d, b, t, time);
    var rest := "_tank" + t + "_" + time + ".json";
    assert s == d + ("_me" + (b + rest));
    assert s[..10] == d && s[10..13] == "_me" && s[13..] == b + rest;
    DateNoUnderscore(d);
    forall j | 0 <= j < 10 ensures !TagAt(s, "_me", j) {
      NotTagAt(s, "_me", j);
    }
    LeadingDigitsPrefix(b, rest);
    assert s[13 + |b|] == '_';
    TaggedFirst(s, "_me", 0, 10);
  }

  /** No `_tank` starts inside `YYYY-MM-DD_me<digits>`. */
  lemma NoTankBefore(d: string, b: string, tail: string)
    requires IsDateText(d) && IsDigits(b) && 2 <= |tail|
    ensures forall j :: 0 <= j < 13 + |b| ==> !TagAt(d + "_me" + b + tail, "_tank", j)
  {
    var s := d + "_me" + b + tail;
    DateNoUnderscore(d);
    forall j | 0 <= j < 13 + |b| ensures !TagAt(s, "_tank", j) {
      if j < 10 {
        assert s[j] == d[j];
      } else if j < 13 {
        assert s[j] == "_me"[j - 10] && s[j + 1] == ("_me" + b + tail)[j - 9];
      } else {
        assert s[j] == b[j - 13];
      }
      NotTagAt(s, "_tank", j);
    }
  }

  /** `parseTankFromFilename` reads back the tank number of a batch name. */
  lemma ParseTankOfBatchName(d: string, b: string, t: string, time: string)
    requires IsDateText(d) && IsDigits(b) && t != [] && IsDigits(t) && |time| == 6
    ensures ParseTank(BatchName(d, b, t, time)) == t
  {
    var rest := "_" + time + ".json";
    var tail := "_tank" + (t + rest);
    var s := d + "_me" + b + tail;
    var i := 13 + |b|;
    assert s == BatchName(d, b, t, time);
    assert s[i..] == tail;
    NoTankBefore(d, b, tail);
    TankTagHere(s, i, t, rest);
    TaggedFirst(s, "_tank", 0, i);
  }

  /** `_tank`, digits and `_` at `i` make a tank tag there, with those digits. */
  lemma TankTagHere(s: string, i: nat, t: string, rest: string)
    requires i <= |s| && s[i..] == "_tank" + (t + rest)
    requires t != [] && IsDigits(t) && rest != [] && rest[0] == '_'
    ensures TagAt(s, "_tank", i) && LeadingDigits(s[i + 5..]) == t
  {
    assert s[i..i + 5] == "_tank" && s[i + 5..] == t + rest;
    LeadingDigitsPrefix(t, rest);
    assert s[i + 5 + |t|] == '_';
  }

  /** The only underscores of a batch name are the three separators. */
  lemma Underscores(d: string, b: string, t: string, time: string)
    requires IsDateText(d) && IsDigits(b) && IsDigits(t) && |time| == 6 && IsDigits(time)
    ensures var s := BatchName(d, b, t, time);
      forall j :: 0 <= j < |s| && s[j] == '_' ==> j == 10 || j == 13 + |b| || j == 18 + |b| + |t|
  {
    var s := d + "_me" + b + "_tank" + t + "_" + time + ".json";
    assert s == BatchName(d, b, t, time);
    DateNoUnderscore(d);
    assert forall j :: 0 <= j < |s| && s[j] == '_' ==> j == 10 || j == 13 + |b| || j == 18 + |b| + |t|;
  }

  /** Two digit strings each followed by `_` at the same place are equal. */
  lemma SameDigitsBefore(s: string, i: nat, p: string, q: string)
    requires IsDigits(p) && IsDigits(q)
    requires i + |p| < |s| && s[i..i + |p|] == p && s[i + |p|] == '_'
    requires i + |q| < |s| && s[i..i + |q|] == q && s[i + |q|] == '_'
    ensures p == q
  {
  }

  /** The tank filter of the file manager keeps every batch name of the given tank. */
  lemma TankFileOwnTank(d: string, b: string, t: string, time: string, tank: nat)
    requires IsDateText(d) && t == Padded(NatToString(tank))
    ensures TankFile(BatchName(d, b, t, time), tank)
  {
    BatchNameTagged(d, b, t, time);
  }

  /** A batch name carries its tank tag and ends in `.json`. */
  lemma BatchNameTagged(d: string, b: string, t: string, time: string)
    ensures Includes(BatchName(d, b, t, time), "_tank" + t + "_")
    ensures EndsWith(BatchName(d, b, t, time), ".json")
  {
    var sub := "_tank" + t + "_";
    var front := d + "_me" + b;
    assert BatchName(d, b, t, time) == front + sub + (time + ".json");
    assert BatchName(d, b, t, time) == (front + sub + time) + ".json";
    IncludesMiddle(front, sub, time + ".json");
    EndsWithLast(front + sub + time, ".json");
  }

  /** A piece between two others is included in the whole. */
  lemma IncludesMiddle(x: string, sub: string, y: string)
    ensures Includes(x + sub + y, sub)
  {
    var s := x + sub + y;
    assert s[|x|..|x| + |sub|] == sub;
    assert OccursAt(s, sub, |x|);
  }

  /** A string ends with its last piece. */
  lemma EndsWithLast(x: string, e: string)
    ensures EndsWith(x + e, e)
  {
    assert (x + e)[|x|..] == e;
  }

  /** Where `_tank<p>_` occurs, `p` is followed by an underscore. */
  lemma OccursTank(s: string, p: string, j: nat)
    requires OccursAt(s, "_tank" + p + "_", j)
    ensures j + 1 < |s| && s[j] == '_' && s[j + 1] == 't'
    ensures s[j + 5..j + 5 + |p|] == p && s[j + 5 + |p|] == '_'
  {
    var sub := "_tank" + p + "_";
    var window := s[j..j + |sub|];
    assert window == sub;
    assert window[0] == s[j] && window[1] == s[j + 1] && window[5 + |p|] == s[j + 5 + |p|];
    assert sub == "_tank" + (p + "_") && sub[5..] == p + "_";
    assert sub[5..5 + |p|] == (p + "_")[..|p|] == p;
    SliceOfSlice(s, j, j + |sub|, 5, 5 + |p|, j + 5, j + 5 + |p|);
  }

  /** A slice of a slice is a slice of the whole. */
  lemma SliceOfSlice(s: string, i: nat, k: nat, a: nat, c: nat, ia: nat, ic: nat)
    requires i <= k <= |s| && a <= c <= k - i && ia == i + a && ic == i + c
    ensures s[i..k][a..c] == s[ia..ic]
  {
    var l, r := s[i..k][a..c], s[ia..ic];
    assert |l| == |r|;
    forall x | 0 <= x < |l| ensures l[x] == r[x] {
      assert l[x] == s[i..k][a + x] == s[i + a + x];
    }
  }

  /** The only `_t` in a batch name opens `_tank`, and the tank number follows it. */
  lemma TankAt(d: string, b: string, t: string, time: string, j: nat)
    requires IsDateText(d) && IsDigits(b) && IsDigits(t) && |time| == 6 && IsDigits(time)
    requires var s := BatchName(d, b, t, time); j + 1 < |s| && s[j] == '_' && s[j + 1] == 't'
    ensures j == 13 + |b|
    ensures var s := BatchName(d, b, t, time); s[j + 5..j + 5 + |t|] == t && s[j + 5 + |t|] == '_'
  {
    BatchNameParts(d, b, t, time);
    Underscores(d, b, t, time);
    if j == 10 || j == 18 + |b| + |t| {
      assert false;
    }
  }

  /** The tank filter of the file manager keeps no batch name of another tank. */
  lemma TankFileOnlyOwnTank(d: string, b: string, t: string, time: string, tank: nat)
    requires IsDateText(d) && IsDigits(b) && IsDigits(t) && |time| == 6 && IsDigits(time)
    requires TankFile(BatchName(d, b, t, time), tank)
    ensures t == Padded(NatToString(tank))
  {
    var s := BatchName(d, b, t, time);
    var p := Padded(NatToString(tank));
    PadDigits(NatToString(tank), 2);
    assert Contains(s, "_tank" + p + "_");
    var j :| 0 <= j <= |s| && OccursAt(s, "_tank" + p + "_", j);
    TankDigitsAt(d, b, t, time, p, j);
  }

  /** Wherever `_tank<p>_` occurs in a batch name, `p` is its tank part. */
  lemma TankDigitsAt(d: string, b: string, t: string, time: string, p: string, j: nat)
    requires IsDateText(d) && IsDigits(b) && IsDigits(t) && |time| == 6 && IsDigits(time) && IsDigits(p)
    requires OccursAt(BatchName(d, b, t, time), "_tank" + p + "_", j)
    ensures p == t
  {
    var s := BatchName(d, b, t, time);
    OccursTank(s, p, j);
    TankAt(d, b, t, time, j);
    SameDigitsBefore(s, j + 5, p, t);
  }

  lemma PaddedDigits(s: string)
    requires IsDigits(s)
    ensures Padded(s) != [] && IsDigits(Padded(s))
  {
    PadDigits(s, 2);
  }

  // ---------------------------------------------------------------------
  // The River sheet's names read back

  /**
    * The batch list and the file manager read back from a River name the
    * padded batch and tank numbers, the date and the time it was saved.
    */
  lemma RiverFileNameReadBack(data: Record, tab: nat, now: Moment, today: string, nowIso: string)
    requires ValidMoment(now) && 1000 <= now.year < 10000
    requires IsDigits(Pick(data, ["field_002", "me_so"], NatToString(tab)))
    requires IsDigits(Pick(data, ["field_003", "tank_so"], "00"))
    ensures var s := RiverFileName(data, tab, now);
      var clock := Pad2(now.hour) + ":" + Pad2(now.minute) + ":" + Pad2(now.second);
      ParseMe(s) == Padded(Pick(data, ["field_002", "me_so"], NatToString(tab))) &&
      ParseTank(s) == Padded(Pick(data, ["field_003", "tank_so"], "00")) &&
      ParseDate(s) == Pad2(now.day) + "/" + Pad2(now.month) + "/" + NatToString(now.year) &&
      ListTime(s, today) == today + "T" + clock + "Z" &&
      ManagerTime(s, nowIso) == DateText(now) + "T" + clock + "Z"
  {
    var d, time := DateText(now), TimeText(now);
    var b := Padded(Pick(data, ["field_002", "me_so"], NatToString(tab)));
    var t := Padded(Pick(data, ["field_003", "tank_so"], "00"));
    PaddedDigits(Pick(data, ["field_002", "me_so"], NatToString(tab)));
    PaddedDigits(Pick(data, ["field_003", "tank_so"], "00"));
    NowTexts(now);
    ParseMeOfBatchName(d, b, t, time);
    ParseTankOfBatchName(d, b, t, time);
    TimeOfBatchName(d, b, t, time, today, nowIso);
  }

  /** The date and clock texts of a moment, piece by piece. */
  lemma NowTexts(now: Moment)
    requires ValidMoment(now) && 1000 <= now.year < 10000
    ensures ClockText(TimeText(now)) == Pad2(now.hour) + ":" + Pad2(now.minute) + ":" + Pad2(now.second)
    ensures var d := DateText(now); d[8..10] == Pad2(now.day) && d[5..7] == Pad2(now.month) && d[..4] == NatToString(now.year)
  {
    var d := DateText(now);
    assert d[8..10] == d[8..];
  }

  /** The file manager lists a River name under exactly the tank it was saved for. */
  lemma RiverFileNameTank(data: Record, tab: nat, now: Moment, tank: nat)
    requires ValidMoment(now) && 1000 <= now.year < 10000
    requires IsDigits(Pick(data, ["field_002", "me_so"], NatToString(tab)))
    requires IsDigits(Pick(data, ["field_003", "tank_so"], "00"))
    ensures TankFile(RiverFileName(data, tab, now), tank) <==>
      Padded(Pick(data, ["field_003", "tank_so"], "00")) == Padded(NatToString(tank))
  {
    var d, time := DateText(now), TimeText(now);
    var b := Padded(Pick(data, ["field_002", "me_so"], NatToString(tab)));
    var t := Padded(Pick(data, ["field_003", "tank_so"], "00"));
    PaddedDigits(Pick(data, ["field_002", "me_so"], NatToString(tab)));
    PaddedDigits(Pick(data, ["field_003", "tank_so"], "00"));
    if t == Padded(NatToString(tank)) {
      TankFileOwnTank(d, b, t, time, tank);
    }
    if TankFile(RiverFileName(data, tab, now), tank) {
      TankFileOnlyOwnTank(d, b, t, time, tank);
    }
  }

  /**
    * A migrated old name keeps its date, time and (padded) batch number, as
    * the batch list and the file manager read them.
    */
  lemma MigratedNameReadBack(original: string, data: Record, now: Moment, nowIso: string)
    requires ValidMoment(now) && ParseOldName(original).Some?
    requires IsDigits(Pick(data, ["field_003", "tank_so"], "01"))
    ensures var (d, b, time) := ParseOldName(original).value;
      var s := MigratedName(original, data, now);
      ParseMe(s) == Padded(b) && ParseTank(s) == Padded(Pick(data, ["field_003", "tank_so"], "01")) &&
      ManagerTime(s, nowIso) == d + "T" + ClockText(time) + "Z"
  {
    var (d, b, time) := ParseOldName(original).value;
    var t := Padded(Pick(data, ["field_003", "tank_so"], "01"));
    PaddedDigits(b);
    PaddedDigits(Pick(data, ["field_003", "tank_so"], "01"));
    ParseMeOfBatchName(d, Padded(b), t, time);
    ParseTankOfBatchName(d, Padded(b), t, time);
    TimeOfBatchName(d, Padded(b), t, time, "", nowIso);
  }
}
