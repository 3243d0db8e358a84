/**
  * The filter log of one tank for one day: lots are added one at a time,
  * each numbered `tank.bbt.k` after the lots already filtered through the
  * same bright-beer tank (BBT); the saved file carries the total filtered
  * volume; closing marks the log closed; a copy from the server replaces
  * the local one only when it is longer or its closed flag differs.
  */
module FilterLog {
  import opened Js
  import opened JsNum

  /** One entry of `lo_list`. */
  datatype Lot = Lot(code: string, bbt: string, volume: string, co2: string, time: string, timestamp: string)

  /** The outcome of `handleAdd`: an alert, or the lot added. */
  datatype AddOutcome = MissingInfo | NotPositive | Added(lot: Lot)

  /** The lots filtered through `bbt`. */
  function OfBbt(bbt: string): Lot -> bool {
    (lot: Lot) => lot.bbt == bbt
  }

  /** The number of lots filtered through `bbt`. */
  function SameBbt(lots: seq<Lot>, bbt: string): (n: nat)
    ensures n == |Where(lots, OfBbt(bbt))| && n <= |lots|
  {
    if lots == [] then 0
    else
      WhereLast(lots, OfBbt(bbt));
      SameBbt(lots[..|lots| - 1], bbt) + (if lots[|lots| - 1].bbt == bbt then 1 else 0)
  }

  /** `${tank}.${bbt}.${k}`. */
  function CodeFor(tank: string, bbt: string, k: nat): string {
    tank + "." + bbt + "." + NatToString(k)
  }

  /** Lot `i`'s code numbers it after the earlier lots of its BBT. */
  ghost predicate NumberedAt(lots: seq<Lot>, tank: string, i: nat)
    requires i < |lots|
  {
    lots[i].code == CodeFor(tank, lots[i].bbt, SameBbt(lots[..i], lots[i].bbt) + 1)
  }

  /** Every lot's code numbers it after the earlier lots of its BBT. */
  ghost predicate WellNumbered(lots: seq<Lot>, tank: string) {
    forall i: nat :: i < |lots| ==> NumberedAt(lots, tank, i)
  }

  /** `parseFloat(item.volume || 0)`. */
  function VolumeOf(lot: Lot): Num {
    ParseFloat(OrElse(lot.volume, "0"))
  }

  /** `total_volume_filtered`: the lots' volumes added up in order, from 0. */
  function TotalFiltered(lots: seq<Lot>): Num {
    if lots == [] then Fin(0.0) else Add(TotalFiltered(lots[..|lots| - 1]), VolumeOf(lots[|lots| - 1]))
  }

  /** A lot added raises the total by its volume as `parseFloat` reads it, an empty volume as 0. */
  lemma TotalAfterAdd(lots: seq<Lot>, lot: Lot)
    ensures TotalFiltered(lots + [lot]) == Add(TotalFiltered(lots), ParseFloat(OrElse(lot.volume, "0")))
    ensures lot.volume == "" ==> TotalFiltered(lots + [lot]) == Add(TotalFiltered(lots), Fin(0.0))
  {
    assert (lots + [lot])[..|lots|] == lots;
    if lot.volume == "" {
      ParseFloatNat(0);
      assert NatToString(0) == "0";
    }
  }

  /** A lot with a whole-number volume raises the total by that number. */
  lemma TotalAfterAddWhole(lots: seq<Lot>, lot: Lot, n: nat)
    requires lot.volume == NatToString(n)
    ensures TotalFiltered(lots + [lot]) == Add(TotalFiltered(lots), Fin(n as real))
  {
    TotalAfterAdd(lots, lot);
    ParseFloatNat(n);
  }

  // ---------------------------------------------------------------------
  // Codes

  predicate NoDot(s: string) {
    forall i :: 0 <= i < |s| ==> s[i] != '.'
  }

  /** Splitting at the last dot: the parts after it are dot-free, so they agree. */
  lemma LastDot(x: string, a: string, y: string, b: string)
    requires x != [] && x[|x| - 1] == '.' && y != [] && y[|y| - 1] == '.'
    requires NoDot(a) && NoDot(b) && x + a == y + b
    ensures x == y && a == b
  {
    var s := x + a;
    if |a| != |b| {
      assert false;
    }
    assert x == s[..|x|] && y == (y + b)[..|y|];
    assert a == s[|x|..] && b == (y + b)[|y|..];
  }

  /** `n.toString()` tells numbers apart. */
  lemma NatToStringInjective(m: nat, n: nat)
    requires NatToString(m) == NatToString(n)
    ensures m == n
  {
    NatToStringRoundTrip(m);
    NatToStringRoundTrip(n);
  }

  /** The code determines the BBT and the number. */
  lemma CodeInjective(tank: string, b1: string, k1: nat, b2: string, k2: nat)
    requires CodeFor(tank, b1, k1) == CodeFor(tank, b2, k2)
    ensures b1 == b2 && k1 == k2
  {
    var x, y := tank + "." + b1 + ".", tank + "." + b2 + ".";
    var s1, s2 := NatToString(k1), NatToString(k2);
    assert NoDot(s1) && NoDot(s2);
    assert x + s1 == CodeFor(tank, b1, k1) && y + s2 == CodeFor(tank, b2, k2);
    LastDot(x, s1, y, s2);
    NatToStringInjective(k1, k2);
    assert b1 == x[|tank| + 1..|x| - 1] && b2 == y[|tank| + 1..|y| - 1];
  }

  /** The count over a longer prefix takes in the lots in between. */
  lemma {:induction false} CountGrows(lots: seq<Lot>, i: nat, j: nat)
    requires i < j <= |lots|
    ensures SameBbt(lots[..j], lots[i].bbt) > SameBbt(lots[..i], lots[i].bbt)
    decreases j - i
  {
    var b := lots[i].bbt;
    assert lots[..j][..j - 1] == lots[..j - 1];
    if j == i + 1 {
      assert lots[..j][j - 1] == lots[i];
    } else {
      CountGrows(lots, i, j - 1);
    }
  }

  /** Numbered lots have distinct codes. */
  lemma CodesDistinct(lots: seq<Lot>, tank: string)
    requires WellNumbered(lots, tank)
    ensures forall i, j :: 0 <= i < j < |lots| ==> lots[i].code != lots[j].code
  {
    forall i, j | 0 <= i < j < |lots| ensures lots[i].code != lots[j].code {
      assert NumberedAt(lots, tank, i) && NumberedAt(lots, tank, j);
      if lots[i].code == lots[j].code {
        var ki, kj := SameBbt(lots[..i], lots[i].bbt) + 1, SameBbt(lots[..j], lots[j].bbt) + 1;
        CodeInjective(tank, lots[i].bbt, ki, lots[j].bbt, kj);
        CountGrows(lots, i, j);
      }
    }
  }

  /** Appending a lot numbered after the lots of its BBT keeps the list numbered. */
  lemma NumberedAppend(lots: seq<Lot>, tank: string, lot: Lot)
    requires WellNumbered(lots, tank)
    requires lot.code == CodeFor(tank, lot.bbt, SameBbt(lots, lot.bbt) + 1)
    ensures WellNumbered(lots + [lot], tank)
  {
    var all := lots + [lot];
    forall i: nat | i < |all| ensures NumberedAt(all, tank, i) {
      if i < |lots| {
        assert NumberedAt(lots, tank, i);
        assert all[..i] == lots[..i] && all[i] == lots[i];
      } else {
        assert all[..i] == lots && all[i] == lot;
      }
    }
  }

  /** `data.filter(d => d.bbt === bbt).length`. */
  method CountBbt(lots: seq<Lot>, bbt: string) returns (count: nat)
    ensures count == SameBbt(lots, bbt)
  {
    count := 0;
    for i := 0 to |lots|
      invariant count == SameBbt(lots[..i], bbt)
    {
      assert lots[..i + 1][..i] == lots[..i];
      if lots[i].bbt == bbt {
        count := count + 1;
      }
    }
    assert lots[..|lots|] == lots;
  }

  // ---------------------------------------------------------------------
  // The screen

  /** The log of tank `tank` for the day: `lo_list` and `da_dong`. */
  class Log {
    const tank: string
    var lots: seq<Lot>
    var closed: bool

    /** The codes follow the numbering rule. */
    ghost predicate Valid()
      reads this
    {
      WellNumbered(lots, tank)
    }

    /** A day without a file: no lots, not closed. */
    constructor (tank: string)
      ensures this.tank == tank && lots == [] && !closed
      ensures Valid()
    {
      this.tank := tank;
      lots := [];
      closed := false;
    }

    /**
      * `handleAdd`: BBT, volume and CO2 must all be given and the volume a
      * positive number; the lot is then appended, numbered after the lots
      * of its BBT, with the volume as `String` prints it. `time` and
      * `timestamp` are the clock's readings.
      */
    method Add(bbt: string, volume: string, co2: string, time: string, timestamp: string, show: real -> string)
      returns (outcome: AddOutcome)
      modifies this
      ensures bbt == "" || volume == "" || co2 == "" ==> outcome == MissingInfo
      ensures bbt != "" && volume != "" && co2 != "" && !Positive(ParseFloat(volume)) ==> outcome == NotPositive
      ensures outcome.Added? <==> bbt != "" && volume != "" && co2 != "" && Positive(ParseFloat(volume))
      ensures outcome.Added? ==> outcome.lot == Lot(CodeFor(tank, bbt, SameBbt(old(lots), bbt) + 1), bbt,
                                                   Show(ParseFloat(volume), show), co2, time, timestamp)
      ensures outcome.Added? ==> lots == old(lots) + [outcome.lot]
      ensures !outcome.Added? ==> lots == old(lots)
      ensures closed == old(closed)
      ensures old(Valid()) ==> Valid()
    {
      if bbt == "" || volume == "" || co2 == "" {
        return MissingInfo;
      }
      var v := ParseFloat(volume);
      if !Positive(v) {
        return NotPositive;
      }
      var lot := AppendFor(bbt, Show(v, show), co2, time, timestamp);
      outcome := Added(lot);
    }

    /** Appends the next lot of `bbt`, numbered after the lots of that BBT. */
    method AppendFor(bbt: string, volume: string, co2: string, time: string, timestamp: string) returns (lot: Lot)
      modifies this
      ensures lot == Lot(CodeFor(tank, bbt, SameBbt(old(lots), bbt) + 1), bbt, volume, co2, time, timestamp)
      ensures lots == old(lots) + [lot] && closed == old(closed)
      ensures old(Valid()) ==> Valid()
    {
      var count := CountBbt(lots, bbt);
      lot := Lot(CodeFor(tank, bbt, count + 1), bbt, volume, co2, time, timestamp);
      if WellNumbered(lots, tank) {
        NumberedAppend(lots, tank, lot);
      }
      lots := lots + [lot];
    }

    /** `confirmCloseLog`: the log is saved closed; the result is the total filtered volume. */
    method Close() returns (total: Num)
      modifies this
      ensures closed && lots == old(lots)
      ensures total == TotalFiltered(lots)
      ensures old(Valid()) ==> Valid()
    {
      total := TotalFiltered(lots);
      closed := true;
    }

    /**
      * `syncFromServerOnStartup` as written: it runs from the closure of the
      * screen's first render, so the `data` and `daDong` it compares with
      * are the initial `[]` and `false`, not the lots the local file gave.
      * The server copy is therefore taken whenever it has a lot or is
      * closed, whatever the log holds.
      */
    method SyncAsWritten(serverLots: seq<Lot>, serverClosed: bool) returns (replaced: bool)
      modifies this
      ensures replaced <==> |serverLots| > 0 || serverClosed
      ensures replaced ==> lots == serverLots && closed == serverClosed
      ensures !replaced ==> lots == old(lots) && closed == old(closed)
    {
      replaced := |serverLots| > 0 || serverClosed != false;
      if replaced {
        lots := serverLots;
        closed := serverClosed;
      }
    }

    /**
      * The sync as intended: the server copy replaces the log when it has
      * more lots than the log holds or a different closed flag, and is
      * ignored otherwise, so a longer local log is never lost unless the
      * closed flags differ.
      */
    method Sync(serverLots: seq<Lot>, serverClosed: bool) returns (replaced: bool)
      modifies this
      ensures replaced <==> |serverLots| > |old(lots)| || serverClosed != old(closed)
      ensures replaced ==> lots == serverLots && closed == serverClosed
      ensures !replaced ==> lots == old(lots) && closed == old(closed)
      ensures serverClosed == old(closed) ==> |lots| >= |old(lots)|
    {
      replaced := |serverLots| > |lots| || serverClosed != closed;
      if replaced {
        lots := serverLots;
        closed := serverClosed;
      }
    }
  }

  /**
    * A day whose local file holds three open lots while the server has one
    * open lot: the sync as written replaces the three lots by the server's
    * one, where the intended sync keeps the three.
    */
  method SyncDropsLocalLots() returns (asWritten: nat, intended: nat)
    ensures asWritten == 1 && intended == 3
  {
    var server := Lot("01.1.1", "1", "50", "5", "09:00", "t0");
    var a := new Log("01");
    var b := new Log("01");
    var lot := a.AppendFor("1", "100", "5", "08:00", "t1");
    lot := a.AppendFor("1", "100", "5", "08:10", "t2");
    lot := a.AppendFor("2", "100", "5", "08:20", "t3");
    lot := b.AppendFor("1", "100", "5", "08:00", "t1");
    lot := b.AppendFor("1", "100", "5", "08:10", "t2");
    lot := b.AppendFor("2", "100", "5", "08:20", "t3");
    var replaced := a.SyncAsWritten([server], false);
    replaced := b.Sync([server], false);
    asWritten := |a.lots|;
    intended := |b.lots|;
  }
}
