/**
 * The countdown clock of a network game: whole seconds counted down once
 * per interval while enabled, never below zero, with a low-time sound at
 * 59 seconds; and its `mm:ss` display, with a negative time standing for
 * a clock that has not started.
 */
module Clock {
  import opened Text

  const TotalMinutes: nat := 60

  /** The time after one interval tick. */
  function Countdown(time: int, enabled: bool): (r: int)
    ensures enabled && time > 0 ==> r == time - 1
    ensures !enabled || time <= 0 ==> r == time
    ensures time >= 0 ==> r >= 0
  {
    if enabled && time > 0 then time - 1 else time
  }

  /** The tick plays the low-time sound. */
  predicate PlaysDong(time: int, enabled: bool)
  {
    enabled && time == 59
  }

  /** The time after `n` enabled ticks. */
  function Ticks(time: int, n: nat): int
    decreases n
  {
    if n == 0 then time else Ticks(Countdown(time, true), n - 1)
  }

  /** How many of `n` enabled ticks play the sound. */
  function Dongs(time: int, n: nat): nat
    decreases n
  {
    if n == 0 then 0 else (if PlaysDong(time, true) then 1 else 0) + Dongs(Countdown(time, true), n - 1)
  }

  /** A running clock counts down one second per tick and stops at zero. */
  lemma {:induction false} TicksClamp(time: nat, n: nat)
    ensures Ticks(time, n) == if n <= time then time - n else 0
    decreases n
  {
    if n > 0 {
      TicksClamp(Countdown(time, true), n - 1);
    }
  }

  /**
   * Over a run of enabled ticks the sound plays exactly once if the run
   * passes through 59 seconds, and not at all otherwise.
   */
  lemma {:induction false} DongOnce(time: nat, n: nat)
    ensures Dongs(time, n) == if 59 <= time < 59 + n then 1 else 0
    decreases n
  {
    if n > 0 {
      DongOnce(Countdown(time, true), n - 1);
    }
  }

  /** A one-digit field gets a leading zero. */
  function Pad2(s: string): (r: string)
    ensures |s| == 1 ==> r == "0" + s
    ensures |s| != 1 ==> r == s
  {
    if |s| == 1 then "0" + s else s
  }

  function Minutes(time: nat): (r: nat)
    ensures r < TotalMinutes
  {
    time % (TotalMinutes * TotalMinutes) / TotalMinutes
  }

  function Seconds(time: nat): (r: nat)
    ensures r < TotalMinutes
  {
    time % TotalMinutes
  }

  /** Decimal notation of a number below 60 padded to two digits. */
  lemma FieldWidth(n: nat)
    requires n < 60
    ensures |Pad2(NatToString(n))| == 2
    ensures forall i :: 0 <= i < 2 ==> '0' <= Pad2(NatToString(n))[i] <= '9'
    ensures ParseNat(Pad2(NatToString(n))) == n
  {
    ParseNatToString(n);
    var s := NatToString(n);
    if n >= 10 {
      assert NatToString(n / 10) == [DigitChar(n / 10)];
    } else {
      assert ParseNat("0" + s) == DigitValue(s[0]);
    }
  }

  /** What the clock shows. */
  function Display(time: int, enabled: bool): (r: string)
    ensures time < 0 && enabled ==> r == "Waiting for player!"
    ensures time < 0 && !enabled ==> r == " "
    ensures time >= 0 ==> |r| == 5 && r[2] == ':'
    ensures time >= 0 ==> forall i :: 0 <= i < 5 && i != 2 ==> '0' <= r[i] <= '9'
  {
    if time < 0 then (if enabled then "Waiting for player!" else " ")
    else
      FieldWidth(Minutes(time));
      FieldWidth(Seconds(time));
      Pad2(NatToString(Minutes(time))) + ":" + Pad2(NatToString(Seconds(time)))
  }

  /**
   * The display of a started clock reads back as its time modulo an hour:
   * the first field is whole minutes, the second the seconds.
   */
  lemma DisplayReadsBack(time: nat, enabled: bool)
    ensures var r := Display(time, enabled);
      ParseNat(r[..2]) == Minutes(time) && ParseNat(r[3..]) == Seconds(time) &&
      ParseNat(r[..2]) * 60 + ParseNat(r[3..]) == time % 3600
  {
    FieldWidth(Minutes(time));
    FieldWidth(Seconds(time));
    var r := Display(time, enabled);
    assert r[..2] == Pad2(NatToString(Minutes(time)));
    assert r[3..] == Pad2(NatToString(Seconds(time)));
  }

  /**
   * The display as written drops whole hours: one hour on the clock reads
   * as no time left.
   */
  lemma HourWraps()
    ensures Display(3600, true) == "00:00"
  {
    assert Minutes(3600) == 0 && Seconds(3600) == 0;
    assert NatToString(0) == "0";
  }

  /** Any number padded to at least two digits reads back as itself. */
  lemma PaddedReadsBack(n: nat)
    ensures |Pad2(NatToString(n))| >= 2
    ensures ParseNat(Pad2(NatToString(n))) == n
  {
    ParseNatToString(n);
    var s := NatToString(n);
    if |s| == 1 {
      assert ParseNat("0" + s) == DigitValue(s[0]);
    }
  }

  /** The display with the minutes field counting every whole minute left. */
  function DisplayTotal(time: int, enabled: bool): (r: string)
    ensures time < 0 && enabled ==> r == "Waiting for player!"
    ensures time < 0 && !enabled ==> r == " "
    ensures time >= 0 ==> |r| >= 5 && r[|r| - 3] == ':'
  {
    if time < 0 then (if enabled then "Waiting for player!" else " ")
    else
      PaddedReadsBack(time / TotalMinutes);
      FieldWidth(Seconds(time));
      Pad2(NatToString(time / TotalMinutes)) + ":" + Pad2(NatToString(Seconds(time)))
  }

  /** The corrected display of a started clock reads back as its whole time. */
  lemma DisplayTotalReadsBack(time: nat, enabled: bool)
    ensures var r := DisplayTotal(time, enabled);
      ParseNat(r[..|r| - 3]) == time / 60 && ParseNat(r[|r| - 2..]) == Seconds(time) &&
      ParseNat(r[..|r| - 3]) * 60 + ParseNat(r[|r| - 2..]) == time
  {
    PaddedReadsBack(time / TotalMinutes);
    FieldWidth(Seconds(time));
    var r := DisplayTotal(time, enabled);
    var m := Pad2(NatToString(time / TotalMinutes));
    assert r == m + ":" + Pad2(NatToString(Seconds(time)));
    assert r[..|r| - 3] == m;
    assert r[|r| - 2..] == Pad2(NatToString(Seconds(time)));
  }

  class ClockView {
    /** `state.time`. */
    var time: int
    /** The `time` prop last received. */
    var propTime: int
    /** The `enabled` prop. */
    var enabled: bool

    constructor (time: int, enabled: bool)
      ensures this.time == time && propTime == time && this.enabled == enabled
    {
      this.time, propTime, this.enabled := time, time, enabled;
    }

    /** A changed `time` prop replaces the countdown; an unchanged one leaves it alone. */
    method ReceiveProps(nextTime: int, nextEnabled: bool)
      modifies this
      ensures propTime == nextTime && enabled == nextEnabled
      ensures time == if nextTime != old(propTime) then nextTime else old(time)
    {
      if propTime != nextTime {
        time := nextTime;
      }
      propTime, enabled := nextTime, nextEnabled;
    }

    /** The interval body; the result says whether the low-time sound plays. */
    method Tick() returns (playDong: bool)
      modifies this
      ensures playDong == PlaysDong(old(time), enabled)
      ensures time == Countdown(old(time), enabled)
      ensures propTime == old(propTime) && enabled == old(enabled)
    {
      playDong := false;
      if enabled {
        playDong := time == 59;
        if time > 0 {
          time := time - 1;
        }
      }
    }

  }
}
