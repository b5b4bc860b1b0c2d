/**
  The countdown shown during a timed test: the milliseconds left until the
  end time, a latch that reports expiry to the page once, and the
  `HH:MM:SS` rendering with its low-time warning.
*/
module Countdown {
  import opened Wrappers
  import opened Text

  const MillisPerSecond: nat := 1000
  const MillisPerMinute: nat := 60 * 1000
  const MillisPerHour: nat := 60 * 60 * 1000
  /** Below five minutes left, the timer turns red. */
  const LowTimeMillis: nat := 5 * 60 * 1000

  /** `Math.max(0, difference)`. */
  function Remaining(endTime: int, now: int): (r: nat)
    ensures r >= endTime - now
    ensures r == 0 || r == endTime - now
  {
    if endTime - now > 0 then endTime - now else 0
  }

  /**
    The timer's state: `timeLeft` and `expired` as in the component, and
    `expireCalls`, the number of times `onExpire` has been called. The clock
    is the `now` argument of each tick.
  */
  class CountdownTimer {
    const endTime: int
    var timeLeft: nat
    var expired: bool
    var expireCalls: nat

    /** `onExpire` has been called at most once, and exactly when the latch is set. */
    ghost predicate Valid()
      reads this
    {
      expireCalls <= 1 && (expireCalls == 1 <==> expired)
    }

    constructor (endTime: int)
      ensures Valid() && this.endTime == endTime && timeLeft == 0 && !expired && expireCalls == 0
    {
      this.endTime := endTime;
      timeLeft := 0;
      expired := false;
      expireCalls := 0;
    }

    /**
      `calculateTimeLeft` at clock reading `now`: the milliseconds left, never
      negative; at or past the end with the latch unset it sets the latch and
      calls `onExpire`, otherwise neither.
    */
    method CalculateTimeLeft(now: int) returns (r: nat)
      requires Valid()
      modifies this
      ensures Valid()
      ensures r == Remaining(endTime, now)
      ensures expired == (old(expired) || endTime - now <= 0)
      ensures expireCalls == old(expireCalls) + if endTime - now <= 0 && !old(expired) then 1 else 0
      ensures timeLeft == old(timeLeft)
    {
      var difference := endTime - now;
      if difference <= 0 && !expired {
        expired := true;
        expireCalls := expireCalls + 1;
        return 0;
      }
      return Remaining(endTime, now);
    }

    /** One tick of the interval (or the effect's first run): `setTimeLeft(calculateTimeLeft())`. */
    method Tick(now: int)
      requires Valid()
      modifies this
      ensures Valid()
      ensures timeLeft == Remaining(endTime, now)
      ensures expired == (old(expired) || endTime - now <= 0)
      ensures expireCalls == old(expireCalls) + if endTime - now <= 0 && !old(expired) then 1 else 0
    {
      timeLeft := CalculateTimeLeft(now);
    }

    /** The text in the timer. */
    function Shown(): (r: string)
      reads this
      ensures expired ==> r == "00:00:00"
    {
      Display(expired, timeLeft)
    }
  }

  /** `Math.floor(timeLeft / 3600000)`. */
  function Hours(t: nat): nat { t / MillisPerHour }

  /** `Math.floor((timeLeft % 3600000) / 60000)`. */
  function Minutes(t: nat): nat { (t % MillisPerHour) / MillisPerMinute }

  /** `Math.floor((timeLeft % 60000) / 1000)`. */
  function Seconds(t: nat): nat { (t % MillisPerMinute) / MillisPerSecond }

  /** The three fields are the time left truncated to the second, with minutes and seconds below 60. */
  lemma Decomposition(t: nat)
    ensures Minutes(t) < 60 && Seconds(t) < 60
    ensures var whole := Hours(t) * MillisPerHour + Minutes(t) * MillisPerMinute + Seconds(t) * MillisPerSecond;
            whole <= t < whole + MillisPerSecond
  {
    var h, r := t / 3600000, t % 3600000;
    var m, r2 := r / 60000, r % 60000;
    assert t == 60000 * (60 * h + m) + r2;
    assert r2 == t % 60000;
  }

  /** `timeLeft < 5 * 60 * 1000 && timeLeft > 0`. */
  predicate IsLowTime(t: nat) {
    t < LowTimeMillis && t > 0
  }

  /** The warning shows exactly when the clock reads `00:0m:ss` with m below 5 and the time is not up. */
  lemma LowTimeOnDisplay(t: nat)
    ensures IsLowTime(t) <==> t > 0 && Hours(t) == 0 && Minutes(t) < 5
  {
    Decomposition(t);
    if t < LowTimeMillis {
      assert Hours(t) == 0;
      assert Minutes(t) == t / MillisPerMinute;
    }
  }

  /** `expired ? '00:00:00' : HH:MM:SS` with each field `padStart(2, '0')`. */
  function Display(expired: bool, t: nat): string {
    if expired then "00:00:00"
    else Pad2(Hours(t)) + ":" + Pad2(Minutes(t)) + ":" + Pad2(Seconds(t))
  }

  /** A field of digits read as a decimal number, or nothing if it holds anything but digits. */
  function FieldValue(s: string): (r: Option<nat>)
    ensures r.Some? <==> forall i :: 0 <= i < |s| ==> IsDecimalDigit(s[i])
  {
    if forall i :: 0 <= i < |s| ==> IsDecimalDigit(s[i]) then Some(DigitsValue(s, 10)) else None
  }

  /**
    Before expiry the display reads back as the time left: the last two
    digits are the seconds, the two before the last colon the minutes, and
    everything before the first colon the hours (two digits below 100 hours).
  */
  lemma DisplayReadsBack(t: nat)
    ensures var r := Display(false, t);
            && |r| >= 8 && r[|r| - 3] == ':' && r[|r| - 6] == ':'
            && FieldValue(r[|r| - 2..]) == Some(Seconds(t))
            && FieldValue(r[|r| - 5..|r| - 3]) == Some(Minutes(t))
            && FieldValue(r[..|r| - 6]) == Some(Hours(t))
            && (|r| == 8 <==> Hours(t) < 100)
  {
    Decomposition(t);
    Pad2Value(Hours(t));
    Pad2Value(Minutes(t));
    Pad2Value(Seconds(t));
    var h, m, s := Pad2(Hours(t)), Pad2(Minutes(t)), Pad2(Seconds(t));
    assert Display(false, t) == h + ":" + m + ":" + s;
    ClockFields(h, m, s);
  }

  /** The three fields of `h:mm:ss` are found again by counting from the end. */
  lemma ClockFields(h: string, m: string, s: string)
    requires |m| == 2 && |s| == 2
    ensures var r := h + ":" + m + ":" + s;
            && |r| == |h| + 6 && r[|r| - 3] == ':' && r[|r| - 6] == ':'
            && r[|r| - 2..] == s && r[|r| - 5..|r| - 3] == m && r[..|r| - 6] == h
  {
    var r := h + ":" + m + ":" + s;
    var k := |h|;
    assert r[k] == ':' && r[k + 3] == ':';
    assert r[k + 4..] == s by {
      forall i | 0 <= i < 2 ensures r[k + 4 + i] == s[i] {}
    }
    assert r[k + 1..k + 3] == m by {
      forall i | 0 <= i < 2 ensures r[k + 1 + i] == m[i] {}
    }
    assert r[..k] == h;
  }

  /** Once expired the display is all zeros, whatever the time left. */
  lemma ExpiredDisplay(t: nat)
    ensures Display(true, t) == "00:00:00"
    ensures Display(false, 0) == "00:00:00"
  {
    Pad2Value(0);
    assert Pad2(0) == "00";
  }
}
