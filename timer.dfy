/**
 * The chat countdown: remaining whole seconds until the chat expires,
 * split into hours, minutes and seconds, a one-second tick that
 * recomputes them, and the single call of the expiry callback.
 * Time is epoch milliseconds; the expiry timestamp arrives already parsed.
 */
module Timer {
  import opened Common
  import opened Strings

  /**
   * The `expiryTimestamp` prop after `parseISO`: missing or empty, a text
   * `parseISO` cannot read (it yields an Invalid Date, which is still a
   * truthy object), or an instant.
   */
  datatype Expiry = NoTimestamp | InvalidDate | At(ms: int)

  /** `differenceInSeconds(later, earlier)`: whole seconds, the fraction truncated toward zero. */
  function DifferenceInSeconds(laterMs: int, earlierMs: int): (r: int)
    ensures laterMs >= earlierMs ==> 0 <= r && r * 1000 <= laterMs - earlierMs < r * 1000 + 1000
    ensures laterMs < earlierMs ==> r <= 0 && r * 1000 - 1000 < laterMs - earlierMs <= r * 1000
  {
    var d := laterMs - earlierMs;
    if d >= 0 then d / 1000 else -((-d) / 1000)
  }

  /** The `timeLeft` state; `NotANumber` is the object whose fields are all NaN. */
  datatype TimeLeft = Remaining(total: int, hours: nat, minutes: nat, seconds: nat) | NotANumber

  predicate Expired(t: TimeLeft) {
    t.Remaining? && t.total <= 0
  }

  /** The fields split the total exactly into hours, minutes below 60 and seconds below 60. */
  predicate Decomposes(t: TimeLeft) {
    t.Remaining? && t.hours * 3600 + t.minutes * 60 + t.seconds == t.total
    && t.minutes < 60 && t.seconds < 60
  }

  lemma DecomposeSeconds(total: nat)
    ensures (total / 3600) * 3600 + ((total % 3600) / 60) * 60 + total % 60 == total
    ensures (total % 3600) / 60 < 60
  {
    var h, rest := total / 3600, total % 3600;
    assert total == h * 3600 + rest;
    var m, s := rest / 60, rest % 60;
    assert rest == m * 60 + s;
    assert total % 60 == s by {
      assert total == (h * 60 + m) * 60 + s;
    }
  }

  /**
   * `calculateTimeLeft()`: null without a timestamp; the all-zero value
   * once the difference is not positive; otherwise the difference and its
   * split into hours, minutes and seconds.
   */
  function CalculateTimeLeft(expiry: Expiry, nowMs: int): (r: Option<TimeLeft>)
    ensures r.None? <==> expiry.NoTimestamp?
    ensures expiry.InvalidDate? ==> r == Some(NotANumber)
    ensures expiry.At? && DifferenceInSeconds(expiry.ms, nowMs) <= 0 ==> r == Some(Remaining(0, 0, 0, 0))
    ensures expiry.At? && DifferenceInSeconds(expiry.ms, nowMs) > 0 ==>
      r.Some? && Decomposes(r.value) && r.value.total == DifferenceInSeconds(expiry.ms, nowMs)
  {
    match expiry
    case NoTimestamp => None
    case InvalidDate => Some(NotANumber)
    case At(ms) =>
      var total := DifferenceInSeconds(ms, nowMs);
      if total <= 0 then Some(Remaining(0, 0, 0, 0))
      else
        DecomposeSeconds(total);
        Some(Remaining(total, total / 3600, (total % 3600) / 60, total % 60))
  }

  /** The countdown shows "expired" exactly when less than one second remains. */
  lemma ExpiredIffUnderOneSecond(ms: int, nowMs: int)
    ensures Expired(CalculateTimeLeft(At(ms), nowMs).value) <==> ms - nowMs < 1000
  {
  }

  /** Remaining time never grows as the clock advances. */
  lemma {:induction false} TimeLeftNonIncreasing(ms: int, t1: int, t2: int)
    requires t1 <= t2
    ensures CalculateTimeLeft(At(ms), t2).value.total <= CalculateTimeLeft(At(ms), t1).value.total
  {
    var d1, d2 := DifferenceInSeconds(ms, t1), DifferenceInSeconds(ms, t2);
    if d2 > 0 {
      assert d2 * 1000 < (d1 + 1) * 1000;
    }
  }

  /** Once expired, the countdown stays expired for every later instant. */
  lemma ExpiryIsFinal(ms: int, t1: int, t2: int)
    requires t1 <= t2 && Expired(CalculateTimeLeft(At(ms), t1).value)
    ensures Expired(CalculateTimeLeft(At(ms), t2).value)
  {
    TimeLeftNonIncreasing(ms, t1, t2);
  }

  /** `String(n).padStart(2, '0')`. */
  function TwoDigits(n: nat): (r: string)
    ensures |r| >= 2 && AllDigits(r)
    ensures n < 10 <==> r[0] == '0'
    ensures n < 100 ==> |r| == 2
  {
    var d := NatToString(n);
    assert n >= 10 ==> |d| >= 2 by {
      if n >= 10 { assert |NatToString(n / 10)| >= 1; }
    }
    var r := PadStart(d, 2, '0');
    assert forall i :: 0 <= i < |r| - |d| ==> IsDigit(r[i]);
    assert forall i :: |r| - |d| <= i < |r| ==> r[i] == d[i - (|r| - |d|)];
    r
  }

  /** A two-digit field reads back as the number it shows. */
  lemma {:induction false} TwoDigitsReadsBack(n: nat)
    ensures ParseInt(TwoDigits(n)) == Some(n)
  {
    var d := NatToString(n);
    if n >= 10 {
      assert |NatToString(n / 10)| >= 1;
      assert TwoDigits(n) == IntToString(n);
      ParseIntOfIntToString(n);
    } else {
      assert TwoDigits(n) == "0" + d;
      ParseIntOfDigits("0" + d);
      LeadingZeroValue(d);
      ValueOfNatToString(n);
    }
  }

  /** What the component renders. */
  datatype TimerView = NoTimer | ExpiredBadge | Countdown(text: string)

  const CountdownPrefix: string := "Time left: "

  /** The badge text of a positive countdown. */
  function CountdownText(t: TimeLeft): (r: string)
    requires t.Remaining?
    ensures |r| >= 19 && r[..11] == CountdownPrefix
  {
    CountdownPrefix + TwoDigits(t.hours) + ":" + TwoDigits(t.minutes) + ":" + TwoDigits(t.seconds)
  }

  /**
   * The render: nothing without a timestamp, the "Chat Expired" badge when
   * the total is not positive, otherwise the countdown. An unreadable
   * timestamp compares false with 0 and shows NaN in every field.
   */
  function RenderTimer(expiry: Expiry, timeLeft: Option<TimeLeft>): (r: TimerView)
    ensures r.NoTimer? <==> timeLeft.None? || expiry.NoTimestamp?
    ensures r.ExpiredBadge? <==> !expiry.NoTimestamp? && timeLeft.Some? && Expired(timeLeft.value)
    ensures r.Countdown? && timeLeft.value.NotANumber? ==> r.text == "Time left: NaN:NaN:NaN"
    ensures r.Countdown? && timeLeft.value.Remaining? ==> r.text == CountdownText(timeLeft.value)
  {
    if timeLeft.None? || expiry.NoTimestamp? then NoTimer
    else match timeLeft.value
      case NotANumber => Countdown("Time left: NaN:NaN:NaN")
      case Remaining(total, _, _, _) =>
        if total <= 0 then ExpiredBadge else Countdown(CountdownText(timeLeft.value))
  }

  lemma ThreeFields(p: string, h: string, m: string, s: string)
    requires |p| == 11 && |h| == 2 && |m| == 2 && |s| == 2
    ensures var text := p + h + ":" + m + ":" + s;
      |text| == 19 && text[11..13] == h && text[14..16] == m && text[17..19] == s
  {
  }

  /** Each field of the badge text reads back as the number it shows. */
  lemma {:induction false} CountdownTextReadsBack(t: TimeLeft)
    requires t.Remaining? && t.hours < 100 && t.minutes < 100 && t.seconds < 100
    ensures var text := CountdownText(t);
      && |text| == 19
      && ParseInt(text[11..13]) == Some(t.hours as int)
      && ParseInt(text[14..16]) == Some(t.minutes as int)
      && ParseInt(text[17..19]) == Some(t.seconds as int)
  {
    ThreeFields(CountdownPrefix, TwoDigits(t.hours), TwoDigits(t.minutes), TwoDigits(t.seconds));
    TwoDigitsReadsBack(t.hours);
    TwoDigitsReadsBack(t.minutes);
    TwoDigitsReadsBack(t.seconds);
  }

  /**
   * Below 100 hours the countdown has the fixed shape "Time left: HH:MM:SS",
   * and its three fields read back as hours, minutes and seconds that add
   * up to the remaining total.
   */
  lemma {:induction false} CountdownReadsBack(ms: int, nowMs: int)
    requires 0 < DifferenceInSeconds(ms, nowMs) < 100 * 3600
    ensures var t := CalculateTimeLeft(At(ms), nowMs).value;
      var v := RenderTimer(At(ms), Some(t));
      && v.Countdown? && |v.text| == 19
      && ParseInt(v.text[11..13]) == Some(t.hours as int)
      && ParseInt(v.text[14..16]) == Some(t.minutes as int)
      && ParseInt(v.text[17..19]) == Some(t.seconds as int)
      && t.hours * 3600 + t.minutes * 60 + t.seconds == DifferenceInSeconds(ms, nowMs)
  {
    var t := CalculateTimeLeft(At(ms), nowMs).value;
    assert t.hours < 100 by {
      assert t.hours * 3600 <= t.total < 100 * 3600;
    }
    CountdownTextReadsBack(t);
  }

  /**
   * The mounted ChatTimer: its `timeLeft` state, whether its one-second
   * interval is scheduled, and how many times it has called
   * `onChatExpired` (`hasCallback` says whether that prop is a function).
   */
  class ChatTimer {
    const expiry: Expiry
    const hasCallback: bool
    var timeLeft: Option<TimeLeft>
    var intervalScheduled: bool
    var expiredCalls: nat

    /**
     * A timer ticks exactly while it has a time left that is not expired,
     * and it has called the expiry callback at most once, only after expiry.
     */
    ghost predicate Valid()
      reads this
    {
      && (timeLeft.None? <==> expiry.NoTimestamp?)
      && (intervalScheduled <==> timeLeft.Some? && !Expired(timeLeft.value))
      && expiredCalls <= 1
      && (expiredCalls == 1 ==> hasCallback && timeLeft.Some? && Expired(timeLeft.value))
    }

    /** Mounting: the initial state from `calculateTimeLeft()`, then the first run of the effect. */
    constructor(expiry: Expiry, hasCallback: bool, nowMs: int)
      ensures this.expiry == expiry && this.hasCallback == hasCallback
      ensures timeLeft == CalculateTimeLeft(expiry, nowMs)
      ensures intervalScheduled <==> timeLeft.Some? && !Expired(timeLeft.value)
      ensures expiredCalls == if hasCallback && timeLeft.Some? && Expired(timeLeft.value) then 1 else 0
      ensures Valid()
    {
      this.expiry := expiry;
      this.hasCallback := hasCallback;
      timeLeft := CalculateTimeLeft(expiry, nowMs);
      intervalScheduled := false;
      expiredCalls := 0;
      new;
      RunEffect();
    }

    /**
     * The effect, run after the previous run's interval was cleared: with no
     * date it does nothing; once expired it calls the callback and schedules
     * nothing; otherwise it schedules the interval.
     */
    method RunEffect()
      requires !intervalScheduled && expiredCalls == 0
      requires timeLeft.None? <==> expiry.NoTimestamp?
      modifies this
      ensures timeLeft == old(timeLeft)
      ensures intervalScheduled <==> timeLeft.Some? && !Expired(timeLeft.value)
      ensures expiredCalls == if hasCallback && timeLeft.Some? && Expired(timeLeft.value) then 1 else 0
      ensures Valid()
    {
      if expiry.NoTimestamp? || (timeLeft.Some? && Expired(timeLeft.value)) {
        if timeLeft.Some? && Expired(timeLeft.value) && hasCallback {
          expiredCalls := expiredCalls + 1;
        }
        return;
      }
      intervalScheduled := true;
    }

    /**
     * One firing of the interval: `timeLeft` is recomputed; the new state
     * re-renders the timer, the cleanup clears the interval and the effect
     * runs again.
     */
    method Tick(nowMs: int)
      requires Valid() && intervalScheduled
      modifies this
      ensures timeLeft == CalculateTimeLeft(expiry, nowMs)
      ensures intervalScheduled <==> !Expired(timeLeft.value)
      ensures expiredCalls == if hasCallback && Expired(timeLeft.value) then 1 else 0
      ensures Valid()
    {
      timeLeft := CalculateTimeLeft(expiry, nowMs);
      intervalScheduled := false;
      RunEffect();
    }

    /** The render of the current state. */
    function View(): (r: TimerView)
      reads this
      requires Valid()
      ensures r.NoTimer? <==> expiry.NoTimestamp?
      ensures r.ExpiredBadge? <==> !intervalScheduled && !expiry.NoTimestamp?
    {
      RenderTimer(expiry, timeLeft)
    }
  }
}
