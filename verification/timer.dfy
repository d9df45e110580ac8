/**
 The focus/break timer: starting a timer, which only popup.js does; the lazy phase transition
 performed whenever the record is read, and the `m:ss` countdown display, which contentScript.js
 and popup.js define identically and which are modelled once here for both. The wall clock is
 the explicit parameter `now` (milliseconds since the epoch, as `Date.now()` returns).
 */
module Timer {
  import opened Wrappers
  import opened Text

  datatype Phase = Focus | Break

  /** A persisted timer: the current phase, when it ends, and both phase lengths in minutes. */
  datatype TimerRecord = TimerRecord(phase: Phase, endTime: int, focusDuration: int, breakDuration: int)

  const MillisPerMinute: int := 60 * 1000

  /** The phase that follows `p`. */
  function Flip(p: Phase): Phase {
    if p == Focus then Break else Focus
  }

  /** The configured length, in minutes, of phase `p`. */
  function DurationOf(t: TimerRecord, p: Phase): int {
    if p == Focus then t.focusDuration else t.breakDuration
  }

  /** A record is stale once the clock has reached its end time. */
  predicate Expired(t: TimerRecord, now: int) {
    now >= t.endTime
  }

  /** `startTimer`: a focus phase that ends `focusDuration` minutes after `now`. */
  function StartTimer(focusDuration: int, breakDuration: int, now: int): (t: TimerRecord)
    ensures t.phase == Focus
    ensures t.endTime - now == focusDuration * MillisPerMinute
    ensures t.focusDuration == focusDuration && t.breakDuration == breakDuration
    ensures Expired(t, now) <==> focusDuration <= 0
  {
    TimerRecord(Focus, now + focusDuration * MillisPerMinute, focusDuration, breakDuration)
  }

  /**
   `getCurrentTimerState` on a present record: before the end time the very same record; from
   the end time on, exactly one phase flip (however late the read is), a new end time one full
   duration of the new phase after `now`, and the durations untouched.
   */
  function Advance(t: TimerRecord, now: int): (r: TimerRecord)
    ensures !Expired(t, now) ==> r == t
    ensures Expired(t, now) ==> r.phase == Flip(t.phase) && r.phase != t.phase
    ensures Expired(t, now) ==> r.endTime - now == DurationOf(t, r.phase) * MillisPerMinute
    ensures r.focusDuration == t.focusDuration && r.breakDuration == t.breakDuration
    ensures r != t <==> Expired(t, now)
    ensures Expired(r, now) ==> DurationOf(r, r.phase) <= 0
  {
    if now >= t.endTime then
      var next := Flip(t.phase);
      t.(phase := next, endTime := now + DurationOf(t, next) * MillisPerMinute)
    else t
  }

  /** `getCurrentTimerState` including its `null` case: no record stays no record. */
  function CurrentTimerState(t: Option<TimerRecord>, now: int): (r: Option<TimerRecord>)
    ensures r.None? <==> t.None?
    ensures t.Some? && !Expired(t.value, now) ==> r == t
    ensures t.Some? && Expired(t.value, now) ==> r.value.phase == Flip(t.value.phase)
    ensures t.Some? && Expired(t.value, now) ==>
              r.value.endTime - now == DurationOf(t.value, r.value.phase) * MillisPerMinute
    ensures t.Some? ==> r.value.focusDuration == t.value.focusDuration && r.value.breakDuration == t.value.breakDuration
  {
    match t
    case None => None
    case Some(rec) => Some(Advance(rec, now))
  }

  /** With positive durations, a read at the same instant never flips a second time. */
  lemma {:induction false} AdvanceSettles(t: TimerRecord, now: int)
    requires t.focusDuration > 0 && t.breakDuration > 0
    ensures Advance(Advance(t, now), now) == Advance(t, now)
    ensures !Expired(Advance(t, now), now)
  {
    var r := Advance(t, now);
    assert DurationOf(r, r.phase) > 0;
  }

  /** Two reads past expiry, each one full phase later, bring the timer back to its phase. */
  lemma {:induction false} AdvanceCycles(t: TimerRecord, now1: int, now2: int)
    requires Expired(t, now1)
    requires now2 >= Advance(t, now1).endTime
    ensures Advance(Advance(t, now1), now2).phase == t.phase
    ensures Advance(Advance(t, now1), now2).endTime == now2 + DurationOf(t, t.phase) * MillisPerMinute
  {
    var r := Advance(t, now1);
    assert r.phase == Flip(t.phase);
    assert Flip(r.phase) == t.phase;
  }

  /** A freshly started timer with a positive focus length is left alone at its start instant. */
  lemma StartThenAdvance(focusDuration: int, breakDuration: int, now: int)
    requires focusDuration > 0
    ensures Advance(StartTimer(focusDuration, breakDuration, now), now) == StartTimer(focusDuration, breakDuration, now)
  {
  }

  // ---------------------------------------------------------------------------
  // Countdown display

  /**
   Whole seconds left until `endTime`, clamped at zero: `max(0, floor((endTime - now) / 1000))`.
   For a positive divisor Dafny's `/` is floor division, as `Math.floor` of the quotient is.
   */
  function RemainingSeconds(endTime: int, now: int): (r: nat)
    ensures endTime <= now ==> r == 0
    ensures endTime > now ==> r * 1000 <= endTime - now < (r + 1) * 1000
  {
    if endTime - now <= 0 then 0 else (endTime - now) / 1000
  }

  /** A number below 100 written with two digits, zero-padded on the left. */
  function TwoDigits(n: nat): (s: string)
    requires n < 100
    ensures |s| == 2 && AllDigits(s) && DecimalValue(s) == n
  {
    if n < 10 then
      var s := ['0', DigitChar(n)];
      assert s[..1] == ['0'] && ['0'][..0] == [];
      assert DecimalValue(['0']) == 0;
      s
    else
      DecimalRoundTrip(n);
      Decimal(n)
  }

  /** A countdown reading: minutes and seconds. */
  datatype Clock = Clock(minutes: nat, seconds: nat)

  /** Reads an `m:ss` display back; `None` when the text does not have that shape. */
  function ParseClock(s: string): Option<Clock> {
    if |s| >= 4 && s[|s| - 3] == ':' && AllDigits(s[..|s| - 3]) && AllDigits(s[|s| - 2..]) then
      Some(Clock(DecimalValue(s[..|s| - 3]), DecimalValue(s[|s| - 2..])))
    else None
  }

  /**
   `formatTimeRemaining`: the display reads back as minutes and two-digit seconds in 00..59 that
   add up to exactly the remaining whole seconds; it is "0:00" once the end time has passed.
   */
  function FormatTimeRemaining(endTime: int, now: int): (s: string)
    ensures ParseClock(s).Some?
    ensures ParseClock(s).value.minutes * 60 + ParseClock(s).value.seconds == RemainingSeconds(endTime, now)
    ensures ParseClock(s).value.seconds < 60
    ensures endTime <= now ==> s == "0:00"
    ensures |s| > 4 ==> s[0] != '0'
  {
    var remaining := RemainingSeconds(endTime, now);
    var m := Decimal(remaining / 60);
    var ss := TwoDigits(remaining % 60);
    DecimalRoundTrip(remaining / 60);
    ParseShown(m, ss);
    m + ":" + ss
  }

  /** An `m:ss` display reads back as its two numerals. */
  lemma ParseShown(m: string, ss: string)
    requires |m| >= 1 && AllDigits(m) && |ss| == 2 && AllDigits(ss)
    ensures ParseClock(m + ":" + ss) == Some(Clock(DecimalValue(m), DecimalValue(ss)))
  {
    var s := m + ":" + ss;
    assert s[..|s| - 3] == m && s[|s| - 2..] == ss;
  }

  /** A timer just started for `f` minutes shows exactly `f:00`. */
  lemma {:induction false} StartShowsFullLength(f: nat, b: int, now: int)
    ensures FormatTimeRemaining(StartTimer(f, b, now).endTime, now) == Decimal(f) + ":00"
  {
    var r := RemainingSeconds(StartTimer(f, b, now).endTime, now);
    StartRemaining(f, b, now);
    assert r / 60 == f && r % 60 == 0;
    assert TwoDigits(0) == "00";
  }

  /** A timer just started for `f` minutes has `60 * f` whole seconds left. */
  lemma StartRemaining(f: nat, b: int, now: int)
    ensures RemainingSeconds(StartTimer(f, b, now).endTime, now) == f * 60
  {
    assert StartTimer(f, b, now).endTime - now == (f * 60) * 1000;
  }
}
