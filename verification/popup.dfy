/**
 The state updates behind the popup's two controls: the timer button (stop a running timer,
 or start one) and the settings form. Each takes the loaded state and the form's values and
 returns what is saved. `parseInt` of a duration field is given as its result, `None` for NaN.
 */
module Popup {
  import opened Wrappers
  import opened Text
  import opened Timer
  import opened State
  import opened Relevance

  const DefaultFocusMinutes: int := 25
  const DefaultBreakMinutes: int := 10

  /** `parseInt(value) || fallback`: NaN and 0 both give way to the fallback. */
  function DurationOrDefault(parsed: Option<int>, fallback: int): (d: int)
    ensures parsed.Some? && parsed.value != 0 ==> d == parsed.value
    ensures parsed.None? || parsed.value == 0 ==> d == fallback
  {
    if parsed.Some? && parsed.value != 0 then parsed.value else fallback
  }

  /** A duration after defaulting is never 0. */
  lemma DurationNeverZero(parsed: Option<int>)
    ensures DurationOrDefault(parsed, DefaultFocusMinutes) != 0
    ensures DurationOrDefault(parsed, DefaultBreakMinutes) != 0
  {
  }

  /**
   A negative length is kept, since only a missing number or zero is replaced; a timer whose
   break is negative flips again at the instant it flipped, so it never settles there.
   */
  lemma NegativeBreakUnsettled(now: int)
    ensures DurationOrDefault(Some(-5), DefaultBreakMinutes) == -5
    ensures var t := Advance(TimerRecord(Focus, now, 10, -5), now);
            Advance(t, now) != t
  {
  }

  /**
   The timer button. With a timer record present, the record is cleared and every other field
   (`timerEnabled` included) is kept. Otherwise a timer is started: enabled, with the chosen
   durations (25 and 10 minutes when a field is NaN or 0) both stored and in the new record,
   which starts in the focus phase; every other field of the loaded state is kept, and a state
   that was never saved starts from the empty object.
   */
  function TimerControl(state: Option<FocusState>, focusInput: Option<int>, breakInput: Option<int>, now: int): (s: FocusState)
    ensures state.Some? && state.value.timerState.Some? ==> s == state.value.(timerState := None)
    ensures !(state.Some? && state.value.timerState.Some?) ==>
              var base := state.GetOr(EmptyState);
              var f := DurationOrDefault(focusInput, DefaultFocusMinutes);
              var b := DurationOrDefault(breakInput, DefaultBreakMinutes);
              && s.timerEnabled
              && s.timerState.Some?
              && s.timerState.value.phase == Focus
              && s.timerState.value.endTime - now == f * MillisPerMinute
              && s.focusDuration == Some(f) && s.breakDuration == Some(b)
              && s.timerState.value.focusDuration == f && s.timerState.value.breakDuration == b
              && s.task == base.task && s.role == base.role && s.strictness == base.strictness
              && s.updatedAt == base.updatedAt
              && f != 0 && b != 0
  {
    if state.Some? && state.value.timerState.Some? then
      state.value.(timerState := None)
    else
      var f := DurationOrDefault(focusInput, DefaultFocusMinutes);
      var b := DurationOrDefault(breakInput, DefaultBreakMinutes);
      state.GetOr(EmptyState).(
        timerState := Some(StartTimer(f, b, now)),
        timerEnabled := true,
        focusDuration := Some(f),
        breakDuration := Some(b))
  }

  /** Starting and then stopping leaves the timer enabled but with no record. */
  lemma StartThenStop(state: Option<FocusState>, focusInput: Option<int>, breakInput: Option<int>, now: int, later: int)
    requires state.None? || state.value.timerState.None?
    ensures var started := TimerControl(state, focusInput, breakInput, now);
            var stopped := TimerControl(Some(started), focusInput, breakInput, later);
            && started.timerState.Some?
            && stopped == started.(timerState := None)
            && stopped.timerEnabled
            && !TimerActive(Some(stopped))
  {
  }

  /** The form's fields as submitted. */
  datatype Form = Form(
    task: string,
    role: string,
    strictness: string,
    apiKey: string,
    timerChecked: bool,
    focusInput: Option<int>,
    breakInput: Option<int>)

  /** What a successful submit saves: the whole new state and the credential. */
  datatype Saved = Saved(state: FocusState, apiKey: string)

  /**
   The settings form. A task that is empty after trimming saves nothing. Otherwise the state is
   replaced as a whole: the trimmed task, the selected role and strictness, the submit time,
   the checkbox, the defaulted durations, and the loaded state's timer record (none if there was
   none); the trimmed credential is saved with it.
   */
  function Submit(current: Option<FocusState>, form: Form, now: int): (r: Option<Saved>)
    ensures r.None? <==> AllSpace(form.task)
    ensures r.Some? ==>
              var s := r.value.state;
              && s.task == Trim(form.task) && s.task != ""
              && s.role == form.role && s.strictness == form.strictness
              && s.updatedAt == Some(now)
              && s.timerEnabled == form.timerChecked
              && s.focusDuration == Some(DurationOrDefault(form.focusInput, DefaultFocusMinutes))
              && s.breakDuration == Some(DurationOrDefault(form.breakInput, DefaultBreakMinutes))
              && s.timerState == (if current.Some? then current.value.timerState else None)
              && r.value.apiKey == Trim(form.apiKey)
  {
    var task := Trim(form.task);
    if task == "" then None
    else
      Some(Saved(
        FocusState(
          task,
          form.role,
          form.strictness,
          form.timerChecked,
          Some(DurationOrDefault(form.focusInput, DefaultFocusMinutes)),
          Some(DurationOrDefault(form.breakInput, DefaultBreakMinutes)),
          if current.Some? && current.value.timerState.Some? then current.value.timerState else None,
          Some(now)),
        Trim(form.apiKey)))
  }

  /** Submitting the same form again over what it saved saves the same thing. */
  lemma SubmitTwice(current: Option<FocusState>, form: Form, now: int)
    requires Submit(current, form, now).Some?
    ensures Submit(Some(Submit(current, form, now).value.state), form, now) == Submit(current, form, now)
  {
  }

  /** A saved task always yields a keyword profile, so filtering is configured after a submit. */
  lemma SubmitEnablesProfile(current: Option<FocusState>, form: Form, now: int)
    requires Submit(current, form, now).Some?
    ensures BuildKeywordProfile(Some(Submit(current, form, now).value.state)).Some?
  {
  }
}
