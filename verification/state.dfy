/**
 The persisted focus configuration shared by the popup and the content script. A field the
 code only ever tests for truthiness is modelled by its falsy value when it is absent:
 `""` for the task, role and strictness, `false` for `timerEnabled`, `None` for a missing
 timer record, duration or timestamp.
 */
module State {
  import opened Wrappers
  import opened Timer

  datatype FocusState = FocusState(
    task: string,
    role: string,
    strictness: string,
    timerEnabled: bool,
    focusDuration: Option<int>,
    breakDuration: Option<int>,
    timerState: Option<TimerRecord>,
    updatedAt: Option<int>)

  /** The object `{}`: a state with every field absent. */
  const EmptyState: FocusState := FocusState("", "", "", false, None, None, None, None)

  /** The timer takes part in a cycle only when it is enabled and a record is present. */
  predicate TimerActive(state: Option<FocusState>) {
    state.Some? && state.value.timerEnabled && state.value.timerState.Some?
  }
}
