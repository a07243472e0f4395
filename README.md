# Auto-submit scheduler of the nomination form

This project models the auto-submit scheduler of the `NominationForm` React component
(`src/components/NominationForm.jsx`) and proves properties about it. When the user
clicks Start, the form is filled from `autoFillConfig` plus a random contact and a
one-shot timeout is armed at a random delay of 30 s to under 2 min. A one-second
countdown shows the whole seconds left. When the timeout runs it is meant to post
a freshly filled form and arm the next timeout. Stop clears the timeout and the
countdown. `handleSubmit` posts the form, shows the outcome in a banner and, on
success only, fills the form again.

The model is written in these terms:

- **State.** The component state (`formData`, `autoSubmit`, `submitInterval`,
  `nextSubmitTime`, `countdown`, `message`, `loading`) is held together with the
  browser side of the timers. That side is the pending timeouts by handle, each
  with the values its callback closed over; the next handle; whether the countdown
  interval is live; and the log of posted payloads.
- **Events.** A handler's state setters take effect together when the event ends.
  Then every effect whose dependency values changed runs again (`Scheduler.Commit`):
  the countdown effect on `[autoSubmit, nextSubmitTime]` and the timeout cleanup
  on `[submitInterval]`.
- **Inputs.** The clock is a natural number `now` in milliseconds. `Math.random`
  is an integer draw `r` in [0, 90000). The post's result is a `Response` value.
  `autoFillConfig` and `generateRandomContact()` are maps of strings passed in.
- **Files.** `form.dfy` holds the form record, `timing.dfy` the two formulas,
  `scheduler.dfy` the state machine and its lemmas, `traces.dfy` runs over event
  sequences and the finding below, and `component.dfy` the component as a class.
  The class's event handlers update fields in place. Each handler is specified by
  the matching step function of `Scheduler` and keeps its invariant `Valid`.

In `NominationForm.jsx` each firing posts one payload, the delay is at most
119999 ms, and one toggle both starts and stops the scheduler. A firing skipped
while a submission is loading does not re-arm, so the scheduler stays on with
nothing pending (`Scheduler.SkippedFiringStalls`).

## Model

| member | source | states |
|---|---|---|
| Form.AutoFill | src/components/NominationForm.jsx:95-98 | the auto-filled form has every key of the config and of the contact, and the contact's value wins on a shared key |
| Form.HandleChange | src/components/NominationForm.jsx:31-36 | the named field takes the new value (added if absent), the key set grows by that name only, and every other field keeps its value |
| Timing.GetRandomInterval | src/components/NominationForm.jsx:63-65 | every draw gives a whole number of milliseconds in [30000, 120000) |
| Timing.DrawOf | src/components/NominationForm.jsx:63-65 | every delay in the window comes from some draw |
| Timing.DrawIsUnique | src/components/NominationForm.jsx:63-65 | distinct draws give distinct delays, so a uniform draw gives a uniform delay |
| Timing.Remaining | src/components/NominationForm.jsx:110 | the countdown is never negative; it is zero exactly when the submission time has come; otherwise it is the least whole number of seconds covering the time left |
| Timing.CountdownWindow | src/components/NominationForm.jsx:63-69 | from the moment of arming on, the remaining-seconds formula is at most 120; at the moment of arming it is in [30, 120] |
| Scheduler.InitialIsValid | src/components/NominationForm.jsx:7-16 | the mounted state (auto-filled form, stopped, no timers) satisfies the scheduler invariant |
| Scheduler.AtMostOneTimeout | src/components/NominationForm.jsx:67-103 | under the invariant at most one timeout is pending |
| Scheduler.ScheduleArmsOne | src/components/NominationForm.jsx:67-85 | scheduling sets `nextSubmitTime` to exactly `now + interval`, arms one fresh timeout due then, stores its handle in `submitInterval`, and the remaining-seconds formula at `now` is in [30, 120] |
| Scheduler.StopClears | src/components/NominationForm.jsx:88-92 | stopping clears the timeout and the countdown interval, sets `submitInterval` to null, `autoSubmit` to false and `countdown` to 0, and leaves the form, banner, loading and posts unchanged |
| Scheduler.StartArmsOne | src/components/NominationForm.jsx:93-101 | starting replaces the form with config merged with the fresh contact, turns `autoSubmit` on, arms exactly one timeout, starts the countdown and posts nothing; the armed callback closed over `autoSubmit == false` |
| Scheduler.StoppedTimerNeverFires | src/components/NominationForm.jsx:88-92 | once stopped, no timeout callback runs at any time, under either reading of the callback |
| Scheduler.FiringGuard | src/components/NominationForm.jsx:71-82 | a due timeout posts the fresh form once and re-arms once exactly when loading is off and auto-submit is on; otherwise it only drops the fired timeout |
| Scheduler.SkippedFiringStalls | src/components/NominationForm.jsx:71-82 | a firing skipped because of loading leaves auto-submit on with no timeout pending and nothing posted |
| Scheduler.TickStopsAtZero | src/components/NominationForm.jsx:106-120 | a tick shows the remaining seconds and keeps the interval live exactly while they are positive; later ticks change nothing; no other field changes |
| Scheduler.HandleSubmitOutcome | src/components/NominationForm.jsx:38-61 | a submit posts the form once and ends with loading off on every path; success shows the endpoint's text and refills the form; a reported failure or an exception shows an error and keeps the form; scheduler fields are untouched |
| Scheduler.ChangeTouchesOneField | src/components/NominationForm.jsx:31-36 | an edit changes the named form field and no other field of the form or of the state |
| Scheduler.UnmountClearsTimers | src/components/NominationForm.jsx:117-128 | after unmount no timeout and no countdown interval is left |
| Scheduler.ToggleKeepsValid | src/components/NominationForm.jsx:87-103 | toggling keeps the scheduler invariant |
| Scheduler.OnTimeoutKeepsValid | src/components/NominationForm.jsx:71-84 | the timeout callback keeps the scheduler invariant |
| Scheduler.TickKeepsValid | src/components/NominationForm.jsx:106-120 | a countdown tick keeps the scheduler invariant |
| Traces.StepKeepsValid | src/components/NominationForm.jsx:31-120 | every event keeps the scheduler invariant |
| Traces.RunKeepsValid | src/components/NominationForm.jsx:31-120 | along any event sequence the invariant holds and at most one timeout is pending |
| Traces.NoSubmissionAfterStop | src/components/NominationForm.jsx:71-92 | after a stop, with only timers running however late, nothing is posted and the state does not change |
| Traces.StepAsWrittenKeepsStale | src/components/NominationForm.jsx:71-101 | with the callback as written, every pending timeout has closed over `autoSubmit == false`, and only a manual submit posts |
| Traces.AsWrittenNeverAutoSubmits | src/components/NominationForm.jsx:71-101 | with the callback as written, no sequence of clicks, edits, responses and timer runs without a manual submit posts anything |
| Traces.FirstFiringContrast | src/components/NominationForm.jsx:71-101 | on Start at time 0 and the timeout at 30 s: as written nothing is posted or re-armed; as intended the fresh form is posted once and handle 2 is armed |
| Component.NominationForm.constructor | src/components/NominationForm.jsx:7-16 | mounts with the auto-filled form, scheduler stopped, invariant established |
| Component.NominationForm.HandleChange | src/components/NominationForm.jsx:31-36 | updates only the named field, keeping the invariant |
| Component.NominationForm.SubmitStart | src/components/NominationForm.jsx:38-44 | turns loading on, clears the banner and posts the current form, returning it |
| Component.NominationForm.SubmitEnd | src/components/NominationForm.jsx:45-60 | sets the banner per outcome, refills the form on success only, and turns loading off |
| Component.NominationForm.ScheduleNextSubmit | src/components/NominationForm.jsx:67-85 | arms a timeout at `now + interval` and returns its handle, now held in `submitInterval` |
| Component.NominationForm.ToggleAutoSubmit | src/components/NominationForm.jsx:87-103 | stop clears the timeout and zeroes the countdown without touching the form; start refills the form and arms exactly one timeout; the invariant is kept |
| Component.NominationForm.OnTimeout | src/components/NominationForm.jsx:71-82 | runs the intended timeout callback in place, keeping the invariant |
| Component.NominationForm.CountdownTick | src/components/NominationForm.jsx:109-115 | one countdown tick in place; the countdown stays non-negative |
| Component.NominationForm.Unmount | src/components/NominationForm.jsx:117-128 | the cleanups leave no timeout and no countdown interval |
| Component.NominationForm.Rerender | src/components/NominationForm.jsx:106-128 | re-runs the effects whose dependencies changed, as `Scheduler.Commit` says |

The step functions `Scheduler.ToggleAutoSubmit`, `Scheduler.ScheduleNextSubmit`,
`Scheduler.OnTimeout`, `Scheduler.OnTimeoutAsWritten`, `Scheduler.CountdownTick`,
`Scheduler.SubmitStart`, `Scheduler.SubmitEnd`, `Scheduler.ChangeField` and
`Scheduler.Unmount` carry no contract of their own. The lemmas above state what they
do, and the class methods are tied to them.

## Findings

| source | as written | input that shows it | evidently intended | confidence | as-written member | corrected member |
|---|---|---|---|---|---|---|
| src/components/NominationForm.jsx:71-82 | the timeout callback tests `!loading && autoSubmit` on the values it closed over. Start calls `scheduleNextSubmit` from the render in which `autoSubmit` is still false, so the guard always fails: nothing is posted and nothing re-arms | mount, click Start at time 0 with draw 0 (delay 30000 ms), let timeout 1 run at 30000: the post log stays empty, no timeout is pending, and the countdown stops at 0 | the guard reads the current `loading` and `autoSubmit`, the freshly filled form is posted, and the next timeout is armed | high; not executed | Traces.AsWrittenNeverAutoSubmits | Scheduler.FiringGuard |

`Scheduler.OnTimeoutAsWritten` models the callback as written; its re-arm would close
over the same stale values again, and its post would send the form it closed over
rather than the freshly filled one. `Scheduler.OnTimeout` is the corrected callback.
`Traces.Step` and `Component.NominationForm.OnTimeout` use the corrected callback.
`Traces.FirstFiringContrast` runs the same two events through both callbacks.

## Left out

- `fetchCategories` and the category list are left out: they are a network fetch with no scheduling logic.
- The JSX rendering is left out. The model covers no state that only rendering reads.
- `axios.post` is replaced by a `Response` value: the endpoint's `{ success, message }`, or an exception.
- The model records what is posted in a log and does not model the endpoint.
- `Date.now()` is the parameter `now`. The model does not require the clock to be monotonic.
- `setTimeout`, `setInterval` and their clearing are explicit map and flag updates.
- Which due timer the browser runs first is left open: any event may come next.
- Only the freshness of timer handles is modelled. Browsers draw `setTimeout` and `setInterval` ids from one pool; here the countdown interval takes no id, so handle numbers such as 2 in `Traces.FirstFiringContrast` are not the ids a browser would return.
- `Math.random()` is an integer draw in [0, 90000) standing for the scaled float before `Math.floor`.
- Floating-point rounding is not modelled. For the scheduler's values the float computation gives the same whole numbers.
- `Math.ceil` of a millisecond difference over 1000 is computed exactly on integers. Float division could round differently only for differences far beyond the 2-minute window.
- `autoFillConfig` and `generateRandomContact()` come from `src/config/autoFill`, which is not part of this model. They are opaque string maps passed in.
- React's batching across concurrent events is not modelled: each event is atomic.
- The closure of `toggleAutoSubmit` is taken to see the latest rendered state.
- `e.preventDefault()` has no effect on state and is left out.
- The Python back end, the submissions list, the configuration panel and the app shell are not part of this model.
