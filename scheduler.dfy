/** The auto-submit scheduler of the nomination form as a state machine over the
    component's state. Every step function is one event handler of the component:
    the state setters it calls take effect together when the event ends, and then
    React re-runs each effect whose dependency values changed (`Commit`).
    The browser side of the timers is part of the state: the pending timeouts by
    handle, the next handle the browser will hand out, whether the countdown's
    one-second interval is live, and the log of payloads posted to the endpoint. */
module Scheduler {
  import opened Form
  import opened Timing

  datatype Option<T> = None | Some(value: T)

  datatype Kind = Success | Error

  /** The banner: `''` before any result, else `{ type, text }`. */
  datatype Message = NoMessage | Notice(kind: Kind, text: string)

  /** What `axios.post('/api/submit', ...)` comes back with: the endpoint's
      `{ success, message }`, or an exception (transport failure, non-2xx status). */
  datatype Response = Replied(success: bool, text: string) | Threw

  /** The text shown when the post throws. */
  const FailureText: string := "Submission failed. Please try again."

  /** The component state a callback closes over when it is created. */
  datatype Snapshot = Snapshot(loading: bool, autoSubmit: bool, formData: FormData)

  /** A pending `setTimeout`: when it is due and what its callback closed over. */
  datatype Timeout = Timeout(fireAt: int, seen: Snapshot)

  datatype FormState = FormState(
    // component state (the `useState` hooks of the scheduler)
    formData: FormData,
    autoSubmit: bool,
    submitInterval: Option<nat>,
    nextSubmitTime: int,
    countdown: int,
    message: Message,
    loading: bool,
    // browser side: pending timeouts, the handle allocator, the countdown
    // interval, and every payload posted so far
    timers: map<nat, Timeout>,
    nextHandle: nat,
    ticking: bool,
    posted: seq<FormData>)

  /** The state on mount: auto-filled form, scheduler stopped, no timers.
      Browsers hand out timer handles from 1 upwards. */
  function Initial(config: FormData, contact: FormData): FormState
  {
    FormState(AutoFill(config, contact), false, None, 0, 0, NoMessage, false,
              map[], 1, false, [])
  }

  function Seen(s: FormState): Snapshot
  {
    Snapshot(s.loading, s.autoSubmit, s.formData)
  }

  /** The scheduler's invariant: at most one timeout is pending and it is the one
      `submitInterval` holds; a stopped scheduler has no timeout, no handle and no
      live countdown; the countdown ticks only while running towards a set time;
      the displayed countdown is never negative. */
  ghost predicate Valid(s: FormState)
  {
    && (s.submitInterval.Some? ==> s.submitInterval.value < s.nextHandle)
    && (s.timers == map[] || (s.submitInterval.Some? && s.timers.Keys == {s.submitInterval.value}))
    && (!s.autoSubmit ==> s.timers == map[] && s.submitInterval == None && !s.ticking)
    && (s.ticking ==> s.autoSubmit && s.nextSubmitTime > 0)
    && s.countdown >= 0
  }

  /** After an event: the countdown effect (deps `[autoSubmit, nextSubmitTime]`)
      clears its old interval and starts a new one when running towards a set time;
      the cleanup of the `[submitInterval]` effect clears the previous handle. */
  function Commit(before: FormState, after: FormState): FormState
  {
    var s := if before.autoSubmit != after.autoSubmit || before.nextSubmitTime != after.nextSubmitTime
             then after.(ticking := after.autoSubmit && after.nextSubmitTime > 0)
             else after;
    if before.submitInterval != s.submitInterval && before.submitInterval.Some?
    then s.(timers := s.timers - {before.submitInterval.value})
    else s
  }

  /** `scheduleNextSubmit`: draw a delay, set the submission time, arm one timeout
      whose callback closes over `seen`, and keep its handle. */
  function ScheduleNextSubmit(s: FormState, now: nat, r: Draw, seen: Snapshot): FormState
  {
    var at := now + GetRandomInterval(r);
    s.(nextSubmitTime := at,
       timers := s.timers[s.nextHandle := Timeout(at, seen)],
       nextHandle := s.nextHandle + 1,
       submitInterval := Some(s.nextHandle))
  }

  /** `toggleAutoSubmit`: stop (clear the timeout, forget its handle, zero the
      countdown) or start (auto-fill the form and schedule). */
  function ToggleAutoSubmit(config: FormData, s: FormState, now: nat, r: Draw, contact: FormData): FormState
  {
    if s.autoSubmit then
      var cleared := if s.submitInterval.Some? then s.timers - {s.submitInterval.value} else s.timers;
      Commit(s, s.(timers := cleared, submitInterval := None, autoSubmit := false, countdown := 0))
    else
      var filled := s.(formData := AutoFill(config, contact), autoSubmit := true);
      Commit(s, ScheduleNextSubmit(filled, now, r, Seen(s)))
  }

  /** `handleChange` as an event. */
  function ChangeField(s: FormState, name: string, value: string): FormState
  {
    s.(formData := HandleChange(s.formData, name, value))
  }

  /** `handleSubmit` up to its `await`: loading on, banner cleared, `payload` posted. */
  function SubmitStart(s: FormState, payload: FormData): FormState
  {
    s.(loading := true, message := NoMessage, posted := s.posted + [payload])
  }

  /** `handleSubmit` after its `await`: the banner per outcome, a fresh auto-fill on
      success only, and loading off on every path (the `finally`). */
  function SubmitEnd(config: FormData, s: FormState, response: Response, contact: FormData): FormState
  {
    match response
    case Replied(true, text) =>
      s.(message := Notice(Success, text), formData := AutoFill(config, contact), loading := false)
    case Replied(false, text) =>
      s.(message := Notice(Error, text), loading := false)
    case Threw =>
      s.(message := Notice(Error, FailureText), loading := false)
  }

  /** Whether the browser runs the callback of timeout `h` at `now`: it is still
      pending (not cleared, not yet run) and due. */
  predicate Due(s: FormState, h: nat, now: int)
  {
    h in s.timers && s.timers[h].fireAt <= now
  }

  /** The timeout callback as written: its guard reads the `loading` and
      `autoSubmit` it closed over, `handleSubmit` posts the form it closed over,
      and the re-arm closes over the same values again. */
  function OnTimeoutAsWritten(config: FormData, s: FormState, h: nat, now: nat, r: Draw, contact: FormData): FormState
  {
    if !Due(s, h, now) then s
    else
      var seen := s.timers[h].seen;
      var fired := s.(timers := s.timers - {h});
      if !seen.loading && seen.autoSubmit then
        var started := SubmitStart(fired.(formData := AutoFill(config, contact)), seen.formData);
        Commit(s, ScheduleNextSubmit(started, now, r, seen))
      else fired
  }

  /** The timeout callback as evidently intended: the guard reads the current
      `loading` and `autoSubmit`, and the fresh auto-filled form is the one posted. */
  function OnTimeout(config: FormData, s: FormState, h: nat, now: nat, r: Draw, contact: FormData): FormState
  {
    if !Due(s, h, now) then s
    else
      var fired := s.(timers := s.timers - {h});
      if !s.loading && s.autoSubmit then
        var newData := AutoFill(config, contact);
        var started := SubmitStart(fired.(formData := newData), newData);
        Commit(s, ScheduleNextSubmit(started, now, r, Seen(started)))
      else fired
  }

  /** One run of the countdown interval's callback, if the interval is live:
      show the remaining seconds and clear the interval once they reach zero. */
  function CountdownTick(s: FormState, now: int): FormState
  {
    if !s.ticking then s
    else
      var remaining := Remaining(s.nextSubmitTime, now);
      s.(countdown := remaining, ticking := remaining != 0)
  }

  /** Unmount: the effect cleanups clear the countdown interval and the timeout. */
  function Unmount(s: FormState): FormState
  {
    var cleared := if s.submitInterval.Some? then s.timers - {s.submitInterval.value} else s.timers;
    s.(timers := cleared, ticking := false)
  }

  // ---------------------------------------------------------------------------
  // Properties of the steps

  lemma InitialIsValid(config: FormData, contact: FormData)
    ensures Valid(Initial(config, contact))
    ensures Initial(config, contact).formData == AutoFill(config, contact)
  {
  }

  /** Under the invariant there is never more than one pending timeout. */
  lemma AtMostOneTimeout(s: FormState)
    requires Valid(s)
    ensures |s.timers| <= 1
  {
  }

  /** Scheduling arms exactly one new timeout, at `now` plus the drawn delay, and
      keeps its handle; the remaining-seconds formula at `now` is in [30, 120]. */
  lemma ScheduleArmsOne(s: FormState, now: nat, r: Draw, seen: Snapshot)
    requires Valid(s)
    ensures var t := ScheduleNextSubmit(s, now, r, seen);
      && t.nextSubmitTime == now + GetRandomInterval(r)
      && s.nextHandle !in s.timers
      && t.submitInterval == Some(s.nextHandle)
      && t.timers == s.timers[s.nextHandle := Timeout(t.nextSubmitTime, seen)]
      && |t.timers| == |s.timers| + 1
      && 30 <= Remaining(t.nextSubmitTime, now) <= 120
  {
  }

  /** Stopping clears the pending timeout and the countdown interval, forgets the
      handle and zeroes the countdown; the form, the banner, loading, the
      submission time and the posted log are untouched. */
  lemma StopClears(config: FormData, s: FormState, now: nat, r: Draw, contact: FormData)
    requires Valid(s) && s.autoSubmit
    ensures var t := ToggleAutoSubmit(config, s, now, r, contact);
      && !t.autoSubmit && t.submitInterval == None && t.countdown == 0
      && t.timers == map[] && !t.ticking
      && t.formData == s.formData && t.message == s.message && t.loading == s.loading
      && t.nextSubmitTime == s.nextSubmitTime && t.posted == s.posted
  {
  }

  /** Starting auto-fills the form, switches auto-submit on, arms exactly one
      timeout at `now` plus the drawn delay, and starts the countdown; nothing is
      posted and the banner and loading are untouched. The armed callback closes
      over the state before the click, in which `autoSubmit` is false. */
  lemma StartArmsOne(config: FormData, s: FormState, now: nat, r: Draw, contact: FormData)
    requires Valid(s) && !s.autoSubmit
    ensures var t := ToggleAutoSubmit(config, s, now, r, contact);
      && t.autoSubmit && t.formData == AutoFill(config, contact)
      && t.nextSubmitTime == now + GetRandomInterval(r)
      && t.submitInterval == Some(s.nextHandle)
      && t.timers == map[s.nextHandle := Timeout(t.nextSubmitTime, Seen(s))]
      && !t.timers[s.nextHandle].seen.autoSubmit
      && t.ticking
      && t.message == s.message && t.loading == s.loading && t.posted == s.posted
  {
  }

  /** A stopped scheduler has nothing pending: no timeout callback runs, whatever
      the time, so a stop cannot be undone by a late timer. */
  lemma StoppedTimerNeverFires(config: FormData, s: FormState, h: nat, now: nat, r: Draw, contact: FormData)
    requires Valid(s) && !s.autoSubmit
    ensures OnTimeout(config, s, h, now, r, contact) == s
    ensures OnTimeoutAsWritten(config, s, h, now, r, contact) == s
  {
  }

  /** The firing guard (intended reading): a due timeout posts exactly once and
      re-arms exactly once when loading is off and auto-submit is on; otherwise it
      posts nothing and arms nothing. */
  lemma FiringGuard(config: FormData, s: FormState, h: nat, now: nat, r: Draw, contact: FormData)
    requires Valid(s) && Due(s, h, now)
    ensures var t := OnTimeout(config, s, h, now, r, contact);
      if !s.loading && s.autoSubmit then
        && t.posted == s.posted + [AutoFill(config, contact)]
        && t.formData == AutoFill(config, contact)
        && t.loading && t.message == NoMessage
        && t.nextSubmitTime == now + GetRandomInterval(r)
        && t.submitInterval == Some(s.nextHandle)
        && t.timers.Keys == {s.nextHandle}
      else
        t == s.(timers := map[])
  {
  }

  /** A firing skipped because a submission is loading does not re-arm: the
      scheduler stays on with nothing pending, and only a stop and a start
      resume it. */
  lemma SkippedFiringStalls(config: FormData, s: FormState, h: nat, now: nat, r: Draw, contact: FormData)
    requires Valid(s) && Due(s, h, now) && s.loading && s.autoSubmit
    ensures var t := OnTimeout(config, s, h, now, r, contact);
      t.autoSubmit && t.timers == map[] && t.posted == s.posted
  {
  }

  /** The countdown shows the remaining seconds and its interval stays live exactly
      while they are positive; once cleared, further ticks change nothing. */
  lemma TickStopsAtZero(s: FormState, now: int, later: int)
    requires s.ticking
    ensures var t := CountdownTick(s, now);
      && t.countdown == Remaining(s.nextSubmitTime, now) >= 0
      && (t.ticking <==> s.nextSubmitTime > now)
      && (!t.ticking ==> t.countdown == 0 && CountdownTick(t, later) == t)
      && t.(countdown := s.countdown, ticking := true) == s
  {
  }

  /** `handleSubmit` end to end: the form at the click is posted once, loading is
      off afterwards on every path; success shows the endpoint's text and
      re-fills the form, a reported failure shows the endpoint's text, an
      exception shows the fixed failure text, and both failures keep the form.
      The scheduler's own fields are untouched. */
  lemma HandleSubmitOutcome(config: FormData, s: FormState, response: Response, contact: FormData)
    ensures var t := SubmitEnd(config, SubmitStart(s, s.formData), response, contact);
      && !t.loading
      && t.posted == s.posted + [s.formData]
      && (response.Replied? && response.success ==>
            t.message == Notice(Success, response.text) && t.formData == AutoFill(config, contact))
      && (response.Replied? && !response.success ==>
            t.message == Notice(Error, response.text) && t.formData == s.formData)
      && (response.Threw? ==> t.message == Notice(Error, FailureText) && t.formData == s.formData)
      && t.(formData := s.formData, message := s.message, loading := s.loading, posted := s.posted) == s
  {
  }

  /** `handleChange` changes the named field of the form and nothing else. */
  lemma ChangeTouchesOneField(s: FormState, name: string, value: string)
    ensures var t := ChangeField(s, name, value);
      && t.formData[name] == value
      && (forall k :: k in s.formData && k != name ==> k in t.formData && t.formData[k] == s.formData[k])
      && t.(formData := s.formData) == s
  {
  }

  /** Unmounting leaves no timer of the component behind. */
  lemma UnmountClearsTimers(s: FormState)
    requires Valid(s)
    ensures Unmount(s).timers == map[] && !Unmount(s).ticking
  {
  }

  // ---------------------------------------------------------------------------
  // The invariant is kept by every step

  lemma ToggleKeepsValid(config: FormData, s: FormState, now: nat, r: Draw, contact: FormData)
    requires Valid(s)
    ensures Valid(ToggleAutoSubmit(config, s, now, r, contact))
  {
  }

  lemma OnTimeoutKeepsValid(config: FormData, s: FormState, h: nat, now: nat, r: Draw, contact: FormData)
    requires Valid(s)
    ensures Valid(OnTimeout(config, s, h, now, r, contact))
  {
  }

  lemma TickKeepsValid(s: FormState, now: int)
    requires Valid(s)
    ensures Valid(CountdownTick(s, now))
  {
  }
}
