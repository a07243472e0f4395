/** The `NominationForm` component's scheduler state as an object whose event
    handlers update its fields in place, in the order the handlers call their
    state setters. Each handler is specified by the matching step function of
    `Scheduler` and keeps the scheduler's invariant. */
module Component {
  import opened Form
  import opened Timing
  import opened Scheduler

  class NominationForm {
    /** `autoFillConfig`, the fixed part of every auto-filled form. */
    const config: FormData

    var formData: FormData
    var autoSubmit: bool
    var submitInterval: Option<nat>
    var nextSubmitTime: int
    var countdown: int
    var message: Message
    var loading: bool

    // browser side: pending timeouts, the handle allocator, the countdown
    // interval, and the payloads posted to the endpoint
    var timers: map<nat, Timeout>
    var nextHandle: nat
    var ticking: bool
    var posted: seq<FormData>

    function State(): FormState
      reads this
    {
      FormState(formData, autoSubmit, submitInterval, nextSubmitTime, countdown,
                message, loading, timers, nextHandle, ticking, posted)
    }

    ghost predicate Valid()
      reads this
    {
      Scheduler.Valid(State())
    }

    /** Mount: the form starts auto-filled, the scheduler stopped. */
    constructor (config: FormData, contact: FormData)
      ensures this.config == config
      ensures State() == Initial(config, contact)
      ensures Valid()
    {
      this.config := config;
      formData := AutoFill(config, contact);
      autoSubmit := false;
      submitInterval := None;
      nextSubmitTime := 0;
      countdown := 0;
      message := NoMessage;
      loading := false;
      timers := map[];
      nextHandle := 1;
      ticking := false;
      posted := [];
    }

    method HandleChange(name: string, value: string)
      requires Valid()
      modifies this
      ensures State() == ChangeField(old(State()), name, value)
      ensures formData[name] == value
      ensures Valid()
    {
      formData := Form.HandleChange(formData, name, value);
    }

    /** `handleSubmit` up to its `await`: returns the payload it posts. */
    method SubmitStart() returns (payload: FormData)
      requires Valid()
      modifies this
      ensures payload == old(formData)
      ensures State() == Scheduler.SubmitStart(old(State()), payload)
      ensures Valid()
    {
      loading := true;
      message := NoMessage;
      payload := formData;
      posted := posted + [payload];
    }

    /** `handleSubmit` from its `await` on: `contact` is the fresh random contact
        used only on success. */
    method SubmitEnd(response: Response, contact: FormData)
      requires Valid()
      modifies this
      ensures State() == Scheduler.SubmitEnd(config, old(State()), response, contact)
      ensures !loading
      ensures Valid()
    {
      match response {
        case Replied(success, text) =>
          if success {
            message := Notice(Success, text);
            formData := AutoFill(config, contact);
          } else {
            message := Notice(Error, text);
          }
        case Threw =>
          message := Notice(Error, FailureText);
      }
      loading := false;
    }

    /** `scheduleNextSubmit`, its callback closing over `seen`; returns the handle. */
    method ScheduleNextSubmit(now: nat, r: Draw, seen: Snapshot) returns (h: nat)
      modifies this
      ensures h == old(nextHandle) && submitInterval == Some(h)
      ensures State() == Scheduler.ScheduleNextSubmit(old(State()), now, r, seen)
    {
      var interval := GetRandomInterval(r);
      nextSubmitTime := now + interval;
      h := nextHandle;
      timers := timers[h := Timeout(now + interval, seen)];
      nextHandle := nextHandle + 1;
      submitInterval := Some(h);
    }

    method ToggleAutoSubmit(now: nat, r: Draw, contact: FormData)
      requires Valid()
      modifies this
      ensures State() == Scheduler.ToggleAutoSubmit(config, old(State()), now, r, contact)
      ensures old(autoSubmit) ==> !autoSubmit && timers == map[] && countdown == 0 && formData == old(formData)
      ensures !old(autoSubmit) ==> autoSubmit && |timers| == 1 && formData == AutoFill(config, contact)
      ensures Valid()
    {
      var before := State();
      if autoSubmit {
        if submitInterval.Some? {
          timers := timers - {submitInterval.value};
        }
        submitInterval := None;
        autoSubmit := false;
        countdown := 0;
      } else {
        formData := AutoFill(config, contact);
        autoSubmit := true;
        var h := ScheduleNextSubmit(now, r, Seen(before));
      }
      Rerender(before);
      Scheduler.ToggleKeepsValid(config, before, now, r, contact);
      if before.autoSubmit {
        Scheduler.StopClears(config, before, now, r, contact);
      } else {
        Scheduler.StartArmsOne(config, before, now, r, contact);
      }
    }

    /** The callback of timeout `h` when the browser runs it at `now` (the intended
        reading, with the guard on the current state). */
    method OnTimeout(h: nat, now: nat, r: Draw, contact: FormData)
      requires Valid()
      modifies this
      ensures State() == Scheduler.OnTimeout(config, old(State()), h, now, r, contact)
      ensures Valid()
    {
      var before := State();
      if h in timers && timers[h].fireAt <= now {
        timers := timers - {h};
        if !loading && autoSubmit {
          formData := AutoFill(config, contact);
          var payload := SubmitStart();
          var next := ScheduleNextSubmit(now, r, Seen(State()));
          Rerender(before);
        }
      }
      Scheduler.OnTimeoutKeepsValid(config, before, h, now, r, contact);
    }

    /** One run of the countdown interval's callback. */
    method CountdownTick(now: int)
      requires Valid()
      modifies this
      ensures State() == Scheduler.CountdownTick(old(State()), now)
      ensures countdown >= 0
      ensures Valid()
    {
      if ticking {
        var remaining := Remaining(nextSubmitTime, now);
        countdown := remaining;
        if remaining == 0 {
          ticking := false;
        }
      }
    }

    /** The effect cleanups on unmount. */
    method Unmount()
      requires Valid()
      modifies this
      ensures State() == Scheduler.Unmount(old(State()))
      ensures timers == map[] && !ticking
    {
      ticking := false;
      if submitInterval.Some? {
        timers := timers - {submitInterval.value};
      }
    }

    /** The effects whose dependencies changed since `before` re-run. */
    method Rerender(before: FormState)
      modifies this
      ensures State() == Commit(before, old(State()))
    {
      if before.autoSubmit != autoSubmit || before.nextSubmitTime != nextSubmitTime {
        ticking := autoSubmit && nextSubmitTime > 0;
      }
      if before.submitInterval != submitInterval && before.submitInterval.Some? {
        timers := timers - {before.submitInterval.value};
      }
    }
  }
}
