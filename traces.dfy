/** Sequences of events the component can receive, run through the scheduler:
    the invariant holds along every run, a stop stays a stop while only timers
    run, and the as-written timeout callback never submits on its own. */
module Traces {
  import opened Form
  import opened Timing
  import opened Scheduler

  /** One event: a click, an edit, a response arriving, a timer running. */
  datatype Event =
    | ClickToggle(now: nat, r: Draw, contact: FormData)
    | Edit(name: string, value: string)
    | ClickSubmit
    | Respond(response: Response, contact: FormData)
    | TimerFires(handle: nat, now: nat, r: Draw, contact: FormData)
    | IntervalTicks(now: nat)

  /** Only the timers act: no click, edit or response. */
  predicate TimerOnly(e: Event)
  {
    e.TimerFires? || e.IntervalTicks?
  }

  /** One event with the intended timeout callback. */
  function Step(config: FormData, s: FormState, e: Event): FormState
  {
    match e
    case ClickToggle(now, r, contact) => ToggleAutoSubmit(config, s, now, r, contact)
    case Edit(name, value) => ChangeField(s, name, value)
    case ClickSubmit => SubmitStart(s, s.formData)
    case Respond(response, contact) => SubmitEnd(config, s, response, contact)
    case TimerFires(h, now, r, contact) => OnTimeout(config, s, h, now, r, contact)
    case IntervalTicks(now) => CountdownTick(s, now)
  }

  /** One event with the timeout callback as written. */
  function StepAsWritten(config: FormData, s: FormState, e: Event): FormState
  {
    match e
    case TimerFires(h, now, r, contact) => OnTimeoutAsWritten(config, s, h, now, r, contact)
    case _ => Step(config, s, e)
  }

  function Run(config: FormData, s: FormState, es: seq<Event>): FormState
    decreases |es|
  {
    if es == [] then s else Run(config, Step(config, s, es[0]), es[1..])
  }

  function RunAsWritten(config: FormData, s: FormState, es: seq<Event>): FormState
    decreases |es|
  {
    if es == [] then s else RunAsWritten(config, StepAsWritten(config, s, es[0]), es[1..])
  }

  lemma StepKeepsValid(config: FormData, s: FormState, e: Event)
    requires Valid(s)
    ensures Valid(Step(config, s, e))
  {
  }

  /** Every run from a valid state ends valid: in particular at most one timeout is
      ever pending, and none while auto-submit is off. */
  lemma {:induction false} RunKeepsValid(config: FormData, s: FormState, es: seq<Event>)
    requires Valid(s)
    ensures Valid(Run(config, s, es))
    ensures |Run(config, s, es).timers| <= 1
    decreases |es|
  {
    if es == [] {
      AtMostOneTimeout(s);
    } else {
      StepKeepsValid(config, s, es[0]);
      RunKeepsValid(config, Step(config, s, es[0]), es[1..]);
    }
  }

  /** After a stop, however much time passes and whichever timers run, nothing is
      posted and the scheduler stays stopped. */
  lemma {:induction false} NoSubmissionAfterStop(config: FormData, s: FormState, es: seq<Event>)
    requires Valid(s) && !s.autoSubmit
    requires forall i :: 0 <= i < |es| ==> TimerOnly(es[i])
    ensures Run(config, s, es) == s
    decreases |es|
  {
    if es != [] {
      if es[0].TimerFires? {
        var e := es[0];
        StoppedTimerNeverFires(config, s, e.handle, e.now, e.r, e.contact);
      }
      assert Step(config, s, es[0]) == s;
      NoSubmissionAfterStop(config, s, es[1..]);
    }
  }

  // ---------------------------------------------------------------------------
  // The stale closure in the timeout callback

  /** Every pending timeout closed over `autoSubmit == false`. */
  ghost predicate AllTimeoutsStale(s: FormState)
  {
    forall h :: h in s.timers ==> !s.timers[h].seen.autoSubmit
  }

  lemma StepAsWrittenKeepsStale(config: FormData, s: FormState, e: Event)
    requires Valid(s) && AllTimeoutsStale(s)
    ensures Valid(StepAsWritten(config, s, e)) && AllTimeoutsStale(StepAsWritten(config, s, e))
    ensures !e.ClickSubmit? ==> StepAsWritten(config, s, e).posted == s.posted
  {
  }

  /** As written, the auto-submit loop never posts anything: whatever the clicks,
      edits, responses and timers, the only posts are manual submits. Every
      timeout is armed by a callback that closed over `autoSubmit == false` (the
      render in which Start was clicked), so the guard of `NominationForm.jsx` line 72 always fails
      and nothing re-arms. */
  lemma {:induction false} AsWrittenNeverAutoSubmits(config: FormData, s: FormState, es: seq<Event>)
    requires Valid(s) && AllTimeoutsStale(s)
    requires forall i :: 0 <= i < |es| ==> !es[i].ClickSubmit?
    ensures RunAsWritten(config, s, es).posted == s.posted
    decreases |es|
  {
    if es != [] {
      StepAsWrittenKeepsStale(config, s, es[0]);
      AsWrittenNeverAutoSubmits(config, StepAsWritten(config, s, es[0]), es[1..]);
    }
  }

  /** The concrete case: mount, click Start at time 0 with the shortest delay,
      and let the timeout run when due. As written nothing is posted; with the
      intended callback the auto-filled form is posted once and the next timeout
      is armed. */
  lemma FirstFiringContrast(config: FormData, contact0: FormData, contact1: FormData, contact2: FormData)
    ensures var s := Initial(config, contact0);
      var es := [ClickToggle(0, 0, contact1), TimerFires(1, 30000, 0, contact2)];
      && RunAsWritten(config, s, es).posted == []
      && RunAsWritten(config, s, es).timers == map[]
      && Run(config, s, es).posted == [AutoFill(config, contact2)]
      && Run(config, s, es).timers.Keys == {2}
  {
    var s := Initial(config, contact0);
    var es := [ClickToggle(0, 0, contact1), TimerFires(1, 30000, 0, contact2)];
    var s1 := ToggleAutoSubmit(config, s, 0, 0, contact1);
    StartArmsOne(config, s, 0, 0, contact1);
    assert Due(s1, 1, 30000);
    assert s1.timers - {1} == map[];
    // as written: the callback closed over `autoSubmit == false`
    var w2 := OnTimeoutAsWritten(config, s1, 1, 30000, 0, contact2);
    assert w2 == s1.(timers := map[]);
    assert RunAsWritten(config, s, es) == RunAsWritten(config, w2, []) by {
      assert es[1..] == [es[1]] && es[1..][1..] == [];
    }
    // intended: the guard reads the current state
    var c2 := OnTimeout(config, s1, 1, 30000, 0, contact2);
    FiringGuard(config, s1, 1, 30000, 0, contact2);
    assert Run(config, s, es) == Run(config, c2, []) by {
      assert es[1..] == [es[1]] && es[1..][1..] == [];
    }
  }
}
