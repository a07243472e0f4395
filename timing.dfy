/** The two pieces of arithmetic the scheduler uses: the random delay and the
    whole seconds left before the next submission. Times are integer
    milliseconds, as `Date.now()` gives them. */
module Timing {

  /** The delay window, in milliseconds: at least 30 s, under 2 min. */
  const MinInterval: int := 30000
  const MaxInterval: int := 120000

  /** An integer draw standing for `Math.random() * (120000 - 30000)` before
      `Math.floor`: the browser's float in [0, 1) scaled to the window's width. */
  type Draw = r: int | 0 <= r < MaxInterval - MinInterval

  /** `getRandomInterval`: `Math.floor(Math.random() * (120000 - 30000) + 30000)`. */
  function GetRandomInterval(r: Draw): (ms: int)
    ensures MinInterval <= ms < MaxInterval
  {
    r + MinInterval
  }

  /** The draw that yields a given delay: every delay of the window is reached. */
  function DrawOf(ms: int): (r: Draw)
    requires MinInterval <= ms < MaxInterval
    ensures GetRandomInterval(r) == ms
  {
    ms - MinInterval
  }

  /** Distinct draws give distinct delays, so with `DrawOf` the map from draws to
      delays is a bijection: a uniform draw gives a uniform delay. */
  lemma DrawIsUnique(r1: Draw, r2: Draw)
    requires GetRandomInterval(r1) == GetRandomInterval(r2)
    ensures r1 == r2
  {
  }

  /** `Math.ceil(ms / 1000)` for an integer `ms` (exact: no float rounding occurs
      for the differences the scheduler produces). */
  function CeilSeconds(ms: int): int
  {
    if ms % 1000 == 0 then ms / 1000 else ms / 1000 + 1
  }

  /** The countdown formula `Math.max(0, Math.ceil((nextSubmitTime - now) / 1000))`:
      zero exactly when the submission time has come, otherwise the least whole
      number of seconds that covers the time left. */
  function Remaining(nextSubmitTime: int, now: int): (secs: int)
    ensures secs >= 0
    ensures secs == 0 <==> nextSubmitTime <= now
    ensures secs > 0 ==> (secs - 1) * 1000 < nextSubmitTime - now <= secs * 1000
  {
    var c := CeilSeconds(nextSubmitTime - now);
    if c > 0 then c else 0
  }

  /** For a timeout armed at `armedAt`, the remaining-seconds formula never
      exceeds 120 from then on, and at the moment of arming it is in [30, 120]
      (the displayed countdown takes this value at the first tick, about 1 s later). */
  lemma CountdownWindow(armedAt: int, r: Draw, now: int)
    requires armedAt <= now
    ensures Remaining(armedAt + GetRandomInterval(r), now) <= 120
    ensures now == armedAt ==> 30 <= Remaining(armedAt + GetRandomInterval(r), now)
  {
  }
}
