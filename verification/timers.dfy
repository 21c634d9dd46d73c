/** The host's interval timers. `setInterval` hands out a fresh positive
    handle (so a stored handle is always truthy), `clearInterval` stops it,
    and a stopped interval never fires again. Only the intervals the core
    itself starts are kept: the typewriter's and the custom-image
    spawner's. */
module Timers {
  import opened Common

  datatype Panel = Left | Right

  /** What a typewriter's `onComplete` does: nothing, or (for the left panel)
      schedule the right panel's reveal half a second later. */
  datatype Completion = NoCallback | ScheduleRight

  datatype Task =
    | Typing(panel: Panel, text: string, index: nat, period: real, onDone: Completion)
    | SpawnImages(period: real)

  datatype Timers = Timers(next: nat, live: map<nat, Task>)

  datatype Started = Started(handle: nat, timers: Timers)

  /** Handles are positive and below the next one to be handed out. */
  predicate Valid(t: Timers)
  {
    t.next >= 1 && forall h :: h in t.live ==> 1 <= h < t.next
  }

  function NoTimers(): (t: Timers)
    ensures Valid(t) && t.live == map[]
  {
    Timers(1, map[])
  }

  /** `setInterval(task, period)`: the handle is fresh and truthy, and the
      new task is the only change to the live intervals. */
  function SetInterval(t: Timers, task: Task): (r: Started)
    requires Valid(t)
    ensures Valid(r.timers)
    ensures r.handle >= 1 && r.handle !in t.live
    ensures r.timers.live == t.live[r.handle := task]
  {
    Started(t.next, Timers(t.next + 1, t.live[t.next := task]))
  }

  /** `clearInterval(h)`; a missing handle clears nothing. */
  function ClearInterval(t: Timers, h: Option<nat>): (r: Timers)
    ensures Valid(t) ==> Valid(r)
    ensures r.next == t.next
    ensures h.Some? ==> h.value !in r.live
    ensures forall g :: g in r.live <==> g in t.live && h != Some(g)
    ensures forall g :: g in r.live ==> r.live[g] == t.live[g]
  {
    if h.Some? then t.(live := t.live - {h.value}) else t
  }
}
