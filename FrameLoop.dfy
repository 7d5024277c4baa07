/** The frame scheduling of the React/Framer variant, as values. A host frame
    request is an abstract positive handle; `pending` is the set of requests
    the host still holds and will fire, and `held` is the one handle the
    system remembers in `animationFrameId` (absent when it is undefined or
    null). */
module FrameLoop {
  import opened ParticleMath

  /** Minimum milliseconds between two frames that do simulation work. */
  const FrameInterval: real := 1000.0 / 60.0

  datatype Loop = Loop(held: Option<nat>, pending: set<nat>)

  /** What one call of `animate(timestamp)` decides: whether it does the
      simulation work, and the `lastTime` it leaves behind. */
  datatype Tick = Tick(work: bool, lastTime: real)

  /** `if (!lastTime) lastTime = timestamp; if (timestamp - lastTime > 1000/60)
      { ...; lastTime = timestamp }`. */
  function Throttle(lastTime: real, timestamp: real): (t: Tick)
    ensures t.work <==> lastTime != 0.0 && timestamp - lastTime > FrameInterval
    ensures t.work ==> t.lastTime == timestamp
    ensures !t.work && lastTime != 0.0 ==> t.lastTime == lastTime
    ensures lastTime == 0.0 ==> !t.work && t.lastTime == timestamp
  {
    var last := if lastTime == 0.0 then timestamp else lastTime;
    if timestamp - last > FrameInterval then Tick(true, timestamp) else Tick(false, last)
  }

  /** `start()`: request a frame only when no handle is held. */
  function StartStep(l: Loop, handle: nat): (r: Loop)
    requires handle !in l.pending
    ensures l.held.Some? ==> r == l
    ensures l.held.None? ==> r.held == Some(handle) && r.pending == l.pending + {handle}
  {
    if l.held.None? then Loop(Some(handle), l.pending + {handle}) else l
  }

  /** `stop()`: cancel the held request, if any, and forget it. */
  function StopStep(l: Loop): (r: Loop)
    ensures r.held == None
    ensures l.held.None? ==> r == l
    ensures l.held.Some? ==> r.pending == l.pending - {l.held.value}
  {
    match l.held
    case None => l
    case Some(h) => Loop(None, l.pending - {h})
  }

  /** The host fires request `fired`; `animate` then requests `next` and
      holds it, whatever it held before. */
  function FireStep(l: Loop, fired: nat, next: nat): (r: Loop)
    requires fired in l.pending && next !in l.pending
    ensures r.held == Some(next)
    ensures r.pending == l.pending - {fired} + {next}
    ensures |r.pending| == |l.pending|
  {
    Loop(Some(next), l.pending - {fired} + {next})
  }

  /** The frame request `setup()` makes without keeping its handle. */
  function UntrackedRequest(l: Loop, handle: nat): (r: Loop)
    requires handle !in l.pending
    ensures r.held == l.held && r.pending == l.pending + {handle}
  {
    Loop(l.held, l.pending + {handle})
  }

  lemma StopIdempotent(l: Loop)
    ensures StopStep(StopStep(l)) == StopStep(l)
  {
  }

  /** Starting a stopped loop and stopping it again cancels exactly the
      request the start made. */
  lemma StartThenStop(l: Loop, handle: nat)
    requires l.held.None? && handle !in l.pending
    ensures StopStep(StartStep(l, handle)) == l
  {
  }

  /** Stop cancels only the held request: a request the host fires the
      callback for survives unless it is the held one. */
  lemma StopKeepsOthers(l: Loop, h: nat)
    requires h in l.pending && l.held != Some(h)
    ensures h in StopStep(l).pending
  {
  }

  /** Each firing replaces one pending request by one, so the number of
      frame callbacks the host runs per frame never changes by firing. */
  lemma {:induction false} FiringKeepsChains(l: Loop, fired: seq<nat>, next: seq<nat>)
    requires |fired| == |next|
    requires FiringsValid(l, fired, next)
    ensures |FireAll(l, fired, next).pending| == |l.pending|
    decreases |fired|
  {
    if |fired| > 0 {
      FiringKeepsChains(FireStep(l, fired[0], next[0]), fired[1..], next[1..]);
    }
  }

  /** Firing a sequence of requests in turn, each one pending when it fires. */
  predicate FiringsValid(l: Loop, fired: seq<nat>, next: seq<nat>)
    requires |fired| == |next|
    decreases |fired|
  {
    |fired| > 0 ==>
      fired[0] in l.pending && next[0] !in l.pending &&
      FiringsValid(FireStep(l, fired[0], next[0]), fired[1..], next[1..])
  }

  function FireAll(l: Loop, fired: seq<nat>, next: seq<nat>): Loop
    requires |fired| == |next| && FiringsValid(l, fired, next)
    decreases |fired|
  {
    if |fired| == 0 then l
    else FireAll(FireStep(l, fired[0], next[0]), fired[1..], next[1..])
  }

  /** The launch sequence `setup(); start();` followed by `stop()` leaves the
      request made by `setup` pending: stop does not end the animation. */
  lemma StopAfterLaunchLeavesUntracked(untracked: nat, started: nat)
    requires untracked != started
    ensures
      var launched := StartStep(UntrackedRequest(Loop(None, {}), untracked), started);
      launched.held == Some(started) && launched.pending == {untracked, started} &&
      StopStep(launched) == Loop(None, {untracked})
  {
  }
}
