/** The scheduling of the game loop. While the game runs, every pending
    `requestAnimationFrame` callback runs one frame of `loop` at the next
    paint of the browser and schedules its successor; once the game has
    stopped, a callback returns at once and schedules nothing. `start`
    runs a first frame itself, which schedules one callback. The handle
    `_raf` names only the callback scheduled last. */
module Frames {

  /** Whether the game runs, and how many `loop` callbacks are pending. */
  datatype Schedule = Schedule(running: bool, pending: nat)

  /** What the page can do to the loop: a press of the start or restart
      button, a paint of the browser, and a paint in which the `j`-th
      pending callback (counting from 1, in the order they were scheduled)
      reaches the finish line and calls `stop` from `update`. */
  datatype Event = Press | Repaint | FinishLine(j: nat)

  /** The page before the first `start`. */
  const Idle: Schedule := Schedule(false, 0)

  /** How many game frames one paint simulates. */
  function PaintFrames(s: Schedule): (n: nat)
    ensures !s.running ==> n == 0
    ensures s.running ==> n == s.pending
  {
    if s.running then s.pending else 0
  }

  /** A paint: each pending callback runs; while the game runs each one
      schedules its successor, otherwise all of them end. */
  function Paint(s: Schedule): (r: Schedule)
    ensures r.running == s.running && r.pending == PaintFrames(s)
  {
    if s.running then s else Schedule(false, 0)
  }

  /** A paint in which callback `j` ends the run. Callbacks run in the
      order they were scheduled, and `_raf` names the one scheduled last.
      Callbacks `1` to `j - 1` have each scheduled a successor, so `stop`
      cancels the successor of callback `j - 1`; when callback `j` is the
      first, it cancels the last callback still waiting in this paint, or
      nothing if callback `j` is alone. Callback `j` still schedules its
      own successor, which will return at once, and the callbacks after it
      find the game stopped and end. */
  function FinishingPaint(s: Schedule, j: nat): (r: Schedule)
    requires 1 <= j <= s.pending
    ensures !r.running && 1 <= r.pending <= s.pending
    ensures s.pending <= 2 ==> r.pending == 1
  {
    Schedule(false, if j <= 2 then 1 else j - 1)
  }

  /** `start()` as written: the game is reset and `loop` runs directly,
      scheduling one more callback; the callbacks already pending stay. */
  function StartAsWritten(s: Schedule): (r: Schedule)
    ensures r.running && r.pending == s.pending + 1
  {
    Schedule(true, s.pending + 1)
  }

  /** `start()` that first cancels `_raf`, as `stop` does: the callback
      scheduled last, if any, is cancelled before `loop` schedules the new
      one. */
  function Start(s: Schedule): (r: Schedule)
    ensures r.running
    ensures s.pending <= 1 ==> r.pending == 1
  {
    Schedule(true, (if s.pending > 0 then s.pending - 1 else 0) + 1)
  }

  /** One event with the given `start`. */
  function Step(s: Schedule, e: Event, asWritten: bool): Schedule
  {
    match e
    case Press => if asWritten then StartAsWritten(s) else Start(s)
    case Repaint => Paint(s)
    case FinishLine(j) => if s.running && 1 <= j <= s.pending then FinishingPaint(s, j) else Paint(s)
  }

  /** A sequence of events, from first to last. */
  function Run(s: Schedule, es: seq<Event>, asWritten: bool): Schedule
    decreases |es|
  {
    if es == [] then s else Step(Run(s, es[..|es| - 1], asWritten), es[|es| - 1], asWritten)
  }

  /** At most one callback is pending, and exactly one while the game
      runs: each paint of a running game simulates exactly one frame. */
  predicate OneLoop(s: Schedule)
  {
    s.pending <= 1 && (s.running ==> s.pending == 1)
  }

  /** As written, pressing restart during a run leaves a second loop
      running: every paint then simulates two frames, so the slope scrolls,
      the speed ramps and the score accrues twice as fast. */
  lemma RestartDoublesFrames()
    ensures var s := Run(Idle, [Press, Repaint, Press], true);
            s.running && PaintFrames(s) == 2 && !OneLoop(s)
  {
    assert [Press, Repaint, Press][..2] == [Press, Repaint];
    assert [Press, Repaint][..1] == [Press];
    assert [Press][..0] == [];
  }

  /** As written, every press during a run adds one loop: after `k`
      presses, each paint simulates `k` frames. */
  lemma {:induction false} PressesPileUp(es: seq<Event>)
    requires forall i :: 0 <= i < |es| ==> es[i] == Press
    ensures |es| > 0 ==> PaintFrames(Run(Idle, es, true)) == |es|
    ensures Run(Idle, es, true).pending == |es|
    decreases |es|
  {
    if es != [] {
      PressesPileUp(es[..|es| - 1]);
    }
  }

  /** With the cancel, whatever the page does, there is never more than one
      loop, and a paint of a running game simulates exactly one frame. */
  lemma {:induction false} OneLoopAlways(es: seq<Event>)
    ensures OneLoop(Run(Idle, es, false))
    ensures Run(Idle, es, false).running ==> PaintFrames(Run(Idle, es, false)) == 1
    decreases |es|
  {
    if es != [] {
      OneLoopAlways(es[..|es| - 1]);
    }
  }
}
