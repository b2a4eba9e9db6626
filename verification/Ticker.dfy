/**
  The repeating scheduled timers a view starts to drive its ticks. A view keeps
  one handle; scheduling a new timer overwrites the handle without cancelling a
  timer it may still refer to, and invalidating through the handle cancels only
  that one. A timer still scheduled that no handle refers to is an orphan: it
  keeps firing and nothing can cancel it any more.
 */
module Ticker {

  /**
    `held`: the view's handle refers to a timer that is still scheduled.
    `orphans`: scheduled timers the handle no longer refers to.
   */
  datatype Ticker = Ticker(held: bool, orphans: nat)

  /** No timer scheduled: the state of a freshly built view. */
  const Idle := Ticker(false, 0)

  /** How many timers are scheduled, and so how many fire on every interval. */
  function Live(t: Ticker): nat {
    t.orphans + (if t.held then 1 else 0)
  }

  /** `Timer.scheduledTimer(...)` stored into the handle. */
  function Schedule(t: Ticker): (r: Ticker)
    ensures r.held
    ensures Live(r) == Live(t) + 1
    ensures t.held ==> r.orphans == t.orphans + 1
    ensures t == Idle ==> Live(r) == 1 && r.orphans == 0
  {
    Ticker(true, t.orphans + (if t.held then 1 else 0))
  }

  /** `timer?.invalidate()`, with or without also setting the handle to nil. */
  function Invalidate(t: Ticker): (r: Ticker)
    ensures !r.held
    ensures r.orphans == t.orphans
    ensures Live(r) == Live(t) - (if t.held then 1 else 0)
    ensures t.orphans == 0 ==> r == Idle
  {
    Ticker(false, t.orphans)
  }

  /** Invalidating twice is the same as invalidating once. */
  lemma InvalidateIdempotent(t: Ticker)
    ensures Invalidate(Invalidate(t)) == Invalidate(t)
  {
  }
}
