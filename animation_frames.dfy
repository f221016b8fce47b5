/**
 * The browser's animation-frame queue as the script sees it:
 * `requestAnimationFrame` hands out a fresh non-zero handle for a callback,
 * and `cancelAnimationFrame` (or the callback firing) removes that handle.
 */
module AnimationFrames {

  /** Handles are non-zero, so `if (frameLoopId)` tests only for null. */
  type Handle = h: int | h >= 1 witness 1

  /** The two callbacks the script schedules. */
  datatype Callback = SendFrameCallback | DetectCallback

  /** Pending callbacks, and the next handle to hand out. */
  datatype Scheduler = Scheduler(pending: map<Handle, Callback>, next: Handle)

  const Idle: Scheduler := Scheduler(map[], 1)

  /** Every pending handle was handed out before `next`. */
  ghost predicate WellFormed(s: Scheduler) {
    forall h :: h in s.pending ==> h < s.next
  }

  /** `requestAnimationFrame(cb)`: the new state and the handle returned. */
  function Request(s: Scheduler, cb: Callback): (r: (Scheduler, Handle))
    requires WellFormed(s)
    ensures WellFormed(r.0)
    ensures r.1 !in s.pending
    ensures r.0.pending == s.pending[r.1 := cb]
  {
    (Scheduler(s.pending[s.next := cb], s.next + 1), s.next)
  }

  /** `cancelAnimationFrame(h)`, and equally the removal of `h` when it fires. */
  function Remove(s: Scheduler, h: Handle): (r: Scheduler)
    ensures h !in r.pending && r.next == s.next
    ensures forall k :: k in s.pending && k != h ==> k in r.pending && r.pending[k] == s.pending[k]
    ensures forall k :: k in r.pending ==> k in s.pending
    ensures WellFormed(s) ==> WellFormed(r)
  {
    Scheduler(s.pending - {h}, s.next)
  }

  /** Cancelling everything in `hs`; an absent handle is ignored. */
  function RemoveAll(s: Scheduler, hs: set<Handle>): (r: Scheduler)
    ensures forall k :: k in r.pending <==> k in s.pending && k !in hs
    ensures r.next == s.next
    ensures forall k :: k in r.pending ==> r.pending[k] == s.pending[k]
    ensures WellFormed(s) ==> WellFormed(r)
  {
    Scheduler(s.pending - hs, s.next)
  }

  /** Cancelling a handle just requested undoes the request's effect on the queue. */
  lemma CancelUndoesRequest(s: Scheduler, cb: Callback)
    requires WellFormed(s)
    ensures Remove(Request(s, cb).0, Request(s, cb).1).pending == s.pending
  {
    var (t, h) := Request(s, cb);
    assert Remove(t, h).pending == s.pending by {
      assert forall k :: k in Remove(t, h).pending <==> k in s.pending;
    }
  }

  /** Cancelling a handle that is no longer pending changes nothing. */
  lemma RemoveAbsent(s: Scheduler, h: Handle)
    requires h !in s.pending
    ensures Remove(s, h) == s
  {
    assert s.pending - {h} == s.pending;
  }
}
