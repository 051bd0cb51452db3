/**
 * The pendulum's trace: a FIFO of bob-2 positions bounded at 1000 entries
 * (`trace.push(bob2); if (trace.length > 1000) trace.shift();`).
 */
module Trace {

  const Capacity: nat := 1000

  /** The reference meaning of the buffer: the last `Capacity` entries of a history. */
  function Recent<T>(history: seq<T>): (r: seq<T>)
    ensures |r| == if |history| <= Capacity then |history| else Capacity
  {
    if |history| <= Capacity then history else history[|history| - Capacity..]
  }

  /** One push, then one shift when the buffer went over capacity. */
  function Push<T>(trace: seq<T>, p: T): (r: seq<T>)
    ensures |r| > 0 && r[|r| - 1] == p
    ensures |trace| < Capacity ==> r == trace + [p]
    ensures |trace| == Capacity ==> r == trace[1..] + [p]
    ensures |trace| <= Capacity ==> r == Recent(trace + [p]) && |r| <= Capacity
  {
    var t := trace + [p];
    if |t| > Capacity then t[1..] else t
  }

  /** Pushing the points of `ps` one after another. */
  function PushAll<T>(trace: seq<T>, ps: seq<T>): seq<T>
  {
    if ps == [] then trace else Push(PushAll(trace, ps[..|ps| - 1]), ps[|ps| - 1])
  }

  lemma RecentOfRecent<T>(history: seq<T>, p: T)
    ensures Recent(Recent(history) + [p]) == Recent(history + [p])
  {
  }

  /**
   * However many points are pushed, the buffer holds exactly the most recent ones
   * (at most 1000), oldest first.
   */
  lemma {:induction false} PushAllKeepsMostRecent<T>(trace: seq<T>, ps: seq<T>)
    requires |trace| <= Capacity
    ensures PushAll(trace, ps) == Recent(trace + ps)
  {
    if ps != [] {
      var front, last := ps[..|ps| - 1], ps[|ps| - 1];
      PushAllKeepsMostRecent(trace, front);
      RecentOfRecent(trace + front, last);
      assert trace + front + [last] == trace + ps;
    }
  }
}
