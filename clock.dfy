/** Lamport clock arithmetic of the event engine. */
module LamportClock {

  /**
   * The clock after an event stamped `timestamp` is consumed:
   * `max(clock, timestamp) + 1`, the least value above both.
   */
  function Tick(clock: int, timestamp: int): (r: int)
    ensures r > clock && r > timestamp
    ensures r - 1 == clock || r - 1 == timestamp
  {
    (if clock >= timestamp then clock else timestamp) + 1
  }

  /** The clock after events stamped `ts` are consumed in queue order. */
  function ClockAfter(clock: int, ts: seq<int>): int
    decreases |ts|
  {
    if ts == [] then clock else Tick(ClockAfter(clock, ts[..|ts| - 1]), ts[|ts| - 1])
  }

  /** Each consumed event advances the clock by at least one and past its stamp. */
  lemma {:induction false} ClockAfterBounds(clock: int, ts: seq<int>)
    ensures ClockAfter(clock, ts) >= clock + |ts|
    ensures forall k :: 0 <= k < |ts| ==> ClockAfter(clock, ts) > ts[k]
    decreases |ts|
  {
    if ts != [] {
      var front := ts[..|ts| - 1];
      ClockAfterBounds(clock, front);
      assert forall k :: 0 <= k < |front| ==> front[k] == ts[k];
    }
  }

  /**
   * The clock values seen after successive events are strictly increasing,
   * whatever the timestamps, and each exceeds the stamp just consumed.
   */
  lemma {:induction false} ClockStrictlyIncreases(clock: int, ts: seq<int>, i: nat, j: nat)
    requires i < j <= |ts|
    ensures ClockAfter(clock, ts[..i]) < ClockAfter(clock, ts[..j])
    ensures ClockAfter(clock, ts[..j]) > ts[j - 1]
    decreases j
  {
    assert ts[..j][..j - 1] == ts[..j - 1];
    if i < j - 1 {
      ClockStrictlyIncreases(clock, ts, i, j - 1);
    }
  }
}
