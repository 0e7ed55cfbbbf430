/**
 * The fault injector: a rate table from fault class (`send`, `receive`,
 * `crash`) to a percentage, and the draw of `random.randint(0, 100)`,
 * which includes both ends.
 */
module Faults {

  /**
   * Whether an operation of class `failtype` is faulty for the given draw.
   * A class missing from the table never fails; otherwise the operation
   * fails when the draw is below the rate.
   */
  function Fails(failures: map<string, int>, failtype: string, draw: int): (r: bool)
    requires 0 <= draw <= 100
    ensures failtype !in failures ==> !r
    ensures failtype in failures && failures[failtype] <= 0 ==> !r
    ensures failtype in failures && failures[failtype] == 100 ==> (r <==> draw != 100)
    ensures failtype in failures && failures[failtype] > 100 ==> r
  {
    failtype in failures && draw < failures[failtype]
  }

  /** The draws, among the 101 possible ones, that make `failtype` fail. */
  function FailingDraws(failures: map<string, int>, failtype: string): set<int> {
    set d | 0 <= d <= 100 && Fails(failures, failtype, d)
  }

  /** The rate clamped to the 101 possible draws. */
  function Clamp(rate: int): int {
    if rate < 0 then 0 else if rate > 101 then 101 else rate
  }

  /** The draws 0 .. k - 1. */
  function Below(k: int): set<int>
    decreases k
  {
    if k <= 0 then {} else Below(k - 1) + {k - 1}
  }

  lemma {:induction false} BelowSize(k: nat)
    ensures |Below(k)| == k
    ensures forall d :: d in Below(k) <==> 0 <= d < k
  {
    if k > 0 {
      BelowSize(k - 1);
    }
  }

  /**
   * Exactly `rate` of the 101 equally likely draws fail (clamped to
   * [0, 101]): the failure probability is rate/101, so a rate of 100
   * leaves one surviving draw.
   */
  lemma {:induction false} FailureOdds(failures: map<string, int>, failtype: string)
    ensures failtype !in failures ==> |FailingDraws(failures, failtype)| == 0
    ensures failtype in failures ==>
              |FailingDraws(failures, failtype)| == Clamp(failures[failtype])
  {
    var k := if failtype in failures then Clamp(failures[failtype]) else 0;
    BelowSize(k);
    assert FailingDraws(failures, failtype) == Below(k);
  }
}
