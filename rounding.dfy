/** The Rounder: `custom_round` turns a predicted score into one of six
    ordinal buckets. The score has already been rounded to one decimal by
    Python's `round(value, 1)`; that float step is not modelled, so the
    input here is the rounded value itself. */
module Rounding {

  /** A score after `round(value, 1)`: a whole number of tenths (the value is
      t / 10), or one of the non-finite floats that `round` passes through. */
  datatype Rounded = Tenths(t: int) | PosInf | NegInf | NaN

  /** `rounded <= c / 10` as Python compares floats: every comparison with NaN
      is false, and the infinities lie beyond every finite threshold. */
  predicate AtMost(r: Rounded, c: int)
    ensures r.Tenths? ==> (AtMost(r, c) <==> (r.t as real) / 10.0 <= (c as real) / 10.0)
    ensures r.NaN? ==> !AtMost(r, c)
    ensures r.NegInf? ==> AtMost(r, c)
    ensures r.PosInf? ==> !AtMost(r, c)
  {
    match r
    case Tenths(t) => t <= c
    case NegInf => true
    case PosInf => false
    case NaN => false
  }

  /** `rounded > c / 10` as Python compares floats: the negation of
      `rounded <= c / 10`, except that NaN fails both. */
  predicate Above(r: Rounded, c: int)
    ensures Above(r, c) <==> !r.NaN? && !AtMost(r, c)
  {
    match r
    case Tenths(t) => t > c
    case NegInf => false
    case PosInf => true
    case NaN => false
  }

  /** The six bucket labels; zero is not one of them. */
  predicate IsBucket(b: int) {
    b == -3 || b == -2 || b == -1 || b == 1 || b == 2 || b == 3
  }

  /** The ordered cascade of half-open intervals with thresholds
      -2.5, -1.5, -0.1, 1.4 and 2.4, and the final fallback to 1. */
  function CustomRound(r: Rounded): (b: int)
    ensures IsBucket(b)
  {
    if AtMost(r, -25) then -3
    else if Above(r, -25) && AtMost(r, -15) then -2
    else if Above(r, -15) && AtMost(r, -1) then -1
    else if Above(r, -1) && AtMost(r, 14) then 1
    else if Above(r, 14) && AtMost(r, 24) then 2
    else if Above(r, 24) then 3
    else 1
  }

  /** The final `else` of the cascade is reached by NaN and by nothing else:
      every finite or infinite rounded value falls into one of the intervals,
      so bucket 1 outside the interval (-0.1, 1.4] means NaN. */
  lemma FallbackOnlyForNaN(r: Rounded)
    ensures r.NaN? <==> CustomRound(r) == 1 && !(Above(r, -1) && AtMost(r, 14))
  {
  }

  /** The cascade is non-decreasing in the rounded value. */
  lemma RoundMonotone(s: int, t: int)
    requires s <= t
    ensures CustomRound(Tenths(s)) <= CustomRound(Tenths(t))
    ensures CustomRound(NegInf) <= CustomRound(Tenths(s))
    ensures CustomRound(Tenths(t)) <= CustomRound(PosInf)
  {
  }

  /** The interval edges are hit exactly: each threshold belongs to the
      bucket below it, and one tenth above it belongs to the next bucket. */
  lemma RoundBoundaries()
    ensures CustomRound(Tenths(-25)) == -3 && CustomRound(Tenths(-24)) == -2
    ensures CustomRound(Tenths(-15)) == -2 && CustomRound(Tenths(-14)) == -1
    ensures CustomRound(Tenths(-1)) == -1 && CustomRound(Tenths(0)) == 1
    ensures CustomRound(Tenths(14)) == 1 && CustomRound(Tenths(15)) == 2
    ensures CustomRound(Tenths(24)) == 2 && CustomRound(Tenths(25)) == 3
  {
  }

  /** The interval thresholds in tenths, ascending. */
  const Thresholds: seq<int> := [-25, -15, -1, 14, 24]

  /** The bucket labels, ascending; the k-th belongs to values above exactly
      k thresholds. */
  const Buckets: seq<int> := [-3, -2, -1, 1, 2, 3]

  /** How many of the thresholds `ts` lie strictly below `t`. */
  function CountBelow(ts: seq<int>, t: int): (k: nat)
    ensures k <= |ts|
  {
    if ts == [] then 0
    else (if ts[0] < t then 1 else 0) + CountBelow(ts[1..], t)
  }

  /** An independent reading of the cascade: the bucket of a finite value is
      picked by the number of thresholds it exceeds. */
  lemma {:induction false} RoundIsRank(t: int)
    ensures CountBelow(Thresholds, t) < |Buckets|
    ensures CustomRound(Tenths(t)) == Buckets[CountBelow(Thresholds, t)]
  {
    var ts := Thresholds;
    assert ts[1..] == [-15, -1, 14, 24];
    assert ts[1..][1..] == [-1, 14, 24];
    assert ts[1..][1..][1..] == [14, 24];
    assert ts[1..][1..][1..][1..] == [24];
    assert ts[1..][1..][1..][1..][1..] == [];
    var k5 := CountBelow([24], t);
    var k4 := CountBelow([14, 24], t);
    var k3 := CountBelow([-1, 14, 24], t);
    var k2 := CountBelow([-15, -1, 14, 24], t);
    assert k5 == if 24 < t then 1 else 0;
    assert k4 == (if 14 < t then 1 else 0) + k5;
    assert k3 == (if -1 < t then 1 else 0) + k4;
    assert k2 == (if -15 < t then 1 else 0) + k3;
    assert CountBelow(ts, t) == (if -25 < t then 1 else 0) + k2;
  }
}
