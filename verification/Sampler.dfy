/** The deterministic key sampler: a SplitMix64 stream reduced to a range by rejection. */
module Sampler {
  import opened Words

  const GAMMA: U64 := 0x9e37_79b9_7f4a_7c15
  const MIX1: U64 := 0xbf58_476d_1ce4_e5b9
  const MIX2: U64 := 0x94d0_49bb_1331_11eb

  // ---------------------------------------------------------------- the stream

  function Mix(state: U64): U64 {
    var a := WrappingMul(XorShiftRight(state, 30), MIX1);
    var b := WrappingMul(XorShiftRight(a, 27), MIX2);
    XorShiftRight(b, 31)
  }

  /** No two states give the same output. */
  lemma MixInjective(x: U64, y: U64)
    requires Mix(x) == Mix(y)
    ensures x == y
  {
    var a, a' := WrappingMul(XorShiftRight(x, 30), MIX1), WrappingMul(XorShiftRight(y, 30), MIX1);
    var b, b' := WrappingMul(XorShiftRight(a, 27), MIX2), WrappingMul(XorShiftRight(a', 27), MIX2);
    XorShiftInjective(b, b', 31);
    MulInjective(XorShiftRight(a, 27), XorShiftRight(a', 27), MIX2, 0x3196_42b2_d24d_8ec3, 0x1cd3_36ed_a85f_1453);
    XorShiftInjective(a, a', 27);
    MulInjective(XorShiftRight(x, 30), XorShiftRight(y, 30), MIX1, 0x96de_1b17_3f11_9089, 0x70c3_bca7_8f27_f46c);
    XorShiftInjective(x, y, 30);
  }

  /** The state after `n` draws. */
  function StateAfter(seed: U64, n: nat): U64 {
    if n == 0 then seed else WrappingAdd(StateAfter(seed, n - 1), GAMMA)
  }

  /** The `n`-th draw, counting from one. */
  function Draw(seed: U64, n: nat): U64 {
    Mix(StateAfter(seed, n))
  }

  lemma {:induction false} StateIsLinear(seed: U64, n: nat)
    ensures StateAfter(seed, n) == (seed + n * GAMMA) % TWO64
  {
    if n > 0 {
      StateIsLinear(seed, n - 1);
      WrapOnce(seed + (n - 1) * GAMMA, GAMMA);
      assert seed + n * GAMMA == seed + (n - 1) * GAMMA + GAMMA;
    }
  }

  /** The stream repeats no draw before 2^64 of them. */
  lemma DrawsDistinct(seed: U64, i: nat, j: nat)
    requires i < j < i + TWO64
    ensures Draw(seed, i) != Draw(seed, j)
  {
    if Draw(seed, i) == Draw(seed, j) {
      MixInjective(StateAfter(seed, i), StateAfter(seed, j));
      StateIsLinear(seed, i);
      StateIsLinear(seed, j);
      var a, b := seed + i * GAMMA, seed + j * GAMMA;
      SameRemainder(b, a);
      assert (j - i) * GAMMA == b - a;
      Cancel(j - i, b / TWO64 - a / TWO64, GAMMA, 0xf1de_83e1_9937_733d, 0x957b_bf35_006e_d677);
    }
  }

  class SplitMix64 {
    var state: U64

    constructor (seed: U64)
      ensures state == seed
    {
      state := seed;
    }

    method NextU64() returns (value: U64)
      modifies this
      ensures state == StateAfter(old(state), 1)
      ensures value == Draw(old(state), 1)
    {
      state := WrappingAdd(state, GAMMA);
      value := state;
      value := WrappingMul(XorWord(value, ShiftRight(value, 30)), MIX1);
      value := WrappingMul(XorWord(value, ShiftRight(value, 27)), MIX2);
      value := XorWord(value, ShiftRight(value, 31));
      assert StateAfter(old(state), 1) == WrappingAdd(StateAfter(old(state), 0), GAMMA);
    }
  }

  lemma {:induction false} StateShift(seed: U64, n: nat, m: nat)
    ensures StateAfter(StateAfter(seed, n), m) == StateAfter(seed, n + m)
    decreases m
  {
    if m > 0 {
      StateShift(seed, n, m - 1);
    }
  }

  lemma DrawShift(seed: U64, n: nat)
    ensures StateAfter(StateAfter(seed, n), 1) == StateAfter(seed, n + 1)
    ensures Draw(StateAfter(seed, n), 1) == Draw(seed, n + 1)
  {
    StateShift(seed, n, 1);
  }

  // ---------------------------------------------------------------- rejection terminates

  /** Draws at or above this bound are rejected. */
  function AcceptanceZone(upper: U64): (zone: U64)
    requires upper > 0
  {
    U64_MAX - U64_MAX % upper
  }

  type Stream = nat -> U64

  predicate Within(lo: nat, x: nat, hi: nat) {
    lo <= x < hi
  }

  ghost function Interval(lo: nat, hi: nat): set<nat> {
    set x: nat | lo <= x < hi && Within(lo, x, hi)
  }

  lemma {:induction false} IntervalSize(lo: nat, hi: nat)
    requires lo <= hi
    ensures |Interval(lo, hi)| == hi - lo
    decreases hi
  {
    if lo < hi {
      IntervalSize(lo, hi - 1);
      assert Interval(lo, hi) == Interval(lo, hi - 1) + {hi - 1};
    } else {
      assert Interval(lo, hi) == {};
    }
  }

  ghost function Values(f: Stream, n: nat): set<nat> {
    set i: nat | 1 <= i <= n :: f(i)
  }

  lemma {:induction false} ValuesSize(f: Stream, n: nat)
    requires forall i: nat, j: nat | 1 <= i < j <= n :: f(i) != f(j)
    ensures |Values(f, n)| == n
  {
    if n == 0 {
      assert Values(f, 0) == {};
    } else {
      ValuesSize(f, n - 1);
      assert Values(f, n) == Values(f, n - 1) + {f(n)};
    }
  }

  /** Pigeonhole: `n` distinct values fit into an interval of at least `n` words. */
  lemma Pigeonhole(f: Stream, n: nat, lo: nat, hi: nat)
    requires lo <= hi
    requires forall i: nat, j: nat | 1 <= i < j <= n :: f(i) != f(j)
    requires forall i: nat | 1 <= i <= n :: lo <= f(i) < hi
    ensures n <= hi - lo
  {
    var values, words := Values(f, n), Interval(lo, hi);
    ValuesSize(f, n);
    IntervalSize(lo, hi);
    assert words == values + (words - values);
  }

  lemma ZoneSize(upper: U64)
    requires upper > 0
    ensures TWO64 - AcceptanceZone(upper) == 1 + U64_MAX % upper <= upper
  {
  }

  /** No value comes twice within 2^64 positions. */
  ghost predicate NoEarlyRepeat(draws: Stream) {
    forall i: nat, j: nat | i < j < i + TWO64 :: draws(i) != draws(j)
  }

  predicate Rejected(draws: Stream, upper: U64, n: nat)
    requires upper > 0
  {
    draws(n) >= AcceptanceZone(upper)
  }

  /** Only 1 + (MAX mod upper) words are rejected, so no longer run of rejections exists. */
  lemma RejectionsBounded(draws: Stream, upper: U64, n: nat)
    requires upper > 0 && n <= TWO64 && NoEarlyRepeat(draws)
    requires forall i | 1 <= i <= n :: Rejected(draws, upper, i)
    ensures n <= 1 + U64_MAX % upper <= upper
  {
    ZoneSize(upper);
    forall i: nat | 1 <= i <= n ensures AcceptanceZone(upper) <= draws(i) < TWO64 {
      assert Rejected(draws, upper, i);
    }
    Pigeonhole(draws, n, AcceptanceZone(upper), TWO64);
  }

  /** The first accepted draw after `n` rejected ones; the recursion ends on every stream
      without an early repeat. */
  function FirstAccepted(draws: Stream, upper: U64, n: nat): (m: nat)
    requires upper > 0 && n <= upper && NoEarlyRepeat(draws)
    requires forall i | 1 <= i <= n :: Rejected(draws, upper, i)
    ensures n < m <= 2 + U64_MAX % upper
    ensures !Rejected(draws, upper, m)
    ensures forall i | 1 <= i < m :: Rejected(draws, upper, i)
    decreases upper - n
  {
    RejectionsBounded(draws, upper, n);
    if !Rejected(draws, upper, n + 1) then n + 1 else
      RejectionsBounded(draws, upper, n + 1);
      FirstAccepted(draws, upper, n + 1)
  }

  function Draws(seed: U64): (draws: Stream)
    ensures NoEarlyRepeat(draws)
  {
    DrawsDoNotRepeat(seed);
    n => Draw(seed, n)
  }

  lemma DrawsDoNotRepeat(seed: U64)
    ensures NoEarlyRepeat(n => Draw(seed, n))
  {
    forall i: nat, j: nat | i < j < i + TWO64 ensures Draw(seed, i) != Draw(seed, j) {
      DrawsDistinct(seed, i, j);
    }
  }

  /** The sample drawn from a state, and the number of draws it takes. */
  function Sample(seed: U64, upper: U64): (r: (U64, nat))
    requires upper > 0
    ensures r.0 < upper && r.1 <= 1 + upper
  {
    if upper == 1 then (0, 0) else
      var m := FirstAccepted(Draws(seed), upper, 0);
      (Draws(seed)(m) % upper, m)
  }

  /** The sampling loop terminates after at most `upper` rejections and returns the first
      accepted draw, reduced. */
  method SampleBounded(random: SplitMix64, upper: U64) returns (key: U64)
    requires upper > 0
    modifies random
    ensures key == Sample(old(random.state), upper).0 < upper
    ensures random.state == StateAfter(old(random.state), Sample(old(random.state), upper).1)
  {
    if upper == 1 {
      return 0;
    }
    var acceptanceZone := U64_MAX - U64_MAX % upper;
    ghost var seed, draws := random.state, Draws(random.state);
    ghost var m := FirstAccepted(draws, upper, 0);
    ghost var n := 0;
    while true
      invariant 0 <= n < m
      invariant random.state == StateAfter(seed, n)
      decreases m - n
    {
      DrawShift(seed, n);
      var candidate := random.NextU64();
      n := n + 1;
      assert candidate == draws(n);
      if candidate < acceptanceZone {
        assert !Rejected(draws, upper, n) && n == m;
        return candidate % upper;
      }
      assert Rejected(draws, upper, n);
    }
  }

  // ---------------------------------------------------------------- exact balance

  ghost function Residues(zone: nat, upper: nat, r: nat): set<nat>
    requires upper > 0
  {
    set v: nat | v < zone && v % upper == r
  }

  lemma {:induction false} ResiduesSize(q: nat, upper: nat, r: nat)
    requires r < upper
    ensures |Residues(q * upper, upper, r)| == q
    decreases q
  {
    if q == 0 {
      assert Residues(q * upper, upper, r) == {};
    } else {
      var last := (q - 1) * upper + r;
      ResiduesSize(q - 1, upper, r);
      assert q * upper == (q - 1) * upper + upper;
      forall v: nat | (q - 1) * upper <= v < q * upper ensures v % upper == v - (q - 1) * upper {
        RemainderInRow(v, q - 1, upper);
      }
      assert Residues(q * upper, upper, r) == Residues((q - 1) * upper, upper, r) + {last};
    }
  }

  lemma RemainderInRow(v: nat, q: nat, upper: nat)
    requires upper > 0 && q * upper <= v < q * upper + upper
    ensures v % upper == v - q * upper
  {
    var k := v / upper;
    QuotientBound(q, v, upper);
    ProductMonotone(q + 1, k, upper);
    assert (q + 1) * upper == q * upper + upper;
    assert k == q;
  }

  function Output(state: U64): U64 {
    Mix(WrappingAdd(state, GAMMA))
  }

  lemma OutputInjective(x: U64, y: U64)
    requires Output(x) == Output(y)
    ensures x == y
  {
    MixInjective(WrappingAdd(x, GAMMA), WrappingAdd(y, GAMMA));
    AddInjective(x, y, GAMMA);
  }

  ghost predicate Injective(f: U64 -> U64) {
    forall x, y | f(x) == f(y) :: x == y
  }

  ghost function Image(f: U64 -> U64, states: set<U64>): set<U64> {
    set x | x in states :: f(x)
  }

  lemma {:induction false} ImageSize(f: U64 -> U64, states: set<U64>)
    requires Injective(f)
    ensures |Image(f, states)| == |states|
  {
    if states == {} {
      assert Image(f, states) == {};
    } else {
      var x :| x in states;
      var rest := states - {x};
      ImageSize(f, rest);
      assert f(x) !in Image(f, rest);
      assert Image(f, states) == Image(f, rest) + {f(x)};
    }
  }

  /** An injection of the words into the words reaches every word. */
  lemma InjectionReachesAll(f: U64 -> U64, v: U64) returns (s: U64)
    requires Injective(f)
    ensures f(s) == v
  {
    var all := Interval(0, TWO64);
    var image := Image(f, all);
    ImageSize(f, all);
    SubsetOfSameSize(image, all);
    assert v in image;
    s :| s in all && f(s) == v;
  }

  /** An injection on words takes every word to as many places as it comes from. */
  lemma PreimageSize(f: U64 -> U64, target: set<U64>, source: set<U64>)
    requires Injective(f)
    requires forall s: U64 :: s in source <==> f(s) in target
    ensures |source| == |target|
  {
    ImageSize(f, source);
    forall v | v in target ensures v in Image(f, source) {
      var s := InjectionReachesAll(f, v);
    }
    assert Image(f, source) == target;
  }

  /** The generator states from which one draw is accepted and reduces to `r`. */
  ghost function StatesGiving(upper: U64, r: U64): set<U64>
    requires upper > 0
  {
    set s | s in Interval(0, TWO64) && Output(s) in Residues(AcceptanceZone(upper), upper, r)
  }

  /** Over all 2^64 generator states, every residue below `upper` is accepted equally often. */
  lemma SamplingIsBalanced(upper: U64, r: U64)
    requires upper > 1 && r < upper
    ensures |StatesGiving(upper, r)| == AcceptanceZone(upper) / upper
  {
    var zone := AcceptanceZone(upper);
    ZoneIsMultiple(upper);
    ResiduesSize(zone / upper, upper, r);
    OutputsInjective();
    PreimageSize(Output, Residues(zone, upper, r), StatesGiving(upper, r));
  }

  lemma OutputsInjective()
    ensures Injective(Output)
  {
    forall x, y | Output(x) == Output(y) ensures x == y {
      OutputInjective(x, y);
    }
  }

  lemma ZoneIsMultiple(upper: U64)
    requires upper > 0
    ensures AcceptanceZone(upper) / upper * upper == AcceptanceZone(upper)
  {
    var q := U64_MAX / upper;
    assert AcceptanceZone(upper) == q * upper;
    RemainderInRow(q * upper, q, upper);
  }
}
