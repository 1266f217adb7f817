/** Key schedules: their specification, their uniform generation, and the canonical bytes
    whose digest identifies them. */
module KeySchedule {
  import opened Words
  import opened Sampler

  const GENERATOR_VERSION: nat := 1

  /** A Zipfian exponent is carried by the bits of its floating-point representation. */
  datatype KeyDistribution = Uniform | Zipfian(thetaBits: U64)

  type U32 = x: nat | x <= 0xffff_ffff

  datatype KeyScheduleSpec = KeyScheduleSpec(
    generatorVersion: U32,
    seed: U64,
    keyCount: U64,
    operations: U64,
    distribution: KeyDistribution)

  datatype SpecError = UnsupportedVersion | NoKeys | NoOperations | TooManyKeys | TooManyOperations

  /** The checks that do not depend on the Zipfian exponent, in the program's order. `largest` is the
      largest index that the platform can represent. */
  function Validate(spec: KeyScheduleSpec, largest: nat): Option<SpecError> {
    if spec.generatorVersion != GENERATOR_VERSION then Some(UnsupportedVersion)
    else if spec.keyCount == 0 then Some(NoKeys)
    else if spec.operations == 0 then Some(NoOperations)
    else if spec.keyCount > largest then Some(TooManyKeys)
    else if spec.operations > largest then Some(TooManyOperations)
    else None
  }

  /** The first `n` keys sampled from a state, and the state they leave behind. */
  function UniformKeys(state: U64, keyCount: U64, n: nat): (r: (seq<U64>, U64))
    requires keyCount > 0
    ensures |r.0| == n && forall i | 0 <= i < n :: r.0[i] < keyCount
  {
    if n == 0 then ([], state) else
      var (keys, last) := UniformKeys(state, keyCount, n - 1);
      var (key, draws) := Sample(last, keyCount);
      (keys + [key], StateAfter(last, draws))
  }

  // ---------------------------------------------------------------- which draws become keys

  /** `at` lists the accepted draws of a seed's stream up to its last entry, in order. */
  ghost predicate AcceptedDraws(seed: U64, keyCount: U64, at: seq<nat>)
    requires keyCount > 0
  {
    (forall i | 0 <= i < |at| :: at[i] >= 1 && Draw(seed, at[i]) < AcceptanceZone(keyCount)) &&
    (forall i, j | 0 <= i < j < |at| :: at[i] < at[j]) &&
    forall d: nat | 1 <= d && at != [] && d < at[|at| - 1] && Draw(seed, d) < AcceptanceZone(keyCount) :: d in at
  }

  /** The keys are the accepted draws of the seed's stream, one after the other, each reduced by the
      number of keys; a single key needs no draw. */
  ghost predicate FollowsStream(seed: U64, keyCount: U64, keys: seq<U64>)
    requires keyCount > 0
  {
    if keyCount == 1 then forall i | 0 <= i < |keys| :: keys[i] == 0
    else exists at: seq<nat> ::
      |at| == |keys| && AcceptedDraws(seed, keyCount, at) &&
      forall i | 0 <= i < |keys| :: keys[i] == Draw(seed, at[i]) % keyCount
  }

  lemma {:induction false} NextAccepted(seed: U64, keyCount: U64, last: nat) returns (m: nat)
    requires keyCount > 1
    ensures m > last && Draw(seed, m) < AcceptanceZone(keyCount)
    ensures forall d: nat | last < d < m :: Draw(seed, d) >= AcceptanceZone(keyCount)
    ensures Sample(StateAfter(seed, last), keyCount) == (Draw(seed, m) % keyCount, m - last)
  {
    hide Mix, AcceptanceZone;
    var state := StateAfter(seed, last);
    var draws := Draws(state);
    var taken := FirstAccepted(draws, keyCount, 0);
    m := last + taken;
    StateShift(seed, last, taken);
    assert !Rejected(draws, keyCount, taken);
    forall d: nat | last < d < m ensures Draw(seed, d) >= AcceptanceZone(keyCount) {
      StateShift(seed, last, d - last);
      assert Rejected(draws, keyCount, d - last);
    }
  }

  ghost function LastOf(at: seq<nat>): nat {
    if at == [] then 0 else at[|at| - 1]
  }

  /** The first `n` keys come from the draws in `at`, and the generator stands after the last of them. */
  ghost predicate ComesFrom(seed: U64, keyCount: U64, n: nat, at: seq<nat>)
    requires keyCount > 0
  {
    |at| == n && AcceptedDraws(seed, keyCount, at) &&
    UniformKeys(seed, keyCount, n).1 == StateAfter(seed, LastOf(at)) &&
    forall j | 0 <= j < n :: UniformKeys(seed, keyCount, n).0[j] == Draw(seed, at[j]) % keyCount
  }

  lemma OneMoreKey(seed: U64, keyCount: U64, n: nat, at: seq<nat>, m: nat)
    requires keyCount > 0 && |at| == n
    requires UniformKeys(seed, keyCount, n).1 == StateAfter(seed, LastOf(at)) && m > LastOf(at)
    requires Sample(StateAfter(seed, LastOf(at)), keyCount) == (Draw(seed, m) % keyCount, m - LastOf(at))
    ensures UniformKeys(seed, keyCount, n + 1) ==
            (UniformKeys(seed, keyCount, n).0 + [Draw(seed, m) % keyCount], StateAfter(seed, m))
  {
    hide Sample, Draw;
    StateShift(seed, LastOf(at), m - LastOf(at));
    hide StateAfter;
  }

  lemma ComesNext(seed: U64, keyCount: U64, n: nat, at: seq<nat>) returns (more: seq<nat>)
    requires keyCount > 1 && ComesFrom(seed, keyCount, n, at)
    ensures ComesFrom(seed, keyCount, n + 1, more)
  {
    hide Sample, Draw, AcceptanceZone, StateAfter, UniformKeys, AcceptedDraws;
    var m := NextAccepted(seed, keyCount, LastOf(at));
    OneMoreKey(seed, keyCount, n, at, m);
    Extended(seed, keyCount, at, LastOf(at), m);
    more := at + [m];
  }

  lemma KeysFollowStream(seed: U64, keyCount: U64, n: nat)
    requires keyCount > 0
    ensures FollowsStream(seed, keyCount, UniformKeys(seed, keyCount, n).0)
  {
    if keyCount == 1 {
      SingleKey(seed, n);
    } else {
      var at: seq<nat> := [];
      assert ComesFrom(seed, keyCount, 0, at);
      for i := 0 to n
        invariant ComesFrom(seed, keyCount, i, at)
      {
        hide ComesFrom;
        at := ComesNext(seed, keyCount, i, at);
      }
    }
  }

  lemma Extended(seed: U64, keyCount: U64, at: seq<nat>, last: nat, m: nat)
    requires keyCount > 1 && AcceptedDraws(seed, keyCount, at) && last == LastOf(at)
    requires m > last && Draw(seed, m) < AcceptanceZone(keyCount)
    requires forall d: nat | last < d < m :: Draw(seed, d) >= AcceptanceZone(keyCount)
    ensures AcceptedDraws(seed, keyCount, at + [m])
  {
    hide Draw, AcceptanceZone;
    forall d: nat | 1 <= d < m && Draw(seed, d) < AcceptanceZone(keyCount) ensures d in at + [m] {
      assert d <= last;
      if d == last {
        assert at[|at| - 1] == d;
      }
    }
  }

  lemma {:induction false} SingleKey(seed: U64, n: nat)
    ensures forall i | 0 <= i < n :: UniformKeys(seed, 1, n).0[i] == 0
  {
    if n > 0 {
      SingleKey(seed, n - 1);
    }
  }

  datatype Generated = Keys(keys: seq<U64>) | Invalid(error: SpecError)

  /** Uniform generation: a spec is refused with the first error it has, and otherwise there are as
      many keys as operations, which follow the stream of the seed. */
  method GenerateUniform(spec: KeyScheduleSpec, largest: nat) returns (r: Generated)
    requires spec.distribution == Uniform
    ensures r == Invalid(UnsupportedVersion) <==> spec.generatorVersion != 1
    ensures r == Invalid(NoKeys) <==> spec.generatorVersion == 1 && spec.keyCount == 0
    ensures r == Invalid(NoOperations) <==> spec.generatorVersion == 1 && spec.keyCount > 0 && spec.operations == 0
    ensures r == Invalid(TooManyKeys) <==>
              spec.generatorVersion == 1 && spec.keyCount > 0 && spec.operations > 0 && spec.keyCount > largest
    ensures r == Invalid(TooManyOperations) <==>
              spec.generatorVersion == 1 && 0 < spec.keyCount <= largest && spec.operations > largest
    ensures r.Keys? ==> |r.keys| == spec.operations && forall i | 0 <= i < |r.keys| :: r.keys[i] < spec.keyCount
    ensures r.Keys? ==> spec.keyCount > 0 && FollowsStream(spec.seed, spec.keyCount, r.keys)
  {
    var invalid := Validate(spec, largest);
    if invalid.Some? {
      return Invalid(invalid.value);
    }
    var random := new SplitMix64(spec.seed);
    var keys: seq<U64> := [];
    for i := 0 to spec.operations
      invariant (keys, random.state) == UniformKeys(spec.seed, spec.keyCount, i)
    {
      var key := SampleBounded(random, spec.keyCount);
      keys := keys + [key];
    }
    KeysFollowStream(spec.seed, spec.keyCount, spec.operations);
    r := Keys(keys);
  }
}
