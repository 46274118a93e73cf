/** The generator retry delays draw from: SplitMix64, with its top 53 bits read as a fraction. */
module SplitMix {
  import opened Retry
  import opened RetryState

  function Advance(random: bv64): (r: bv64) { random + 0x9E37_79B9_7F4A_7C15 }

  function FirstRound(value: bv64): (r: bv64) { (value ^ (value >> 30)) * 0xBF58_476D_1CE4_E5B9 }

  function SecondRound(value: bv64): (r: bv64) { (value ^ (value >> 27)) * 0x94D0_49BB_1331_11EB }

  function Fold(value: bv64): (r: bv64) { value ^ (value >> 31) }

  function Mix(random: bv64): (r: bv64) { Fold(SecondRound(FirstRound(random))) }

  /** Every value lands in the half-open unit interval. */
  function UnitOf(value: bv64): (r: real)
    ensures 0.0 <= r < 1.0
  {
    (value >> 11) as bv53 as nat as real / 9007199254740992.0
  }

  /** The published outputs of SplitMix64 for the seed zero. */
  lemma KnownOutputs()
    ensures var first, second := Advance(0), Advance(Advance(0));
            Mix(first) == 0xE220_A839_7B1D_CDAF && Mix(second) == 0x6E78_9E6A_A1B9_65F4
  {
  }

  /** The top 53 bits count in steps of two to the minus 53. */
  lemma KnownUnits()
    ensures UnitOf(0x7FF) == 0.0 && UnitOf(0x800) == 1.0 / 9007199254740992.0 && UnitOf(0x8000_0000_0000_0000) == 0.5
    ensures UnitOf(0xFFFF_FFFF_FFFF_FFFF) == 9007199254740991.0 / 9007199254740992.0
  {
  }

  function SplitMix64(): (g: Generator) { Generator(random => Advance(random), random => UnitOf(Mix(random))) }

  /** The state an operation starts from: this generator, on a given seed. */
  method WithSeed(schedule: Schedule, range: real, seed: bv64) returns (state: State)
    ensures fresh(state) && state.generator == SplitMix64() && state.schedule == schedule && state.range == range
    ensures state.Current() == Fresh(seed)
  {
    state := new State(schedule, range, SplitMix64(), seed);
  }
}
