/**
 * The three inputs of the generator and how blank or out-of-range values
 * are resolved before generation starts.
 */
module Params {
  import opened Wrappers
  import opened SeededRandom
  import Palette

  /** The code units of `'default'`. */
  const DefaultSeed: seq<CodeUnit> := [100, 101, 102, 97, 117, 108, 116]
  const DefaultLevel: int := 5

  const MinComplexity: int := 1
  const MaxComplexity: int := 10
  const ParticlesPerLevel: nat := 100

  /** `seedText.value || 'default'`: an absent or empty seed falls back to `'default'`. */
  function ResolveSeed(input: Option<seq<CodeUnit>>): (s: seq<CodeUnit>)
    ensures |s| > 0
    ensures input.Some? && input.value != [] ==> s == input.value
    ensures input.None? || input.value == [] ==> s == DefaultSeed
  {
    if input.Some? && input.value != [] then input.value else DefaultSeed
  }

  /** `colorScheme.value || 'cosmic'`: an absent or empty name falls back to `'cosmic'`. */
  function ResolveScheme(input: Option<string>): (s: string)
    ensures |s| > 0
    ensures input.Some? && input.value != "" ==> s == input.value
    ensures input.None? || input.value == "" ==> s == Palette.DefaultScheme
  {
    if input.Some? && input.value != "" then input.value else Palette.DefaultScheme
  }

  /**
   * `complexity.value || 5`: an absent level and the level 0 (which is falsy)
   * both fall back to 5; every other level is kept, negative ones included.
   */
  function ResolveLevel(input: Option<int>): (l: int)
    ensures l != 0
    ensures input.Some? && input.value != 0 ==> l == input.value
    ensures input.None? || input.value == 0 ==> l == DefaultLevel
  {
    if input.Some? && input.value != 0 then input.value else DefaultLevel
  }

  /**
   * The defaults are fixed points: feeding a resolved value back in as the
   * input resolves to the same value, so a default never needs a default.
   */
  lemma ResolveIdempotent(seed: Option<seq<CodeUnit>>, scheme: Option<string>, level: Option<int>)
    ensures ResolveSeed(Some(ResolveSeed(seed))) == ResolveSeed(seed)
    ensures ResolveScheme(Some(ResolveScheme(scheme))) == ResolveScheme(scheme)
    ensures ResolveLevel(Some(ResolveLevel(level))) == ResolveLevel(level)
  {
  }

  /** `Math.max(1, Math.min(10, level))`. */
  function Clamp(level: int): (c: int)
    ensures MinComplexity <= c <= MaxComplexity
    ensures MinComplexity <= level <= MaxComplexity ==> c == level
    ensures level < MinComplexity ==> c == MinComplexity
    ensures level > MaxComplexity ==> c == MaxComplexity
  {
    var upper := if level < MaxComplexity then level else MaxComplexity;
    if upper > MinComplexity then upper else MinComplexity
  }

  /** Clamping is idempotent and never reverses the order of two levels. */
  lemma ClampIdempotentMonotone(a: int, b: int)
    ensures Clamp(Clamp(a)) == Clamp(a)
    ensures a <= b ==> Clamp(a) <= Clamp(b)
  {
  }

  /** `COMPLEXITY * 100`: the number of particles created at setup. */
  function ParticleCount(level: int): (n: nat)
    ensures n % ParticlesPerLevel == 0
    ensures MinComplexity * 100 <= n <= MaxComplexity * 100
    ensures MinComplexity <= level <= MaxComplexity ==> n == level * 100
    ensures level < MinComplexity ==> n == MinComplexity * 100
    ensures level > MaxComplexity ==> n == MaxComplexity * 100
  {
    Clamp(level) * ParticlesPerLevel
  }

  /**
   * Level resolution end to end: 0 falls back to 5 (500 particles) rather than
   * clamping to 1; a negative level clamps to 1 and a large one to 10.
   */
  lemma LevelExamples()
    ensures ParticleCount(ResolveLevel(Some(0))) == 500
    ensures ParticleCount(ResolveLevel(None)) == 500
    ensures ParticleCount(ResolveLevel(Some(-3))) == 100
    ensures ParticleCount(ResolveLevel(Some(99))) == 1000
    ensures ParticleCount(ResolveLevel(Some(3))) == 300
  {
  }
}
