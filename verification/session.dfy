/**
 * A generation session: the inputs resolved, the generator seeded from the
 * hash of the seed, the flow field built, and the particles created from the
 * generator in creation order.
 *
 * As written, the script's top-level `noiseSeed(rng.random() * 100000)`
 * refers to a p5 global that p5 binds only once the page has loaded, so the
 * call fails when the function name is looked up, before its argument draws
 * from the generator. `Setup` models that: no draw is spent on the noise,
 * and the field does not depend on the seed. `SetupIntended` models the
 * evidently intended behaviour, where the first draw seeds the noise.
 */
module Session {
  import opened Wrappers
  import opened SeededRandom
  import opened Params
  import opened Palette
  import opened Vector
  import opened FlowField
  import opened Particles

  /**
   * The field vector of cell (x, y) from noise seeded with the given value.
   * Unseeded noise, as the script runs, is a plain `CellVectors`.
   */
  type SeededNoise = (real, nat, nat) -> Vec

  datatype Session = Session(
    palette: seq<Color>,
    field: seq<Vec>,
    particles: seq<Particle>,
    state: nat)

  /**
   * Reference definition of particle `i` of a session seeded with `s0`, as
   * the script runs: particle `i` is built from draws 1 + 4i to 4 + 4i.
   */
  function ParticleAt(s0: nat, i: nat, palette: seq<Color>): Particle
    requires |palette| > 0
  {
    NewParticle(Advance(s0, 4 * i), palette).particle
  }

  /** The `for (i < numParticles) particles.push(new Particle())` loop. */
  method CreateParticles(s: nat, n: nat, palette: seq<Color>) returns (ps: seq<Particle>, t: nat)
    requires |palette| > 0
    ensures |ps| == n
    ensures forall i :: 0 <= i < n ==> ps[i] == NewParticle(Advance(s, 4 * i), palette).particle
    ensures t == Advance(s, 4 * n)
  {
    ps := [];
    t := s;
    var i := 0;
    while i < n
      invariant 0 <= i <= n
      invariant |ps| == i
      invariant t == Advance(s, 4 * i)
      invariant forall j :: 0 <= j < i ==> ps[j] == NewParticle(Advance(s, 4 * j), palette).particle
    {
      var b := NewParticle(t, palette);
      AdvanceAdd(s, 4 * i, 4);
      ps := ps + [b.particle];
      t := b.state;
      i := i + 1;
    }
  }

  /**
   * The script as written, from the generator's construction through `setup`:
   * hash the resolved seed, build the flow field from unseeded noise, then
   * create `COMPLEXITY * 100` particles, which are the only consumers of draws.
   */
  method Setup(seedInput: Option<seq<CodeUnit>>, schemeInput: Option<string>, levelInput: Option<int>, noise: CellVectors)
    returns (session: Session)
    ensures session.palette == Resolve(ResolveScheme(schemeInput))
    ensures |session.field| == CellCount
    ensures forall x: nat, y: nat :: InGrid(x, y) ==> session.field[CellIndex(x, y)] == noise(x, y)
    ensures |session.particles| == ParticleCount(ResolveLevel(levelInput))
    ensures forall i :: 0 <= i < |session.particles| ==>
      session.particles[i] == ParticleAt(HashSpec(ResolveSeed(seedInput)), i, session.palette)
    ensures session.state == Advance(HashSpec(ResolveSeed(seedInput)), 4 * |session.particles|)
  {
    var seed := ResolveSeed(seedInput);
    var scheme := ResolveScheme(schemeInput);
    var complexity := Clamp(ResolveLevel(levelInput));
    var s0 := HashCode(seed);
    var palette := Resolve(scheme);
    ghost var order;
    var field;
    field, order := Build(noise);
    var n := complexity * ParticlesPerLevel;
    var ps, t := CreateParticles(s0, n, palette);
    session := Session(palette, field, ps, t);
  }

  // ---------------------------------------------------------------------
  // The intended behaviour: the first draw seeds the noise
  // ---------------------------------------------------------------------

  /** `noiseSeed(rng.random() * 100000)` as intended: the first draw after seeding, scaled. */
  function NoiseSeed(s0: nat): (r: real)
    ensures 0.0 <= r < 100000.0
    ensures r * Modulus as real == Advance(s0, 1) as real * 100000.0
  {
    Random(s0).value * 100000.0
  }

  /**
   * Particle `i` when the noise seed takes draw 1: it is built from draws
   * 2 + 4i to 5 + 4i.
   */
  function IntendedParticleAt(s0: nat, i: nat, palette: seq<Color>): Particle
    requires |palette| > 0
  {
    NewParticle(Advance(s0, 1 + 4 * i), palette).particle
  }

  /**
   * The setup the script evidently intends: one draw seeds the noise, so the
   * field is a function of the seed, and the particles follow from the next draws.
   */
  method SetupIntended(seedInput: Option<seq<CodeUnit>>, schemeInput: Option<string>, levelInput: Option<int>, noise: SeededNoise)
    returns (session: Session)
    ensures session.palette == Resolve(ResolveScheme(schemeInput))
    ensures |session.field| == CellCount
    ensures forall x: nat, y: nat :: InGrid(x, y) ==>
      session.field[CellIndex(x, y)] == noise(NoiseSeed(HashSpec(ResolveSeed(seedInput))), x, y)
    ensures |session.particles| == ParticleCount(ResolveLevel(levelInput))
    ensures forall i :: 0 <= i < |session.particles| ==>
      session.particles[i] == IntendedParticleAt(HashSpec(ResolveSeed(seedInput)), i, session.palette)
    ensures session.state == Advance(HashSpec(ResolveSeed(seedInput)), 1 + 4 * |session.particles|)
  {
    var seed := ResolveSeed(seedInput);
    var scheme := ResolveScheme(schemeInput);
    var complexity := Clamp(ResolveLevel(levelInput));
    var s0 := HashCode(seed);
    var palette := Resolve(scheme);
    var first := Random(s0);
    var ns := first.value * 100000.0;
    ghost var order;
    var field;
    field, order := Build((x: nat, y: nat) => noise(ns, x, y));
    var n := complexity * ParticlesPerLevel;
    var ps, t := CreateParticles(first.state, n, palette);
    forall i | 0 <= i < n
      ensures ps[i] == IntendedParticleAt(s0, i, palette)
    {
      AdvanceAdd(s0, 1, 4 * i);
    }
    AdvanceAdd(s0, 1, 4 * n);
    session := Session(palette, field, ps, t);
  }

  /** The intended particles are the as-written ones shifted by the one draw spent on the noise. */
  lemma IntendedIsShiftedByOneDraw(s0: nat, i: nat, palette: seq<Color>)
    requires |palette| > 0
    ensures IntendedParticleAt(s0, i, palette) == ParticleAt(Advance(s0, 1), i, palette)
  {
    AdvanceAdd(s0, 1, 4 * i);
  }

  /** The hash of `abc`: 97*31^2 + 98*31 + 99. */
  lemma HashOfAbc()
    ensures HashSpec([97, 98, 99]) == 96354
  {
    var s1: seq<CodeUnit> := [97];
    var s2: seq<CodeUnit> := s1 + [98];
    var s3: seq<CodeUnit> := s2 + [99];
    assert s1[..0] == [];
    assert Fold31(s1) == 97;
    assert s2[..1] == s1;
    assert Fold31(s2) == 3105;
    assert s3[..2] == s2;
    assert Fold31(s3) == 96354;
    assert s3 == [97, 98, 99];
  }

  /** The first five states drawn from the hash of `abc`. */
  lemma DrawsFromAbc()
    ensures Advance(96354, 1) == 209371
    ensures Advance(96354, 2) == 220808
    ensures Advance(96354, 3) == 220665
    ensures Advance(96354, 4) == 57022
    ensures Advance(96354, 5) == 165479
  {
  }

  /**
   * Hand trace of the seed `abc` with the `ocean` scheme at complexity 3, as
   * the script runs: the hash is 96354, and the first particle draws
   * 209371, 220808, 220665 and 57022.
   */
  lemma AbcOceanThree()
    ensures HashSpec([97, 98, 99]) == 96354
    ensures ParticleCount(ResolveLevel(Some(3))) == 300
    ensures Resolve(ResolveScheme(Some("ocean"))) == ColorSchemes["ocean"]
    ensures var p := ParticleAt(96354, 0, ColorSchemes["ocean"]);
      && p.pos == Vec(209371.0 / 233280.0 * 800.0, 220808.0 / 233280.0 * 800.0)
      && p.colorIndex == 4
      && p.hue == "#CAF0F8"
      && p.alpha == 57022.0 / 233280.0 * 100.0 + 50.0
  {
    HashOfAbc();
    DrawsFromAbc();
    assert Lower("ocean") == "ocean";
  }

  /**
   * The same trace under the intended setup: draw 209371 seeds the noise, so
   * the first particle draws 220808, 220665, 57022 and 165479 and gets a
   * different colour.
   */
  lemma AbcOceanThreeIntended()
    ensures var p := IntendedParticleAt(96354, 0, ColorSchemes["ocean"]);
      && p.pos == Vec(220808.0 / 233280.0 * 800.0, 220665.0 / 233280.0 * 800.0)
      && p.colorIndex == 1
      && p.hue == "#0077B6"
      && p.alpha == 165479.0 / 233280.0 * 100.0 + 50.0
    ensures ParticleAt(96354, 0, ColorSchemes["ocean"]).colorIndex != IntendedParticleAt(96354, 0, ColorSchemes["ocean"]).colorIndex
  {
    DrawsFromAbc();
    AbcOceanThree();
    AdvanceAdd(96354, 1, 1);
    AdvanceAdd(96354, 1, 2);
    AdvanceAdd(96354, 1, 3);
    AdvanceAdd(96354, 1, 4);
  }
}
