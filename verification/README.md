# Seeded flow-field generator — a Dafny model

The repository builds a self-contained web page. The page's script draws a
particle flow-field animation that is meant to be determined by three
inputs: a text seed, a colour-scheme name and a complexity level. As
written, only the particles' starting states are (see "## Findings"). This project models
the deterministic core of that script (`function.js`):

- **SeededRandom**: the seed hash (`hashCode`, a 31-multiplier polynomial
  fold with 32-bit two's-complement wrap, then the absolute value), and the
  linear congruential generator `random()` (state `(s*9301 + 49297) % 233280`,
  value `s / 233280`).
- **Palette and parameters**: the scheme lookup (lower-cased, falling back to
  `cosmic`), the complexity clamp to [1, 10] with `COMPLEXITY * 100`
  particles, and the blank-input defaults `'default'`, `'cosmic'` and `5`.
- **FlowField**: the 40 x 40 grid of cells of size 20 on the 800 x 800
  canvas. It is a flat sequence indexed by `x + y * cols`, built by the
  nested loop of `setup`.
- **Particles**: the constructor, which makes four generator draws in the
  order x, y, colour, alpha. Also the per-frame rules `follow`, `update`,
  `edges` and `show` / `updatePrev`, and one frame over all particles in
  creation order.
- **Session**: everything from the generator's construction through
  `setup`, as the script runs it (`Session.Setup`) and as it evidently
  intends it, with the noise seeded from the generator
  (`Session.SetupIntended`; see "## Findings").

The model is functional. The generator state is a `nat` threaded through
pure functions. The k-th value drawn from state `s` is `Unit(Advance(s, k))`,
the exact rational `Advance(s, k) / 233280`. Particles are immutable records
with `real` coordinates.

Modules, one per file: `Wrappers` (an `Option` type), `Int32` (the ToInt32
wrap), `SeededRandom`, `Palette`, `Params`, `Vector`, `FlowField`,
`Particles` and `Session`.

Notes on the reading of the code:

- The call `noiseSeed(rng.random() * 100000)` sits at the top level of the
  script. p5.js in global mode binds `noiseSeed` and its other functions to
  `window` only when the page has loaded, after the script has run. A
  JavaScript call resolves the function name before it evaluates the
  arguments, so this call throws a ReferenceError before `rng.random()` is
  reached. No draw is spent on the noise, and the noise is never seeded.
  Particle `i` therefore uses draws `1 + 4i` to `4 + 4i`
  (`Session.ParticleAt`), and the flow field does not depend on the seed.
  The seeded variant is recorded under "## Findings".
- `complexity.value || 5` treats the level 0 as absent, because 0 is falsy.
  So level 0 yields 5 and 500 particles, not 1 and 100. The model follows
  the code (`Params.ResolveLevel`, `Params.LevelExamples`), so level 0 is
  not clamped to 1.
- `hash << 5` applies ToInt32 to its operand and to its result, and
  `hash & hash` is ToInt32 of `hash`. The intermediate subtraction and
  addition are exact in double precision. So one iteration equals
  `ToInt32(31*h + c)` (`SeededRandom.HashStep`). The whole loop equals a
  single wrap of the unbounded polynomial (`SeededRandom.HashCode`).
- The hash can be 2^31 itself, because `Math.abs(-2^31)` is 2^31.
  `SeededRandom.HashAttainsTwoTo31` gives a five-unit seed that hashes to
  exactly 2^31. The first `random()` call therefore starts from a state of
  up to 2^31. The generator only sees the state's residue
  (`SeededRandom.NextResidue`), and its result is below 233280.
- `follow` guards only the flat index. A particle on the right edge
  (`x == 800`) therefore reads the first cell of the next row
  (`Particles.FollowRowBleed`). It reads nothing on the bottom edge, and
  nothing at the right edge of the last row (`Particles.CellOfInCanvas`).

## Model

| member | source | states |
|---|---|---|
| Int32.ToInt32 | function.js:42-43 | the result is a signed 32-bit integer congruent to the input modulo 2^32 (the wrap that `<<` and `&` apply) |
| SeededRandom.HashSpec | function.js:39-46 | the seed hash is at most 2^31, and it is congruent, up to sign, to the unbounded 31-polynomial of the code units modulo 2^32 |
| SeededRandom.ShiftLeft5 | function.js:42 | `hash << 5` yields a signed 32-bit integer congruent to `32 * hash` modulo 2^32 for every 32-bit `hash` |
| SeededRandom.HashStep | function.js:42-43 | one loop iteration `((h << 5) - h) + c` followed by `h & h` equals `ToInt32(31*h + c)` for every 32-bit `h` |
| SeededRandom.HashCode | function.js:39-46 | the loop that wraps after every step returns exactly `abs(ToInt32(fold 31h + c))`, the single final wrap of the unbounded fold, and the result is at most 2^31 |
| SeededRandom.HashAttainsTwoTo31 | function.js:45 | the bound 2^31 is reached: the code units [2325, 9, 30, 12, 2] hash to 2^31, because `Math.abs(-2^31)` is 2^31 |
| SeededRandom.Next | function.js:49 | after any call the state lies in [0, 233280), even from a hash-sized state |
| SeededRandom.PrevNext | function.js:49 | the step is invertible: stepping back from `Next(s)` recovers `s mod 233280` |
| SeededRandom.NextPrev | function.js:49 | every state in [0, 233280) has a predecessor, so the step is a bijection on the state space |
| SeededRandom.NextResidue | function.js:48-51 | a seed of up to 2^31 behaves exactly like its residue modulo 233280 |
| SeededRandom.AdvanceAdd | function.js:48-51 | drawing `a` values and then `b` values leaves the same state as drawing `a + b` values |
| SeededRandom.Random | function.js:48-51 | `random()` advances the state by one draw and returns a value in [0, 1) equal to `state / 233280` |
| SeededRandom.DrawsInSequence | function.js:48-51 | each call continues from the state the previous call left, so the k-th value is that of the k-th state |
| SeededRandom.ScaledFloor | function.js:131 | `floor(value * k)` equals the integer quotient `(k * state) div 233280`, and for a generator state it is below `k` |
| Palette.LowerChar | function.js:55 | only the letters A-Z change, each to its lower-case letter |
| Palette.Lower | function.js:55 | lower-casing keeps the length, maps each letter A-Z to its own lower-case letter (code unit plus 32), leaves no upper-case letter and changes no other character |
| Palette.LowerIdempotent | function.js:55 | lower-casing twice is the same as lower-casing once |
| Palette.Resolve | function.js:61-72 | a name whose lower-case form is one of the listed schemes selects that scheme, any other name selects `cosmic`, and the palette always has 5 colours |
| Palette.SchemesHaveFiveColors | function.js:61-70 | the table has exactly the eight listed names, each with five colours |
| Palette.ResolveIgnoresCase | function.js:55 | a name and its lower-case form select the same palette |
| Palette.UnknownSchemeIsCosmic | function.js:72 | an unknown name selects the same palette as `cosmic`, and `OCEAN` selects `ocean` |
| Params.ResolveSeed | function.js:2 | an absent or empty seed becomes `'default'`, and any other seed is kept |
| Params.ResolveScheme | function.js:3 | an absent or empty scheme name becomes `'cosmic'`, and any other name is kept |
| Params.ResolveLevel | function.js:4 | an absent level and the falsy level 0 become 5, and every other level is kept |
| Params.ResolveIdempotent | function.js:2-4 | the defaults are fixed points: resolving an already resolved seed, scheme or level gives it back unchanged |
| Params.Clamp | function.js:56 | the complexity lies in [1, 10], equals the level when it is in range, and is 1 below the range and 10 above it |
| Params.ClampIdempotentMonotone | function.js:56 | clamping twice is clamping once, and clamping preserves the order of levels |
| Params.ParticleCount | function.js:101 | the particle count is a multiple of 100 in [100, 1000]. It equals `level * 100` for a level in range, 100 for a level below 1 and 1000 for a level above 10 |
| Params.LevelExamples | function.js:4 | levels 0 and absent give 500 particles, -3 gives 100, 99 gives 1000 and 3 gives 300 |
| FlowField.GridMatchesCanvas | function.js:81-82 | `cols = rows = floor(800 / 20) = 40`, and the field has `cols * rows` cells |
| FlowField.CellIndexDivMod | function.js:90 | the index of a grid cell lies in [0, cols*rows), and the column and row are its remainder and quotient by `cols` |
| FlowField.CellIndexInjective | function.js:90 | distinct cells of the grid have distinct indices |
| FlowField.CellIndexOnto | function.js:85-90 | every index in [0, cols*rows) is the index of some cell of the grid |
| FlowField.Build | function.js:85-98 | the nested loop writes each index in [0, cols*rows) exactly once, in increasing order, and cell (x, y)'s vector is stored at `x + y*cols` |
| FlowField.Lookup | function.js:140-141 | a lookup yields a vector exactly when the index is inside the field, and that vector is the stored one |
| Particles.FromDraws | function.js:125-133 | from four values in [0, 1): the position lies in the canvas, the colour index is a valid palette index, alpha lies in [50, 150), the previous position equals the position, and the particle is at rest |
| Particles.NewParticle | function.js:125-134 | the constructor consumes exactly four draws, in the order x, y, colour, alpha. The colour index is `(5*s) div 233280` for the third state, alpha is `r*100 + 50` in [50, 150), the previous position equals the position, and velocity and acceleration are zero |
| Particles.CellOf | function.js:137-139 | for a position strictly inside the canvas, `floor(x/scl) + floor(y/scl)*cols` is an index of the field, and the cell it names (column `r % cols`, row `r / cols`) contains the position |
| Particles.Follow | function.js:136-148 | the cell's vector is added to the acceleration when the flat index lies in the field, and the particle is unchanged otherwise. Nothing but the acceleration ever changes |
| Particles.CellOfInCanvas | function.js:137-141 | for a position in the canvas, the lookup hits unless the particle is on the bottom edge or at the right edge of the last row. Strictly inside, it reads the cell under the particle |
| Particles.FollowRowBleed | function.js:137-141 | a particle on the right edge (`x == 800`) in any row `r` but the last reads the vector of cell (0, r + 1), the first cell of the next row, because only the flat index is guarded |
| Particles.Update | function.js:150-155 | the acceleration is reset to zero, and the position moves by exactly the new velocity. When the limit keeps speeds within `maxSpeed`, the particle moves at most 2. Colour, alpha and previous position are kept |
| Particles.UpdatePrev | function.js:164-167 | the previous position becomes the position, and nothing else changes |
| Particles.Edges | function.js:169-186 | afterwards the position lies in [0, 800] on both axes. An axis above its bound becomes 0, an axis below 0 becomes the bound, and an axis in range, including one equal to the bound, is kept. Any wrap resets the previous position to the new position, and a particle already in the canvas is unchanged |
| Particles.EdgesIdempotent | function.js:169-186 | a second wrap changes nothing |
| Particles.Show | function.js:157-162 | the drawn segment runs from the position to the previous position, in the particle's colour and alpha, and then the trail catches up |
| Particles.Step | function.js:116-121 | the cell force is added before `update`, so the new velocity is the limit of the old velocity plus the followed acceleration. The segment starts at the new position. When the moved position stays in the canvas, it is the old position plus the new velocity, and the segment ends at the old previous position. When it leaves the canvas, the segment collapses to a point. Afterwards the particle lies in the canvas, its trail has caught up, its acceleration is zero, and its colour and alpha are unchanged |
| Particles.StepSegmentIsShort | function.js:169-186 | starting from a caught-up trail, no segment drawn in a frame is longer than the speed limit, because a wrap resets the trail instead of drawing across the canvas |
| Particles.Frame | function.js:109-122 | a frame steps every particle in creation order, and emits one segment per particle in the same order. Every particle ends in the canvas with its trail caught up |
| Session.CreateParticles | function.js:101-104 | the loop creates exactly `n` particles. Particle `i` is built from the state after `4i` draws, and the loop consumes exactly `4n` draws |
| Session.Setup | function.js:54-104 | as the script runs: the palette is that of the resolved scheme, and the field holds each cell's unseeded noise vector at `x + y*cols`, the same for every seed. There are `clamp(level)*100` particles, particle `i` is built from draws `1+4i` to `4+4i` after the hash of the resolved seed, and the generator has advanced by exactly `4n` draws |
| Session.HashOfAbc | function.js:39-46 | the seed `abc` hashes to 97*31^2 + 98*31 + 99 = 96354 |
| Session.DrawsFromAbc | function.js:48-51 | from state 96354 the generator passes through 209371, 220808, 220665, 57022 and 165479 |
| Session.AbcOceanThree | function.js:125-133 | for seed `abc`, scheme `ocean` and complexity 3, as the script runs: the hash is 96354, there are 300 particles, and the first particle has colour index 4 (`#CAF0F8`), alpha `57022/233280*100 + 50` and the position from draws 209371 and 220808 |
| Session.NoiseSeed | function.js:201 | the intended noise seed: the first draw, scaled into [0, 100000) |
| Session.SetupIntended | function.js:201 | the intended setup: the first draw seeds the noise, so the field is a function of the seed. Particle `i` is built from draws `2+4i` to `5+4i`, and the generator advances by exactly `1 + 4n` draws |
| Session.IntendedIsShiftedByOneDraw | function.js:201 | each intended particle is the as-written particle of the state one draw later |
| Session.AbcOceanThreeIntended | function.js:201 | for `abc`/`ocean`, the intended first particle has colour index 1 (`#0077B6`), where the script as written gives colour index 4 |

## Findings

| source | as written | input that shows it | evidently intended | confidence | as-written member | corrected member |
|---|---|---|---|---|---|---|
| function.js:201 | `noiseSeed(rng.random() * 100000)` runs at the top level, before p5 binds `noiseSeed` on page load, so the call throws when the name is looked up. No draw is made and the noise stays unseeded, so the flow field does not follow from the seed | seed `abc`, scheme `ocean`, complexity 3: the first particle takes draws 209371, 220808, 220665 and 57022, and gets colour index 4 | the first draw seeds the noise (the comment "Override noise for consistency"). The field then follows from the seed, and the first particle gets colour index 1 | medium, not executed; depends on p5.js 1.7.0's global-mode initialisation | Session.Setup, Session.AbcOceanThree | Session.SetupIntended, Session.AbcOceanThreeIntended |

## Left out

- HTML page template, string interpolation into the script, and the data-URI encoding (function.js:7-31, 54-56, 202-207): packaging. The interpolation is unescaped, so a seed containing a quote changes the script. The model takes the seed as it reaches `hashCode`.
- p5.js drawing: `createCanvas`, `background`, the fade `rect`, `stroke`, `strokeWeight`, `line` and the `color`/`red`/`green`/`blue` conversions. These are rendering side effects. A drawn line is modelled as a `Segment` value, and a particle's hue is kept as the palette's hex string.
- `noise`, `noiseSeed`, `p5.Vector.fromAngle` and `setMag` (function.js:91-93, 201): Perlin noise and trigonometry from a foreign library. The field vectors are a parameter of the session. As written (`FlowField.CellVectors`) they are a function of the cell only. Unseeded p5 noise draws its own table from `Math.random`. In the intended setup (`SeededNoise`) they are a function of the noise seed and the cell.
- The noise sampling offsets `xoff`/`yoff` accumulate 0.1 in floating point. The field parameter is indexed by integer cell coordinates instead.
- Particles.Update: `vel.limit(maxSpeed)` needs a square root, so it is the parameter `limit`. The contract bounds the step length only for a `limit` that keeps speeds within 2. It does not state p5's exact rescaling.
- Floating point: the generator value, the scaled positions, alpha and the position/scale divisions are exact rationals. Double rounding, which could in principle move a `floor` at an exact integer boundary, is not modelled.
- The `random(min, max)` override (function.js:190-198): nothing in the modelled core calls it.
- Object-prototype keys such as `constructor` would make `colorSchemes[SCHEME]` truthy. This is a JavaScript lookup quirk. Lookup is modelled over the eight listed names only.
- Palette.Lower: `toLowerCase` is modelled on ASCII A-Z only. Full Unicode case mapping could make a non-ASCII name equal to a key only through the Kelvin sign (which becomes `k`), and no key contains `k`. The lookup result is therefore unaffected.
- Params.ResolveLevel: the level is modelled as an integer. A non-integer or non-numeric complexity is not modelled. Nor is `NaN`, which is falsy and would also fall back to 5.
- `try`/`catch` and `console.error` (function.js:209-212): error plumbing.
- Seed sensitivity (different seeds giving different hashes) is probabilistic and is not stated.
- Determinism: as written, the particles' initial states follow from the inputs alone. The flow field comes from unseeded noise, and so does every trajectory that depends on it. The model takes the field as a parameter and states reproducibility only relative to it.
- The generator's full period of 233280 is not proved. Only the bijection of one step on the state space is proved.
- The animation loop is modelled one frame at a time (`Particles.Frame`). The number of frames the browser runs is external.
