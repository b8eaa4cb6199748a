/**
 * One particle of the simulation (class Particle): its construction from
 * four generator draws, and the per-frame rules follow, update, edges and
 * show.
 */
module Particles {
  import opened Vector
  import opened SeededRandom
  import opened FlowField
  import Palette

  const Width: real := CanvasSize as real
  const Height: real := CanvasSize as real
  const MaxSpeed: real := 2.0

  /**
   * A value in [0, 1) scaled by a positive bound lies in [0, bound); for an
   * integer bound its floor is a valid index below the bound.
   */
  lemma ScaleBelow(v: real, bound: real)
    requires 0.0 <= v < 1.0 && bound > 0.0
    ensures 0.0 <= v * bound < bound
    ensures bound.Floor as real == bound ==> (v * bound).Floor < bound.Floor
  {
  }

  datatype Particle = Particle(
    pos: Vec,
    vel: Vec,
    acc: Vec,
    prev: Vec,
    colorIndex: nat,
    hue: Palette.Color,
    alpha: real)

  /** A new particle together with the generator state it leaves behind. */
  datatype Born = Born(particle: Particle, state: nat)

  /**
   * The particle the constructor builds from its four drawn values: position
   * scaled to the canvas, colour index `floor(c * colors.length)`, alpha
   * `a * 100 + 50`, previous position equal to the position, at rest.
   */
  function FromDraws(x: real, y: real, c: real, a: real, palette: seq<Palette.Color>): (p: Particle)
    requires 0.0 <= x < 1.0 && 0.0 <= y < 1.0 && 0.0 <= c < 1.0 && 0.0 <= a < 1.0
    requires |palette| > 0
    ensures 0.0 <= p.pos.x < Width && 0.0 <= p.pos.y < Height
    ensures p.colorIndex < |palette| && p.hue == palette[p.colorIndex]
    ensures 50.0 <= p.alpha < 150.0
    ensures p.prev == p.pos
    ensures p.vel == Zero && p.acc == Zero
  {
    ScaleBelow(x, Width);
    ScaleBelow(y, Height);
    ScaleBelow(c, |palette| as real);
    var pos := Vec(x * Width, y * Height);
    var index := (c * |palette| as real).Floor;
    Particle(pos, Zero, Zero, pos, index, palette[index], a * 100.0 + 50.0)
  }

  /**
   * The constructor: draws x, y, colour and alpha from the generator, in that
   * order, and nothing else.
   */
  function NewParticle(s: nat, palette: seq<Palette.Color>): (b: Born)
    requires |palette| > 0
    ensures b.state == Advance(s, 4)
    ensures b.particle.pos == Vec(Unit(Advance(s, 1)) * Width, Unit(Advance(s, 2)) * Height)
    ensures 0.0 <= b.particle.pos.x < Width && 0.0 <= b.particle.pos.y < Height
    ensures b.particle.colorIndex == (|palette| * Advance(s, 3)) / Modulus
    ensures b.particle.colorIndex < |palette| && b.particle.hue == palette[b.particle.colorIndex]
    ensures b.particle.alpha == Unit(Advance(s, 4)) * 100.0 + 50.0
    ensures 50.0 <= b.particle.alpha < 150.0
    ensures b.particle.prev == b.particle.pos
    ensures b.particle.vel == Zero && b.particle.acc == Zero
  {
    DrawsInSequence(s, 0);
    DrawsInSequence(s, 1);
    DrawsInSequence(s, 2);
    DrawsInSequence(s, 3);
    var dx := Random(s);
    var dy := Random(dx.state);
    var dc := Random(dy.state);
    var da := Random(dc.state);
    ScaledFloor(dc.state, |palette|);
    Born(FromDraws(dx.value, dy.value, dc.value, da.value, palette), da.state)
  }

  // ---------------------------------------------------------------------
  // follow
  // ---------------------------------------------------------------------

  /**
   * The flat grid index under a position: `floor(x / scl) + floor(y / scl) * cols`.
   * For a position strictly inside the canvas it is a field index, and the
   * cell it names (column `r % cols`, row `r / cols`) contains the position.
   */
  function CellOf(pos: Vec): (r: int)
    ensures 0.0 <= pos.x < Width && 0.0 <= pos.y < Height ==>
      && 0 <= r < CellCount
      && (Scl * (r % Cols)) as real <= pos.x < (Scl * (r % Cols + 1)) as real
      && (Scl * (r / Cols)) as real <= pos.y < (Scl * (r / Cols + 1)) as real
  {
    var cx, cy := (pos.x / Scl as real).Floor, (pos.y / Scl as real).Floor;
    var index := cx + cy * Cols;
    if 0.0 <= pos.x < Width && 0.0 <= pos.y < Height then
      assert InGrid(cx, cy);
      CellIndexDivMod(cx, cy);
      index
    else
      index
  }

  /**
   * `follow`: add the vector of the cell under the particle to its
   * acceleration when the flat index is inside the field, otherwise do nothing.
   */
  function Follow(p: Particle, field: seq<Vec>): (q: Particle)
    ensures 0 <= CellOf(p.pos) < |field| ==> q.acc == Add(p.acc, field[CellOf(p.pos)])
    ensures !(0 <= CellOf(p.pos) < |field|) ==> q == p
    ensures q.(acc := p.acc) == p
  {
    match Lookup(field, CellOf(p.pos))
    case Some(force) => p.(acc := Add(p.acc, force))
    case None => p
  }

  predicate InCanvas(v: Vec) {
    0.0 <= v.x <= Width && 0.0 <= v.y <= Height
  }

  /**
   * For a position inside the canvas (edges included) the lookup misses
   * exactly on the bottom edge and at the right edge of the last row; a
   * position strictly inside reads its own cell.
   */
  lemma CellOfInCanvas(pos: Vec)
    requires InCanvas(pos)
    ensures 0 <= CellOf(pos) < CellCount <==> pos.y < Height && !(pos.x == Width && pos.y >= Height - Scl as real)
    ensures pos.x < Width && pos.y < Height ==>
      var cx, cy := (pos.x / Scl as real).Floor, (pos.y / Scl as real).Floor;
      InGrid(cx, cy) && CellOf(pos) == CellIndex(cx, cy)
  {
    var cx, cy := (pos.x / Scl as real).Floor, (pos.y / Scl as real).Floor;
    assert 0 <= cx <= Cols && 0 <= cy <= Rows;
    assert cx == Cols <==> pos.x == Width;
    assert cy == Rows <==> pos.y == Height;
    assert cy == Rows - 1 <==> Height - Scl as real <= pos.y < Height;
  }

  /**
   * The guard checks only the flat index: a particle on the right edge of
   * any row but the last reads the first cell of the next row.
   */
  lemma FollowRowBleed(p: Particle, field: seq<Vec>)
    requires |field| == CellCount
    requires p.pos.x == Width && 0.0 <= p.pos.y < Height - Scl as real
    ensures var row := (p.pos.y / Scl as real).Floor;
      && 0 <= row < Rows - 1
      && Follow(p, field).acc == Add(p.acc, field[CellIndex(0, row + 1)])
  {
  }

  // ---------------------------------------------------------------------
  // update
  // ---------------------------------------------------------------------

  /** `vel.limit(maxSpeed)` keeps every velocity within the speed limit. */
  ghost predicate LimitsSpeed(limit: Vec -> Vec) {
    forall v :: MagSq(limit(v)) <= MaxSpeed * MaxSpeed
  }

  /**
   * `update`: velocity gains the acceleration and is limited, position gains
   * the velocity, acceleration is reset. `limit` stands for `vel.limit(maxSpeed)`.
   */
  function Update(p: Particle, limit: Vec -> Vec): (q: Particle)
    ensures q.vel == limit(Add(p.vel, p.acc))
    ensures Sub(q.pos, p.pos) == q.vel
    ensures q.acc == Zero
    ensures LimitsSpeed(limit) ==> MagSq(Sub(q.pos, p.pos)) <= MaxSpeed * MaxSpeed
    ensures q.(pos := p.pos, vel := p.vel, acc := p.acc) == p
  {
    var vel := limit(Add(p.vel, p.acc));
    p.(vel := vel, pos := Add(p.pos, vel), acc := Zero)
  }

  // ---------------------------------------------------------------------
  // edges and show
  // ---------------------------------------------------------------------

  /** `updatePrev`: the previous position catches up with the position; nothing else changes. */
  function UpdatePrev(p: Particle): (q: Particle)
    ensures q.prev == q.pos
    ensures q.(prev := p.prev) == p
  {
    p.(prev := p.pos)
  }

  /**
   * `edges`: four independent checks in the script's order. An axis above its
   * bound becomes 0, an axis below 0 becomes the bound, and every wrap
   * resets the previous position.
   */
  function Edges(p: Particle): (q: Particle)
    ensures InCanvas(q.pos)
    ensures p.pos.x > Width ==> q.pos.x == 0.0
    ensures p.pos.x < 0.0 ==> q.pos.x == Width
    ensures 0.0 <= p.pos.x <= Width ==> q.pos.x == p.pos.x
    ensures p.pos.y > Height ==> q.pos.y == 0.0
    ensures p.pos.y < 0.0 ==> q.pos.y == Height
    ensures 0.0 <= p.pos.y <= Height ==> q.pos.y == p.pos.y
    ensures !InCanvas(p.pos) ==> q.prev == q.pos
    ensures InCanvas(p.pos) ==> q == p
    ensures q.(pos := p.pos, prev := p.prev) == p
  {
    var p1 := if p.pos.x > Width then UpdatePrev(p.(pos := p.pos.(x := 0.0))) else p;
    var p2 := if p1.pos.x < 0.0 then UpdatePrev(p1.(pos := p1.pos.(x := Width))) else p1;
    var p3 := if p2.pos.y > Height then UpdatePrev(p2.(pos := p2.pos.(y := 0.0))) else p2;
    if p3.pos.y < 0.0 then UpdatePrev(p3.(pos := p3.pos.(y := Height))) else p3
  }

  /** Wrapping is idempotent: a second `edges` changes nothing. */
  lemma EdgesIdempotent(p: Particle)
    ensures Edges(Edges(p)) == Edges(p)
  {
  }

  /** A drawn trail segment: `line(pos, prevPos)` in the particle's colour and alpha. */
  datatype Segment = Segment(from: Vec, to: Vec, hue: Palette.Color, alpha: real)

  datatype Shown = Shown(segment: Segment, particle: Particle)

  /** `show`: draw from the position to the previous position, then `updatePrev`. */
  function Show(p: Particle): (r: Shown)
    ensures r.segment.from == p.pos && r.segment.to == p.prev
    ensures r.segment.hue == p.hue && r.segment.alpha == p.alpha
    ensures r.particle.prev == r.particle.pos == p.pos
    ensures r.particle.(prev := p.prev) == p
  {
    Shown(Segment(p.pos, p.prev, p.hue, p.alpha), UpdatePrev(p))
  }

  /**
   * One particle's share of a frame, in the script's fixed order:
   * follow, update, edges, show. The cell force joins the velocity before
   * the velocity is limited and moves the particle. Afterwards the particle
   * is inside the canvas, its trail is caught up and its acceleration is spent.
   */
  function Step(p: Particle, field: seq<Vec>, limit: Vec -> Vec): (r: Shown)
    ensures r.particle.vel == limit(Add(p.vel, Follow(p, field).acc))
    ensures r.segment.from == r.particle.pos
    ensures InCanvas(Add(p.pos, r.particle.vel)) ==>
      r.particle.pos == Add(p.pos, r.particle.vel) && r.segment.to == p.prev
    ensures !InCanvas(Add(p.pos, r.particle.vel)) ==> r.segment.to == r.segment.from
    ensures InCanvas(r.particle.pos)
    ensures r.particle.prev == r.particle.pos
    ensures r.particle.acc == Zero
    ensures r.particle.colorIndex == p.colorIndex && r.particle.hue == p.hue && r.particle.alpha == p.alpha
    ensures r.segment.hue == p.hue && r.segment.alpha == p.alpha
  {
    Show(Edges(Update(Follow(p, field), limit)))
  }

  /**
   * No streak across the canvas: starting from a caught-up trail, the segment
   * a step draws is no longer than the speed limit, because a wrap resets the
   * trail to the new position.
   */
  lemma StepSegmentIsShort(p: Particle, field: seq<Vec>, limit: Vec -> Vec)
    requires p.prev == p.pos
    requires LimitsSpeed(limit)
    ensures var s := Step(p, field, limit).segment; MagSq(Sub(s.from, s.to)) <= MaxSpeed * MaxSpeed
  {
    var f := Follow(p, field);
    var u := Update(f, limit);
    var e := Edges(u);
    if InCanvas(u.pos) {
      assert e == u;
      assert u.prev == p.pos;
    } else {
      assert e.prev == e.pos;
      assert Sub(e.pos, e.prev) == Zero;
    }
  }

  /** The result of a whole frame: every particle's new state and the segments drawn, in creation order. */
  datatype FrameResult = FrameResult(particles: seq<Particle>, segments: seq<Segment>)

  /** `draw`: step every particle, in order. */
  function Frame(ps: seq<Particle>, field: seq<Vec>, limit: Vec -> Vec): (r: FrameResult)
    ensures |r.particles| == |ps| && |r.segments| == |ps|
    ensures forall i :: 0 <= i < |ps| ==>
      r.particles[i] == Step(ps[i], field, limit).particle && r.segments[i] == Step(ps[i], field, limit).segment
    ensures forall i :: 0 <= i < |ps| ==> InCanvas(r.particles[i].pos) && r.particles[i].prev == r.particles[i].pos
    decreases |ps|
  {
    if |ps| == 0 then FrameResult([], [])
    else
      var rest := Frame(ps[..|ps| - 1], field, limit);
      var last := Step(ps[|ps| - 1], field, limit);
      FrameResult(rest.particles + [last.particle], rest.segments + [last.segment])
  }
}
