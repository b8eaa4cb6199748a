/**
 * The flow field: a flat grid of direction vectors, one per 20x20 cell of
 * the 800x800 canvas, indexed row-major by `x + y * cols`.
 */
module FlowField {
  import opened Wrappers
  import opened Vector

  const CanvasSize: nat := 800
  const Scl: nat := 20
  /** `floor(width / scl)` and `floor(height / scl)`, checked by GridMatchesCanvas. */
  const Cols: nat := 40
  const Rows: nat := 40
  const CellCount: nat := 1600

  /** The grid dimensions are those the script computes from the canvas and the cell size. */
  lemma GridMatchesCanvas()
    ensures Cols == CanvasSize / Scl && Rows == CanvasSize / Scl
    ensures CellCount == Cols * Rows
  {
  }

  /**
   * The vector the noise assigns to cell (x, y): the angle
   * `noise(x * 0.1, y * 0.1) * TWO_PI * 4` turned into a vector of magnitude 0.5.
   */
  type CellVectors = (nat, nat) -> Vec

  predicate InGrid(x: int, y: int) {
    0 <= x < Cols && 0 <= y < Rows
  }

  /** The flat index of cell (x, y). */
  function CellIndex(x: int, y: int): int {
    x + y * Cols
  }

  /** Distinct cells of the grid have distinct indices, all inside [0, cols*rows). */
  lemma CellIndexInjective(x1: int, y1: int, x2: int, y2: int)
    requires InGrid(x1, y1) && InGrid(x2, y2)
    ensures 0 <= CellIndex(x1, y1) < CellCount
    ensures CellIndex(x1, y1) == CellIndex(x2, y2) ==> x1 == x2 && y1 == y2
  {
    CellIndexDivMod(x1, y1);
    CellIndexDivMod(x2, y2);
  }

  /** Column and row are recovered from the index by remainder and quotient. */
  lemma CellIndexDivMod(x: int, y: int)
    requires InGrid(x, y)
    ensures 0 <= CellIndex(x, y) < CellCount
    ensures CellIndex(x, y) % Cols == x && CellIndex(x, y) / Cols == y
  {
    var i := CellIndex(x, y);
    var q, r := i / Cols, i % Cols;
    assert i == q * Cols + r;
    assert (y - q) * Cols == r - x;
  }

  /** Every index in [0, cols*rows) is the index of a cell of the grid. */
  lemma CellIndexOnto(i: int)
    requires 0 <= i < CellCount
    ensures InGrid(i % Cols, i / Cols)
    ensures CellIndex(i % Cols, i / Cols) == i
  {
  }

  /**
   * The nested loop of `setup`: rows outer, columns inner, writing each cell's
   * vector at `x + y * cols` into an array that starts with every slot empty.
   * `order` lists the indices in the order they are written.
   */
  method Build(cell: CellVectors) returns (field: seq<Vec>, ghost order: seq<nat>)
    ensures |field| == CellCount
    ensures forall x: nat, y: nat :: InGrid(x, y) ==> field[CellIndex(x, y)] == cell(x, y)
    ensures |order| == CellCount
    ensures forall k :: 0 <= k < |order| ==> order[k] == k
  {
    var slots: seq<Option<Vec>> := seq(CellCount, _ => None);
    order := [];
    var y := 0;
    while y < Rows
      invariant 0 <= y <= Rows
      invariant |slots| == CellCount
      invariant |order| == y * Cols
      invariant forall k :: 0 <= k < |order| ==> order[k] == k
      invariant forall j :: 0 <= j < CellCount ==> (slots[j].Some? <==> j < y * Cols)
      invariant forall j :: 0 <= j < y * Cols ==> slots[j] == Some(cell(j % Cols, j / Cols))
    {
      var x := 0;
      while x < Cols
        invariant 0 <= x <= Cols
        invariant |slots| == CellCount
        invariant |order| == y * Cols + x
        invariant forall k :: 0 <= k < |order| ==> order[k] == k
        invariant forall j :: 0 <= j < CellCount ==> (slots[j].Some? <==> j < y * Cols + x)
        invariant forall j :: 0 <= j < y * Cols + x ==> slots[j] == Some(cell(j % Cols, j / Cols))
      {
        var index := CellIndex(x, y);
        // every slot is written exactly once: this one is still empty
        assert slots[index].None?;
        CellIndexDivMod(x, y);
        slots := slots[index := Some(cell(x, y))];
        order := order + [index];
        x := x + 1;
      }
      y := y + 1;
    }
    field := seq(CellCount, j requires 0 <= j < CellCount => slots[j].value);
    forall x: nat, y: nat | InGrid(x, y)
      ensures field[CellIndex(x, y)] == cell(x, y)
    {
      CellIndexDivMod(x, y);
    }
  }

  /**
   * Bounds-checked access: the JavaScript `vectors[index]` is `undefined`
   * (falsy) for an index outside the array.
   */
  function Lookup(field: seq<Vec>, index: int): (r: Option<Vec>)
    ensures r.Some? <==> 0 <= index < |field|
    ensures r.Some? ==> r.value == field[index]
  {
    if 0 <= index < |field| then Some(field[index]) else None
  }
}
