/** Two-dimensional vectors with exact rational coordinates, standing in for p5.Vector. */
module Vector {

  datatype Vec = Vec(x: real, y: real)

  const Zero: Vec := Vec(0.0, 0.0)

  function Add(a: Vec, b: Vec): Vec {
    Vec(a.x + b.x, a.y + b.y)
  }

  function Sub(a: Vec, b: Vec): Vec {
    Vec(a.x - b.x, a.y - b.y)
  }

  function MagSq(v: Vec): real {
    v.x * v.x + v.y * v.y
  }
}
