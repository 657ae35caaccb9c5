/** The square simulation window and the wrap-around bound on positions
    (`Boid::edges`). The source keeps the call to `edges` in `Move` commented out,
    so the bound is a helper the frame step does not use. */
module Window {
  import opened Vectors

  /** `WindowSize`: the side of the square window, in pixels. */
  const WindowSize: int := 800

  /** Whether a coordinate lies on the window, edges included. */
  predicate OnScreen(c: real) {
    0.0 <= c <= WindowSize as real
  }

  /** `Boid::edges`: a coordinate past the far edge wraps to 0, one before the near
      edge wraps to `WindowSize`; each axis is treated on its own. */
  function Edges(position: Vec): (r: Vec)
    ensures OnScreen(r.x) && OnScreen(r.y)
    ensures OnScreen(position.x) ==> r.x == position.x
    ensures OnScreen(position.y) ==> r.y == position.y
  {
    var size := WindowSize as real;
    var x := if position.x > size then 0.0 else if position.x < 0.0 then size else position.x;
    var y := if position.y > size then 0.0 else if position.y < 0.0 then size else position.y;
    Vec(x, y)
  }

  /** Bounding twice is bounding once. */
  lemma EdgesIdempotent(position: Vec)
    ensures Edges(Edges(position)) == Edges(position)
  {
  }

  /** A position leaves `edges` unchanged exactly when it is already on the window. */
  lemma EdgesFixedPoints(position: Vec)
    ensures Edges(position) == position <==> OnScreen(position.x) && OnScreen(position.y)
  {
  }
}
