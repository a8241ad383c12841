/** The avatar a network client steers (Simulator/src/Explorer.java). Unlike a particle it never
    bounces: its position is clamped to the canvas, its velocity changes only when a client says so. */
module SimExplorer {
  import opened Kinematics

  /** Diameter of an explorer. */
  const Size: int := 10

  /** One `update(width, height)` of an explorer in `m`. */
  function Step(m: Motion, width: int, height: int): (r: Motion)
    // no reflection: the velocity is never changed by an update
    ensures r.vx == m.vx && r.vy == m.vy
    // never past the right / bottom limit; never past the left / top once the canvas is big enough
    ensures r.x <= (width - Size) as real && r.y <= (height - Size) as real
    ensures width >= Size ==> 0.0 <= r.x
    ensures height >= Size ==> 0.0 <= r.y
    // a move that stays on the canvas is kept exactly
    ensures 0.0 <= m.x + m.vx <= (width - Size) as real ==> r.x == m.x + m.vx
    ensures 0.0 <= m.y + m.vy <= (height - Size) as real ==> r.y == m.y + m.vy
    // otherwise the coordinate is clamped onto the nearer limit
    ensures width >= Size && m.x + m.vx < 0.0 ==> r.x == 0.0
    ensures m.x + m.vx > (width - Size) as real ==> r.x == (width - Size) as real
    ensures height >= Size && m.y + m.vy < 0.0 ==> r.y == 0.0
    ensures m.y + m.vy > (height - Size) as real ==> r.y == (height - Size) as real
  {
    var x := Max(0.0, m.x + m.vx);
    var y := Max(0.0, m.y + m.vy);
    Motion(Min(x, (width - Size) as real), Min(y, (height - Size) as real), m.vx, m.vy)
  }

  class Explorer {
    const id: string
    var x: real
    var y: real
    var vx: real
    var vy: real

    /** A new explorer stands still at (x, y). */
    constructor (id: string, x: real, y: real)
      ensures this.id == id && State() == Motion(x, y, 0.0, 0.0)
    {
      this.id := id;
      this.x, this.y := x, y;
      this.vx, this.vy := 0.0, 0.0;
    }

    function State(): Motion
      reads this
    {
      Motion(x, y, vx, vy)
    }

    method Update(canvasWidth: int, canvasHeight: int)
      modifies this
      ensures State() == Step(old(State()), canvasWidth, canvasHeight)
    {
      x := x + vx;
      y := y + vy;

      if x < 0.0 { x := 0.0; }
      if x > (canvasWidth - Size) as real { x := (canvasWidth - Size) as real; }
      if y < 0.0 { y := 0.0; }
      if y > (canvasHeight - Size) as real { y := (canvasHeight - Size) as real; }
    }

    /** The source takes `int` components. */
    method SetVelocity(vx: int, vy: int)
      modifies this
      ensures State() == old(State()).(vx := vx as real, vy := vy as real)
    {
      this.vx := vx as real;
      this.vy := vy as real;
    }

    method SetPosition(x: real, y: real)
      modifies this
      ensures State() == old(State()).(x := x, y := y)
    {
      this.x := x;
      this.y := y;
    }
  }
}
