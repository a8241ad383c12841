/** A particle of the networked simulator (Simulator/src/Ball.java): it moves by its velocity,
    bounces off the edges of the canvas and is kept inside a band of half its size from every edge. */
module SimBall {
  import opened Kinematics

  /** Diameter of a particle. */
  const Size: int := 10
  /** `SIZE / 2` in the source, an integer division: the particle's distance from every edge. */
  const Half: int := Size / 2

  /** Velocity of one axis after the bounce test on the already moved coordinate `p`. */
  function Bounce(p: real, v: real, limit: int): real
  {
    if p <= Half as real || p >= (limit - Half) as real then -v else v
  }

  /** `Math.max(SIZE / 2, Math.min(limit - SIZE / 2, p))`. */
  function Clamp(p: real, limit: int): real
  {
    Max(Half as real, Min((limit - Half) as real, p))
  }

  /** One `update(width, height)` of a particle in `m`. */
  function Step(m: Motion, width: int, height: int): (r: Motion)
    // inside the band once the canvas is at least one particle wide / high
    ensures width >= Size ==> Half as real <= r.x <= (width - Half) as real
    ensures height >= Size ==> Half as real <= r.y <= (height - Half) as real
    // a bounce reverses a velocity component and never changes its magnitude
    ensures Abs(r.vx) == Abs(m.vx) && Abs(r.vy) == Abs(m.vy)
    // vx is negated exactly when the moved x touches or passes a band edge, likewise vy
    ensures var px := m.x + m.vx;
      if px <= Half as real || px >= (width - Half) as real then r.vx == -m.vx else r.vx == m.vx
    ensures var py := m.y + m.vy;
      if py <= Half as real || py >= (height - Half) as real then r.vy == -m.vy else r.vy == m.vy
    // strictly inside the band: the move is kept exactly and the velocity is untouched
    ensures Half as real < m.x + m.vx < (width - Half) as real ==> r.x == m.x + m.vx && r.vx == m.vx
    ensures Half as real < m.y + m.vy < (height - Half) as real ==> r.y == m.y + m.vy && r.vy == m.vy
    // on contact the coordinate sits exactly on the band edge
    ensures m.x + m.vx <= Half as real ==> r.x == Half as real
    ensures width >= Size && m.x + m.vx >= (width - Half) as real ==> r.x == (width - Half) as real
    ensures m.y + m.vy <= Half as real ==> r.y == Half as real
    ensures height >= Size && m.y + m.vy >= (height - Half) as real ==> r.y == (height - Half) as real
  {
    var px, py := m.x + m.vx, m.y + m.vy;
    Motion(Clamp(px, width), Clamp(py, height), Bounce(px, m.vx, width), Bounce(py, m.vy, height))
  }

  /** The y result of a step depends only on y, vy and the height, and symmetrically for x. */
  lemma AxesIndependent(m: Motion, n: Motion, width: int, height: int, width': int, height': int)
    ensures m.y == n.y && m.vy == n.vy ==>
      Step(m, width, height).y == Step(n, width', height).y &&
      Step(m, width, height).vy == Step(n, width', height).vy
    ensures m.x == n.x && m.vx == n.vx ==>
      Step(m, width, height).x == Step(n, width, height').x &&
      Step(m, width, height).vx == Step(n, width, height').vx
  {
  }

  /** A particle object. The constructor, `getX`/`getY`/`getVx`/`getVy` and `getId` are the
      callers' view of it; the id is an opaque token (a UUID string in the source). */
  class Ball {
    const id: string
    var x: real
    var y: real
    var vx: real
    var vy: real

    constructor (id: string, x: int, y: int, vx: real, vy: real)
      ensures this.id == id && State() == Motion(x as real, y as real, vx, vy)
    {
      this.id := id;
      this.x, this.y := x as real, y as real;
      this.vx, this.vy := vx, vy;
    }

    function State(): Motion
      reads this
    {
      Motion(x, y, vx, vy)
    }

    /** Move, reflect, then clamp, field by field. */
    method Update(canvasWidth: int, canvasHeight: int)
      modifies this
      ensures State() == Step(old(State()), canvasWidth, canvasHeight)
    {
      x := x + vx;
      y := y + vy;

      if x <= Half as real || x >= (canvasWidth - Half) as real {
        vx := -vx;
      }
      if y <= Half as real || y >= (canvasHeight - Half) as real {
        vy := -vy;
      }

      x := Max(Half as real, Min((canvasWidth - Half) as real, x));
      y := Max(Half as real, Min((canvasHeight - Half) as real, y));
    }
  }
}
