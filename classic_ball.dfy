/** The particle of the single-window simulator (src/Ball.java): it tests the lower edge first and
    pins the coordinate to the edge it touched, reversing that velocity component. */
module ClassicBall {
  import opened Kinematics

  /** Distance kept from every edge. */
  const Margin: int := 5

  /** One axis of an update: `p` is the moved coordinate, `v` the velocity before the update. */
  function Axis(p: real, v: real, limit: int): (real, real)
  {
    if p <= Margin as real then (Margin as real, -v)
    else if p >= (limit - Margin) as real then ((limit - Margin) as real, -v)
    else (p, v)
  }

  /** One `update(width, height)` of a particle in `m`. */
  function Step(m: Motion, width: int, height: int): (r: Motion)
    // inside the band once the canvas is at least two margins wide / high
    ensures width >= 2 * Margin ==> Margin as real <= r.x <= (width - Margin) as real
    ensures height >= 2 * Margin ==> Margin as real <= r.y <= (height - Margin) as real
    // the lower edge is tested first
    ensures m.x + m.vx <= Margin as real ==> r.x == Margin as real && r.vx == -m.vx
    ensures Margin as real < m.x + m.vx && m.x + m.vx >= (width - Margin) as real ==>
      r.x == (width - Margin) as real && r.vx == -m.vx
    ensures m.y + m.vy <= Margin as real ==> r.y == Margin as real && r.vy == -m.vy
    ensures Margin as real < m.y + m.vy && m.y + m.vy >= (height - Margin) as real ==>
      r.y == (height - Margin) as real && r.vy == -m.vy
    // strictly inside the band the move is kept and the velocity untouched
    ensures Margin as real < m.x + m.vx < (width - Margin) as real ==> r.x == m.x + m.vx && r.vx == m.vx
    ensures Margin as real < m.y + m.vy < (height - Margin) as real ==> r.y == m.y + m.vy && r.vy == m.vy
    // each component flips at most once and keeps its magnitude
    ensures r.vx == m.vx || r.vx == -m.vx
    ensures r.vy == m.vy || r.vy == -m.vy
  {
    var (x, vx) := Axis(m.x + m.vx, m.vx, width);
    var (y, vy) := Axis(m.y + m.vy, m.vy, height);
    Motion(x, y, vx, vy)
  }

  /** The y result does not depend on x, vx or the width, and symmetrically for x. */
  lemma AxesIndependent(m: Motion, n: Motion, width: int, height: int, width': int, height': int)
    ensures m.y == n.y && m.vy == n.vy ==>
      Step(m, width, height).y == Step(n, width', height).y &&
      Step(m, width, height).vy == Step(n, width', height).vy
    ensures m.x == n.x && m.vx == n.vx ==>
      Step(m, width, height).x == Step(n, width, height').x &&
      Step(m, width, height).vx == Step(n, width, height').vx
  {
  }

  class Ball {
    var x: real
    var y: real
    var vx: real
    var vy: real

    constructor (x: int, y: int, vx: real, vy: real)
      ensures State() == Motion(x as real, y as real, vx, vy)
    {
      this.x, this.y := x as real, y as real;
      this.vx, this.vy := vx, vy;
    }

    function State(): Motion
      reads this
    {
      Motion(x, y, vx, vy)
    }

    method Update(canvasWidth: int, canvasHeight: int)
      modifies this
      ensures State() == Step(old(State()), canvasWidth, canvasHeight)
    {
      x := x + vx;
      y := y + vy;

      if x <= Margin as real {
        x := Margin as real;
        vx := -vx;
      } else if x >= (canvasWidth - Margin) as real {
        x := (canvasWidth - Margin) as real;
        vx := -vx;
      }

      if y <= Margin as real {
        y := Margin as real;
        vy := -vy;
      } else if y >= (canvasHeight - Margin) as real {
        y := (canvasHeight - Margin) as real;
        vy := -vy;
      }
    }
  }
}

/** The two particle variants agree on every canvas at least one particle wide and high;
    they differ only on smaller canvases, where the band is empty. */
module BallVariants {
  import opened Kinematics
  import SimBall
  import ClassicBall

  lemma VariantsAgree(m: Motion, width: int, height: int)
    requires width >= SimBall.Size && height >= SimBall.Size
    ensures SimBall.Step(m, width, height) == ClassicBall.Step(m, width, height)
  {
  }

  /** On a canvas narrower than a particle, a particle right of the margin is pinned to
      `width - 5` by one variant and to `5` by the other. */
  lemma VariantsDifferOnNarrowCanvas()
    ensures SimBall.Step(Motion(6.0, 20.0, 0.0, 0.0), 8, 40).x == 5.0
    ensures ClassicBall.Step(Motion(6.0, 20.0, 0.0, 0.0), 8, 40).x == 3.0
  {
  }
}
