/** The particle list of one partition of the networked simulator (Simulator/src/Controller.java),
    together with an optional explorer. */
module SimController {
  import opened Kinematics
  import SimBall
  import SimExplorer

  /** The viewport test of `drawParticlesInView`: the rectangle is closed on every side. */
  predicate InView(b: SimBall.Ball, viewLeft: int, viewTop: int, viewRight: int, viewBottom: int)
    reads b
  {
    viewLeft as real <= b.x <= viewRight as real && viewTop as real <= b.y <= viewBottom as real
  }

  class Controller {
    var particles: seq<SimBall.Ball>
    var explorer: SimExplorer.Explorer?

    constructor ()
      ensures particles == [] && explorer == null
    {
      particles := [];
      explorer := null;
    }

    /** Appends a new ball at (x, y); `id` is the UUID the source draws and (vx, vy) the
        `cos`/`sin` components of the velocity. */
    method AddParticleAt(id: string, x: int, y: int, vx: real, vy: real)
      modifies this
      ensures |particles| == |old(particles)| + 1 && particles[..|old(particles)|] == old(particles)
      ensures fresh(particles[|old(particles)|])
      ensures particles[|old(particles)|].id == id
      ensures particles[|old(particles)|].State() == Motion(x as real, y as real, vx, vy)
      ensures explorer == old(explorer)
    {
      var particle := new SimBall.Ball(id, x, y, vx, vy);
      particles := particles + [particle];
    }

    /** Appends; the particles already there keep their places. */
    method AddParticle(particle: SimBall.Ball)
      modifies this
      ensures particles == old(particles) + [particle] && explorer == old(explorer)
    {
      particles := particles + [particle];
    }

    /** Replaces any explorer with a new one standing still at (x, y); `id` is the UUID the
        source draws. */
    method AddExplorer(id: string, x: int, y: int)
      modifies this
      ensures explorer != null && fresh(explorer)
      ensures explorer.id == id && explorer.State() == Motion(x as real, y as real, 0.0, 0.0)
      ensures particles == old(particles)
    {
      explorer := new SimExplorer.Explorer(id, x as real, y as real);
    }

    /** Advances every particle once, in list order, then the explorer if there is one. The list
        itself (membership and order) is untouched. */
    method UpdateParticles(canvasWidth: int, canvasHeight: int)
      modifies particles, explorer
      ensures forall j :: 0 <= j < |particles| && Once(particles, j) ==>
        particles[j].State() == SimBall.Step(old(particles[j].State()), canvasWidth, canvasHeight)
      ensures explorer != null ==>
        explorer.State() == SimExplorer.Step(old(explorer.State()), canvasWidth, canvasHeight)
    {
      var i := 0;
      while i < |particles|
        invariant 0 <= i <= |particles|
        invariant forall j :: 0 <= j < |particles| && Once(particles, j) ==>
          particles[j].State() ==
            if j < i then SimBall.Step(old(particles[j].State()), canvasWidth, canvasHeight)
            else old(particles[j].State())
        invariant explorer != null ==> explorer.State() == old(explorer.State())
      {
        particles[i].Update(canvasWidth, canvasHeight);
        i := i + 1;
      }
      if explorer != null {
        explorer.Update(canvasWidth, canvasHeight);
      }
    }

    /** Empties the list and drops the explorer. */
    method ClearParticles()
      modifies this
      ensures particles == [] && explorer == null
    {
      particles := [];
      explorer := null;
    }

    /** The particles `drawParticlesInView` draws: exactly those inside the
        closed viewport rectangle. */
    method DrawParticlesInView(viewLeft: int, viewTop: int, viewRight: int, viewBottom: int)
      returns (drawn: seq<SimBall.Ball>)
      ensures forall b :: b in drawn <==> b in particles && InView(b, viewLeft, viewTop, viewRight, viewBottom)
      ensures |drawn| <= |particles|
    {
      drawn := [];
      var i := 0;
      while i < |particles|
        invariant 0 <= i <= |particles|
        invariant forall b :: b in drawn <==> b in particles[..i] && InView(b, viewLeft, viewTop, viewRight, viewBottom)
        invariant |drawn| <= i
      {
        var particle := particles[i];
        if InView(particle, viewLeft, viewTop, viewRight, viewBottom) {
          drawn := drawn + [particle];
        }
        assert particles[..i + 1] == particles[..i] + [particle];
        i := i + 1;
      }
      assert particles[..i] == particles;
    }
  }
}
