/** The particle list of the single-window simulator (src/Controller.java). */
module ClassicController {
  import opened Kinematics
  import ClassicBall

  class Controller {
    var particles: seq<ClassicBall.Ball>

    constructor ()
      ensures particles == []
    {
      particles := [];
    }

    /** `addParticle(x, y, angle, velocity)`: a new ball at (x, y); `vx` and `vy` are the
        `Math.cos(angle) * velocity` and `Math.sin(angle) * velocity` the source computes. */
    method AddParticleAt(x: int, y: int, vx: real, vy: real)
      modifies this
      ensures |particles| == |old(particles)| + 1 && particles[..|old(particles)|] == old(particles)
      ensures fresh(particles[|old(particles)|])
      ensures particles[|old(particles)|].State() == Motion(x as real, y as real, vx, vy)
    {
      var particle := new ClassicBall.Ball(x, y, vx, vy);
      particles := particles + [particle];
    }

    method AddParticle(particle: ClassicBall.Ball)
      modifies this
      ensures particles == old(particles) + [particle]
    {
      particles := particles + [particle];
    }

    /** Advances every ball once, in list order; membership and order are untouched. */
    method UpdateParticles(canvasWidth: int, canvasHeight: int)
      modifies particles
      ensures forall j :: 0 <= j < |particles| && Once(particles, j) ==>
        particles[j].State() == ClassicBall.Step(old(particles[j].State()), canvasWidth, canvasHeight)
    {
      var i := 0;
      while i < |particles|
        invariant 0 <= i <= |particles|
        invariant forall j :: 0 <= j < |particles| && Once(particles, j) ==>
          particles[j].State() ==
            if j < i then ClassicBall.Step(old(particles[j].State()), canvasWidth, canvasHeight)
            else old(particles[j].State())
      {
        particles[i].Update(canvasWidth, canvasHeight);
        i := i + 1;
      }
    }

    /** The list's current value. */
    method GetParticles() returns (r: seq<ClassicBall.Ball>)
      ensures r == particles
    {
      r := particles;
    }

    method ClearParticles()
      modifies this
      ensures particles == []
    {
      particles := [];
    }
  }
}
