/** The particle list of the MP4 demo and the operations on it: adding ten
    particles, clearing the list, one frame of the simulation, the burst
    that gives every particle a new velocity, and drawing. */
module ParticleScene {
  import opened Geometry
  import opened Options
  import opened MatrixStack
  import opened Particles

  /** How many particles one press of "add" creates. */
  const BatchSize: nat := 10

  /** The random draws `new Particle()` makes: two `vec3.random` unit vectors
      and four `Math.random` samples. */
  datatype Seed = Seed(pDir: Vec3, vDir: Vec3, u: real, uR: real, uG: real, uB: real)

  /** What the two random sources promise: unit vectors and samples in `[0, 1)`. */
  predicate SeedOk(d: Seed) {
    Len2(d.pDir) == 1.0 && Len2(d.vDir) == 1.0
    && 0.0 <= d.u < 1.0 && 0.0 <= d.uR < 1.0 && 0.0 <= d.uG < 1.0 && 0.0 <= d.uB < 1.0
  }

  class Scene {
    var particles: seq<Particle>

    /** Every list entry is its own object, and every particle is inside the box. */
    ghost predicate Valid()
      reads this, particles
    {
      (forall i, j :: 0 <= i < j < |particles| ==> particles[i] != particles[j])
      && forall i :: 0 <= i < |particles| ==> InBox(particles[i].p)
    }

    /** The list starts with one batch (the `addParticles()` call at load time). */
    constructor (draws: seq<Seed>)
      requires |draws| == BatchSize && forall i :: 0 <= i < |draws| ==> SeedOk(draws[i])
      ensures Valid() && |particles| == BatchSize
      ensures forall i :: 0 <= i < BatchSize ==>
        particles[i].Kin() == Kinematics(draws[i].pDir, draws[i].vDir, GravityAccel(Gravity))
      ensures forall i :: 0 <= i < BatchSize ==>
        particles[i].Looks() == Appearance(0.05 + draws[i].u * 0.05, draws[i].uR, draws[i].uG, draws[i].uB)
    {
      particles := [];
      new;
      AddParticles(draws, Gravity);
    }

    /** `addParticles`: ten new particles at the end of the list, made from
        the given draws and the current `gravity` slider value; the old ones
        are untouched. */
    method AddParticles(draws: seq<Seed>, gravity: real)
      requires Valid()
      requires |draws| == BatchSize && forall i :: 0 <= i < |draws| ==> SeedOk(draws[i])
      modifies this
      ensures Valid()
      ensures |particles| == |old(particles)| + BatchSize && particles[..|old(particles)|] == old(particles)
      ensures forall q :: q in particles[|old(particles)|..] ==> fresh(q)
      ensures forall i :: 0 <= i < BatchSize ==>
        particles[|old(particles)| + i].Kin() == Kinematics(draws[i].pDir, draws[i].vDir, GravityAccel(gravity))
      ensures forall i :: 0 <= i < BatchSize ==>
        particles[|old(particles)| + i].Looks() == Appearance(0.05 + draws[i].u * 0.05, draws[i].uR, draws[i].uG, draws[i].uB)
      ensures forall i :: 0 <= i < |old(particles)| ==> particles[i].Kin() == old(particles[i].Kin())
      ensures forall i :: 0 <= i < |old(particles)| ==> particles[i].Looks() == old(particles[i].Looks())
    {
      ghost var n := |particles|;
      for i := 0 to BatchSize
        invariant |particles| == n + i && particles[..n] == old(particles)
        invariant forall q :: q in particles[n..] ==> fresh(q)
        invariant forall j :: 0 <= j < i ==>
          && particles[n + j].Kin() == Kinematics(draws[j].pDir, draws[j].vDir, GravityAccel(gravity))
          && particles[n + j].Looks() == Appearance(0.05 + draws[j].u * 0.05, draws[j].uR, draws[j].uG, draws[j].uB)
        invariant forall j :: 0 <= j < |old(particles)| ==>
          particles[j].Kin() == old(particles[j].Kin()) && particles[j].Looks() == old(particles[j].Looks())
        invariant Valid()
      {
        var d := draws[i];
        var q := new Particle(d.pDir, d.vDir, gravity, d.u, d.uR, d.uG, d.uB);
        UnitInBox(d.pDir);
        ghost var before := particles;
        particles := particles + [q];
        assert particles[n..] == before[n..] + [q];
      }
    }

    /** `resetParticles`: the list becomes empty. */
    method Reset()
      modifies this
      ensures particles == [] && Valid()
    {
      particles := [];
    }

    /** `updateParticles`: every particle takes one frame, in list order;
        `k`, `bouncing` and `gravity` are the slider values of that frame. */
    method Update(k: real, bouncing: real, gravity: real)
      requires Valid()
      modifies particles
      ensures Valid()
      ensures forall i :: 0 <= i < |particles| ==>
        particles[i].Kin() == Stepped(old(particles[i].Kin()), k, bouncing, gravity)
      ensures forall i :: 0 <= i < |particles| ==> particles[i].Looks() == old(particles[i].Looks())
    {
      for i := 0 to |particles|
        invariant forall j :: 0 <= j < i ==>
          particles[j].Kin() == Stepped(old(particles[j].Kin()), k, bouncing, gravity)
        invariant forall j :: i <= j < |particles| ==> particles[j].Kin() == old(particles[j].Kin())
        invariant forall j :: 0 <= j < |particles| ==> particles[j].Looks() == old(particles[j].Looks())
        invariant Valid()
      {
        StepParticle(particles[i], k, bouncing, gravity);
      }
    }

    /** `burstParticles`: each particle gets the matching random velocity of
        length 2; positions and accelerations stay. */
    method Burst(dirs: seq<Vec3>)
      requires Valid()
      requires |dirs| == |particles| && forall i :: 0 <= i < |dirs| ==> Len2(dirs[i]) == 4.0
      modifies particles
      ensures Valid()
      ensures forall i :: 0 <= i < |particles| ==>
        particles[i].Kin() == old(particles[i].Kin()).(v := dirs[i]) && Len2(particles[i].v) == 4.0
      ensures forall i :: 0 <= i < |particles| ==> particles[i].Looks() == old(particles[i].Looks())
    {
      for i := 0 to |particles|
        invariant forall j :: 0 <= j < i ==> particles[j].Kin() == old(particles[j].Kin()).(v := dirs[j])
        invariant forall j :: i <= j < |particles| ==> particles[j].Kin() == old(particles[j].Kin())
        invariant forall j :: 0 <= j < |particles| ==> particles[j].Looks() == old(particles[j].Looks())
        invariant Valid()
      {
        particles[i].v := dirs[i];
      }
    }
  }

  /** One pass of the `updateParticles` loop: velocity, position, then
      acceleration of one particle. Radius and colour stay. */
  method StepParticle(q: Particle, k: real, bouncing: real, gravity: real)
    modifies q
    ensures q.Kin() == Stepped(old(q.Kin()), k, bouncing, gravity)
    ensures q.Looks() == old(q.Looks())
  {
    q.UpdateVelocity(k);
    q.UpdatePosition(bouncing);
    q.UpdateAcceleration(gravity);
  }

  /** `draw`: the model-view matrix is set to the camera, and each particle is
      drawn between a push and a pop with the camera moved to its place and
      size; `place` stands for the `mat4.translate` and `mat4.scale` pair.
      Returns the matrix each particle is drawn with; no pop throws, and
      the stack ends as it began. */
  method Draw<M>(scene: Scene, view: ModelView<M>, lookAt: M, place: (M, Vec3, real) -> M)
    returns (drawn: seq<M>)
    modifies view
    ensures view.mvMatrix == lookAt && view.stack == old(view.stack)
    ensures |drawn| == |scene.particles|
    ensures forall i :: 0 <= i < |drawn| ==> drawn[i] == place(lookAt, scene.particles[i].p, scene.particles[i].r)
  {
    view.mvMatrix := lookAt;
    drawn := [];
    for i := 0 to |scene.particles|
      invariant view.mvMatrix == lookAt && view.stack == old(view.stack)
      invariant |drawn| == i
      invariant forall j :: 0 <= j < i ==> drawn[j] == place(lookAt, scene.particles[j].p, scene.particles[j].r)
    {
      var q := scene.particles[i];
      view.Push();
      view.mvMatrix := place(view.mvMatrix, q.p, q.r);
      drawn := drawn + [view.mvMatrix];
      PushChangePop(ViewState(lookAt, old(view.stack)), view.mvMatrix);
      var thrown := view.Pop();
      assert thrown.None?;
    }
  }
}
