/** The particle system (src/core/particles.cpp): point emitters that spawn
    particles, and a manager that steps every particle under gravity and
    hands all positions to the renderer as one point mesh in a dedicated
    batch. Floats are reals; the random dispersion a particle's velocity gets
    at birth is a parameter of the spawning operations. */
module Particles {
  import opened Geometry
  import opened Batches
  import opened Rendering

  datatype Particle = Particle(mass: real, lifetime: real, velocity: Vec2, position: Vec2)

  /** The downward (screen +y) acceleration `simulate_particles` applies. */
  const G: real := 9.81

  /** Every particle was spawned with mass 1 and nothing changes a mass. */
  predicate UnitMass(ps: seq<Particle>) {
    forall k :: 0 <= k < |ps| ==> ps[k].mass == 1.0
  }

  /** The conversion of a double to `int`: truncation toward zero. */
  function Trunc(x: real): (t: int)
    ensures 0.0 <= x ==> t as real <= x < t as real + 1.0
    ensures x < 0.0 ==> t as real - 1.0 < x <= t as real
  {
    if 0.0 <= x then x.Floor else -((-x).Floor)
  }

  /** How many particles `create_particles` adds: the loop bound is the
      truncated product of rate and time step, and a bound that is not
      positive runs no iteration. */
  function SpawnCount(rate: int, dt: real): (n: nat)
    ensures rate as real * dt < 1.0 ==> n == 0
    ensures 1.0 <= rate as real * dt ==> 1 <= n && n as real <= rate as real * dt < n as real + 1.0
  {
    var count := Trunc(rate as real * dt);
    if count < 0 then 0 else count
  }

  /** The random dispersion: every draw lies in [-0.1, 0.1). */
  ghost predicate InDispersion(draws: nat -> real) {
    forall i :: -0.1 <= draws(i) < 0.1
  }

  /** The particles one `create_particles` call appends, in order: mass 1,
      lifetime 5, at the emitter's current position, moving at the emitter's
      velocity perturbed by draws `2k` (along x) and `2k + 1` (along y). */
  function Spawned(n: nat, draws: nat -> real, velocity: Vec2, position: Vec2): (ps: seq<Particle>)
    ensures |ps| == n && UnitMass(ps)
    ensures forall k :: 0 <= k < n ==> ps[k].lifetime == 5.0 && ps[k].position == position
    ensures InDispersion(draws) ==>
              forall k :: 0 <= k < n ==>
                && -0.1 <= ps[k].velocity.x - velocity.x < 0.1
                && -0.1 <= ps[k].velocity.y - velocity.y < 0.1
  {
    seq(n, k requires 0 <= k < n => Particle(1.0, 5.0, Vec2(draws(2 * k), draws(2 * k + 1)).Plus(velocity), position))
  }

  /** The change of velocity in one step: the force `(0, m G)` divided by
      the mass `m`, times `dt`. The mass cancels. */
  function Kick(mass: real, dt: real): (dv: Vec2)
    requires mass != 0.0
    ensures dv == Vec2(0.0, G * dt)
  {
    Vec2(0.0, mass * G).Times(1.0 / mass).Times(dt)
  }

  /** One step of `simulate_particles` for one particle: the lifetime drops
      by `dt`, the velocity gains `G dt` along y (the force is mass times G
      and is divided by the mass again), and the position then moves by the
      new velocity: a semi-implicit Euler step. */
  function Tick(p: Particle, dt: real): (q: Particle)
    requires p.mass != 0.0
    ensures q.mass == p.mass && q.lifetime == p.lifetime - dt
    ensures q.velocity == Vec2(p.velocity.x, p.velocity.y + G * dt)
    ensures q.position == Vec2(p.position.x + p.velocity.x * dt,
                               p.position.y + p.velocity.y * dt + G * dt * dt)
  {
    var v := p.velocity.Plus(Kick(p.mass, dt));
    p.(lifetime := p.lifetime - dt, velocity := v, position := p.position.Plus(v.Times(dt)))
  }

  /** The aging loop of `simulate_particles` over one emitter's list. */
  function Age(ps: seq<Particle>, dt: real): (qs: seq<Particle>)
    requires UnitMass(ps)
    ensures |qs| == |ps| && UnitMass(qs)
    ensures forall k :: 0 <= k < |ps| ==> qs[k].lifetime == ps[k].lifetime - dt
  {
    seq(|ps|, k requires 0 <= k < |ps| => Tick(ps[k], dt))
  }

  /** What one `simulate_particles` does to one emitter's list: spawn, then
      age every particle, old and new; `collect_particles` removes nothing. */
  function Simulated(ps: seq<Particle>, rate: int, velocity: Vec2, position: Vec2,
                     dt: real, draws: nat -> real): (qs: seq<Particle>)
    requires UnitMass(ps)
    ensures |qs| == |ps| + SpawnCount(rate, dt) && UnitMass(qs)
    ensures forall k :: 0 <= k < |ps| ==> qs[k].lifetime == ps[k].lifetime - dt
    ensures forall k :: |ps| <= k < |qs| ==> qs[k].lifetime == 5.0 - dt
  {
    Age(ps + Spawned(SpawnCount(rate, dt), draws, velocity, position), dt)
  }

  /** `n` steps of one particle. */
  function TickN(p: Particle, dt: real, n: nat): (q: Particle)
    requires p.mass != 0.0
    ensures q.mass == p.mass
  {
    if n == 0 then p else Tick(TickN(p, dt, n - 1), dt)
  }

  /** After `n` steps a particle has lived `n dt` longer and gained `n G dt`
      of downward speed. */
  lemma {:induction false} TickNVelocity(p: Particle, dt: real, n: nat)
    requires p.mass != 0.0
    ensures TickN(p, dt, n).lifetime == p.lifetime - n as real * dt
    ensures TickN(p, dt, n).velocity == Vec2(p.velocity.x, p.velocity.y + n as real * G * dt)
  {
    if n > 0 {
      TickNVelocity(p, dt, n - 1);
    }
  }

  /** The closed form of `n` falling steps, with `v` the initial speed and
      `a` the acceleration per step, both already multiplied by `dt`. */
  function Fallen(v: real, a: real, n: nat): real {
    n as real * v + a * (n * (n + 1)) as real / 2.0
  }

  /** One more falling step extends the closed form. */
  lemma FallenStep(y0: real, y: real, v0: real, v: real, dt: real, n: nat)
    requires n > 0
    requires y == y0 + Fallen(v0 * dt, G * dt * dt, n - 1)
    requires v == v0 + (n - 1) as real * G * dt
    ensures y + v * dt + G * dt * dt == y0 + Fallen(v0 * dt, G * dt * dt, n)
  {
    var m := (n - 1) as real;
    assert (n * (n + 1)) as real == ((n - 1) * n) as real + 2.0 * n as real;
    assert v * dt + G * dt * dt == v0 * dt + n as real * (G * dt * dt);
  }

  lemma TickPosition(q: Particle, dt: real)
    requires q.mass != 0.0
    ensures Tick(q, dt).position == Vec2(q.position.x + q.velocity.x * dt,
                                         q.position.y + q.velocity.y * dt + G * dt * dt)
  {
  }

  /** The arithmetic of one more step of `TickNPosition`. */
  lemma TickNPositionStep(p: Particle, q: Particle, dt: real, n: nat)
    requires n > 0
    requires q.position == Vec2(p.position.x + (n - 1) as real * (p.velocity.x * dt),
                                p.position.y + Fallen(p.velocity.y * dt, G * dt * dt, n - 1))
    requires q.velocity == Vec2(p.velocity.x, p.velocity.y + (n - 1) as real * G * dt)
    ensures Vec2(q.position.x + q.velocity.x * dt, q.position.y + q.velocity.y * dt + G * dt * dt) ==
            Vec2(p.position.x + n as real * (p.velocity.x * dt),
                 p.position.y + Fallen(p.velocity.y * dt, G * dt * dt, n))
  {
    FallenStep(p.position.y, q.position.y, p.velocity.y, q.velocity.y, dt, n);
    assert (n - 1) as real * (p.velocity.x * dt) + p.velocity.x * dt == n as real * (p.velocity.x * dt);
  }

  /** The inductive step of `TickNPosition`. */
  lemma TickNPositionInd(p: Particle, dt: real, n: nat)
    requires p.mass != 0.0 && n > 0
    requires TickN(p, dt, n - 1).position ==
               Vec2(p.position.x + (n - 1) as real * (p.velocity.x * dt),
                    p.position.y + Fallen(p.velocity.y * dt, G * dt * dt, n - 1))
    ensures TickN(p, dt, n).position ==
              Vec2(p.position.x + n as real * (p.velocity.x * dt),
                   p.position.y + Fallen(p.velocity.y * dt, G * dt * dt, n))
  {
    var q := TickN(p, dt, n - 1);
    TickNVelocity(p, dt, n - 1);
    TickPosition(q, dt);
    TickNPositionStep(p, q, dt, n);
  }

  /** After `n` steps a particle has drifted `n vx dt` along x and fallen
      `n vy dt + G dt^2 n (n + 1) / 2` along y: the semi-implicit step
      applies each step's gain in speed already in that step. */
  lemma {:induction false} TickNPosition(p: Particle, dt: real, n: nat)
    requires p.mass != 0.0
    ensures TickN(p, dt, n).position ==
              Vec2(p.position.x + n as real * (p.velocity.x * dt),
                   p.position.y + Fallen(p.velocity.y * dt, G * dt * dt, n))
  {
    if n > 0 {
      TickNPosition(p, dt, n - 1);
      TickNPositionInd(p, dt, n);
    } else {
      assert Fallen(p.velocity.y * dt, G * dt * dt, 0) == 0.0;
    }
  }

  /** `n` calls of the aging loop. */
  function AgeN(ps: seq<Particle>, dt: real, n: nat): (qs: seq<Particle>)
    requires UnitMass(ps)
    ensures |qs| == |ps| && UnitMass(qs)
  {
    if n == 0 then ps else Age(AgeN(ps, dt, n - 1), dt)
  }

  /** Aging a list `n` times steps each particle `n` times on its own; in
      particular no particle is ever removed, however long it has expired. */
  lemma {:induction false} AgeNIsTickN(ps: seq<Particle>, dt: real, n: nat)
    requires UnitMass(ps)
    ensures forall k :: 0 <= k < |ps| ==> AgeN(ps, dt, n)[k] == TickN(ps[k], dt, n)
  {
    if n > 0 {
      AgeNIsTickN(ps, dt, n - 1);
    }
  }

  /** The vertex `render_update` emits for a particle: its position at depth
      0.5, texture coordinate 0, colour red. */
  function PointVertex(p: Particle): Vertex {
    Vertex(Vec3(p.position.x, p.position.y, 0.5), Vec2(0.0, 0.0), Vec4(1.0, 0.0, 0.0, 0.0))
  }

  /** One emitter's particles as vertices, in list order. */
  function Points(ps: seq<Particle>): (vs: seq<Vertex>)
    ensures |vs| == |ps|
    ensures forall k :: 0 <= k < |ps| ==> vs[k].position == Vec3(ps[k].position.x, ps[k].position.y, 0.5)
  {
    seq(|ps|, k requires 0 <= k < |ps| => PointVertex(ps[k]))
  }

  /** The vertex list `render_update` as written ends up with: the points
      vector is cleared at the top of every emitter's iteration, so only the
      last emitter's particles survive. */
  function LastPoints(pss: seq<seq<Particle>>): (vs: seq<Vertex>)
    ensures pss == [] ==> vs == []
    ensures pss != [] ==> |vs| == |pss[|pss| - 1]|
  {
    if pss == [] then [] else Points(pss[|pss| - 1])
  }

  /** The number of particles over all emitters. */
  function Total(pss: seq<seq<Particle>>): nat {
    if pss == [] then 0 else Total(pss[..|pss| - 1]) + |pss[|pss| - 1]|
  }

  /** Every emitter's points, emitter after emitter: what `render_update`
      evidently means to upload. */
  function AllPoints(pss: seq<seq<Particle>>): (vs: seq<Vertex>)
    ensures |vs| == Total(pss)
  {
    if pss == [] then [] else AllPoints(pss[..|pss| - 1]) + Points(pss[|pss| - 1])
  }

  /** Every particle of every emitter is drawn by `AllPoints`. */
  lemma {:induction false} AllPointsCovers(pss: seq<seq<Particle>>, i: nat, k: nat)
    requires i < |pss| && k < |pss[i]|
    ensures PointVertex(pss[i][k]) in AllPoints(pss)
  {
    var n := |pss| - 1;
    if i == n {
      assert Points(pss[n])[k] == PointVertex(pss[i][k]);
    } else {
      AllPointsCovers(pss[..n], i, k);
    }
  }

  /** The as-written update drops every emitter but the last: with two
      emitters of one particle each at different places, the first particle
      is missing from the uploaded points although it should be drawn. */
  lemma RenderUpdateDropsEmitters(p: Particle, q: Particle)
    requires p.position != q.position
    ensures PointVertex(p) !in LastPoints([[p], [q]])
    ensures PointVertex(p) in AllPoints([[p], [q]])
  {
    assert LastPoints([[p], [q]]) == [PointVertex(q)];
    AllPointsCovers([[p], [q]], 0, 0);
  }

  /** A `PointEmitter`: a list of particles it owns and mutates, an emitter
      position and velocity, and a creation rate of particles per second. */
  class PointEmitter {
    var particles: seq<Particle>
    var posX: int
    var posY: int
    var creationRate: int
    var currPos: Vec2
    var lastPos: Vec2
    var velocity: Vec2

    ghost predicate Valid()
      reads this
    {
      UnitMass(particles)
    }

    /** The constructor: no particles, rate 1, origin. */
    constructor ()
      ensures Valid() && particles == [] && creationRate == 1 && posX == 0 && posY == 0
      ensures currPos == Vec2(0.0, 0.0) && lastPos == Vec2(0.0, 0.0) && velocity == Vec2(0.0, 0.0)
    {
      particles := [];
      posX, posY, creationRate := 0, 0, 1;
      currPos, lastPos, velocity := Vec2(0.0, 0.0), Vec2(0.0, 0.0), Vec2(0.0, 0.0);
    }

    /** `set_location`: the previous position is remembered. */
    method SetLocation(x: int, y: int)
      modifies this`currPos, this`lastPos
      ensures lastPos == old(currPos) && currPos == Vec2(x as real, y as real)
    {
      lastPos := currPos;
      currPos := Vec2(x as real, y as real);
    }

    /** `set_velocity`. */
    method SetVelocity(v: Vec2)
      modifies this`velocity
      ensures velocity == v
    {
      velocity := v;
    }

    /** `create_particles`: appends `SpawnCount(creationRate, dt)` new
        particles; `draws` are this call's values of the dispersion. */
    method CreateParticles(dt: real, draws: nat -> real)
      requires Valid()
      modifies this`particles
      ensures Valid()
      ensures particles == old(particles) + Spawned(SpawnCount(creationRate, dt), draws, velocity, currPos)
    {
      var count := Trunc(creationRate as real * dt);
      var i := 0;
      while i < count
        invariant 0 <= i && (i == 0 || i <= count)
        invariant particles == old(particles) + Spawned(i, draws, velocity, currPos)
      {
        var p := Particle(1.0, 5.0, Vec2(draws(2 * i), draws(2 * i + 1)).Plus(velocity), currPos);
        assert Spawned(i + 1, draws, velocity, currPos) == Spawned(i, draws, velocity, currPos) + [p];
        particles := particles + [p];
        i := i + 1;
      }
    }

    /** `update`: spawning is all an update does. */
    method Update(dt: real, draws: nat -> real)
      requires Valid()
      modifies this`particles
      ensures Valid()
      ensures particles == old(particles) + Spawned(SpawnCount(creationRate, dt), draws, velocity, currPos)
    {
      CreateParticles(dt, draws);
    }

    /** `collect_particles`: its reaping code is commented out, so the list
        is left exactly as it is, expired particles included. */
    method CollectParticles()
      ensures particles == old(particles)
    {
    }
  }

  /** The `ParticleManager`: the registered emitters, the program its
      particles draw with, and the id of its render object. */
  class ParticleManager {
    const renderer: Renderer
    var program: int
    var objID: int
    var emitters: seq<PointEmitter>

    /** The registered emitters are distinct and each keeps its invariant. */
    ghost predicate Valid()
      reads this, emitters
    {
      && (forall i, j :: 0 <= i < j < |emitters| ==> emitters[i] != emitters[j])
      && (forall i :: 0 <= i < |emitters| ==> emitters[i].Valid())
    }

    /** After `init_gl`: the render object exists, knows its own id, and
        its batch exists. */
    ghost predicate Ready()
      reads this, renderer
    {
      && 0 <= objID < |renderer.objects|
      && renderer.objects[objID].id == objID
      && 0 <= renderer.objects[objID].batchID < |renderer.batches|
    }

    /** The emitters' particle lists, in registration order. */
    function ParticleLists(): (pss: seq<seq<Particle>>)
      reads this, emitters
      ensures |pss| == |emitters| && forall i :: 0 <= i < |emitters| ==> pss[i] == emitters[i].particles
    {
      seq(|emitters|, i reads this, emitters requires 0 <= i < |emitters| => emitters[i].particles)
    }

    /** The constructor keeps the renderer; no emitters yet. */
    constructor (renderer: Renderer)
      ensures this.renderer == renderer && emitters == [] && Valid()
    {
      this.renderer := renderer;
      program, objID := 0, -1;
      emitters := [];
    }

    /** `set_program`. */
    method SetProgram(p: int)
      modifies this`program
      ensures program == p
    {
      program := p;
    }

    /** `init_gl`: a point object of size 4 with the manager's program, unit
        x/y scale and no translation, placed in a new dedicated batch that is
        committed straight away. */
    method InitGl()
      requires renderer.WellFormed()
      modifies renderer`objects, renderer`batches, this`objID
      ensures renderer.WellFormed() && Ready()
      ensures objID == |old(renderer.objects)| && renderer.objects[..objID] == old(renderer.objects)
      ensures var o := renderer.objects[objID];
              && o.state == map[Program := program, Texture := renderer.defaultTextureID,
                                PrimitiveType := PrimitiveCode(Point), PointSize := 4]
              && o.mesh.primitive == Point && o.mesh.vertices == []
              && o.mesh.scale == Vec3(1.0, 1.0, 0.0) && o.mesh.translate == Vec3(0.0, 0.0, 0.0)
              && o.batchID == |old(renderer.batches)|
              && renderer.batches == old(renderer.batches) + [NewBatch(o.batchID, DedicatedBatchSize, o.state).Commit()]
    {
      var obj := NewRenderObject().SetProgram(program).SetScale(Vec3(1.0, 1.0, 0.0))
                 .SetTranslation(Vec3(0.0, 0.0, 0.0)).SetPrimitiveType(Point).SetPointSize(4);
      var s := WithDefaultTexture(obj.state, renderer.defaultTextureID);
      assert s == map[Program := program, Texture := renderer.defaultTextureID,
                      PrimitiveType := PrimitiveCode(Point), PointSize := 4];
      var r := renderer.AddObjectDedibatch(obj);
      objID := r.value;
    }

    /** `register_emitter`: the emitter is appended to the list. */
    method RegisterEmitter(e: PointEmitter)
      requires Valid() && e.Valid() && e !in emitters
      modifies this`emitters
      ensures Valid() && emitters == old(emitters) + [e]
    {
      emitters := emitters + [e];
    }

    /** The inner loop of `simulate_particles`, through the reference
        `get_particles` returns. */
    method AgeParticles(e: PointEmitter, dt: real)
      requires e.Valid()
      modifies e`particles
      ensures e.Valid() && e.particles == Age(old(e.particles), dt)
    {
      var j := 0;
      while j < |e.particles|
        invariant 0 <= j <= |e.particles| == |old(e.particles)|
        invariant forall k :: 0 <= k < j ==> e.particles[k] == Tick(old(e.particles)[k], dt)
        invariant forall k :: j <= k < |e.particles| ==> e.particles[k] == old(e.particles)[k]
      {
        e.particles := e.particles[j := Tick(e.particles[j], dt)];
        j := j + 1;
      }
    }

    /** `simulate_particles`: each emitter in turn spawns (with its own draws
        `draws(i, _)`), ages all its particles and collects nothing. Only the
        particle lists change. */
    method SimulateParticles(dt: real, draws: (nat, nat) -> real)
      requires Valid()
      modifies emitters
      ensures Valid()
      ensures forall i :: 0 <= i < |emitters| ==>
                && emitters[i].creationRate == old(emitters[i].creationRate)
                && emitters[i].velocity == old(emitters[i].velocity)
                && emitters[i].currPos == old(emitters[i].currPos)
                && emitters[i].lastPos == old(emitters[i].lastPos)
                && emitters[i].posX == old(emitters[i].posX) && emitters[i].posY == old(emitters[i].posY)
      ensures forall i :: 0 <= i < |emitters| ==>
                emitters[i].particles ==
                  Simulated(old(emitters[i].particles), emitters[i].creationRate, emitters[i].velocity,
                            emitters[i].currPos, dt, (k: nat) => draws(i, k))
    {
      var i := 0;
      while i < |emitters|
        invariant 0 <= i <= |emitters|
        invariant Valid()
        invariant forall j :: 0 <= j < |emitters| ==>
                    && emitters[j].creationRate == old(emitters[j].creationRate)
                    && emitters[j].velocity == old(emitters[j].velocity)
                    && emitters[j].currPos == old(emitters[j].currPos)
                    && emitters[j].lastPos == old(emitters[j].lastPos)
                    && emitters[j].posX == old(emitters[j].posX) && emitters[j].posY == old(emitters[j].posY)
        invariant forall j :: 0 <= j < i ==>
                    emitters[j].particles ==
                      Simulated(old(emitters[j].particles), emitters[j].creationRate, emitters[j].velocity,
                                emitters[j].currPos, dt, (k: nat) => draws(j, k))
        invariant forall j :: i <= j < |emitters| ==> emitters[j].particles == old(emitters[j].particles)
      {
        var e := emitters[i];
        e.Update(dt, (k: nat) => draws(i, k));
        AgeParticles(e, dt);
        e.CollectParticles();
        i := i + 1;
      }
    }

    /** The gathering loop of `render_update` as written: the points are
        cleared for every emitter, so what is left is the last emitter's. */
    method GatherPoints() returns (points: seq<Vertex>)
      ensures points == LastPoints(ParticleLists())
    {
      points := [];
      var i := 0;
      while i < |emitters|
        invariant 0 <= i <= |emitters|
        invariant points == LastPoints(ParticleLists()[..i])
      {
        points := [];
        var ps := emitters[i].particles;
        var j := 0;
        while j < |ps|
          invariant 0 <= j <= |ps|
          invariant points == Points(ps[..j])
        {
          assert ps[..j + 1] == ps[..j] + [ps[j]];
          points := points + [PointVertex(ps[j])];
          j := j + 1;
        }
        assert ps[..j] == ps;
        assert ParticleLists()[..i + 1][i] == ps;
        i := i + 1;
      }
      assert ParticleLists()[..i] == ParticleLists();
    }

    /** The gathering loop with the clear moved before it: every emitter's
        points, emitter after emitter. */
    method GatherAllPoints() returns (points: seq<Vertex>)
      ensures points == AllPoints(ParticleLists())
    {
      points := [];
      var i := 0;
      while i < |emitters|
        invariant 0 <= i <= |emitters|
        invariant points == AllPoints(ParticleLists()[..i])
      {
        ghost var before := points;
        var ps := emitters[i].particles;
        var j := 0;
        while j < |ps|
          invariant 0 <= j <= |ps|
          invariant points == before + Points(ps[..j])
        {
          assert Points(ps[..j + 1]) == Points(ps[..j]) + [PointVertex(ps[j])];
          points := points + [PointVertex(ps[j])];
          j := j + 1;
        }
        assert ps[..j] == ps;
        assert ParticleLists()[..i + 1][..i] == ParticleLists()[..i];
        i := i + 1;
      }
      assert ParticleLists()[..i] == ParticleLists();
    }

    /** The upload half of `render_update`: the object's batch is cleared,
        the object's geometry becomes `points`, and the object is added again
        to its (now empty, hence accepting) batch. The clear reopens the
        dedicated batch, and nothing commits it again: from the first frame
        on it is open to `find_batch`. */
    method Reupload(points: seq<Vertex>)
      requires Ready() && renderer.Valid()
      modifies renderer`objects, renderer`batches
      ensures Ready() && renderer.Valid()
      ensures renderer.objects == old(renderer.objects)[objID := old(renderer.objects)[objID].SetGeometry(points)]
      ensures var b := renderer.objects[objID].batchID;
              renderer.batches == old(renderer.batches)[b := old(renderer.batches)[b].Clear()
                                                            .Append(renderer.objects[objID].mesh, renderer.objects[objID].modelMatrix)]
              && renderer.batches[b].vertices == points
              && !renderer.batches[b].committed
    {
      var id := renderer.objects[objID].id;
      ghost var b := renderer.objects[objID].batchID;
      renderer.ClearObjectBatch(id);
      assert renderer.batches[b].IsEmptyOpen();
      renderer.SetObjectGeometry(id, points);
      var _ := renderer.ReaddObject(id);
    }

    /** `render_update` as written: only the last emitter's points are
        uploaded. */
    method RenderUpdate()
      requires Ready() && renderer.Valid()
      modifies renderer`objects, renderer`batches
      ensures Ready() && renderer.Valid()
      ensures renderer.objects == old(renderer.objects)[objID := old(renderer.objects)[objID].SetGeometry(LastPoints(ParticleLists()))]
      ensures var b := renderer.objects[objID].batchID;
              renderer.batches == old(renderer.batches)[b := old(renderer.batches)[b].Clear()
                                                            .Append(renderer.objects[objID].mesh, renderer.objects[objID].modelMatrix)]
              && renderer.batches[b].vertices == LastPoints(ParticleLists())
              && !renderer.batches[b].committed
    {
      var points := GatherPoints();
      Reupload(points);
    }

    /** `render_update` with every emitter's points uploaded. */
    method RenderUpdateCorrected()
      requires Ready() && renderer.Valid()
      modifies renderer`objects, renderer`batches
      ensures Ready() && renderer.Valid()
      ensures renderer.objects == old(renderer.objects)[objID := old(renderer.objects)[objID].SetGeometry(AllPoints(ParticleLists()))]
      ensures var b := renderer.objects[objID].batchID;
              renderer.batches == old(renderer.batches)[b := old(renderer.batches)[b].Clear()
                                                            .Append(renderer.objects[objID].mesh, renderer.objects[objID].modelMatrix)]
              && renderer.batches[b].vertices == AllPoints(ParticleLists())
              && !renderer.batches[b].committed
    {
      var points := GatherAllPoints();
      Reupload(points);
    }
  }
}
