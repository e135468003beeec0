/** The sketch's model (`struct Model` in src/main.rs): the particle vector
    built by `model` and advanced once per frame by `update`. */
module Sketch {
  import opened Geometry
  import opened Particles

  /** `for _ in 1..10` pushes nine particles: the range is half-open. */
  const ParticleCount: nat := 9

  /** Samples drawn from the uniform source per particle: the position's x and
      y (the arguments of `Particle::new`), then the velocity's x and y. */
  const DrawsPerParticle: nat := 4

  /** The `i`-th particle built from the sample stream `u`. */
  function SpawnFrom(u: seq<real>, i: nat): State
    requires DrawsPerParticle * i + 3 < |u|
  {
    var k := DrawsPerParticle * i;
    Spawn(SpawnCoordinate(u[k]), SpawnCoordinate(u[k + 1]), u[k + 2], u[k + 3])
  }

  /** What `model` builds from the sample stream `u`. */
  function InitialStates(u: seq<real>): (r: seq<State>)
    requires |u| == DrawsPerParticle * ParticleCount
    ensures |r| == ParticleCount
    ensures forall i :: 0 <= i < |r| ==> r[i] == SpawnFrom(u, i)
  {
    seq(ParticleCount, i requires 0 <= i < ParticleCount => SpawnFrom(u, i))
  }

  /** One frame: every particle stepped once against the same window. */
  function StepAll(ss: seq<State>, w: Rect): (r: seq<State>)
    ensures |r| == |ss|
    ensures forall i :: 0 <= i < |ss| ==> r[i] == Step(ss[i], w)
  {
    seq(|ss|, i requires 0 <= i < |ss| => Step(ss[i], w))
  }

  /** `n` frames against a window that does not change. */
  function Run(ss: seq<State>, w: Rect, n: nat): seq<State>
    decreases n
  {
    if n == 0 then ss else Run(StepAll(ss, w), w, n - 1)
  }

  predicate AllSettled(ss: seq<State>, w: Rect) {
    forall i :: 0 <= i < |ss| ==> Settled(ss[i], w)
  }

  /** A frame keeps every settled particle inside the window. */
  lemma StepAllKeepsSettled(ss: seq<State>, w: Rect)
    requires AllSettled(ss, w)
    ensures AllSettled(StepAll(ss, w), w)
  {
    forall i | 0 <= i < |ss| ensures Settled(StepAll(ss, w)[i], w) {
      StepKeepsSettled(ss[i], w);
    }
  }

  /** So does any number of frames. */
  lemma {:induction false} RunKeepsSettled(ss: seq<State>, w: Rect, n: nat)
    requires AllSettled(ss, w)
    ensures |Run(ss, w, n)| == |ss|
    ensures AllSettled(Run(ss, w, n), w)
    decreases n
  {
    if n > 0 {
      StepAllKeepsSettled(ss, w);
      RunKeepsSettled(StepAll(ss, w), w, n - 1);
    }
  }

  /** No frame changes a particle's mass. */
  lemma {:induction false} RunKeepsMass(ss: seq<State>, w: Rect, n: nat)
    ensures |Run(ss, w, n)| == |ss|
    ensures forall i :: 0 <= i < |ss| ==> Run(ss, w, n)[i].mass == ss[i].mass
    decreases n
  {
    if n > 0 {
      RunKeepsMass(StepAll(ss, w), w, n - 1);
    }
  }

  /** Where the straight-line path puts a particle after `k` frames. */
  function Ahead(s: State, k: nat): Vec2 {
    Vec2(s.position.x + (k as real) * s.velocity.x, s.position.y + (k as real) * s.velocity.y)
  }

  /** One frame of the straight-line path, then `k` more, is `k + 1` frames. */
  lemma AheadShift(s: State, k: nat)
    ensures Ahead(State(Add(s.position, s.velocity), s.velocity, s.mass), k) == Ahead(s, k + 1)
  {
    var r := k as real;
    assert r * s.velocity.x + s.velocity.x == (r + 1.0) * s.velocity.x;
    assert r * s.velocity.y + s.velocity.y == (r + 1.0) * s.velocity.y;
  }

  /** Free flight: while the straight-line path stays in the window, `n`
      frames move a particle by `n` times its unchanged velocity. */
  lemma {:induction false} RunFreeFlight(s: State, w: Rect, n: nat)
    requires forall k: nat :: 1 <= k <= n ==> w.Contains(Ahead(s, k))
    ensures Run([s], w, n) == [State(Ahead(s, n), s.velocity, s.mass)]
    decreases n
  {
    if n == 0 {
      assert Ahead(s, 0) == s.position;
    } else {
      AheadShift(s, 0);
      assert Ahead(s, 1) == Add(s.position, s.velocity);
      StepInsideIsTranslation(s, w);
      var t := Step(s, w);
      assert StepAll([s], w) == [t];
      forall k: nat | 1 <= k <= n - 1 ensures w.Contains(Ahead(t, k)) {
        AheadShift(s, k);
      }
      AheadShift(s, n - 1);
      RunFreeFlight(t, w, n - 1);
    }
  }

  /** Every particle `model` builds from uniform samples starts settled in any
      window that covers the spawn square [0, 100] x [0, 100]. */
  lemma InitialStatesSettled(u: seq<real>, w: Rect)
    requires |u| == DrawsPerParticle * ParticleCount
    requires forall j :: 0 <= j < |u| ==> 0.0 <= u[j] < 1.0
    requires w.left <= 0.0 && 100.0 <= w.right && w.bottom <= 0.0 && 100.0 <= w.top
    ensures AllSettled(InitialStates(u), w)
  {
    forall i | 0 <= i < ParticleCount ensures Settled(InitialStates(u)[i], w) {
      var k := DrawsPerParticle * i;
      assert 0.0 <= u[k] < 1.0 && 0.0 <= u[k + 1] < 1.0;
      assert 0.0 <= u[k + 2] < 1.0 && 0.0 <= u[k + 3] < 1.0;
    }
  }

  class Model {
    var particles: seq<Particle>

    /** The vector owns its particles: no particle appears twice. */
    ghost predicate Valid()
      reads this
    {
      forall i, j :: 0 <= i < j < |particles| ==> particles[i] != particles[j]
    }

    function States(): (r: seq<State>)
      reads this, set p | p in particles
      ensures |r| == |particles|
      ensures forall i :: 0 <= i < |particles| ==> r[i] == particles[i].Snapshot()
    {
      seq(|particles|, i reads this, particles requires 0 <= i < |particles| => particles[i].Snapshot())
    }

    /** `model`: pushes nine spawned particles, consuming the samples `u` in order. */
    constructor (u: seq<real>)
      requires |u| == DrawsPerParticle * ParticleCount
      ensures Valid()
      ensures forall p :: p in particles ==> fresh(p)
      ensures States() == InitialStates(u)
    {
      var ps: seq<Particle> := [];
      for n := 1 to 10
        invariant |ps| == n - 1
        invariant forall i, j :: 0 <= i < j < |ps| ==> ps[i] != ps[j]
        invariant forall i :: 0 <= i < |ps| ==> fresh(ps[i])
        invariant forall i :: 0 <= i < |ps| ==> ps[i].Snapshot() == SpawnFrom(u, i)
      {
        var k := DrawsPerParticle * (n - 1);
        var p := new Particle(SpawnCoordinate(u[k]), SpawnCoordinate(u[k + 1]), u[k + 2], u[k + 3]);
        ps := ps + [p];
      }
      particles := ps;
    }

    /** `update`: every particle stepped once, in vector order, against the same
        window; the vector itself (its length and order) is untouched. */
    method Update(window: Rect)
      requires Valid()
      modifies set p | p in particles
      ensures particles == old(particles)
      ensures States() == StepAll(old(States()), window)
    {
      var i := 0;
      while i < |particles|
        invariant 0 <= i <= |particles|
        invariant forall j :: 0 <= j < i ==>
                    particles[j].Snapshot() == Step(old(particles[j].Snapshot()), window)
        invariant forall j :: i <= j < |particles| ==>
                    particles[j].Snapshot() == old(particles[j].Snapshot())
      {
        particles[i].Update(window);
        i := i + 1;
      }
    }
  }
}
