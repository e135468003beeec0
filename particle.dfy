/** One particle of the sketch (`struct Particle` in src/main.rs): its spawn,
    the pairwise velocity kick, and the per-frame step that reflects off the
    window edges and then moves. The value-level functions specify what the
    methods of the class `Particle` do to its fields in place. */
module Particles {
  import opened Geometry

  /** The constant `g` of `apply_gravity_to_particle`. */
  const G: real := 2.0

  /** Every particle is created with this mass. */
  const SpawnMass: real := 1.0

  /** A snapshot of a particle's fields. */
  datatype State = State(position: Vec2, velocity: Vec2, mass: real)

  // ---------------------------------------------------------------------------
  // Spawning

  /** Velocity component drawn from a uniform sample `u` (`u * 10.0 - 5.0`). */
  function SpawnSpeed(u: real): (v: real)
    ensures 0.0 <= u < 1.0 ==> -5.0 <= v < 5.0
    ensures v + 5.0 == u * 10.0
  {
    u * 10.0 - 5.0
  }

  /** Position coordinate drawn from a uniform sample `u` (`u * 100.0`). */
  function SpawnCoordinate(u: real): (c: real)
    ensures 0.0 <= u < 1.0 ==> 0.0 <= c < 100.0
  {
    u * 100.0
  }

  /** `Particle::new(x, y)`, with the two velocity samples passed in. */
  function Spawn(x: real, y: real, ux: real, uy: real): (s: State)
    ensures s.position == Vec2(x, y) && s.mass == SpawnMass
    ensures 0.0 <= ux < 1.0 ==> -5.0 <= s.velocity.x < 5.0
    ensures 0.0 <= uy < 1.0 ==> -5.0 <= s.velocity.y < 5.0
  {
    State(Vec2(x, y), Vec2(SpawnSpeed(ux), SpawnSpeed(uy)), SpawnMass)
  }

  // ---------------------------------------------------------------------------
  // Boundary reflection

  /** The x-axis rule: the upper edge is tested first, then the lower edge is
      tested against the projection with the velocity as it then stands. */
  function ReflectHighFirst(p: real, v: real, lo: real, hi: real): (r: real)
    ensures r == v || r == -v
  {
    var v1 := if p + v > hi then -v else v;
    if p + v1 < lo then -v1 else v1
  }

  /** The y-axis rule: the lower edge is tested first, then the upper edge. */
  function ReflectLowFirst(p: real, v: real, lo: real, hi: real): (r: real)
    ensures r == v || r == -v
  {
    var v1 := if p + v < lo then -v else v;
    if p + v1 > hi then -v1 else v1
  }

  /** `Particle::update`: reflect each axis independently, then move by the
      reflected velocity. */
  function Step(s: State, w: Rect): (t: State)
    ensures t.mass == s.mass
    ensures t.position == Add(s.position, t.velocity)
    ensures Abs(t.velocity.x) == Abs(s.velocity.x) && Abs(t.velocity.y) == Abs(s.velocity.y)
  {
    var v := Vec2(ReflectHighFirst(s.position.x, s.velocity.x, w.left, w.right),
                  ReflectLowFirst(s.position.y, s.velocity.y, w.bottom, w.top));
    State(Add(s.position, v), v, s.mass)
  }

  /** A projection inside the closed interval fires neither check. */
  lemma ReflectInsideUnchanged(p: real, v: real, lo: real, hi: real)
    requires lo <= p + v <= hi
    ensures ReflectHighFirst(p, v, lo, hi) == v
    ensures ReflectLowFirst(p, v, lo, hi) == v
  {
  }

  /** The order of the checks is observable: after an upper-edge flip the
      velocity is flipped back exactly when `p - v` is below the lower edge;
      a lower-edge hit is final. */
  lemma ReflectHighFirstCases(p: real, v: real, lo: real, hi: real)
    requires lo < hi
    ensures p + v > hi ==>
              (ReflectHighFirst(p, v, lo, hi) == v <==> p - v < lo || v == 0.0)
    ensures p + v > hi && p - v >= lo ==> ReflectHighFirst(p, v, lo, hi) == -v
    ensures p + v < lo ==> ReflectHighFirst(p, v, lo, hi) == -v
    ensures lo <= p + v <= hi ==> ReflectHighFirst(p, v, lo, hi) == v
  {
  }

  /** Mirror image for the y axis: after a lower-edge flip the velocity is
      flipped back exactly when `p - v` is above the upper edge. */
  lemma ReflectLowFirstCases(p: real, v: real, lo: real, hi: real)
    requires lo < hi
    ensures p + v < lo ==>
              (ReflectLowFirst(p, v, lo, hi) == v <==> p - v > hi || v == 0.0)
    ensures p + v < lo && p - v <= hi ==> ReflectLowFirst(p, v, lo, hi) == -v
    ensures p + v > hi ==> ReflectLowFirst(p, v, lo, hi) == -v
    ensures lo <= p + v <= hi ==> ReflectLowFirst(p, v, lo, hi) == v
  {
  }

  /** A coordinate inside the interval stays inside when the speed is at most
      half the interval's extent. */
  lemma ReflectHighFirstStaysIn(p: real, v: real, lo: real, hi: real)
    requires lo <= p <= hi && 2.0 * Abs(v) <= hi - lo
    ensures lo <= p + ReflectHighFirst(p, v, lo, hi) <= hi
  {
  }

  lemma ReflectLowFirstStaysIn(p: real, v: real, lo: real, hi: real)
    requires lo <= p <= hi && 2.0 * Abs(v) <= hi - lo
    ensures lo <= p + ReflectLowFirst(p, v, lo, hi) <= hi
  {
  }

  /** A particle fast enough to overshoot both edges is flipped twice and
      leaves through the upper edge: the reflection is one-shot, not a clamp. */
  lemma ReflectHighFirstOvershoot(p: real, v: real, lo: real, hi: real)
    requires lo <= p <= hi && p + v > hi && p - v < lo
    ensures p + ReflectHighFirst(p, v, lo, hi) > hi
  {
  }

  /** Projected position inside the window: velocity kept, position advanced. */
  lemma StepInsideIsTranslation(s: State, w: Rect)
    requires w.Contains(Add(s.position, s.velocity))
    ensures Step(s, w) == State(Add(s.position, s.velocity), s.velocity, s.mass)
  {
    ReflectInsideUnchanged(s.position.x, s.velocity.x, w.left, w.right);
    ReflectInsideUnchanged(s.position.y, s.velocity.y, w.bottom, w.top);
  }

  /** The new x velocity depends only on `x, vx, left, right`, and the new y
      velocity only on `y, vy, bottom, top`. */
  lemma StepAxesIndependent(s: State, t: State, w: Rect, u: Rect)
    ensures s.position.x == t.position.x && s.velocity.x == t.velocity.x
            && w.left == u.left && w.right == u.right
            ==> Step(s, w).velocity.x == Step(t, u).velocity.x
    ensures s.position.y == t.position.y && s.velocity.y == t.velocity.y
            && w.bottom == u.bottom && w.top == u.top
            ==> Step(s, w).velocity.y == Step(t, u).velocity.y
  {
  }

  /** Inside the window and slow enough to cross at most half of it per frame. */
  predicate Settled(s: State, w: Rect) {
    w.Contains(s.position)
    && 2.0 * Abs(s.velocity.x) <= w.right - w.left
    && 2.0 * Abs(s.velocity.y) <= w.top - w.bottom
  }

  /** A settled particle stays settled: it never leaves the window. */
  lemma StepKeepsSettled(s: State, w: Rect)
    requires Settled(s, w)
    ensures Settled(Step(s, w), w)
  {
    ReflectHighFirstStaysIn(s.position.x, s.velocity.x, w.left, w.right);
    ReflectLowFirstStaysIn(s.position.y, s.velocity.y, w.bottom, w.top);
  }

  /** A concrete overshoot: at the centre of a 10-wide window with speed 6 the
      particle ends outside, at x = 6. */
  lemma StepOvershootExample()
    ensures var w := Rect(-5.0, 5.0, -5.0, 5.0);
            var s := State(Vec2(0.0, 0.0), Vec2(6.0, 0.0), SpawnMass);
            Settled(s, w) == false && w.Contains(s.position)
            && Step(s, w).position == Vec2(6.0, 0.0) && !w.Contains(Step(s, w).position)
  {
  }

  // ---------------------------------------------------------------------------
  // Pairwise velocity kick

  /** Division by either coordinate difference is defined. */
  predicate Apart(a: Vec2, b: Vec2) {
    a.x != b.x && a.y != b.y
  }

  /** Velocity change `(g / dx, g / dy)` that `other` gives to a particle at `self`. */
  function Kick(self: Vec2, other: Vec2): (k: Vec2)
    requires Apart(self, other)
    ensures k.x * (self.x - other.x) == G && k.y * (self.y - other.y) == G
    ensures (k.x > 0.0 <==> self.x > other.x) && (k.y > 0.0 <==> self.y > other.y)
  {
    Vec2(G / (self.x - other.x), G / (self.y - other.y))
  }

  /** Two particles kick each other by equal and opposite amounts. */
  lemma KickAntisymmetric(a: Vec2, b: Vec2)
    requires Apart(a, b)
    ensures Kick(a, b) == Vec2(-Kick(b, a).x, -Kick(b, a).y)
  {
  }

  predicate ApartFromAll(self: Vec2, others: seq<Vec2>) {
    forall i :: 0 <= i < |others| ==> Apart(self, others[i])
  }

  /** The kicks of `others` accumulated in list order. */
  function TotalKick(self: Vec2, others: seq<Vec2>): Vec2
    requires ApartFromAll(self, others)
    decreases |others|
  {
    if others == [] then Vec2(0.0, 0.0)
    else Add(TotalKick(self, others[..|others| - 1]), Kick(self, others[|others| - 1]))
  }

  /** Accumulating over a concatenation is accumulating over each part. */
  lemma {:induction false} TotalKickAppend(self: Vec2, a: seq<Vec2>, b: seq<Vec2>)
    requires ApartFromAll(self, a) && ApartFromAll(self, b)
    ensures ApartFromAll(self, a + b)
    ensures TotalKick(self, a + b) == Add(TotalKick(self, a), TotalKick(self, b))
    decreases |b|
  {
    assert ApartFromAll(self, a + b) by {
      forall i | 0 <= i < |a + b| ensures Apart(self, (a + b)[i]) {
        if i >= |a| { assert (a + b)[i] == b[i - |a|]; }
      }
    }
    if b != [] {
      var b' := b[..|b| - 1];
      assert (a + b)[..|a + b| - 1] == a + b';
      assert (a + b)[|a + b| - 1] == b[|b| - 1];
      TotalKickAppend(self, a, b');
    } else {
      assert a + b == a;
    }
  }

  /** One more kick at the end of a prefix extends the prefix's total. */
  lemma TotalKickSnoc(self: Vec2, ps: seq<Vec2>, i: nat)
    requires ApartFromAll(self, ps) && i < |ps|
    ensures ApartFromAll(self, ps[..i]) && ApartFromAll(self, ps[..i + 1])
    ensures TotalKick(self, ps[..i + 1]) == Add(TotalKick(self, ps[..i]), Kick(self, ps[i]))
  {
    assert ps[..i + 1][..i] == ps[..i];
  }

  /** When every other particle lies to the left, the accumulated kick pushes
      to the right, strictly so when there is at least one. */
  lemma {:induction false} TotalKickAwayX(self: Vec2, others: seq<Vec2>)
    requires ApartFromAll(self, others)
    requires forall i :: 0 <= i < |others| ==> others[i].x < self.x
    ensures TotalKick(self, others).x >= 0.0
    ensures others != [] ==> TotalKick(self, others).x > 0.0
    decreases |others|
  {
    if others != [] {
      TotalKickAwayX(self, others[..|others| - 1]);
    }
  }

  /** The same on the y axis, for particles that all lie above. */
  lemma {:induction false} TotalKickAwayDown(self: Vec2, others: seq<Vec2>)
    requires ApartFromAll(self, others)
    requires forall i :: 0 <= i < |others| ==> others[i].y > self.y
    ensures TotalKick(self, others).y <= 0.0
    ensures others != [] ==> TotalKick(self, others).y < 0.0
    decreases |others|
  {
    if others != [] {
      TotalKickAwayDown(self, others[..|others| - 1]);
    }
  }

  // ---------------------------------------------------------------------------
  // The particle object

  class Particle {
    var position: Vec2
    var velocity: Vec2
    var mass: real

    function Snapshot(): State
      reads this
    {
      State(position, velocity, mass)
    }

    /** `Particle::new(x, y)`; `ux`, `uy` are the two samples it draws for the velocity. */
    constructor (x: real, y: real, ux: real, uy: real)
      ensures Snapshot() == Spawn(x, y, ux, uy)
    {
      position := Vec2(x, y);
      velocity := Vec2(SpawnSpeed(ux), SpawnSpeed(uy));
      mass := SpawnMass;
    }

    /** `apply_gravity_to_particle`: adds the kick from `other` to the velocity. */
    method ApplyGravityToParticle(other: Particle)
      requires Apart(position, other.position)
      modifies this
      ensures position == old(position) && mass == old(mass)
      ensures velocity == Add(old(velocity), Kick(position, other.position))
    {
      var dx := position.x - other.position.x;
      var dy := position.y - other.position.y;
      velocity := Add(velocity, Vec2(G / dx, G / dy));
    }

    /** `apply_gravity`: the kicks of `others`, one after another in list order. */
    method ApplyGravity(others: seq<Particle>)
      requires ApartFromAll(position, Positions(others))
      modifies this
      ensures position == old(position) && mass == old(mass)
      ensures velocity == Add(old(velocity), TotalKick(position, Positions(others)))
    {
      ghost var ps := Positions(others);
      assert forall j :: 0 <= j < |others| ==> others[j] != this by {
        forall j | 0 <= j < |others| ensures others[j] != this {
          assert Apart(position, ps[j]);
        }
      }
      var i := 0;
      while i < |others|
        invariant 0 <= i <= |others|
        invariant position == old(position) && mass == old(mass)
        invariant forall j :: 0 <= j < |others| ==> others[j].position == ps[j]
        invariant ApartFromAll(position, ps[..i])
        invariant velocity == Add(old(velocity), TotalKick(position, ps[..i]))
      {
        TotalKickSnoc(position, ps, i);
        ApplyGravityToParticle(others[i]);
        i := i + 1;
      }
      assert ps[..i] == ps;
      assert Positions(others) == ps;
    }

    /** `Particle::update`: right, bottom, left and top checks in that order,
        each on the projection with the velocity as it then stands, then the move. */
    method Update(window: Rect)
      modifies this
      ensures Snapshot() == Step(old(Snapshot()), window)
    {
      var bottom := window.bottom;
      var right := window.right;
      var left := window.left;
      var top := window.top;
      if position.x + velocity.x > right {
        velocity := Vec2(velocity.x * -1.0, velocity.y);
      }
      if position.y + velocity.y < bottom {
        velocity := Vec2(velocity.x, -1.0 * velocity.y);
      }
      if position.x + velocity.x < left {
        velocity := Vec2(velocity.x * -1.0, velocity.y);
      }
      if position.y + velocity.y > top {
        velocity := Vec2(velocity.x, -1.0 * velocity.y);
      }
      position := Add(position, velocity);
    }
  }

  /** The positions of a list of particles, in list order. */
  function Positions(ps: seq<Particle>): (r: seq<Vec2>)
    reads set p | p in ps
    ensures |r| == |ps|
    ensures forall i :: 0 <= i < |ps| ==> r[i] == ps[i].position
  {
    if ps == [] then [] else Positions(ps[..|ps| - 1]) + [ps[|ps| - 1].position]
  }
}
