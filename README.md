# Particle sketch (nannou) — Dafny model

The sketch in `src/main.rs` keeps nine particles in a window. Each particle
has a position, a velocity and a mass. On every frame, `update` steps each
particle. `Particle::update` tests the projected position `position + velocity`
against the four window edges in a fixed order: right, bottom, left, top. Each
test that fires negates one velocity component. Then the particle moves by
the velocity as it now stands. The source also has a pairwise velocity kick
(`apply_gravity_to_particle`, folded over a list by `apply_gravity`). Its only
caller is commented out, but the operation is modelled.

Layout:

- `geometry.dfy` (module `Geometry`): `Vec2` (nannou's `Vec2`/`Point2`) and
  the window rectangle `Rect`.
- `particle.dfy` (module `Particles`): the value-level specification. It has
  `State`, `Spawn`, the per-axis reflection rules, `Step`, `Kick` and
  `TotalKick`, with the lemmas about them. It also has the class `Particle`,
  whose fields `position`, `velocity` and `mass` are updated in place. Its
  methods are proved to change a particle's `Snapshot()` exactly as the
  specification functions say.
- `sketch.dfy` (module `Sketch`): the class `Model`, which owns the particle
  vector. Its constructor is `model` and `Update` is the frame `update`. The
  module also has `StepAll` and `Run`, which repeat the step over frames.

`f32` arithmetic is modelled over `real`. Division by zero in the kick is a
precondition (`Apart`). The x axis tests its upper edge first, so its rule is
`ReflectHighFirst`. The y axis tests its lower edge first, so its rule is
`ReflectLowFirst`.

Each axis is tested twice, and the second test reads the velocity that the
first may already have flipped (src/main.rs:55-66). A fast particle can
therefore be flipped back and leave the window (`ReflectHighFirstCases`,
`StepOvershootExample`). The kick is `(2/dx, 2/dy)` and ignores mass
(src/main.rs:41).

## Model

| member | source | states |
|---|---|---|
| Particles.SpawnSpeed | src/main.rs:18 | a velocity component drawn from a uniform sample in [0, 1) lies in [-5, 5), and equals sample·10 − 5 |
| Particles.SpawnCoordinate | src/main.rs:78 | a position coordinate drawn from a uniform sample in [0, 1) lies in [0, 100) |
| Particles.Spawn | src/main.rs:16-25 | a new particle sits at the given point, has mass 1.0, and each velocity component lies in [-5, 5) when its sample lies in [0, 1) |
| Particles.ReflectHighFirst | src/main.rs:55-63 | the x-axis rule (right test, then left test) only ever keeps or negates the velocity component |
| Particles.ReflectLowFirst | src/main.rs:58-66 | the y-axis rule (bottom test, then top test) only ever keeps or negates the velocity component |
| Particles.Step | src/main.rs:50-68 | one update keeps the mass, keeps the magnitude of each velocity component, and moves the particle by the final, already-reflected velocity |
| Particles.ReflectInsideUnchanged | src/main.rs:55-66 | when the projected coordinate lies within the closed edge interval, neither rule changes the velocity |
| Particles.ReflectHighFirstCases | src/main.rs:55-63 | x axis in every case: a right-edge overshoot is flipped back exactly when `x - vx < left`, otherwise stays negated; a left-edge overshoot is negated; an in-range projection is kept |
| Particles.ReflectLowFirstCases | src/main.rs:58-66 | y axis in every case: a bottom-edge overshoot is flipped back exactly when `y - vy > top`, otherwise stays negated; a top-edge overshoot is negated; an in-range projection is kept |
| Particles.ReflectHighFirstStaysIn | src/main.rs:55-67 | an x coordinate inside the window stays inside after the move if the speed is at most half the width |
| Particles.ReflectLowFirstStaysIn | src/main.rs:58-67 | a y coordinate inside the window stays inside after the move if the speed is at most half the height |
| Particles.ReflectHighFirstOvershoot | src/main.rs:55-67 | a particle whose speed overshoots both x edges is flipped twice and ends beyond the right edge: reflection is not a clamp |
| Particles.StepInsideIsTranslation | src/main.rs:55-67 | when the projected position is inside the window, velocity and mass are unchanged and the new position is position + velocity |
| Particles.StepAxesIndependent | src/main.rs:55-66 | the new vx depends only on x, vx, left and right; the new vy depends only on y, vy, bottom and top |
| Particles.StepKeepsSettled | src/main.rs:50-68 | a particle inside the window, with speed at most half the window's extent on each axis, is still so after an update |
| Particles.StepOvershootExample | src/main.rs:50-68 | concretely: at the centre of a 10-wide window with vx = 6, the particle ends at x = 6, outside the window |
| Particles.Kick | src/main.rs:36-42 | the kick on each axis times the separation on that axis is g = 2, and the kick is positive exactly when self lies beyond the other particle on that axis (it pushes away) |
| Particles.KickAntisymmetric | src/main.rs:37-41 | two particles kick each other by equal and opposite amounts |
| Particles.TotalKickAppend | src/main.rs:44-48 | the kicks accumulated over a concatenated list equal the sum of the kicks accumulated over each part |
| Particles.TotalKickAwayX | src/main.rs:44-48 | if every other particle lies to the left, the accumulated x kick is non-negative, and positive when the list is non-empty |
| Particles.TotalKickAwayDown | src/main.rs:44-48 | if every other particle lies above, the accumulated y kick is non-positive, and negative when the list is non-empty |
| Particles.Particle.constructor | src/main.rs:16-25 | `Particle::new` gives a particle whose fields are `Spawn` of its inputs |
| Particles.Particle.ApplyGravityToParticle | src/main.rs:36-42 | adds exactly `Kick(position, other.position)` to the velocity and leaves position and mass unchanged; requires nonzero dx and dy |
| Particles.Particle.ApplyGravity | src/main.rs:44-48 | applies the kicks of the list one after another in list order; the velocity gains their accumulated sum; position and mass are unchanged |
| Particles.Particle.Update | src/main.rs:50-68 | the four checks in source order, then the move, leave the particle's fields equal to `Step` of its old fields and the window |
| Sketch.InitialStates | src/main.rs:75-81 | `model` yields exactly 9 particles; particle i is spawned from samples 4i to 4i+3 of the random stream, in call order |
| Sketch.StepAll | src/main.rs:88-90 | one frame keeps the number and order of particles and steps each one once against the same window |
| Sketch.StepAllKeepsSettled | src/main.rs:88-90 | one frame keeps every settled particle inside the window |
| Sketch.RunKeepsSettled | src/main.rs:83-91 | any number of frames against a fixed window keeps every settled particle inside it |
| Sketch.RunKeepsMass | src/main.rs:83-91 | no number of frames changes the particle count or any particle's mass |
| Sketch.RunFreeFlight | src/main.rs:83-91 | while the straight-line path stays in the window, n frames move a particle by n times its unchanged velocity |
| Sketch.InitialStatesSettled | src/main.rs:75-81 | with samples in [0, 1), every spawned particle starts settled in any window covering [0, 100] × [0, 100], so with `RunKeepsSettled` it never leaves that window |
| Sketch.Model.constructor | src/main.rs:75-81 | the model owns nine distinct, freshly allocated particles, whose fields are `InitialStates` of the sample stream, so the new model can be stepped at once |
| Sketch.Model.Update | src/main.rs:83-91 | the vector itself is untouched, and the particles' fields become `StepAll` of their old fields with the given window |

## Left out

- Rendering (`display`, `view`, the background colour, `draw.to_frame`) and the app wiring in `main` are drawing calls with no state to model.
- The window rectangle comes from `_app.window_rect()` on every frame. Here it is a parameter of `Update`. `Run` keeps it fixed across frames, while the real window can be resized between frames.
- `random_f32` is the sequence of samples passed to the `Model` constructor, four per particle, in the order the source draws them.
- `f32` rounding, overflow, infinities and NaN are not modelled. Arithmetic is over `real`. In particular, `TotalKick` sums in list order, but over `real` that order cannot affect the result, while over `f32` it can.
- Division by zero in `apply_gravity_to_particle` is a precondition. The source divides without a guard and would produce an infinity or NaN.
- The `sqrt` distance at src/main.rs:40 is computed and never used.
- The gravity pass in `update` is commented out (src/main.rs:84-87), so `Model.Update` does not call `ApplyGravity`. As written, that pass would not compile: `iter_mut()` holds a mutable borrow of the vector while the closure also borrows it. Rust's `&mut self` beside `&Vec<Particle>` keeps a particle out of its own list of others; the model obtains the same from `Apart`, which `ApplyGravity` requires.
- Sketch.Model.Update: requires that the vector's particles are distinct objects. This stands for the vector owning its elements, which in Rust is guaranteed by ownership.
