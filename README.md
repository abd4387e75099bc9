# Mini-golf simulation core in Dafny

This project models the simulation core of a small SFML mini-golf game, and proves properties of that model. The game's parts are:

- **The ball.** It is dragged with the mouse and launched slingshot-style on release. Friction slows it, a slow ball snaps to rest, and it bounces off axis-aligned rectangular obstacles. A circle-against-box response pushes it out of the box and reflects its velocity with damping. An earlier revision of the ball instead keeps it in a 600×600 box and bounces it off the walls at half speed.
- **Obstacles.** They are static rectangles centred on their position.
- **The obstacle generator.** When the ball has travelled more than 500 units since the last batch, it scatters one to three random candidates ahead of the ball. A candidate is kept only if it is far enough from the ball and clear of every existing obstacle's bounds grown by 20. The generator stops at a cap of 30 obstacles.
- **The physics system.** It gives every entity one update per frame, then collides the ball with each obstacle in list order.
- **Particles.** Each particle ages, falls a little, is slowed by drag and shrinks with its remaining lifetime. The particle system appends bursts of particles and removes dead ones stably, so the survivors keep their order.
- **The current game** (`src/core/Game.cpp`). It picks a standard aspect ratio nearest the window's, with ties going to the earlier table entry. It zooms out to 0.8 for 16:9 and sizes the view from the original window height. Each frame runs: physics, then particles, then obstacle generation, then collisions, then the camera. It lays out a checkerboard of 50-unit tiles, five tiles beyond each edge of the view.
- **The earlier game** (`src/Game.cpp`). It offers each mouse event to the entities in list order until one handles it, so the first consumer wins. Each frame it updates every entity and then runs the collision pass.

## How the model is built

Floats are `real`. Random numbers are parameters, each constrained to its distribution's range. `std::sqrt` is a parameter `sqrt: real -> real`; the lemmas that need its exact value require `Geometry.IsSqrt(sqrt)`, which says `sqrt(t) >= 0` and `sqrt(t)² = t` for `t >= 0`. The source's `std::hypot(d) < k` and `> k` comparisons are stated on squared distances; `ObstacleGen.HypotComparisons` proves the two forms equivalent.

Objects whose fields the source updates in place are classes:

- `Balls.Ball`, `LegacyBalls.LegacyBall`, `Particles.Particle`
- `ParticleSystems.ParticleSystem`, `ObstacleGen.ObstacleGenerator`
- `CoreGame.Game`, `LegacyGame.LegacyGame`

Each class has a pure specification beside it:

- a state datatype;
- a function per operation;
- the lemmas about those functions.

Each method's `ensures` ties the new state to the function applied to the old state.

The entity list is a `seq<Entity>` in which:

- a ball is an object;
- an obstacle is a value, because it never changes after construction.

`Entities.Distinct` says no ball object appears twice; in the source each entity is owned by its own `unique_ptr`.

Files, one module each:

- `geometry.dfy`: vectors, rectangles, and `sf::Rect::contains`. Also C++ truncating casts and `%`.
- `obstacle.dfy`: `src/entities/Obstacle.cpp`.
- `ball.dfy`: `src/entities/Ball.cpp`.
- `legacy_ball.dfy`: `src/Ball.cpp`.
- `entities.dfy`: the entity list, `findBall`, `findObstacles` and the first-consumer rule.
- `physics.dfy`: `src/systems/PhysicsSystem.cpp`.
- `particle.dfy`: `src/entities/Particle.cpp`.
- `particle_system.dfy`: `src/systems/ParticleSystem.cpp`.
- `obstacle_generator.dfy`: `src/systems/ObstacleGenerator.cpp`.
- `core_game.dfy`: `src/core/Game.cpp`.
- `legacy_game.dfy`: `src/Game.cpp`.

Four behaviours of the code worth knowing:

- **The cap.** The generator checks the obstacle cap once, before a batch. A batch started at 29 obstacles can therefore end at 32. `ObstacleGen.CapCanBeExceeded` exhibits this and `ObstacleGen.CountBound` proves 32 is the most.
- **Overlap within a batch.** Every candidate of a batch is checked against the obstacles that existed before the batch only. Two obstacles of one batch can therefore overlap (`ObstacleGen.BatchMayOverlap`).
- **The bounce factor.** The reflection `v − 2(v·n)n·0.8` multiplies the normal velocity component by −0.6, not by −0.8 (`Balls.ReflectComponents`, `Balls.WallScenario`).
- **A zero window height.** It makes the float ratio infinite or NaN. No table entry is then nearer than `FLT_MAX`, and the default 16:9 is chosen (`CoreGame.ZeroHeightGetsDefault`).

## Model

| member | source | states |
|---|---|---|
| Geometry.Clamp | src/entities/Ball.cpp:174-175 | `max(lo, min(x, hi))` lies in [lo, hi], is x inside the range, lo below it and hi above it |
| Geometry.ContainsPositiveSize | src/entities/Ball.cpp:69 | for a box of non-negative size, `contains` is the half-open test lo <= p < lo + size on both axes |
| Geometry.NormalIsUnit | src/entities/Ball.cpp:184-185 | dividing by the true length, or the (0, −1) fallback for a zero length, gives a unit vector |
| Geometry.SqrtOfSquare | src/entities/Ball.cpp:184 | the square root of a² is a for a >= 0 |
| Geometry.TruncToInt | src/core/Game.cpp:275-278 | `static_cast<int>` rounds toward zero: within one below (positive) or above (negative) the value |
| Geometry.CppRemTwoParity | src/core/Game.cpp:284 | C++ `n % 2 == 0` holds exactly for even n, negative n included |
| Obstacles.New | src/entities/Obstacle.cpp:3-8 | position, size and colour are the given ones and the origin is half the size |
| Obstacles.NewBoundsCentred | src/entities/Obstacle.cpp:27-28 | the bounds are the box (position − size/2, size), so their size is the given size |
| Obstacles.CentreInsideBounds | src/entities/Obstacle.cpp:5-7 | with a positive size the centre lies strictly inside the bounds |
| Obstacles.ColorIrrelevant | src/entities/Obstacle.cpp:6 | the colour has no effect on the bounds |
| Balls.InitialState | src/entities/Ball.cpp:6-25 | a new ball is at (300, 300), at rest, not dragging, with friction 0.99 and the given radius, and satisfies the invariant |
| Balls.StepWhileDragging | src/entities/Ball.cpp:27-46 | an update while dragging changes neither position nor velocity and keeps the drag |
| Balls.FreeStep | src/entities/Ball.cpp:30-38 | a free update sets v' = 0.99·v, or zero when both components are below 1 in size, then moves by v'·dt; afterwards v' = 0 or some component is at least 1 in size |
| Balls.PressSemantics | src/entities/Ball.cpp:68-85 | a press is handled exactly when inside the ideal square (position − r, 2r); then it starts a drag from the ball's position and zeroes the velocity; otherwise nothing changes |
| Balls.ReleaseSemantics | src/entities/Ball.cpp:87-102 | a release is handled exactly while dragging; then the drag ends and the velocity is (position − mouse)·2.5; otherwise nothing changes |
| Balls.MoveSemantics | src/entities/Ball.cpp:104-116 | a move is handled exactly while dragging, sets the cursor and line end then, and never changes position, velocity or drag state |
| Balls.DeclinedIsNoOp | src/entities/Ball.cpp:68-116 | an event a ball declines leaves it exactly as it was |
| Balls.InvPreserved | src/entities/Ball.cpp:27-203 | update, each handler and a collision keep the invariant that the line starts at the ball, a dragged ball is at rest and friction is 0.99 |
| Balls.ClosestPointIsNearest | src/entities/Ball.cpp:174-175 | the clamped point lies in the obstacle's box and no point of the box is nearer the centre |
| Balls.MissIsNoOp | src/entities/Ball.cpp:154-182 | a ball at rest, or one whose squared distance to the closest point exceeds r², is unchanged |
| Balls.HitNormalIsUnit | src/entities/Ball.cpp:184-185 | the collision normal has unit length |
| Balls.ReflectComponents | src/entities/Ball.cpp:195-198 | `v − 2(v·n)n·0.8` for unit n multiplies the normal component by −0.6, keeps the tangential one, and does not increase the speed |
| Balls.HitRestoresContact | src/entities/Ball.cpp:184-189 | on a hit with positive distance the new centre is exactly r from the closest point |
| Balls.HitResponse | src/entities/Ball.cpp:192-198 | on a hit the velocity's normal component is scaled by −0.6, its tangential part is kept, and the speed does not grow |
| Balls.CollideSpeed | src/entities/Ball.cpp:152-203 | a collision check never increases the speed |
| Balls.PushOutKeepsClosestPoint | src/entities/Ball.cpp:174-189 | pushing the ball out along the normal does not change the closest point of the box |
| Balls.PushOut | src/entities/Ball.cpp:188-189 | moving by the normal times the overlap puts the centre at cp + (p − cp)·r/d |
| Balls.ContactIsFixed | src/entities/Ball.cpp:182-189 | a ball exactly one radius from the box is not moved by a collision check |
| Balls.ContactPositionIsStable | src/entities/Ball.cpp:152-203 | after a hit, checking the same obstacle again does not move the ball further |
| Balls.ContactOnLeftFace | src/entities/Ball.cpp:174-198 | a moving ball touching a box's left face stays put and its x velocity becomes −0.6 times the old one |
| Balls.WallScenario | src/entities/Ball.cpp:152-203 | a radius-20 ball at (300, 300) moving at (100, 0) against a face at x = 320 ends at x = 300 moving at (−60, 0) |
| Balls.SeparatingContactIsReflected | src/entities/Ball.cpp:182-198 | the test ignores the direction of motion: a touching ball moving away is still reflected back |
| Balls.PressScenario | src/entities/Ball.cpp:68-85 | a press at a new ball's centre starts a drag there |
| Balls.LaunchScenario | src/entities/Ball.cpp:87-102 | releasing that drag at (200, 300) launches the ball at (250, 0) |
| Balls.LaunchedBallStep | src/entities/Ball.cpp:27-46 | a ball at (300, 300) moving at (250, 0) is at (547.5, 300) moving at (247.5, 0) after one second |
| Balls.RestingBallUnaffected | src/systems/PhysicsSystem.cpp:21-23 | the whole collision pass leaves a ball at rest unchanged |
| Balls.CollideAllSpeed | src/systems/PhysicsSystem.cpp:21-23 | the collision pass over any obstacles never increases the speed |
| Balls.CollideAllInv | src/systems/PhysicsSystem.cpp:21-23 | the collision pass keeps the invariant and the drag state, and leaves a dragged ball untouched |
| Balls.CollideOnHit | src/entities/Ball.cpp:184-202 | a hit sets the position to the pushed-out point, the velocity to the reflected one, and the line start to the new position |
| Balls.Ball.constructor | src/entities/Ball.cpp:6-25 | the fields are those of the initial state |
| Balls.Ball.Update | src/entities/Ball.cpp:27-46 | the new fields are `Step` of the old ones |
| Balls.Ball.HandleMousePress | src/entities/Ball.cpp:68-85 | the new fields and the returned flag are `PressBall` of the old fields |
| Balls.Ball.HandleMouseRelease | src/entities/Ball.cpp:87-102 | the new fields and the returned flag are `ReleaseBall` of the old fields |
| Balls.Ball.HandleMouseMove | src/entities/Ball.cpp:104-116 | the new fields and the returned flag are `MoveBall` of the old fields |
| Balls.Ball.CheckCollision | src/entities/Ball.cpp:152-203 | the new fields are `Collide` of the old ones with the obstacle |
| Balls.Bounce | src/entities/Ball.cpp:184-202 | the pushed-out position and reflected velocity computed step by step are those of `Collide` |
| Balls.Respond | src/entities/Ball.cpp:185-198 | the offset divided by the distance (straight up at distance 0) is the unit normal `Normal`; the position moves out along it by the overlap and the velocity is `Reflect` about it |
| LegacyBalls.ClampAxisCases | src/Ball.cpp:26-41 | with r <= 300, a coordinate below r goes to r, one above 600 − r goes to 600 − r, each with its velocity component times −0.5, and one in range is kept with its velocity |
| LegacyBalls.OversizedBallBouncesTwice | src/Ball.cpp:26-41 | a ball wider than the box hits both walls in one update: the component is multiplied by 0.25 |
| LegacyBalls.StepWhileDragging | src/Ball.cpp:19-47 | an update while dragging changes neither position nor velocity |
| LegacyBalls.FreeStepInsideBox | src/Ball.cpp:21-22 | a free update applies v' = 0.99·v before moving by v'·dt, which is the whole update when the ball stays inside the box |
| LegacyBalls.FreeStepStaysInBox | src/Ball.cpp:26-41 | with r <= 300, after a free update both coordinates lie in [r, 600 − r], and a component is negated and halved exactly when its coordinate was clamped |
| LegacyBalls.PressSemantics | src/Ball.cpp:58-65 | a press inside the ideal square (position − r, 2r) starts a drag and zeroes the velocity; otherwise nothing changes |
| LegacyBalls.ReleaseSemantics | src/Ball.cpp:67-80 | a release while dragging ends the drag with velocity (position − mouse)·2.5; otherwise nothing changes |
| LegacyBalls.MoveSemantics | src/Ball.cpp:82-88 | a move changes only the cursor and the line end, and only while dragging |
| LegacyBalls.InvPreserved | src/Ball.cpp:19-88 | the earlier ball's update and handlers keep the same invariant |
| LegacyBalls.HandlersAgreeWithCurrentBall | src/Ball.cpp:58-88 | both revisions' handlers agree on everything but the drag line |
| LegacyBalls.LegacyBall.constructor | src/Ball.cpp:3-17 | the fields are those of the initial state |
| LegacyBalls.LegacyBall.Update | src/Ball.cpp:19-47 | the new fields are the clamped `Step` of the old ones |
| LegacyBalls.LegacyBall.HandleMousePress | src/Ball.cpp:58-65 | the new fields are `Press` of the old ones |
| LegacyBalls.LegacyBall.HandleMouseRelease | src/Ball.cpp:67-80 | the new fields are `Release` of the old ones |
| LegacyBalls.LegacyBall.HandleMouseMove | src/Ball.cpp:82-88 | the new fields are `Move` of the old ones |
| Entities.FirstBallIndex | src/core/Game.cpp:245-251 | the index is a ball with no ball before it, or the end of the list when there is no ball |
| Entities.FindBall | src/core/Game.cpp:245-251 | findBall returns the first ball in list order, and null exactly when there is none |
| Entities.ObstaclesOf | src/core/Game.cpp:253-260 | the filter contains exactly the list's obstacles and is no longer than the list |
| Entities.ObstaclesOfAppend | src/core/Game.cpp:253-260 | the filter distributes over concatenation, so it keeps list order |
| Entities.FindObstacles | src/core/Game.cpp:253-260 | findObstacles returns the obstacles of the list, in order |
| Entities.ObstaclesOfAsEntities | src/systems/ObstacleGenerator.cpp:70-71 | pushed obstacles are found again exactly, and they add no ball |
| Entities.DistinctAfterAppend | src/systems/ObstacleGenerator.cpp:71 | appending obstacles keeps every ball listed once |
| Entities.FirstConsumer | src/Game.cpp:40-44 | the consumer accepts the event and every entity before it declines; with no consumer, every entity declines |
| Entities.DeclinedOfferIsNoOp | src/Game.cpp:40-44 | an entity that declines an event is unchanged by it |
| Entities.DeliverSemantics | src/Game.cpp:40-70 | only the first consumer changes, as its handler says; earlier entities declined, later ones never see the event, and with no consumer nothing changes |
| Entities.HandleEvent | src/Game.cpp:40-70 | one entity's handler result and new state are those of `Offer`, and an obstacle declines |
| Physics.UpdateEntity | src/systems/PhysicsSystem.cpp:12-14 | a ball's update is `Step`; an obstacle's update changes nothing |
| Physics.Update | src/systems/PhysicsSystem.cpp:10-15 | every ball of the list takes exactly one step |
| Physics.CheckCollisions | src/systems/PhysicsSystem.cpp:17-23 | with no ball nothing happens; otherwise the ball's state is the fold of `Collide` over the obstacles in order |
| Particles.Steps | src/entities/Particle.cpp:21-45 | repeated updates keep the initial lifetime and the size |
| Particles.NewParticle | src/entities/Particle.cpp:4-15 | both lifetimes equal the given lifetime, the radius is the size, and the particle is alive exactly when the lifetime is positive |
| Particles.StepSemantics | src/entities/Particle.cpp:21-30 | an update lowers the lifetime by exactly dt, moves by the old velocity·dt, and sets velocity 0.98·(vx, vy + 50·dt) |
| Particles.LifeScaleRange | src/entities/Particle.cpp:42 | the scale 0.8 + 0.2·remaining/initial lies in [0.8, 1]; it is 1 at full life and 0.8 when exhausted |
| Particles.LifeScaleMonotone | src/entities/Particle.cpp:42-44 | less remaining lifetime gives a smaller scale |
| Particles.StepRadiusRange | src/entities/Particle.cpp:42-44 | after an update within the lifetime, the radius lies between 0.8 and 1 times the size |
| Particles.StepsLifetime | src/entities/Particle.cpp:23 | n updates of length dt lower the lifetime by n·dt |
| Particles.DiesEventually | src/entities/Particle.cpp:21-23 | with a positive frame time, a particle is dead after ⌊remaining/dt⌋ + 1 updates |
| Particles.Particle.constructor | src/entities/Particle.cpp:4-15 | the fields are those of `New` |
| Particles.Particle.Update | src/entities/Particle.cpp:21-45 | the new fields are `Step` of the old ones |
| Particles.Particle.Draw | src/entities/Particle.cpp:47-51 | the particle is drawn exactly when it is alive |
| ParticleSystems.SpawnAllAppend | src/systems/ParticleSystem.cpp:24-38 | two bursts one after the other append the same particles as one burst of all their draws |
| ParticleSystems.StepAllAppend | src/systems/ParticleSystem.cpp:124-126 | updating a list is updating each of its parts: no particle's update depends on another |
| ParticleSystems.StepAllLifetimes | src/entities/Particle.cpp:21-23 | an update keeps every particle well formed, lowers every remaining lifetime by exactly dt and keeps every initial lifetime |
| ParticleSystems.SurvivorsAppend | src/systems/ParticleSystem.cpp:129-133 | the removal distributes over concatenation, so survivors keep their relative order |
| ParticleSystems.SurvivorsExactlyAlive | src/systems/ParticleSystem.cpp:129-133 | after removal every particle is alive, every living particle remains, and nothing is added |
| ParticleSystems.SurvivorsIdempotent | src/systems/ParticleSystem.cpp:129-133 | removing the dead particles twice removes nothing more |
| ParticleSystems.SurvivorsOfAlive | src/systems/ParticleSystem.cpp:129-133 | a list of living particles is kept as it is |
| ParticleSystems.TrailCountRange | src/systems/ParticleSystem.cpp:81-82 | min(2 + trunc(speed/50), 5) is in [2, 5] for speed >= 0, 2 below 50 and 5 from 150; from −100 down no iteration runs, and from −150 down the count is negative |
| ParticleSystems.RotationKeepsLength | src/systems/ParticleSystem.cpp:156-161 | the rotation matrix with cos² + sin² = 1 keeps the length |
| ParticleSystems.ConeBaseIsUnit | src/systems/ParticleSystem.cpp:152-153 | the normalised base, (0, −1) for a zero base, has unit length |
| ParticleSystems.ConeDirectionIsUnit | src/systems/ParticleSystem.cpp:143-163 | a cone direction has unit length, and a zero base gives the rotated (0, −1) |
| ParticleSystems.SpawnedParticle | src/systems/ParticleSystem.cpp:26-37 | a spawned particle moves at the drawn speed from the position plus the drawn offset, with the drawn lifetime and size, and is alive for a positive lifetime |
| ParticleSystems.SpawnedSpeed | src/systems/ParticleSystem.cpp:31-32 | a speed drawn in [lo, hi] gives a velocity whose length is in [lo, hi] |
| ParticleSystems.CollisionBurst | src/systems/ParticleSystem.cpp:11-39 | collision particles start at the point, alive, with speed in [50, 150] and radius in [1.5, 3.5] |
| ParticleSystems.MovementBurst | src/systems/ParticleSystem.cpp:41-77 | movement particles start at the ball, alive, with speed in [20, 80] and radius in [2, 4] |
| ParticleSystems.TrailBurst | src/systems/ParticleSystem.cpp:79-120 | trail particles start within 5 of the position on each axis, alive, with speed in [10, 30] |
| ParticleSystems.ParticleSystem.constructor | src/systems/ParticleSystem.cpp:5-9 | the system starts empty |
| ParticleSystems.ParticleSystem.Update | src/systems/ParticleSystem.cpp:122-134 | the new particles are the survivors of every old particle stepped once, in order, and no particle is new |
| ParticleSystems.ParticleSystem.UpdateEach | src/systems/ParticleSystem.cpp:124-126 | every particle is stepped exactly once |
| ParticleSystems.ParticleSystem.RemoveDead | src/systems/ParticleSystem.cpp:129-133 | the list becomes the living particles, in their order |
| ParticleSystems.ParticleSystem.Spawn | src/systems/ParticleSystem.cpp:24-38 | one fresh particle per draw is appended in order, and the existing particles are untouched |
| ParticleSystems.ParticleSystem.CreateCollisionParticles | src/systems/ParticleSystem.cpp:11-39 | 8 to 12 particles along the normal are appended, and the existing particles are untouched |
| ParticleSystems.ParticleSystem.CreateMovementParticles | src/systems/ParticleSystem.cpp:41-77 | 15 to 20 particles against the direction are appended, and the existing particles are untouched |
| ParticleSystems.ParticleSystem.CreateTrailParticles | src/systems/ParticleSystem.cpp:79-120 | min(2 + trunc(speed/50), 5) particles, or none when that is negative, are appended, and the existing particles are untouched |
| ParticleSystems.ParticleSystem.Draw | src/systems/ParticleSystem.cpp:136-141 | the drawn particles are the living ones, in order |
| ObstacleGen.HypotComparisons | src/systems/ObstacleGenerator.cpp:85-88 | `hypot > d` and `hypot < d` agree with the squared comparisons |
| ObstacleGen.CandidateBoxIsBounds | src/systems/ObstacleGenerator.cpp:91-94 | the candidate's box is the bounds of the obstacle built from it |
| ObstacleGen.CandidateSizeRange | src/systems/ObstacleGenerator.cpp:57-63 | one side is a draw in [40, 120] and the other a halved draw in [20, 60], by orientation |
| ObstacleGen.AcceptedLength | src/systems/ObstacleGenerator.cpp:51-73 | a batch adds at most as many obstacles as it drew candidates |
| ObstacleGen.AcceptedAreValid | src/systems/ObstacleGenerator.cpp:51-73 | each added obstacle comes from a candidate valid against the input list; it lies in the region, has the sizes above, and has one of the three colours |
| ObstacleGen.AllKept | src/systems/ObstacleGenerator.cpp:51-73 | when every candidate is valid, all are added in draw order |
| ObstacleGen.BatchMayOverlap | src/systems/ObstacleGenerator.cpp:69 | two equal candidates of one batch are both kept and intersect |
| ObstacleGen.CapCanBeExceeded | src/systems/ObstacleGenerator.cpp:22 | a batch started at 29 obstacles can end at 32 |
| ObstacleGen.CountBound | src/systems/ObstacleGenerator.cpp:22-39 | below the cap a batch of at most three leaves at most 32 obstacles |
| ObstacleGen.KeptIsClearOfBall | src/systems/ObstacleGenerator.cpp:85-88 | a kept obstacle is clear of a ball of radius at most 20 at the ball position, so it is never hit at once |
| ObstacleGen.NotDueAtReference | src/systems/ObstacleGenerator.cpp:125-129 | no generation is due at the reference point itself |
| ObstacleGen.ObstaclesAfterBatch | src/systems/ObstacleGenerator.cpp:70-71 | after a batch findObstacles sees the old obstacles followed by the new ones |
| ObstacleGen.BallsAfterBatch | src/systems/ObstacleGenerator.cpp:70-71 | a batch adds no ball, and the first ball stays first |
| ObstacleGen.ObstacleGenerator.constructor | src/systems/ObstacleGenerator.cpp:7-16 | the last generation point starts at (0, 0); distance 500, minimum 100 and cap 30 are constants |
| ObstacleGen.ObstacleGenerator.ShouldGenerateObstacles | src/systems/ObstacleGenerator.cpp:125-129 | due exactly when the distance from the last generation point exceeds 500, strictly |
| ObstacleGen.ObstacleGenerator.IsValidObstaclePosition | src/systems/ObstacleGenerator.cpp:79-119 | valid exactly when not closer than 100 + ballRadius to the ball and clear of each existing box padded by 20, touching counting as intersecting |
| ObstacleGen.ObstacleGenerator.UpdateLastGenerationPosition | src/systems/ObstacleGenerator.cpp:121-123 | the reference point becomes the given position |
| ObstacleGen.ObstacleGenerator.GenerateObstacles | src/systems/ObstacleGenerator.cpp:18-77 | at the cap nothing changes; otherwise the kept candidates are appended in draw order and the ball position becomes the reference point |
| CoreGame.WindowAspect | src/core/Game.cpp:42 | there is a ratio exactly when the height is not zero, and ratio·height = width |
| CoreGame.ArgMin | src/core/Game.cpp:88-94 | the index has the least difference, and every earlier entry is strictly worse |
| CoreGame.NameOf | src/core/Game.cpp:49-54 | the name is "" or the name of some table entry |
| CoreGame.Zoom | src/core/Game.cpp:56-60 | the zoom factor is 0.8 or 1.0 |
| CoreGame.ZoomFor | src/core/Game.cpp:49-60 | the zoom factor of a ratio is 0.8 or 1.0 |
| CoreGame.FindClosestAspectRatio | src/core/Game.cpp:84-97 | the result is `ClosestRatio` of the target |
| CoreGame.SearchClosest | src/core/Game.cpp:85-94 | the accumulator loop computes the earliest nearest entry, or 16:9 when none is below `FLT_MAX` |
| CoreGame.FindRatioName | src/core/Game.cpp:49-54 | the loop with break returns the first entry within 0.01 |
| CoreGame.ComputeViewSize | src/core/Game.cpp:42-64 | the view is `ViewSize` of the original height and the ratio chosen for the window |
| CoreGame.ViewSizeFor | src/core/Game.cpp:49-64 | naming, zoom lookup and division give `ViewSize` |
| CoreGame.ClosestIsStandard | src/core/Game.cpp:84-97 | the chosen ratio is always one of the five table ratios |
| CoreGame.ClosestIsNearestEarliest | src/core/Game.cpp:88-94 | for any unsigned window with nonzero height, the chosen ratio is nearest the window's, and ties go to the earliest entry |
| CoreGame.ZeroHeightGetsDefault | src/core/Game.cpp:42-45 | a zero-height window gets 16:9 |
| CoreGame.StandardRatiosNamed | src/core/Game.cpp:16-22 | each table ratio is named by its own entry |
| CoreGame.StandardZoom | src/core/Game.cpp:25-31 | only the 16:9 entry has zoom 0.8; the rest have 1.0 |
| CoreGame.ZoomRule | src/core/Game.cpp:49-60 | the zoom is 0.8 exactly when the chosen ratio is 16:9, and 1.0 otherwise |
| CoreGame.ViewAspectIsRatio | src/core/Game.cpp:63-64 | the view's width over its height is the chosen ratio |
| CoreGame.Row | src/core/Game.cpp:282-288 | a row has one tile per column of the range, left to right |
| CoreGame.RowsContents | src/core/Game.cpp:281-288 | every tile of the range is drawn, and only those |
| CoreGame.Checkerboard | src/core/Game.cpp:284-285 | a tile is light green exactly when row + column is even, and neighbours differ |
| CoreGame.TilesCoverView | src/core/Game.cpp:268-278 | the drawn range covers the view with at least four whole tiles to spare on each side |
| CoreGame.TruncBounds | src/core/Game.cpp:275-278 | truncation moves an edge's tile index by less than one |
| CoreGame.DrawTiles | src/core/Game.cpp:281-293 | the nested loops produce the rows top to bottom, each left to right, bounds inclusive |
| CoreGame.Place | src/systems/ObstacleGenerator.cpp:25-32 | a draw relative to the ball is in range exactly when its placed version is in the ball's region |
| CoreGame.Placed | src/systems/ObstacleGenerator.cpp:25-32 | every placed draw is in the ball's generation region |
| CoreGame.AfterGenerationAppends | src/core/Game.cpp:157-159 | generation only appends obstacles: the old list is a prefix, no ball is added, the first ball stays first, and at most 32 obstacles result; when not due the list is unchanged |
| CoreGame.Game.constructor | src/core/Game.cpp:33-82 | empty list, original size, the chosen view size, the view centred at half its size, and fresh, empty systems |
| CoreGame.Game.AddEntity | src/core/Game.cpp:113-129 | the entity is appended and the view is unchanged |
| CoreGame.Game.HandleResize | src/core/Game.cpp:196-243 | the view size is recomputed from the original height and the new window, and the centre is kept |
| CoreGame.Game.Update | src/core/Game.cpp:143-169 | physics, then particles; then, with a ball, generation when due, the collision fold over all obstacles including new ones, and the camera at the pre-collision position; with no ball nothing else changes |
| CoreGame.Game.StepWorld | src/core/Game.cpp:145-148 | every ball steps once, and the particles are stepped and pruned |
| CoreGame.Game.FollowBall | src/core/Game.cpp:151-167 | generation when due, then the collision fold, then the camera at the ball's earlier position |
| CoreGame.Game.GenerationStep | src/core/Game.cpp:157-160 | when the ball is due, the list gains the accepted batch and the generator remembers the ball position; otherwise nothing changes; the balls stay distinct |
| CoreGame.Game.DrawBackground | src/core/Game.cpp:262-293 | the tiles drawn are exactly those of the view's range |
| LegacyGame.DeliverKeepsObstacles | src/Game.cpp:40-70 | delivery keeps the length, only a ball consumes, and obstacles are unchanged |
| LegacyGame.NonMouseEventsIgnored | src/Game.cpp:26-73 | closing, a press without the left button, and other events change no entity |
| LegacyGame.HandledUpToFirstClose | src/Game.cpp:27-31 | once the first close is handled, pollEvent reports no further event: the handled prefix ends exactly there |
| LegacyGame.EventsAfterCloseIgnored | src/Game.cpp:27-31 | events queued behind a close are never handled, whatever they are |
| LegacyGame.ReplayKeepsObstacles | src/Game.cpp:26-73 | a queue of events keeps the length and the obstacles, and changes nothing in a list without a ball |
| LegacyGame.LegacyGame.constructor | src/Game.cpp:5-10 | the game starts running, with its window open and an empty list |
| LegacyGame.LegacyGame.AddEntity | src/Game.cpp:22-24 | the entity is appended |
| LegacyGame.LegacyGame.Dispatch | src/Game.cpp:40-44 | the loop stops at the first consumer and returns its index; the new snapshot is `Deliver` of the old |
| LegacyGame.LegacyGame.ProcessEvent | src/Game.cpp:27-71 | closing closes the window and stops the game, and mouse events are dispatched as `Apply` says |
| LegacyGame.LegacyGame.ProcessEvents | src/Game.cpp:26-73 | an open window's queue is handled in order up to and including the first close, which is `Replay` of that prefix; a closed window handles nothing; the window closes and the game stops exactly when a handled event closes it |
| LegacyGame.LegacyGame.Update | src/Game.cpp:75-82 | every ball steps, then the first ball is collided with every obstacle |
| LegacyGame.LegacyGame.CheckCollisions | src/Game.cpp:94-103 | with no ball nothing happens; otherwise the first ball is folded over the obstacles and other balls are untouched |

## Left out

- Rendering is not modelled, apart from which particles and tiles are drawn. This covers every `draw`/`drawShadow` body, `Game::render`, the tile shape, `Ball::updateArrowHead` (src/entities/Ball.cpp:118-146) and all SFML window and view calls.
- The window and input plumbing is not modelled: `Game::run` and its clock (src/Game.cpp:12-20, src/core/Game.cpp:103-111), the window itself apart from its open flag (`LegacyGame.LegacyGame.windowOpen`), `src/main.cpp`, the InputHandler used by `src/core/Game.cpp:131-140`, and `src/utils/ResourceManager.hpp`. The dispatch rule is modelled from `src/Game.cpp`.
- `sf::Mouse::isButtonPressed` and `sf::Mouse::getPosition` become fields of the window event (`leftHeld`, `mouse`).
- The ball's collision and movement callbacks (src/core/Game.cpp:115-126) are not declared by the ball class, so they are not modelled. The current game therefore creates no particles from collisions. The create* functions are modelled on their own.
- The random number generators and their time seeds are not modelled. Each draw is a parameter in the closed range of its distribution. The colour index of a candidate is a field of its draw. A draw for the current game's frame is given relative to the ball (`CoreGame.Placed`).
- The cone angle is not modelled. `randomDirectionInCone` receives the angle's cosine and sine as a draw with cos² + sin² = 1, and the spread limits (30°, 60°, 90°) are not checked.
- A particle's green shade, its colour and the `uint8_t` alpha cast (src/entities/Particle.cpp:36-38) are left out.
- `std::sqrt` is a parameter. `std::hypot` is modelled through squared distances.
- IEEE float rounding, infinities and NaN are not modelled. The only exception is the zero-height window, where the model takes `None` for the ratio.
- `static_cast<float>` of an unsigned width or height is taken as exact.
- The distance computed, but unused, in the current ball's release handler is left out.
- Particles.Particle.constructor: it requires a nonzero lifetime, because its update divides by the initial lifetime; the source would produce infinities or NaN for a zero lifetime.
- LegacyGame.LegacyGame.Update: it uses the physics system's update loop over the current ball's `Balls.Ball`. The earlier ball `LegacyBalls.LegacyBall`, whose handlers return nothing, is modelled on its own and is not placed in the entity list.
- CoreGame.Game.Update: it requires one to three generation draws on every frame, even when no generation happens; the unused draws have no effect.
- Balls.Bounds: it is the ideal square (position − r, 2r). SFML draws the circle as a 30-point polygon whose points lie 6° either side of the horizontal axis, so the real `getGlobalBounds` is only r·cos 6° ≈ 0.9945·r wide on each side of the centre in x (y is exact). The irrational factor is not modelled.
- Balls.PressSemantics: a press in the sliver between the ideal square and the polygon's bounds, such as (320, 300) for a ball of radius 20 at (300.05, 300), is handled by the model and declined by the program; see `Balls.Bounds`.
- Balls.Ball.HandleMousePress: the same sliver as `Balls.PressSemantics`.
- LegacyBalls.PressSemantics: the same sliver, since the earlier ball uses `Balls.Bounds` for its press test.
- LegacyBalls.LegacyBall.HandleMousePress: the same sliver as `LegacyBalls.PressSemantics`.
- Obstacle `update` (src/entities/Obstacle.cpp:10-12) has no member of its own. The obstacle is a value, and `Physics.UpdateEntity` leaves it unchanged.
