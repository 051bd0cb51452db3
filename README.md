# Pendulum name banner and N-body background, modelled in Dafny

This project models the two simulation kernels of a portfolio page.

- **The pendulum banner** (`main.js`). Each letter of "noah" and "horne" hangs as bob 2 of a
  double pendulum.
  - Every animation frame calls `update`. While the pendulum is dragged, `update` freezes it
    and zeroes its velocities. Otherwise it takes one explicit-Euler step with damping and
    pushes the new bob-2 position into a trace of at most 1000 points.
  - The pointer can grab a letter and drag it. `dragTo` is a two-link law-of-cosines solve:
    it clamps the reach, clamps the `acos` arguments, builds two elbow candidates, keeps the
    strictly closer one and normalises both angles into [-PI, PI].
  - `alignPendulums` lays the two groups out centred under the header and clears every trace.
  - The four mouse handlers (down, move, up, leave) form a small state machine over
    `draggingPendulum` and the per-pendulum `isDragging` and `isHovered` flags.
- **The N-body background** (`nbody.js`). One `update` first runs a velocity pass over every
  unordered pair of particles: mutual gravity with equal and opposite momentum changes. Then
  it runs a position pass that moves every particle and wraps it around the canvas.

## How it is modelled

- Numbers are `real`. `Math.sin`, `cos`, `acos`, `atan2`, `sqrt` and `hypot` are
  uninterpreted fields of a `MathFns` value (`jsmath.dfy`) passed to every operation.
  - `Lawful` lists the only facts used: `sin(0) = 0`, `sin` and `cos` lie in [-1, 1], `acos`
    is defined on [-1, 1], and `sqrt` is defined and non-negative on [0, inf).
  - `acos` and `sqrt` are partial, so every call has to show its argument is in range. This
    is what makes the clamps in `dragTo` matter.
- `DoublePendulum` is a class (`pendulum.dfy`).
  - Its fields are the source's: origin, the four constants, the angles and velocities,
    colour, letter, trace and the two flags.
  - `Update` and `DragTo` are methods that change only the fields they name.
  - Each method is proved against a value-level specification: `Kinematics.EulerStep`,
    `Trace.Push` and `DragSolver.DragPose`.
- The module-level state of `main.js` is the class `Scene` (`scene.dfy`). It holds the array
  of pendulums and `draggingPendulum`. Each event handler is a method whose contract
  describes the new state.
  - If mousedown hits while another pendulum is being dragged, the earlier pendulum keeps
    `isDragging = true`. The source does this and the model keeps it.
- `normalizeAngle` keeps the source's two `while` loops (`Angles.NormalizeAngle`). It is
  proved equal to a closed form, `Normalized`.
- The particles of `nbody.js` are values in an `array<Particle>` that `NBody.Update` changes
  in place.
  - The nested loop is proved to compute `KickRows`. `KickRows` in turn is proved equal to
    `KickAll` over `Pairs(n)`, the pairs in visiting order.
  - `Step` is the whole update on sequences. Momentum conservation is proved about `Step`
    (`StepKeepsMomentum`). The wrap property is proved about `Wrap` and the position pass
    `MoveAll` (`MoveAllKeepsInBox`).
  - The velocity-pass functions skip a pair that cannot pull (`KickIfPullable`). Under the
    precondition of `Update` no pair is ever skipped.

## Model

| member | source | states |
|---|---|---|
| Angles.Turns | main.js:196-200 | the turn count lands the angle in [-PI, PI]. It is 0 for an angle already there. It is negative (turns removed) above PI and positive below -PI, stopping at the first value inside |
| Angles.TurnsUnique | main.js:196-200 | for an angle outside [-PI, PI], exactly one turn count lands it in the half-open interval the loops stop in |
| Angles.Normalized | main.js:196-200 | normalizeAngle's result lies in [-PI, PI]. It equals the input inside that range and moves strictly towards the range from outside |
| Angles.NormalizeAngle | main.js:196-200 | the two while loops compute exactly Normalized(a) |
| Angles.NormalizedIdempotent | main.js:219-220 | normalising an already normalised angle changes nothing, so re-normalising best.theta2 is a no-op |
| Trace.Push | main.js:93-95 | after push-then-shift the buffer ends with the new point. Below capacity it is the old buffer plus the point. At capacity exactly the oldest entry is dropped. It equals the last 1000 entries of the history |
| Trace.PushAllKeepsMostRecent | main.js:93-95 | after any number of pushes, the buffer holds exactly the most recent min(n, 1000) points, oldest first |
| Kinematics.Bob1At | main.js:98-102 | getBob1 as a function of the origin, L1 and theta1: link 1 at theta1 from the downward vertical, L1 * 200 px long. Bob1WithinReach bounds it |
| Kinematics.Bob2At | main.js:104-109 | getBob2: link 2 hangs from Bob1At at theta2. Bob2WithinReach bounds it, and CandidateIsForwardModel shows the drag solver uses the same formula |
| Kinematics.Bob1WithinReach | main.js:98-102 | whatever the angle, getBob1 lies within L1 * 200 px of the origin along each axis |
| Kinematics.Bob2WithinReach | main.js:98-109 | whatever the angles, getBob2 lies within (L1 + L2) * 200 px of the origin along each axis |
| Kinematics.Accelerations | main.js:59-81 | the Lagrangian angular accelerations a1 and a2, divided by den1Full and den2, which Den1 shows are positive. AccelerationsAtRest shows both vanish at rest |
| Kinematics.AccelerationsAtRest | main.js:61-81 | hanging straight down at rest, a1 = a2 = 0 |
| Kinematics.EulerStep | main.js:83-90 | one non-dragging step of update on the motion. EulerStepOrder states its order of updates and RestingStateIsFixed its fixed point |
| Kinematics.Den1 | main.js:65-67 | with positive masses and cos in [-1, 1], den1 >= 2 * m1 > 0, so den1Full and den2 are nonzero |
| Kinematics.EulerStepOrder | main.js:83-90 | velocities are updated first, then the angles move by the new undamped velocities times dt, then the velocities are damped by 0.999 |
| Kinematics.RestingStateIsFixed | main.js:59-90 | hanging straight down at rest, one step changes nothing |
| DragSolver.ClampReach | main.js:175-177 | the clamped distance is at least \|L1px - L2px\| + 0.01. It is at most L1px + L2px - 0.01 when both links are at least 0.01 px. It equals the distance when that is already in range, L1px + L2px - 0.01 above the range (links of at least 0.01 px) and \|L1px - L2px\| + 0.01 below it |
| DragSolver.ReachClampExample | main.js:176-177 | links of 120 px and 40 px with the pointer 200 px away give 160 - 0.01 |
| DragSolver.ClampUnit | main.js:183-189 | the acos argument lies in [-1, 1]. It is unchanged inside the range, 1 above it and -1 below it |
| DragSolver.Solve | main.js:165-190 | the distance, reach clamp, angleToMouse, angleA and angleB of dragTo. Every acos and sqrt call is shown in its domain. ClampedCosinesInRange shows the acos clamps never change the values |
| DragSolver.TriangleCosine | main.js:183-188 | for sides with \|a - b\| <= c <= a + b, the law-of-cosines value lies in [-1, 1] |
| DragSolver.ClampedCosinesInRange | main.js:176-190 | after the reach clamp, cosA and cosB already lie in [-1, 1] (links of at least 0.01 px), so the Math.min/Math.max clamps leave them unchanged |
| DragSolver.CandidateAt | main.js:202-209 | a candidate keeps its theta1, and its theta2 lies in [-PI, PI] |
| DragSolver.SimulateBob2 | main.js:202-209 | simulateBob2, with the loop normalizeAngle, computes CandidateAt |
| DragSolver.CandidateIsForwardModel | main.js:202-209 | a candidate's (x, y) is exactly where getBob2 puts bob 2 for the candidate's angles |
| DragSolver.Miss | main.js:214-215 | Math.hypot of a candidate's bob 2 minus the pointer, the distance Choose compares |
| DragSolver.Choose | main.js:214-217 | the pick is one of the two candidates and no farther from the pointer than either. On a tie it is solB |
| DragSolver.Elbows | main.js:192-193 | the two candidates put link 1 at angleToMouse + angleB and at angleToMouse - angleB |
| DragSolver.Branches | main.js:192-212 | solA puts link 1 at angleToMouse + angleB and solB at angleToMouse - angleB, for the triangle Solve computes |
| DragSolver.SimulateBranches | main.js:191-212 | the two simulateBob2 calls for a solved triangle produce exactly Elbows |
| DragSolver.DragPose | main.js:196-220 | both final angles lie in [-PI, PI]. theta1 is the chosen candidate's normalised theta1, and theta2 is the chosen candidate's theta2 |
| DragSolver.SolveDrag | main.js:165-220 | the body of dragTo up to the angle assignment computes DragPose |
| DragSolver.TieGoesToSecondBranch | main.js:217 | when distA == distB, theta1 is normalize(angleToMouse - angleB) (solB) |
| Pendulum.Advance | main.js:51-96 | one update on values. While dragged the velocities become 0. Otherwise the trace ends with the new bob 2 position. A trace within 1000 points stays within 1000 points |
| Pendulum.DoublePendulum.GetBob1 | main.js:98-102 | getBob1 reads only origin, L1 and theta1, and is Bob1At of them |
| Pendulum.DoublePendulum.GetBob2 | main.js:104-109 | getBob2 reads only origin, the lengths and the angles, and is Bob2At of them |
| Pendulum.DoublePendulum.constructor | main.js:31-49 | every field is the argument given. Velocities are 0, the trace is empty and both flags are false |
| Pendulum.DoublePendulum.Update | main.js:51-96 | while dragging: angles and trace unchanged, velocities 0. Otherwise: the motion is EulerStep of the old motion and the trace is Push(old trace, new getBob2). The trace stays within 1000 |
| Pendulum.DoublePendulum.DragTo | main.js:164-224 | the angles are DragPose for the pointer, both lie in [-PI, PI], and the velocities are 0. Origin, lengths, masses, trace and flags are untouched |
| Scene.Near | main.js:331-335 | the pointer is strictly within the radius of the bob, by Math.sqrt of the squared distance. A hit needs a positive radius |
| Scene.FirstNear | main.js:330-343 | the result is the first index whose bob 2 is strictly within the radius, with none before it. None means no bob qualifies |
| Scene.FirstNearIsFirstHit | main.js:330-343 | the first hit in array order is what FirstNear returns |
| Scene.LayoutX | main.js:275-306 | the x coordinate of the i-th origin: startX + i * 60 in the first group, after the 130 px gap in the second. LayoutShape states its shape |
| Scene.OriginY | main.js:284-292 | the header height, or 80 without a header, plus 12 |
| Scene.LayoutShape | main.js:275-308 | the layout is centred on the canvas. Neighbours in a group are 60 px apart and the two groups are 130 px apart |
| Scene.Scene.constructor | main.js:235-267 | nine distinct pendulums, one per letter of "noah" then "horne", at the placeholder origin (0, 140). L1 = 0.6, unit masses, the drawn angles and L2, zero velocities, empty traces and cleared flags |
| Scene.Scene.Align | main.js:270-309 | every origin is (LayoutX(i), header height + 12) and every trace is empty. Nothing else changes |
| Scene.Scene.Place | main.js:296-307 | the body of both layout loops: the pendulum's origin is the given point and its trace is empty |
| Scene.Scene.Tick | main.js:408-415 | every pendulum has taken exactly one update step from its state before the frame |
| Scene.Scene.UpdateAt | main.js:409 | the loop body: the i-th pendulum takes one update step and the scene stays valid |
| Scene.Scene.Grab | main.js:336-340 | the hit branch: the pendulum becomes draggingPendulum, is marked dragging, has an empty trace and is posed at the pointer |
| Scene.Scene.MouseDown | main.js:324-344 | with no bob 2 strictly within 20 px nothing changes. Otherwise only the first such pendulum in array order is grabbed, and every other pendulum is unchanged |
| Scene.Scene.MouseMove | main.js:346-362 | the dragged pendulum (if any) is posed at the pointer. Every isHovered is (distance < 20). No other pendulum's motion changes |
| Scene.Scene.UpdateHover | main.js:355-361 | every isHovered says whether the pointer is strictly within 20 px of that bob 2 |
| Scene.Scene.MouseUp | main.js:365-370 | the drag ends: draggingPendulum is null and the previously dragged pendulum's isDragging is false. Other flags are untouched |
| Scene.Scene.MouseLeave | main.js:372-381 | as MouseUp, and every isHovered is false |
| NBody.PairImpulse | nbody.js:33-41 | the momentum changes of a pair are equal and opposite on each axis. Each particle is pulled towards the other: ax has the sign of dx and bx the opposite sign, and likewise for y |
| NBody.ForcePositive | nbody.js:37 | with positive masses and a nonzero squared distance, the force is positive |
| NBody.PullTowards | nbody.js:38-41 | one axis of the impulse: the two momentum changes cancel and point along d and against d |
| NBody.KickPair | nbody.js:32-45 | one pair's velocity update. KickPairTouchesOnlyPair and KickPairKeepsMomentum state what it does |
| NBody.KickPairTouchesOnlyPair | nbody.js:42-45 | only particles i and j change, only in velocity, each by its half of PairImpulse |
| NBody.PullableWhenReady | nbody.js:33-37 | with positive masses and distinct positions, every pair i < j has a nonzero squared distance and positive masses |
| NBody.KickIfPullableKeepsBodies | nbody.js:42-45 | one pair's velocity update keeps every position and every mass |
| NBody.KickAllKeepsBodies | nbody.js:29-47 | the velocity pass over any list of pairs keeps every position and every mass |
| NBody.ReadyPairsAlwaysPull | nbody.js:29-47 | starting from positive masses at distinct positions, after any pairs have pulled, every pair i < j can still pull, so no pair of an update is skipped |
| NBody.RowsLength | nbody.js:29-31 | after i outer iterations, i * (2n - i - 1) / 2 pairs have been visited |
| NBody.RowsInOrder | nbody.js:29-31 | the pairs are visited in increasing lexicographic order |
| NBody.RowsComplete | nbody.js:29-31 | after i outer iterations, every pair (a, b) with a < i and a < b < n has been visited |
| NBody.PairsVisitedOnce | nbody.js:29-31 | one update visits (a, b) if and only if a < b < n, each pair once and in order, n(n-1)/2 pairs in all. No pair (i, i) is visited |
| NBody.KickAllSnoc | nbody.js:29-47 | kicking along pairs + [(i, j)] is kicking along pairs, then the pair (i, j) |
| NBody.KickAllAppend | nbody.js:29-47 | kicking along A + B is kicking along A, then along B |
| NBody.KickRowToVisitsRow | nbody.js:31-46 | the inner loop for particle i applies exactly the pairs (i, i+1), ..., (i, j-1), in order |
| NBody.KickRowsVisitsRows | nbody.js:29-47 | the nested loops apply exactly the pairs of the first i rows, in order |
| NBody.Wrap | nbody.js:54-57 | the result is x, x + w or x - w, and it is x when already in [0, w]. For w >= 0 it lies in [0, w] exactly when x was in [-w, 2w] |
| NBody.Move | nbody.js:50-57 | moving a particle keeps its velocity and mass |
| NBody.MoveAll | nbody.js:49-58 | the position pass moves every particle by its own velocity and wraps it. It keeps the count and the masses |
| NBody.Step | nbody.js:28-59 | one update keeps the particle count and every mass. Every velocity change happens before any move |
| NBody.Update | nbody.js:28-59 | the nested loop and the move loop, in place on the array, compute exactly Step |
| NBody.AttractRow | nbody.js:30-46 | the inner loop computes KickRowTo for row i, and the particles stay ready |
| NBody.Attract | nbody.js:32-45 | the loop body computes the pair (i, j)'s velocity update, and the particles stay ready |
| NBody.MoveEvery | nbody.js:49-58 | the second loop, with its two conditional wraps per axis, computes MoveAll |
| NBody.MomentumOfVelocities | nbody.js:49-58 | the total momentum depends only on masses and velocities, so the position pass keeps it |
| NBody.ExchangeKeepsMomentum | nbody.js:42-45 | replacing two particles by two with the same masses and the same summed momentum keeps the total momentum |
| NBody.KickPairKeepsMomentum | nbody.js:35-45 | one pair's velocity update keeps the total momentum on both axes |
| NBody.KickAllKeepsMomentum | nbody.js:29-47 | the velocity pass keeps the total momentum on both axes |
| NBody.StepKeepsMomentum | nbody.js:28-59 | one update keeps the total momentum on both axes |
| NBody.MoveAllKeepsInBox | nbody.js:49-58 | particles inside the canvas whose speed per axis is at most the canvas size stay inside after the position pass |

## Left out

- Rendering (`draw`, the trace polyline, the letter transforms, the background, the fade
  alpha and the "Hi. I'm" block, and nbody's `draw`) produces no state. It is not modelled.
- Browser plumbing (canvas resizing, `getBoundingClientRect`, `addEventListener`,
  `requestAnimationFrame`) is host I/O and is not modelled.
  - Handlers receive pointer coordinates already translated into canvas pixels.
  - `alignPendulums` receives the canvas width and the header height as parameters. A
    missing header is `None` and falls back to 80.
- `Math.random()` draws in `createPendulumsFromLetters` and in the particle set-up become
  inputs. The pendulum draws are `Draw` values constrained to the source's ranges. The
  particles are whatever array `NBody.Update` is given.
- Doubles are reals. Rounding, overflow, NaN and Infinity are not modelled, and neither is
  any fact about trigonometry beyond `Lawful` (energy, whether bob 2 reaches the pointer).
- NBody.Update: requires positive masses and no two particles at one position. With
  `distSq = 0` the source divides by zero and the velocities become NaN, which reals cannot
  express. NBody.PairImpulse and NBody.KickPair require the same of their pair.
- NBody.KickIfPullable: a pair that cannot pull (a zero distance or a mass that is not
  positive) changes nothing, where the source would produce NaN. Under Update's
  precondition this never happens (NBody.ReadyPairsAlwaysPull), so StepKeepsMomentum holds
  for every input only because of this guard.
- Pendulum.DoublePendulum.constructor: `letter` starts as the empty string, where the source
  leaves it undefined until the set-up assigns it. The `color` default argument is not
  modelled; callers pass the colour.
- Each pendulum's `origin` is a `Point` value, and `alignPendulums` assigns a new one where
  the source mutates `origin.x` and `origin.y`. In the source each pendulum's origin is its
  own object, so no aliasing is lost.
- Some parts of a source function are separate methods, each proved against its own
  specification:
  - the inner loop of nbody's `update` and its body (`AttractRow`, `Attract`);
  - the two `simulateBob2` calls of `dragTo` (`SimulateBranches`);
  - the hover loop of mousemove (`UpdateHover`);
  - the bodies of the frame loop and the layout loops of `main.js` (`UpdateAt`, `Place`).
- `KickAll` is a reference definition over an arbitrary pair list. It skips any pair that
  does not name two particles with the smaller index first. `PairsVisitedOnce` shows that
  the pairs of an update never include such a pair.
