# Particle box

A model of `ParticleBox` from `main.py`: a table of point particles, one row
`[x, y, vx, vy]` per particle, bouncing inside the box `[xmin, xmax, ymin, ymax]`.
A particle has radius `size`, so it is kept inside the box inset by `size` on every
side. Each call of `step(dt)` adds `dt` to the clock `time_elapsed`, moves every
particle by `dt` times its velocity, tests each coordinate against the two inset
edges of its axis (strictly, and before anything is clamped), puts a coordinate that
crossed an edge back on that edge, and negates the velocity component of every axis
on which either edge was crossed.

Two modules:

- `Motion` (`motion.dfy`) states the update rule on values. `AxisStep` is the wall
  rule on one axis. `StepRow` is one particle's step. `StepTable` is the whole
  table's step. `Run` and `Elapsed` give the table and the clock after a sequence of
  steps. The lemmas relate these.
- `ParticleBoxes` (`particle_box.dfy`) holds the class `ParticleBox`. Its fields
  `initState` and `state` are two distinct arrays of rows; `size`, `bounds` and
  `timeElapsed` are the other fields. The constructor builds the box, and `Step`
  updates `state` in place in a loop over the rows. `StepEach` calls `Step` once per
  frame as the animation does. `DefaultBoxFirstFrame` and `OutsideLeftWall` are two
  worked scenarios, checked by assertions: the default box after one 1/30 s frame,
  and a particle that starts outside the left wall.

Positions, velocities, `dt`, `size` and the bounds are reals; rounding is not part
of the model.

Behaviour of the code that the model keeps:

- The bounds are not a constructor parameter. Every box gets `[-2, 2, -2, 2]`
  (main.py:31).
- `dt` is never checked. A zero `dt` leaves the clock unchanged and a negative
  `dt` moves it back. `ElapsedGrowsWithPositiveSteps` shows the clock only grows when every `dt`
  is positive.
- The code has no targeting or steering variant and no velocity cap.
- Containment holds only when the inset box is non-empty on both axes (`Fits`).
  When `xmin + size > xmax - size`, a coordinate can fail both tests at once. The
  clamp to `xmax - size` is assigned last, so it wins, and `vx` is negated once.

## Model

| member | source | states |
|---|---|---|
| `Motion.AxisStep` | main.py:42-55 | The wall rule on one axis. If the inset interval is non-empty, the result lies in it. A coordinate on or between the edges passes through unchanged with its velocity, so the edges are exclusive. Crossing either edge negates the velocity exactly once. A crossed coordinate ends on the edge it crossed; the upper edge wins when both tests hold. The velocity's magnitude never changes. |
| `Motion.StepRow` | main.py:38-55 | One particle's step. When the inset box is non-empty, the new position is inside it whatever the old position was. `abs(vx)` and `abs(vy)` are kept. On an axis whose integrated coordinate `p + dt*v` crosses no inset edge, that coordinate is `p + dt*v` and the velocity is unchanged. When the integrated coordinate crosses either edge, the velocity is negated; the test uses the pre-clamp coordinate. A coordinate past the upper edge ends on that edge, and one only past the lower edge ends on the lower edge. |
| `Motion.StepTable` | main.py:37-55 | A step keeps the particle count. Each new row is `StepRow` of the same old row, so each row's update depends only on that row, `dt`, `size` and `bounds`. |
| `Motion.Run` | main.py:33-55 | After any sequence of steps, the particle count is unchanged. After at least one step, every particle is inside the inset box (when it is non-empty), wherever the particles started. Every particle keeps `abs(vx)` and `abs(vy)`. |
| `Motion.RunThenStep` | main.py:33-55 | Running a sequence of steps and then one more step equals running the extended sequence. |
| `Motion.RunIsRowwise` | main.py:38-55 | Over any number of steps, a particle's row equals that particle stepped on its own. The other particles never affect it. |
| `Motion.XRuleIgnoresY` | main.py:42-54 | Two rows with the same `x` and `vx` get the same new `x` and `vx`, whatever their `y` and `vy`. |
| `Motion.YRuleIgnoresX` | main.py:44-55 | Two rows with the same `y` and `vy` get the same new `y` and `vy`, whatever their `x` and `vx`. |
| `Motion.ElapsedThenStep` | main.py:35 | One more step adds exactly its `dt` to the clock. |
| `Motion.ElapsedUniform` | main.py:35 | Starting from `t0`, `k` steps of the same `dt` leave the clock at `t0 + k*dt`. |
| `Motion.ElapsedGrowsWithPositiveSteps` | main.py:35 | If every `dt` is positive, a non-empty sequence of steps strictly increases the clock. An empty sequence leaves it unchanged. |
| `ParticleBoxes.ParticleBox.constructor` | main.py:18-31 | With no table given, the initial condition is the three default rows. Otherwise it is the given table. The working table is a separate, fresh array with the same contents. `size` is the given radius (0.04 by default), `bounds` is `[-2, 2, -2, 2]` and the clock is 0. |
| `ParticleBoxes.ParticleBox.Step` | main.py:33-55 | The clock becomes its old value plus `dt`. The working table becomes `StepTable` of the old table, and it is contained in the inset box whenever that box is non-empty. The initial condition, the particle count, `size` and `bounds` are unchanged. |
| `ParticleBoxes.StepEach` | main.py:96-99 | Calling `Step` once for each `dt` of a sequence leaves the table at `Run` of the old table and the clock at `Elapsed` of the old clock. Nothing else changes. |

## Left out

- Plotting and animation are not modelled: backend selection, figure and axes, the boundary rectangle, the `init`/`animate` callbacks, marker sizing and `FuncAnimation` (main.py:1-6, 69-113). `StepEach` stands only for the repeated `box.step(dt)` call of `animate`.
- The random 50-particle initial table (main.py:60-64) and the module-level `box` and `dt` (main.py:66-67) are not modelled. The constructor takes an arbitrary table instead.
- Floating point is not modelled: rounding, `-0.0` produced by `*= -1`, and NaN coordinates (which fail every comparison and so are never clamped).
- Input conversion by `np.asarray(..., dtype=float)` is not modelled. The table is typed as rows of four reals, so the errors for non-numeric or wrong-shaped input do not arise.
- Aliasing of the caller's array is not modelled. When the caller passes an array that is already of float type, `np.asarray` returns that same array, and the box's `init_state` aliases it. The constructor here always makes fresh arrays.
- Callers of the original can reassign any attribute (`bounds`, `size`, `state`) directly; the model only changes them through the constructor and `Step`.
