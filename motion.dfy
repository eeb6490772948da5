/** The update rule of one particle box step, as values.
    A particle is one row `[x, y, vx, vy]` of the box's table; the box is
    `[xmin, xmax, ymin, ymax]` and a particle of radius `size` is kept inside
    the box inset by `size` on every side. Numbers are reals: rounding is not
    part of the rule. */
module Motion {

  /** One row of the state table: position and velocity of one particle. */
  datatype Row = Row(x: real, y: real, vx: real, vy: real)

  /** The box, in the order `[xmin, xmax, ymin, ymax]`. */
  datatype Bounds = Bounds(xmin: real, xmax: real, ymin: real, ymax: real)

  function Abs(v: real): real {
    if v < 0.0 then -v else v
  }

  /** The inset box is non-empty on both axes: only then can every particle fit. */
  predicate Fits(size: real, b: Bounds) {
    b.xmin + size <= b.xmax - size && b.ymin + size <= b.ymax - size
  }

  /** A particle lies in the closed box inset by `size`. */
  predicate Inside(r: Row, size: real, b: Bounds) {
    b.xmin + size <= r.x <= b.xmax - size && b.ymin + size <= r.y <= b.ymax - size
  }

  predicate Contained(rows: seq<Row>, size: real, b: Bounds) {
    forall i :: 0 <= i < |rows| ==> Inside(rows[i], size, b)
  }

  /** A coordinate after moving for `dt` at velocity `v` (explicit Euler). */
  function Moved(p: real, v: real, dt: real): real {
    p + dt * v
  }

  /** Wall handling on one axis for an already integrated coordinate `p`
      with velocity `v`, against the inset edges `lo` and `hi`.
      Both crossing tests are strict and are taken before any clamp; the
      clamp to `lo` is written first and the clamp to `hi` second, so when
      both tests hold (`lo > hi`) the particle ends on `hi`. The velocity is
      negated once when either test holds. */
  function AxisStep(p: real, v: real, lo: real, hi: real): (r: (real, real))
    // containment, whenever the inset interval is non-empty
    ensures lo <= hi ==> lo <= r.0 <= hi
    // the edges are exclusive: on or between them nothing changes
    ensures lo <= p <= hi ==> r == (p, v)
    // crossing either edge reverses the velocity exactly once
    ensures p < lo || p > hi ==> r.1 == -v
    // the crossed edge is where the particle ends, the upper one winning
    ensures p > hi ==> r.0 == hi
    ensures p < lo && p <= hi ==> r.0 == lo
    // only the sign of the velocity can change
    ensures Abs(r.1) == Abs(v)
  {
    var crossedLo := p < lo;
    var crossedHi := p > hi;
    var p1 := if crossedLo then lo else p;
    var p2 := if crossedHi then hi else p1;
    (p2, if crossedLo || crossedHi then -v else v)
  }

  /** One particle's new row after a step of `dt`: integrate the position with
      the old velocity, then apply the wall rule on x and on y independently. */
  function StepRow(r: Row, dt: real, size: real, b: Bounds): (s: Row)
    ensures Fits(size, b) ==> Inside(s, size, b)
    ensures Abs(s.vx) == Abs(r.vx) && Abs(s.vy) == Abs(r.vy)
    // pass-through on an axis whose integrated coordinate crosses no inset edge
    ensures b.xmin + size <= Moved(r.x, r.vx, dt) <= b.xmax - size ==> s.x == Moved(r.x, r.vx, dt) && s.vx == r.vx
    ensures b.ymin + size <= Moved(r.y, r.vy, dt) <= b.ymax - size ==> s.y == Moved(r.y, r.vy, dt) && s.vy == r.vy
    // reflection, decided by the integrated (pre-clamp) coordinate
    ensures Moved(r.x, r.vx, dt) < b.xmin + size || Moved(r.x, r.vx, dt) > b.xmax - size ==> s.vx == -r.vx
    ensures Moved(r.y, r.vy, dt) < b.ymin + size || Moved(r.y, r.vy, dt) > b.ymax - size ==> s.vy == -r.vy
    // a crossed coordinate ends on the edge it crossed, the upper edge winning
    ensures Moved(r.x, r.vx, dt) > b.xmax - size ==> s.x == b.xmax - size
    ensures Moved(r.x, r.vx, dt) < b.xmin + size && Moved(r.x, r.vx, dt) <= b.xmax - size ==> s.x == b.xmin + size
    ensures Moved(r.y, r.vy, dt) > b.ymax - size ==> s.y == b.ymax - size
    ensures Moved(r.y, r.vy, dt) < b.ymin + size && Moved(r.y, r.vy, dt) <= b.ymax - size ==> s.y == b.ymin + size
  {
    var onX := AxisStep(Moved(r.x, r.vx, dt), r.vx, b.xmin + size, b.xmax - size);
    var onY := AxisStep(Moved(r.y, r.vy, dt), r.vy, b.ymin + size, b.ymax - size);
    Row(onX.0, onY.0, onX.1, onY.1)
  }

  /** Proof aid for the loop in `ParticleBox.Step`, not a property of the
      model: it unfolds `StepRow` outside the loop's context, where the
      verifier does it cheaply. */
  lemma StepRowFromAxes(r: Row, dt: real, size: real, b: Bounds, x: real, y: real, vx: real, vy: real)
    requires (x, vx) == AxisStep(Moved(r.x, r.vx, dt), r.vx, b.xmin + size, b.xmax - size)
    requires (y, vy) == AxisStep(Moved(r.y, r.vy, dt), r.vy, b.ymin + size, b.ymax - size)
    ensures Row(x, y, vx, vy) == StepRow(r, dt, size, b)
  {
  }

  /** The whole table after one step. */
  function StepTable(rows: seq<Row>, dt: real, size: real, b: Bounds): (t: seq<Row>)
    // the particle count is kept and every row is updated from its own old row alone
    ensures |t| == |rows|
    ensures forall i :: 0 <= i < |rows| ==> t[i] == StepRow(rows[i], dt, size, b)
  {
    if rows == [] then [] else [StepRow(rows[0], dt, size, b)] + StepTable(rows[1..], dt, size, b)
  }

  /** The table after one step for each of `dts`, in order. */
  function Run(rows: seq<Row>, dts: seq<real>, size: real, b: Bounds): (t: seq<Row>)
    ensures |t| == |rows|
    // after at least one step every particle is contained, wherever it started
    ensures dts != [] && Fits(size, b) ==> Contained(t, size, b)
    ensures forall i :: 0 <= i < |rows| ==> Abs(t[i].vx) == Abs(rows[i].vx) && Abs(t[i].vy) == Abs(rows[i].vy)
    decreases |dts|
  {
    if dts == [] then rows else Run(StepTable(rows, dts[0], size, b), dts[1..], size, b)
  }

  /** Stepping once more after a run is the run extended by that step. */
  lemma {:induction false} RunThenStep(rows: seq<Row>, dts: seq<real>, dt: real, size: real, b: Bounds)
    ensures Run(rows, dts + [dt], size, b) == StepTable(Run(rows, dts, size, b), dt, size, b)
    decreases |dts|
  {
    if dts == [] {
      assert [] + [dt] == [dt];
    } else {
      assert (dts + [dt])[1..] == dts[1..] + [dt];
      RunThenStep(StepTable(rows, dts[0], size, b), dts[1..], dt, size, b);
    }
  }

  /** One particle on its own after one step for each of `dts`. */
  function RunRow(r: Row, dts: seq<real>, size: real, b: Bounds): Row
    decreases |dts|
  {
    if dts == [] then r else RunRow(StepRow(r, dts[0], size, b), dts[1..], size, b)
  }

  /** Over any number of steps a particle's trajectory depends only on its own
      starting row: the other particles never influence it. */
  lemma {:induction false} RunIsRowwise(rows: seq<Row>, dts: seq<real>, size: real, b: Bounds, i: nat)
    requires i < |rows|
    ensures Run(rows, dts, size, b)[i] == RunRow(rows[i], dts, size, b)
    decreases |dts|
  {
    if dts != [] {
      RunIsRowwise(StepTable(rows, dts[0], size, b), dts[1..], size, b, i);
    }
  }

  /** The x rule never looks at y or vy: rows that agree on x and vx agree
      on them after the step. */
  lemma XRuleIgnoresY(r1: Row, r2: Row, dt: real, size: real, b: Bounds)
    requires r1.x == r2.x && r1.vx == r2.vx
    ensures StepRow(r1, dt, size, b).x == StepRow(r2, dt, size, b).x
    ensures StepRow(r1, dt, size, b).vx == StepRow(r2, dt, size, b).vx
  {
  }

  /** The y rule never looks at x or vx. */
  lemma YRuleIgnoresX(r1: Row, r2: Row, dt: real, size: real, b: Bounds)
    requires r1.y == r2.y && r1.vy == r2.vy
    ensures StepRow(r1, dt, size, b).y == StepRow(r2, dt, size, b).y
    ensures StepRow(r1, dt, size, b).vy == StepRow(r2, dt, size, b).vy
  {
  }

  /** The elapsed-time counter after adding each of `dts` to `t0` in turn. */
  function Elapsed(t0: real, dts: seq<real>): real
    decreases |dts|
  {
    if dts == [] then t0 else Elapsed(t0 + dts[0], dts[1..])
  }

  /** Adding one more step to the clock after a run. */
  lemma {:induction false} ElapsedThenStep(t0: real, dts: seq<real>, dt: real)
    ensures Elapsed(t0, dts + [dt]) == Elapsed(t0, dts) + dt
    decreases |dts|
  {
    if dts == [] {
      assert [] + [dt] == [dt];
    } else {
      assert (dts + [dt])[1..] == dts[1..] + [dt];
      ElapsedThenStep(t0 + dts[0], dts[1..], dt);
    }
  }

  /** `k` steps of the same `dt` advance the clock by exactly `k * dt`. */
  lemma {:induction false} ElapsedUniform(t0: real, dt: real, k: nat)
    ensures Elapsed(t0, seq(k, _ => dt)) == t0 + (k as real) * dt
    decreases k
  {
    if k > 0 {
      assert seq(k, _ => dt)[1..] == seq(k - 1, _ => dt);
      ElapsedUniform(t0 + dt, dt, k - 1);
    }
  }

  /** The clock only moves forward when every step is positive; nothing in the
      step itself enforces that. */
  lemma {:induction false} ElapsedGrowsWithPositiveSteps(t0: real, dts: seq<real>)
    requires forall j :: 0 <= j < |dts| ==> dts[j] > 0.0
    ensures dts != [] ==> Elapsed(t0, dts) > t0
    ensures dts == [] ==> Elapsed(t0, dts) == t0
    decreases |dts|
  {
    if dts != [] {
      ElapsedGrowsWithPositiveSteps(t0 + dts[0], dts[1..]);
    }
  }
}
