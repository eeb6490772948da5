/** The particle box object: a table of particle rows that `Step` updates in
    place, the box it is confined to, the particle radius and the simulated
    clock. */
module ParticleBoxes {
  import opened Motion

  datatype Option<T> = None | Some(value: T)

  /** The table used when the caller gives none: three particles. */
  const DefaultState: seq<Row> := [
    Row(1.0, 0.0, 0.0, -1.0),
    Row(-0.5, 0.5, 0.5, 0.5),
    Row(-0.5, -0.5, -0.5, 0.5)
  ]

  /** The box every instance is given, `[-2, 2, -2, 2]`. */
  const DefaultBounds: Bounds := Bounds(-2.0, 2.0, -2.0, 2.0)

  class ParticleBox {
    /** The initial condition, kept apart from the working table. */
    var initState: array<Row>
    /** The working table, one row `[x, y, vx, vy]` per particle. */
    var state: array<Row>
    var size: real
    var bounds: Bounds
    var timeElapsed: real

    ghost predicate Valid()
      reads this
    {
      state != initState && state.Length == initState.Length
    }

    /** Builds a box from `init` (the three-particle default when absent):
        the initial condition and a separate working copy of it, the given
        radius, the fixed box and a clock at zero. */
    constructor (init: Option<seq<Row>> := None, size: real := 0.04)
      ensures Valid() && fresh(initState) && fresh(state)
      ensures initState[..] == (if init.Some? then init.value else DefaultState)
      ensures state[..] == initState[..]
      ensures this.size == size && bounds == DefaultBounds && timeElapsed == 0.0
    {
      var rows := if init.Some? then init.value else DefaultState;
      var a := new Row[|rows|](i requires 0 <= i < |rows| => rows[i]);
      initState := a;
      this.size := size;
      state := new Row[a.Length](i requires 0 <= i < a.Length reads a => a[i]);
      timeElapsed := 0.0;
      bounds := DefaultBounds;
    }

    /** Advances the simulation by `dt`: the clock moves by `dt`, every
        position moves by `dt` times its velocity, and each coordinate that
        ends strictly outside the inset box is put back on the crossed inset
        edge while its velocity component is negated. `dt` is not checked. */
    method Step(dt: real)
      requires Valid()
      modifies this`timeElapsed, state
      ensures Valid()
      ensures timeElapsed == old(timeElapsed) + dt
      ensures state[..] == StepTable(old(state[..]), dt, size, bounds)
      ensures Fits(size, bounds) ==> Contained(state[..], size, bounds)
      ensures initState[..] == old(initState[..])
      ensures state == old(state) && initState == old(initState)
      ensures size == old(size) && bounds == old(bounds)
    {
      timeElapsed := timeElapsed + dt;
      var n := state.Length;
      var i := 0;
      while i < n
        invariant 0 <= i <= n
        invariant timeElapsed == old(timeElapsed) + dt
        invariant forall k :: 0 <= k < i ==> state[k] == StepRow(old(state[k]), dt, size, bounds)
        invariant forall k :: i <= k < n ==> state[k] == old(state[k])
        invariant Fits(size, bounds) ==> Contained(state[..i], size, bounds)
      {
        var r := state[i];
        // integrate with the old velocity
        var x, y := Moved(r.x, r.vx, dt), Moved(r.y, r.vy, dt);
        // all four crossing tests are taken before any coordinate is clamped
        var crossedX1 := x < bounds.xmin + size;
        var crossedX2 := x > bounds.xmax - size;
        var crossedY1 := y < bounds.ymin + size;
        var crossedY2 := y > bounds.ymax - size;
        // masked assignments: a row outside an edge is put on it, x2 after x1
        if crossedX1 { x := bounds.xmin + size; }
        if crossedX2 { x := bounds.xmax - size; }
        if crossedY1 { y := bounds.ymin + size; }
        if crossedY2 { y := bounds.ymax - size; }
        // a velocity component is negated once if either wall on its axis was crossed
        var vx := if crossedX1 || crossedX2 then -r.vx else r.vx;
        var vy := if crossedY1 || crossedY2 then -r.vy else r.vy;
        StepRowFromAxes(r, dt, size, bounds, x, y, vx, vy);
        state[i] := Row(x, y, vx, vy);
        assert state[..i + 1] == state[..i] + [Row(x, y, vx, vy)];
        i := i + 1;
      }
      assert state[..] == state[..n];
      assert state[..] == StepTable(old(state[..]), dt, size, bounds);
    }
  }

  /** Calls `Step` once for each of `dts`, in order, as the animation does
      once per frame: the table follows `Run` and the clock `Elapsed`. */
  method StepEach(box: ParticleBox, dts: seq<real>)
    requires box.Valid()
    modifies box`timeElapsed, box.state
    ensures box.Valid()
    ensures box.state[..] == Run(old(box.state[..]), dts, box.size, box.bounds)
    ensures box.timeElapsed == Elapsed(old(box.timeElapsed), dts)
    ensures box.initState[..] == old(box.initState[..])
    ensures box.state == old(box.state) && box.size == old(box.size) && box.bounds == old(box.bounds)
  {
    var j := 0;
    while j < |dts|
      invariant 0 <= j <= |dts|
      invariant box.Valid()
      invariant box.state == old(box.state) && box.initState == old(box.initState)
      invariant box.size == old(box.size) && box.bounds == old(box.bounds)
      invariant box.state[..] == Run(old(box.state[..]), dts[..j], box.size, box.bounds)
      invariant box.timeElapsed == Elapsed(old(box.timeElapsed), dts[..j])
      invariant box.initState[..] == old(box.initState[..])
    {
      RunThenStep(old(box.state[..]), dts[..j], dts[j], box.size, box.bounds);
      ElapsedThenStep(old(box.timeElapsed), dts[..j], dts[j]);
      assert dts[..j + 1] == dts[..j] + [dts[j]];
      box.Step(dts[j]);
      j := j + 1;
    }
    assert dts[..j] == dts;
  }

  /** The default box: no particle is near a wall, so one frame of 1/30 s
      only moves each particle along its velocity. */
  method DefaultBoxFirstFrame() {
    var box := new ParticleBox();
    box.Step(1.0 / 30.0);
    assert box.state[0] == Row(1.0, -1.0 / 30.0, 0.0, -1.0);
    assert box.timeElapsed == 1.0 / 30.0;
    assert box.initState[..] == DefaultState;
  }

  /** A particle outside the left wall and moving further left lands on the
      inset left edge and moves right afterwards. */
  method OutsideLeftWall() {
    var box := new ParticleBox(Some([Row(-3.0, 0.0, -1.0, 0.0)]), 0.04);
    box.Step(0.1);
    assert box.state[0] == Row(-1.96, 0.0, 1.0, 0.0);
    box.Step(0.1);
    assert box.state[0] == Row(-1.86, 0.0, 1.0, 0.0);
  }
}
