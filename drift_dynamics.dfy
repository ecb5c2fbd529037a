/** The drift car's dynamics step (scripts/drift.js, `updatePhysics` up to the
    wall loop) as pure stage functions over a value copy of the car record, with
    the properties each stage promises. The trigonometric values cos θ and sin θ
    enter as reals `c` and `s`; where a property needs the two axes to be
    orthonormal it assumes `c * c + s * s == 1.0`. */
module DriftDynamics {
  import opened RealFacts

  /** Value copy of the mutable `carState` record. */
  datatype CarState = CarState(
    x: real, y: real,   // centre, screen space
    ang: real,          // heading in radians, never wrapped
    vx: real, vy: real, // velocity
    angVel: real,       // angular velocity
    w: real, l: real)   // footprint (constant for the session)

  /** One frame of driver input, already combined from keys, buttons and the
      steering pad. */
  datatype Input = Input(
    throttle: bool, brake: bool, steerLeft: bool, steerRight: bool,
    handbrake: bool, analogX: real)

  /** The tunable handling profile `HANDLING`. */
  datatype Handling = Handling(
    engine: real, brake: real, baseGrip: real, hbGripMul: real,
    sideFriction: real, airFriction: real, rollResist: real, tyreDrag: real,
    maxSteerRate: real, speedForMaxSteer: real)

  /** The profile the demo ships with. */
  const DefaultHandling: Handling :=
    Handling(200.0, 100.0, 0.2, 1.0, 5.0, 1.0, 1.0, 1.0, 3.5, 500.0)

  /** Gain of the first-order steering smoothing (per second). */
  const SmoothingGain: real := 12.0

  /** Steering authority never drops below this fraction. */
  const MinAuthority: real := 0.35

  /** Largest frame step the frame driver ever passes on, in seconds. */
  const MaxDt: real := 0.032

  // ---------------------------------------------------------------------
  // Input

  /** The input frame the physics reads from the set of held keys and the
      steering pad's analog value. */
  function ReadInput(keys: set<string>, analogX: real): Input
  {
    Input("w" in keys || "ArrowUp" in keys,
          "s" in keys || "ArrowDown" in keys,
          "a" in keys || "ArrowLeft" in keys,
          "d" in keys || "ArrowRight" in keys,
          " " in keys || "Space" in keys || "Spacebar" in keys,
          analogX)
  }

  /** Every key the physics reads. */
  const ControlKeys: set<string> :=
    {"w", "ArrowUp", "s", "ArrowDown", "a", "ArrowLeft", "d", "ArrowRight", " ", "Space", "Spacebar"}

  /** The two spellings of each pedal are interchangeable: holding the
      letter or its arrow gives the same input frame, whatever else is
      held. */
  lemma ReadInputAliases(keys: set<string>, analogX: real)
    ensures ReadInput(keys + {"w"}, analogX) == ReadInput(keys + {"ArrowUp"}, analogX)
    ensures ReadInput(keys + {"s"}, analogX) == ReadInput(keys + {"ArrowDown"}, analogX)
  {
  }

  /** Likewise for the two steering keys and their arrows. */
  lemma ReadInputSteerAliases(keys: set<string>, analogX: real)
    ensures ReadInput(keys + {"a"}, analogX) == ReadInput(keys + {"ArrowLeft"}, analogX)
    ensures ReadInput(keys + {"d"}, analogX) == ReadInput(keys + {"ArrowRight"}, analogX)
  {
  }

  /** The handbrake answers to all three names of the space bar. */
  lemma ReadInputSpaceAliases(keys: set<string>, analogX: real)
    ensures ReadInput(keys + {" "}, analogX) == ReadInput(keys + {"Space"}, analogX)
    ensures ReadInput(keys + {"Space"}, analogX) == ReadInput(keys + {"Spacebar"}, analogX)
  {
  }

  /** Holding more keys never releases a control, and a held control key
      switches its control on. */
  lemma ReadInputMonotone(keys: set<string>, more: set<string>, analogX: real)
    requires keys <= more
    ensures var a, b := ReadInput(keys, analogX), ReadInput(more, analogX);
      && (a.throttle ==> b.throttle) && (a.brake ==> b.brake)
      && (a.steerLeft ==> b.steerLeft) && (a.steerRight ==> b.steerRight)
      && (a.handbrake ==> b.handbrake) && b.analogX == analogX
  {
  }

  /** Keys outside the control set change nothing, so with none of them held
      every control is off. */
  lemma ReadInputIgnoresOtherKeys(keys: set<string>, k: string, analogX: real)
    requires k !in ControlKeys
    ensures ReadInput(keys + {k}, analogX) == ReadInput(keys, analogX)
    ensures keys !! ControlKeys ==> ReadInput(keys, analogX) == Input(false, false, false, false, false, analogX)
  {
  }

  /** The combined steering axis: −1 for left, +1 for right, plus the analog
      value, with no clamp on the sum. */
  function SteerInput(inp: Input): real
  {
    (if inp.steerLeft then -1.0 else 0.0) + (if inp.steerRight then 1.0 else 0.0) + inp.analogX
  }

  /** Left and right held together cancel; the analog value alone remains. */
  lemma SteerInputCancels(inp: Input)
    requires inp.steerLeft == inp.steerRight
    ensures SteerInput(inp) == inp.analogX
  {
  }

  /** The sum is not clamped: a held right key plus the pad pushed fully right
      gives twice the nominal range, and the result always lies within one
      unit of the analog value. */
  lemma SteerInputUnclamped(inp: Input)
    ensures inp.steerRight && !inp.steerLeft && inp.analogX == 1.0 ==> SteerInput(inp) == 2.0
    ensures inp.analogX - 1.0 <= SteerInput(inp) <= inp.analogX + 1.0
    ensures -1.0 <= inp.analogX <= 1.0 ==> -2.0 <= SteerInput(inp) <= 2.0
  {
  }

  // ---------------------------------------------------------------------
  // Axes

  /** Velocity component along the forward axis (sin θ, −cos θ). */
  function Forward(vx: real, vy: real, c: real, s: real): real { vx * s + vy * -c }

  /** Velocity component along the right axis (cos θ, sin θ). */
  function Lateral(vx: real, vy: real, c: real, s: real): real { vx * c + vy * s }

  /** With orthonormal axes the two components recover the velocity and
      carry all of its squared length. */
  lemma {:induction false} DecompositionExact(vx: real, vy: real, c: real, s: real)
    requires c * c + s * s == 1.0
    ensures vx == Forward(vx, vy, c, s) * s + Lateral(vx, vy, c, s) * c
    ensures vy == -Forward(vx, vy, c, s) * c + Lateral(vx, vy, c, s) * s
    ensures Forward(vx, vy, c, s) * Forward(vx, vy, c, s) + Lateral(vx, vy, c, s) * Lateral(vx, vy, c, s)
            == vx * vx + vy * vy
  {
    var f, lt := Forward(vx, vy, c, s), Lateral(vx, vy, c, s);
    calc {
      f * s + lt * c;
      (vx * s - vy * c) * s + (vx * c + vy * s) * c;
      vx * (s * s + c * c) + vy * (c * s - s * c);
      vx;
    }
    calc {
      -f * c + lt * s;
      -(vx * s - vy * c) * c + (vx * c + vy * s) * s;
      vy * (c * c + s * s) + vx * (s * c - c * s);
      vy;
    }
    calc {
      f * f + lt * lt;
      (vx * s - vy * c) * (vx * s - vy * c) + (vx * c + vy * s) * (vx * c + vy * s);
      vx * vx * (s * s + c * c) + vy * vy * (c * c + s * s);
      vx * vx + vy * vy;
    }
  }

  // ---------------------------------------------------------------------
  // Stage: throttle and brake

  /** Throttle adds `engine * dt` along the forward axis, then brake subtracts
      `brake * dt` along it. */
  function Pedals(st: CarState, inp: Input, h: Handling, dt: real, c: real, s: real): CarState
  {
    var t := if inp.throttle
             then st.(vx := st.vx + s * h.engine * dt, vy := st.vy + -c * h.engine * dt)
             else st;
    if inp.brake
    then t.(vx := t.vx - s * h.brake * dt, vy := t.vy - -c * h.brake * dt)
    else t
  }

  /** The pedal impulse along the forward axis in one frame. */
  function PedalDelta(inp: Input, h: Handling, dt: real): real
  {
    (if inp.throttle then h.engine * dt else 0.0) - (if inp.brake then h.brake * dt else 0.0)
  }

  /** Moving the velocity by `k` along the forward axis changes only the
      forward component, by exactly `k`. */
  lemma ShiftAlongForward(vx: real, vy: real, c: real, s: real, k: real)
    requires c * c + s * s == 1.0
    ensures Forward(vx + s * k, vy - c * k, c, s) == Forward(vx, vy, c, s) + k
    ensures Lateral(vx + s * k, vy - c * k, c, s) == Lateral(vx, vy, c, s)
  {
    ScaleUnit(k, c * c + s * s);
    assert (vx + s * k) * s + (vy - c * k) * -c == vx * s + vy * -c + k * (c * c + s * s);
    assert (vx + s * k) * c + (vy - c * k) * s == vx * c + vy * s;
  }

  /** Moving the velocity by `-k` along the right axis changes only the
      lateral component, by exactly `-k`. */
  lemma ShiftAlongRight(vx: real, vy: real, c: real, s: real, k: real)
    requires c * c + s * s == 1.0
    ensures Forward(vx - c * k, vy - s * k, c, s) == Forward(vx, vy, c, s)
    ensures Lateral(vx - c * k, vy - s * k, c, s) == Lateral(vx, vy, c, s) - k
  {
    ScaleUnit(k, c * c + s * s);
    assert (vx - c * k) * s + (vy - s * k) * -c == vx * s + vy * -c;
    assert (vx - c * k) * c + (vy - s * k) * s == vx * c + vy * s - k * (c * c + s * s);
  }

  /** Scaling the velocity scales both components. */
  lemma ScaleComponents(vx: real, vy: real, c: real, s: real, d: real)
    ensures Forward(vx * d, vy * d, c, s) == Forward(vx, vy, c, s) * d
    ensures Lateral(vx * d, vy * d, c, s) == Lateral(vx, vy, c, s) * d
  {
  }

  /** The pedals move the velocity by the pedal impulse along the forward
      axis and change nothing else. */
  lemma PedalsShift(st: CarState, inp: Input, h: Handling, dt: real, c: real, s: real)
    ensures var p := Pedals(st, inp, h, dt, c, s);
      var k := PedalDelta(inp, h, dt);
      p == st.(vx := st.vx + s * k, vy := st.vy - c * k)
  {
    var p := Pedals(st, inp, h, dt, c, s);
    var k := PedalDelta(inp, h, dt);
    var e, b := h.engine * dt, h.brake * dt;
    MulAssoc(s, h.engine, dt);
    MulAssoc(c, h.engine, dt);
    MulAssoc(s, h.brake, dt);
    MulAssoc(c, h.brake, dt);
    if inp.throttle && inp.brake {
      MulDiff(s, e, b, k);
      MulDiff(c, e, b, k);
      assert p.vx == st.vx + s * e - s * b && p.vy == st.vy - c * e + c * b;
    } else if inp.throttle {
      MulDiff(s, e, 0.0, k);
      MulDiff(c, e, 0.0, k);
      assert p.vx == st.vx + s * e && p.vy == st.vy - c * e;
    } else if inp.brake {
      MulDiff(s, 0.0, b, k);
      MulDiff(c, 0.0, b, k);
      assert p.vx == st.vx - s * b && p.vy == st.vy + c * b;
    } else {
      assert k == 0.0 && p == st;
    }
  }

  /** Pedals only act along the forward axis: the forward component grows by
      the pedal impulse, the lateral component is untouched, and nothing but
      the velocity changes. */
  lemma PedalsAlongForward(st: CarState, inp: Input, h: Handling, dt: real, c: real, s: real)
    requires c * c + s * s == 1.0
    ensures var p := Pedals(st, inp, h, dt, c, s);
      && Forward(p.vx, p.vy, c, s) == Forward(st.vx, st.vy, c, s) + PedalDelta(inp, h, dt)
      && Lateral(p.vx, p.vy, c, s) == Lateral(st.vx, st.vy, c, s)
      && p == st.(vx := p.vx, vy := p.vy)
  {
    PedalsShift(st, inp, h, dt, c, s);
    ShiftedState(st, c, s, PedalDelta(inp, h, dt), Pedals(st, inp, h, dt, c, s));
  }

  /** A state whose velocity alone was moved by `k` along the forward axis. */
  lemma ShiftedState(st: CarState, c: real, s: real, k: real, p: CarState)
    requires c * c + s * s == 1.0
    requires p == st.(vx := st.vx + s * k, vy := st.vy - c * k)
    ensures Forward(p.vx, p.vy, c, s) == Forward(st.vx, st.vy, c, s) + k
    ensures Lateral(p.vx, p.vy, c, s) == Lateral(st.vx, st.vy, c, s)
    ensures p == st.(vx := p.vx, vy := p.vy)
  {
    ShiftAlongForward(st.vx, st.vy, c, s, k);
  }

  // ---------------------------------------------------------------------
  // Stage: steering

  /** Speed-scaled steering authority: 0.35 at rest rising linearly to 1 at
      `speedForMaxSteer`. */
  function Authority(speed: real, speedForMaxSteer: real): (r: real)
    requires speedForMaxSteer > 0.0
    ensures speed >= 0.0 ==> MinAuthority <= r <= 1.0
    ensures speed >= speedForMaxSteer ==> r == 1.0
    ensures 0.0 <= speed <= speedForMaxSteer ==> r == MinAuthority + 0.65 * (speed / speedForMaxSteer)
  {
    MinAuthority + 0.65 * Min(1.0, speed / speedForMaxSteer)
  }

  /** The smoothing factor of one frame, `min(1, 12 * dt)`. */
  function AngularLerp(dt: real): (r: real)
    ensures dt >= 0.0 ==> 0.0 <= r <= 1.0
    ensures dt >= 1.0 / SmoothingGain ==> r == 1.0
    ensures r <= SmoothingGain * dt
  {
    Min(1.0, SmoothingGain * dt)
  }

  /** First-order smoothing of the angular velocity toward its target: the
      new value lies between the old value and the target, and snaps to the
      target once the frame is at least 1/12 s long. */
  function Smooth(current: real, target: real, dt: real): (r: real)
    ensures dt >= 0.0 ==> Min(current, target) <= r <= Max(current, target)
    ensures dt >= 1.0 / SmoothingGain ==> r == target
    ensures current == target ==> r == current
  {
    var k := AngularLerp(dt);
    if dt >= 0.0 then
      BlendBetween(current, target, k);
      current + (target - current) * k
    else
      current + (target - current) * k
  }

  /** The rotation rate the driver asks for, scaled by authority. */
  function TargetAngVel(inp: Input, h: Handling, speed: real): real
    requires h.speedForMaxSteer > 0.0
  {
    SteerInput(inp) * h.maxSteerRate * Authority(speed, h.speedForMaxSteer)
  }

  /** Full steer input always turns at no less than 35% of the maximum rate,
      whatever the speed. */
  lemma SteeringFloor(inp: Input, h: Handling, speed: real)
    requires h.speedForMaxSteer > 0.0 && h.maxSteerRate >= 0.0 && speed >= 0.0
    requires SteerInput(inp) == 1.0 || SteerInput(inp) == -1.0
    ensures Abs(TargetAngVel(inp, h, speed)) >= MinAuthority * h.maxSteerRate
    ensures Abs(TargetAngVel(inp, h, speed)) <= h.maxSteerRate
  {
    var a := Authority(speed, h.speedForMaxSteer);
    var m := h.maxSteerRate * a;
    assert MinAuthority * h.maxSteerRate <= m by {
      MulMonotone(MinAuthority, a, h.maxSteerRate);
    }
    assert m <= h.maxSteerRate by {
      FractionOf(h.maxSteerRate, a);
    }
    if SteerInput(inp) == 1.0 {
      assert TargetAngVel(inp, h, speed) == m;
    } else {
      assert TargetAngVel(inp, h, speed) == -m;
    }
  }

  /** Smooth the angular velocity, then turn the heading by it. */
  function Steer(st: CarState, inp: Input, h: Handling, dt: real, speed: real): CarState
    requires h.speedForMaxSteer > 0.0
  {
    var av := Smooth(st.angVel, TargetAngVel(inp, h, speed), dt);
    st.(angVel := av, ang := st.ang + av * dt)
  }

  // ---------------------------------------------------------------------
  // Stage: lateral friction, damping, integration

  /** Grip, cut by the handbrake multiplier while the handbrake is held. */
  function EffectiveGrip(h: Handling, handbrake: bool): real
  {
    h.baseGrip * (if handbrake then h.hbGripMul else 1.0)
  }

  /** Removes `lat0 * sideFriction * grip * dt` along the right axis, where
      `lat0` is the lateral component measured at the start of the frame. */
  function Friction(st: CarState, lat0: real, h: Handling, grip: real, dt: real, c: real, s: real): CarState
  {
    var kill := lat0 * h.sideFriction * grip * dt;
    st.(vx := st.vx - c * kill, vy := st.vy - s * kill)
  }

  /** Fraction of the lateral velocity that survives friction in one frame. */
  function Retention(h: Handling, grip: real, dt: real): real
  {
    1.0 - h.sideFriction * grip * dt
  }

  /** With orthonormal axes, friction measured against the current lateral
      component leaves the forward component alone and scales the lateral one
      by the retention factor. */
  lemma FrictionScalesLateral(st: CarState, h: Handling, grip: real, dt: real, c: real, s: real)
    requires c * c + s * s == 1.0
    ensures var lat := Lateral(st.vx, st.vy, c, s);
      var f := Friction(st, lat, h, grip, dt, c, s);
      && Forward(f.vx, f.vy, c, s) == Forward(st.vx, st.vy, c, s)
      && Lateral(f.vx, f.vy, c, s) == lat * Retention(h, grip, dt)
  {
    var lat := Lateral(st.vx, st.vy, c, s);
    var k := lat * h.sideFriction * grip * dt;
    var f := Friction(st, lat, h, grip, dt, c, s);
    assert f.vx == st.vx - c * k && f.vy == st.vy - s * k;
    ShiftAlongRight(st.vx, st.vy, c, s, k);
    assert lat - k == lat * (1.0 - h.sideFriction * grip * dt);
  }

  /** Less grip leaves at least as much sideways slide as more grip, as long
      as neither removes more than all of it in one frame. */
  lemma GripMonotone(lat: real, h: Handling, gripA: real, gripB: real, dt: real)
    requires 0.0 <= h.sideFriction * gripA * dt <= h.sideFriction * gripB * dt <= 1.0
    ensures Abs(lat * Retention(h, gripA, dt)) >= Abs(lat * Retention(h, gripB, dt))
  {
    var ra, rb := Retention(h, gripA, dt), Retention(h, gripB, dt);
    assert 0.0 <= rb <= ra;
    AbsOfScaled(lat, ra);
    AbsOfScaled(lat, rb);
    MulMonotone(rb, ra, Abs(lat));
  }

  /** The three multiplicative damping factors, in source order. */
  function Damp(st: CarState, h: Handling): CarState
  {
    st.(vx := st.vx * h.tyreDrag * h.airFriction * h.rollResist,
        vy := st.vy * h.tyreDrag * h.airFriction * h.rollResist)
  }

  /** Combined damping factor of one frame. */
  function DampFactor(h: Handling): real { h.tyreDrag * h.airFriction * h.rollResist }

  /** The three factors act as one: damping scales the velocity by their
      product and touches nothing else. */
  lemma DampScales(st: CarState, h: Handling)
    ensures Damp(st, h) == st.(vx := st.vx * DampFactor(h), vy := st.vy * DampFactor(h))
  {
  }

  /** Explicit Euler step of the position. */
  function Integrate(st: CarState, dt: real): CarState
  {
    st.(x := st.x + st.vx * dt, y := st.y + st.vy * dt)
  }

  /** The speed after the pedals, which sets steering authority. */
  function PedalSpeed(st: CarState, inp: Input, h: Handling, dt: real, c: real, s: real,
                      hypot: (real, real) -> real): real
  {
    var p := Pedals(st, inp, h, dt, c, s);
    hypot(p.vx, p.vy)
  }

  /** The whole dynamics step, before the wall loop. */
  function Drive(st: CarState, inp: Input, h: Handling, dt: real, c: real, s: real,
                 hypot: (real, real) -> real): CarState
    requires h.speedForMaxSteer > 0.0
  {
    var lat0 := Lateral(st.vx, st.vy, c, s);
    var p := Pedals(st, inp, h, dt, c, s);
    var t := Steer(p, inp, h, dt, hypot(p.vx, p.vy));
    var f := Friction(t, lat0, h, EffectiveGrip(h, inp.handbrake), dt, c, s);
    Integrate(Damp(f, h), dt)
  }

  /** The velocity after pedals, steering and friction, before damping,
      on the frame's initial axes. */
  lemma FrictionAfterPedals(st: CarState, inp: Input, h: Handling, dt: real, c: real, s: real,
                            speed: real)
    requires h.speedForMaxSteer > 0.0 && c * c + s * s == 1.0
    ensures var lat0 := Lateral(st.vx, st.vy, c, s);
      var t := Steer(Pedals(st, inp, h, dt, c, s), inp, h, dt, speed);
      var g := EffectiveGrip(h, inp.handbrake);
      var f := Friction(t, lat0, h, g, dt, c, s);
      && Forward(f.vx, f.vy, c, s) == Forward(st.vx, st.vy, c, s) + PedalDelta(inp, h, dt)
      && Lateral(f.vx, f.vy, c, s) == lat0 * Retention(h, g, dt)
      && f.w == st.w && f.l == st.l
  {
    var p := Pedals(st, inp, h, dt, c, s);
    PedalsAlongForward(st, inp, h, dt, c, s);
    var t := Steer(p, inp, h, dt, speed);
    assert t == p.(angVel := t.angVel, ang := t.ang);
    FrictionScalesLateral(t, h, EffectiveGrip(h, inp.handbrake), dt, c, s);
  }

  /** The frame's effect on velocity, measured on the frame's initial axes:
      the forward component gains the pedal impulse, the lateral component
      keeps the retention fraction, and both are then scaled by the damping
      factor. */
  lemma DriveVelocity(st: CarState, inp: Input, h: Handling, dt: real, c: real, s: real,
                      hypot: (real, real) -> real)
    requires h.speedForMaxSteer > 0.0 && c * c + s * s == 1.0
    ensures var d := Drive(st, inp, h, dt, c, s, hypot);
      var g := EffectiveGrip(h, inp.handbrake);
      && Forward(d.vx, d.vy, c, s) == (Forward(st.vx, st.vy, c, s) + PedalDelta(inp, h, dt)) * DampFactor(h)
      && Lateral(d.vx, d.vy, c, s) == Lateral(st.vx, st.vy, c, s) * Retention(h, g, dt) * DampFactor(h)
  {
    var f := DriveStages(st, inp, h, dt, c, s, hypot);
    DampThenIntegrate(f, h, dt, c, s, Drive(st, inp, h, dt, c, s, hypot));
  }

  /** The state `f` after pedals, steering and friction, from which the
      frame ends with damping and the position step. */
  lemma DriveStages(st: CarState, inp: Input, h: Handling, dt: real, c: real, s: real,
                    hypot: (real, real) -> real) returns (f: CarState)
    requires h.speedForMaxSteer > 0.0 && c * c + s * s == 1.0
    ensures Drive(st, inp, h, dt, c, s, hypot) == Integrate(Damp(f, h), dt)
    ensures Forward(f.vx, f.vy, c, s) == Forward(st.vx, st.vy, c, s) + PedalDelta(inp, h, dt)
    ensures Lateral(f.vx, f.vy, c, s) == Lateral(st.vx, st.vy, c, s) * Retention(h, EffectiveGrip(h, inp.handbrake), dt)
  {
    var p := Pedals(st, inp, h, dt, c, s);
    var t := Steer(p, inp, h, dt, hypot(p.vx, p.vy));
    f := Friction(t, Lateral(st.vx, st.vy, c, s), h, EffectiveGrip(h, inp.handbrake), dt, c, s);
    FrictionAfterPedals(st, inp, h, dt, c, s, hypot(p.vx, p.vy));
  }

  /** Damping scales both components by the damping factor, and the
      position step leaves the velocity alone. */
  lemma DampThenIntegrate(f: CarState, h: Handling, dt: real, c: real, s: real, d: CarState)
    requires d == Integrate(Damp(f, h), dt)
    ensures Forward(d.vx, d.vy, c, s) == Forward(f.vx, f.vy, c, s) * DampFactor(h)
    ensures Lateral(d.vx, d.vy, c, s) == Lateral(f.vx, f.vy, c, s) * DampFactor(h)
  {
    DampScales(f, h);
    ScaleComponents(f.vx, f.vy, c, s, DampFactor(h));
  }

  /** The frame never changes the footprint, and the position moves by the
      frame's final velocity times dt from where the frame began. */
  lemma DriveFrame(st: CarState, inp: Input, h: Handling, dt: real, c: real, s: real,
                   hypot: (real, real) -> real)
    requires h.speedForMaxSteer > 0.0
    ensures var d := Drive(st, inp, h, dt, c, s, hypot);
      && d.w == st.w && d.l == st.l
      && d.x == st.x + d.vx * dt && d.y == st.y + d.vy * dt
  {
  }

  /** With neither pedal held, a moving car loses speed every frame when the
      damping product lies in [0, 1) and the lateral retention in [0, 1]: the
      squared speed after the frame is strictly below the one before. */
  lemma IdleDecay(st: CarState, inp: Input, h: Handling, dt: real, c: real, s: real,
                  hypot: (real, real) -> real)
    requires h.speedForMaxSteer > 0.0 && c * c + s * s == 1.0
    requires !inp.throttle && !inp.brake
    requires 0.0 <= DampFactor(h) < 1.0
    requires 0.0 <= Retention(h, EffectiveGrip(h, inp.handbrake), dt) <= 1.0
    requires st.vx != 0.0 || st.vy != 0.0
    ensures var d := Drive(st, inp, h, dt, c, s, hypot);
      Sq(d.vx) + Sq(d.vy) < Sq(st.vx) + Sq(st.vy)
  {
    var d := Drive(st, inp, h, dt, c, s, hypot);
    var F, L := Forward(st.vx, st.vy, c, s), Lateral(st.vx, st.vy, c, s);
    var D, R := DampFactor(h), Retention(h, EffectiveGrip(h, inp.handbrake), dt);
    DriveVelocity(st, inp, h, dt, c, s, hypot);
    assert Forward(d.vx, d.vy, c, s) == F * D;
    assert Lateral(d.vx, d.vy, c, s) == (L * R) * D;
    DecompositionExact(d.vx, d.vy, c, s);
    DecompositionExact(st.vx, st.vy, c, s);
    assert Sq(d.vx) + Sq(d.vy) == Sq(F * D) + Sq((L * R) * D);
    assert Sq(st.vx) + Sq(st.vy) == Sq(F) + Sq(L);
    SqSumPositive(st.vx, st.vy);
    ComponentsShrink(F, L, R, D);
  }

  /** The arithmetic core of `IdleDecay`: scaling the forward component by
      `D` and the lateral one by `R * D` shrinks a positive squared length. */
  lemma ComponentsShrink(F: real, L: real, R: real, D: real)
    requires 0.0 <= R <= 1.0 && 0.0 <= D < 1.0
    requires Sq(F) + Sq(L) > 0.0
    ensures Sq(F * D) + Sq((L * R) * D) < Sq(F) + Sq(L)
  {
    SqProduct(F, D);
    SqProduct(L * R, D);
    SqProduct(L, R);
    SqNonNeg(F);
    SqNonNeg(L);
    SqFraction(R);
    SqFraction(D);
    NonNegProduct(Sq(L), Sq(R));
    FractionOf(Sq(L), Sq(R));
    SumScaled(Sq(F), Sq(L) * Sq(R), Sq(D));
    ShrinkSum(Sq(F), Sq(L), Sq(L) * Sq(R), Sq(D));
  }

  /** The shipped profile has every damping factor at 1.0: with no pedal held
      an idle frame keeps the forward speed unchanged and only scales the
      lateral slide by 1 − dt, so the car never coasts to rest along its
      heading. */
  lemma IdleKeepsForward(st: CarState, inp: Input, dt: real, c: real, s: real,
                         hypot: (real, real) -> real)
    requires c * c + s * s == 1.0
    requires !inp.throttle && !inp.brake
    ensures var d := Drive(st, inp, DefaultHandling, dt, c, s, hypot);
      && Forward(d.vx, d.vy, c, s) == Forward(st.vx, st.vy, c, s)
      && Lateral(d.vx, d.vy, c, s) == Lateral(st.vx, st.vy, c, s) * (1.0 - dt)
  {
    var h := DefaultHandling;
    DriveVelocity(st, inp, h, dt, c, s, hypot);
    assert DampFactor(h) == 1.0;
    assert Retention(h, EffectiveGrip(h, inp.handbrake), dt) == 1.0 - dt;
  }
}
