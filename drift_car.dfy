/** The drift demo's mutable state and its frame (scripts/drift.js): the car
    record that `updatePhysics` changes field by field, the track walls, and
    the frame driver `gameLoop` that clamps the time step and then runs the
    physics and the skid trail. */
module DriftCar {
  import opened RealFacts
  import opened Geometry
  import opened DriftDynamics
  import opened DriftCollision
  import opened DriftTrail

  /** `-Math.PI / 2` as a double. The forward axis at heading θ is
      (sin θ, −cos θ), so heading 0 points up the screen and the start heading
      points left, towards −x. */
  const StartAngle: real := -1.5707963267948966

  /** At the start heading (cos = 0 and sin = −1, up to the rounding of the
      double) the throttle pushes the car straight left: x velocity drops by
      `engine * dt` and nothing else changes. */
  lemma StartHeadsLeft(st: CarState, h: Handling, dt: real)
    ensures Pedals(st, Input(true, false, false, false, false, 0.0), h, dt, 0.0, -1.0)
            == st.(vx := st.vx - h.engine * dt)
    ensures Forward(-1.0, 0.0, 0.0, -1.0) == 1.0 && Lateral(-1.0, 0.0, 0.0, -1.0) == 0.0
  {
  }

  /** The car record at load time, for a canvas of the given size. */
  function StartState(canvasW: real, canvasH: real): CarState
  {
    CarState(canvasW - 260.0, canvasH - 90.0, StartAngle, 0.0, 0.0, 0.0, 28.0, 54.0)
  }

  /** The nine walls of the course, outer frame first. */
  function TrackWalls(canvasW: real, canvasH: real): (walls: seq<Rect>)
    ensures |walls| == 9
    ensures canvasW >= 601.0 && canvasH >= 301.0 ==>
              forall i :: 0 <= i < |walls| ==> walls[i].w > 0.0 && walls[i].h > 0.0
  {
    [ Rect(20.0, 20.0, canvasW - 40.0, 10.0),
      Rect(20.0, canvasH - 30.0, canvasW - 40.0, 10.0),
      Rect(20.0, 20.0, 10.0, canvasH - 40.0),
      Rect(canvasW - 30.0, 20.0, 10.0, canvasH - 40.0),
      Rect(200.0, 160.0, canvasW - 400.0, 10.0),
      Rect(200.0, canvasH - 180.0, canvasW - 400.0, 10.0),
      Rect(200.0, 160.0, 10.0, 120.0),
      Rect(canvasW - 210.0, canvasH - 300.0, 10.0, 120.0),
      Rect(350.0, 325.0, canvasW - 600.0, 10.0) ]
  }

  /** On a canvas big enough for the course, the car's starting box touches
      none of the walls. */
  lemma StartClearOfWalls(canvasW: real, canvasH: real)
    requires canvasW >= 700.0 && canvasH >= 500.0
    ensures var walls := TrackWalls(canvasW, canvasH);
      forall i :: 0 <= i < |walls| ==> !Intersects(CarBox(StartState(canvasW, canvasH)), walls[i])
  {
  }

  /** The frame step handed to the physics: the elapsed milliseconds as
      seconds, never more than 32 ms. */
  function ClampDt(elapsedMs: real): (dt: real)
    ensures dt <= MaxDt
    ensures elapsedMs >= 0.0 ==> dt >= 0.0
    ensures elapsedMs <= 32.0 ==> dt == elapsedMs / 1000.0
    ensures elapsedMs >= 32.0 ==> dt == MaxDt
  {
    Min(0.032, elapsedMs / 1000.0)
  }

  /** The mutable `carState` record. */
  class Car {
    var x: real
    var y: real
    var ang: real
    var vx: real
    var vy: real
    var angVel: real
    const w: real
    const l: real

    /** A value copy of the record. */
    function State(): CarState
      reads this
    {
      CarState(x, y, ang, vx, vy, angVel, w, l)
    }

    /** The record as the page creates it. */
    constructor (canvasW: real, canvasH: real)
      ensures State() == StartState(canvasW, canvasH)
    {
      x, y, ang := canvasW - 260.0, canvasH - 90.0, StartAngle;
      vx, vy, angVel := 0.0, 0.0, 0.0;
      w, l := 28.0, 54.0;
    }

    /** `updatePhysics`: one step of length `dt` under the held `keys`, the
        steering pad value `analogX`, the handling profile `h`, and the
        walls, where `cos`, `sin` and `hypot` stand for `Math.cos`,
        `Math.sin` and `Math.hypot`. The car ends where the dynamics take
        it, pushed out of the walls that overlap its post-integration box. */
    method UpdatePhysics(keys: set<string>, analogX: real, h: Handling, dt: real, walls: seq<Rect>,
                         cos: real -> real, sin: real -> real, hypot: (real, real) -> real)
      requires h.speedForMaxSteer > 0.0
      modifies this
      ensures var d := Drive(old(State()), ReadInput(keys, analogX), h, dt, cos(old(ang)), sin(old(ang)), hypot);
        State() == ResolveAll(d, CarBox(d), walls)
    {
      var inp := ReadInput(keys, analogX);
      var c, s := cos(ang), sin(ang);
      var lateral := Lateral(vx, vy, c, s);
      ApplyPedals(inp, h, dt, c, s);
      var speed := hypot(vx, vy);
      ApplySteering(inp, h, dt, speed);
      ApplyFriction(lateral, h, EffectiveGrip(h, inp.handbrake), dt, c, s);
      ApplyDamping(h);
      IntegratePosition(dt);
      ResolveWalls(walls);
    }

    /** Throttle, then brake, along the forward axis (sin θ, −cos θ). */
    method ApplyPedals(inp: Input, h: Handling, dt: real, c: real, s: real)
      modifies this`vx, this`vy
      ensures State() == Pedals(old(State()), inp, h, dt, c, s)
    {
      var fwdX, fwdY := s, -c;
      if inp.throttle {
        vx := vx + fwdX * h.engine * dt;
        vy := vy + fwdY * h.engine * dt;
      }
      if inp.brake {
        vx := vx - fwdX * h.brake * dt;
        vy := vy - fwdY * h.brake * dt;
      }
    }

    /** Smooth the angular velocity toward the authority-scaled target, then
        turn the heading. */
    method ApplySteering(inp: Input, h: Handling, dt: real, speed: real)
      requires h.speedForMaxSteer > 0.0
      modifies this`angVel, this`ang
      ensures State() == Steer(old(State()), inp, h, dt, speed)
    {
      var authority := Authority(speed, h.speedForMaxSteer);
      var target := SteerInput(inp) * h.maxSteerRate * authority;
      var lerp := AngularLerp(dt);
      angVel := angVel + (target - angVel) * lerp;
      ang := ang + angVel * dt;
    }

    /** Remove the lateral kill along the right axis (cos θ, sin θ). */
    method ApplyFriction(lateral: real, h: Handling, grip: real, dt: real, c: real, s: real)
      modifies this`vx, this`vy
      ensures State() == Friction(old(State()), lateral, h, grip, dt, c, s)
    {
      var rightX, rightY := c, s;
      var kill := lateral * h.sideFriction * grip * dt;
      vx := vx - rightX * kill;
      vy := vy - rightY * kill;
    }

    /** Tyre drag, air friction and rolling resistance, in that order. */
    method ApplyDamping(h: Handling)
      modifies this`vx, this`vy
      ensures State() == Damp(old(State()), h)
    {
      vx := vx * h.tyreDrag;
      vy := vy * h.tyreDrag;
      vx := vx * h.airFriction;
      vy := vy * h.airFriction;
      vx := vx * h.rollResist;
      vy := vy * h.rollResist;
    }

    /** Move by the velocity times the step. */
    method IntegratePosition(dt: real)
      modifies this`x, this`y
      ensures State() == Integrate(old(State()), dt)
    {
      x := x + vx * dt;
      y := y + vy * dt;
    }

    /** The wall loop, against the box built once before it. */
    method ResolveWalls(walls: seq<Rect>)
      modifies this`x, this`y, this`vx, this`vy
      ensures State() == ResolveAll(old(State()), CarBox(old(State())), walls)
    {
      ghost var d := State();
      var box := Rect(x - w / 2.0, y - l / 2.0, w, l);
      for i := 0 to |walls|
        invariant State() == ResolveAll(d, box, walls[..i])
      {
        var wall := walls[i];
        assert walls[..i + 1][..i] == walls[..i];
        if Intersects(box, wall) {
          var overlapRight := wall.x + wall.w - box.x;
          var overlapLeft := box.x + box.w - wall.x;
          var overlapBottom := wall.y + wall.h - box.y;
          var overlapTop := box.y + box.h - wall.y;
          var minOverlapX := Min(overlapRight, overlapLeft);
          var minOverlapY := Min(overlapBottom, overlapTop);
          if minOverlapX < minOverlapY {
            var pushDirX := if overlapRight < overlapLeft then 1.0 else -1.0;
            x := x + pushDirX * (minOverlapX + 0.5);
            vx := 0.0;
          } else {
            var pushDirY := if overlapBottom < overlapTop then 1.0 else -1.0;
            y := y + pushDirY * (minOverlapY + 0.5);
            vy := 0.0;
          }
        }
      }
      assert walls[..|walls|] == walls;
    }
  }

  /** The page-level state of the demo: the car, its skid rails, the walls,
      the held keys and the steering pad, and the last frame's timestamp. */
  class DriftGame {
    const car: Car
    const trail: SkidTrail
    const walls: seq<Rect>
    var keys: set<string>
    var analogX: real
    var lastFrameTime: real

    ghost predicate Valid()
      reads this, trail
    {
      trail.Valid() && -1.0 <= analogX <= 1.0
    }

    /** Page load: the car at its start, empty rails, no keys, centred pad. */
    constructor (canvasW: real, canvasH: real, now: real)
      ensures Valid() && fresh(car) && fresh(trail)
      ensures car.State() == StartState(canvasW, canvasH)
      ensures walls == TrackWalls(canvasW, canvasH)
      ensures trail.left == [] && trail.right == []
      ensures keys == {} && analogX == 0.0 && lastFrameTime == now
    {
      car := new Car(canvasW, canvasH);
      trail := new SkidTrail();
      walls := TrackWalls(canvasW, canvasH);
      keys := {};
      analogX := 0.0;
      lastFrameTime := now;
    }

    /** A `keydown` event marks the key held. */
    method KeyDown(key: string)
      modifies this`keys
      ensures keys == old(keys) + {key}
    {
      keys := keys + {key};
    }

    /** A `keyup` event marks the key released. */
    method KeyUp(key: string)
      modifies this`keys
      ensures keys == old(keys) - {key}
    {
      keys := keys - {key};
    }

    /** `gameLoop(nowMs)`: clamp the step, run the physics with the shipped
        handling profile, then update the skid rails from the new car state. */
    method Frame(nowMs: real, cos: real -> real, sin: real -> real, hypot: (real, real) -> real)
      requires Valid()
      modifies this`lastFrameTime, car, trail
      ensures Valid()
      ensures lastFrameTime == nowMs
      ensures var dt := ClampDt(nowMs - old(lastFrameTime));
        var d := Drive(old(car.State()), ReadInput(keys, analogX), DefaultHandling, dt,
                       cos(old(car.ang)), sin(old(car.ang)), hypot);
        car.State() == ResolveAll(d, CarBox(d), walls)
      ensures var st := car.State();
        var skidding := SkidSpeed(st, cos(st.ang), sin(st.ang)) > SkidThreshold;
        && trail.left == TrailStep(old(trail.left), LeftMark(st, cos(st.ang), sin(st.ang)), skidding)
        && trail.right == TrailStep(old(trail.right), RightMark(st, cos(st.ang), sin(st.ang)), skidding)
    {
      var dt := ClampDt(nowMs - lastFrameTime);
      lastFrameTime := nowMs;
      car.UpdatePhysics(keys, analogX, DefaultHandling, dt, walls, cos, sin, hypot);
      trail.Update(car.State(), cos(car.ang), sin(car.ang));
    }
  }
}
