/** The skid-mark rails of the drift demo (scripts/drift.js:161-168, 280-292
    and the trail half of `drawScene`, 345-385): while the car's measured skid
    speed exceeds the threshold, one mark per rear wheel is appended to each
    rail and the oldest mark is evicted once a rail holds more than 600; then
    every mark on both rails fades by 0.98. */
module DriftTrail {
  import opened RealFacts
  import opened DriftDynamics

  /** One skid dot: world position and opacity. */
  datatype Mark = Mark(x: real, y: real, alpha: real)

  /** A world-space point. */
  datatype Point = Point(x: real, y: real)

  const MaxSkidPoints: nat := 600
  const SkidFade: real := 0.98
  const SkidAlpha: real := 0.5
  const SkidThreshold: real := 40.0

  // ---------------------------------------------------------------------
  // Car-local to world coordinates

  /** Car-local (x right, y towards the tail) to world coordinates, for a car
      whose heading has cosine `c` and sine `s`. */
  function LocalToWorld(st: CarState, c: real, s: real, xl: real, yl: real): Point
  {
    Point(st.x + xl * c - yl * s, st.y + xl * s - yl * -c)
  }

  /** The inverse map: project the offset from the car onto its right axis
      and onto its tail axis. */
  function WorldToLocal(st: CarState, c: real, s: real, p: Point): Point
  {
    var dx, dy := p.x - st.x, p.y - st.y;
    Point(dx * c + dy * s, dx * -s + dy * c)
  }

  /** With orthonormal axes, mapping a local point to the world and back
      gives the point again, so distinct wheel offsets land on distinct world
      points. */
  lemma LocalWorldRoundTrip(st: CarState, c: real, s: real, xl: real, yl: real)
    requires c * c + s * s == 1.0
    ensures WorldToLocal(st, c, s, LocalToWorld(st, c, s, xl, yl)) == Point(xl, yl)
  {
    var p := LocalToWorld(st, c, s, xl, yl);
    var dx, dy := p.x - st.x, p.y - st.y;
    assert dx == xl * c - yl * s && dy == xl * s + yl * c;
    RotateBack(xl, yl, c, s, dx, dy);
  }

  /** The rotation algebra behind the round trip. */
  lemma RotateBack(xl: real, yl: real, c: real, s: real, dx: real, dy: real)
    requires c * c + s * s == 1.0
    requires dx == xl * c - yl * s && dy == xl * s + yl * c
    ensures dx * c + dy * s == xl && dx * -s + dy * c == yl
  {
    calc {
      dx * c + dy * s;
      (xl * c - yl * s) * c + (xl * s + yl * c) * s;
      xl * (c * c + s * s);
      xl;
    }
    calc {
      dx * -s + dy * c;
      -(xl * c - yl * s) * s + (xl * s + yl * c) * c;
      yl * (c * c + s * s);
      yl;
    }
  }

  // ---------------------------------------------------------------------
  // What the trail reads from the car

  /** The speed the trail compares with the threshold:
      `|vx * -sin θ + vy * cos θ|`. */
  function SkidSpeed(st: CarState, c: real, s: real): real
  {
    Abs(st.vx * -s + st.vy * c)
  }

  /** The measured skid speed is the magnitude of the FORWARD component of
      the velocity, not the lateral one. */
  lemma SkidSpeedIsForward(st: CarState, c: real, s: real)
    ensures SkidSpeed(st, c, s) == Abs(Forward(st.vx, st.vy, c, s))
  {
    assert st.vx * -s + st.vy * c == -Forward(st.vx, st.vy, c, s);
  }

  /** A car sliding straight sideways leaves no marks, and one rolling
      straight ahead faster than the threshold does. */
  lemma SkidSpeedExamples()
    ensures SkidSpeed(CarState(0.0, 0.0, 0.0, 100.0, 0.0, 0.0, 28.0, 54.0), 1.0, 0.0) == 0.0
    ensures SkidSpeed(CarState(0.0, 0.0, 0.0, 0.0, -100.0, 0.0, 28.0, 54.0), 1.0, 0.0) > SkidThreshold
  {
  }

  /** Half the track width of the rear wheels. */
  function WheelOffsetX(st: CarState): real { st.w / 2.0 - 6.0 }

  /** Local y of the rear axle (positive y is towards the tail). */
  function RearAxleLocalY(st: CarState): real { st.l / 2.0 - 18.0 }

  /** The mark the left rear wheel leaves. */
  function LeftMark(st: CarState, c: real, s: real): Mark
  {
    var p := LocalToWorld(st, c, s, -WheelOffsetX(st), RearAxleLocalY(st));
    Mark(p.x, p.y, SkidAlpha)
  }

  /** The mark the right rear wheel leaves. */
  function RightMark(st: CarState, c: real, s: real): Mark
  {
    var p := LocalToWorld(st, c, s, WheelOffsetX(st), RearAxleLocalY(st));
    Mark(p.x, p.y, SkidAlpha)
  }

  /** With orthonormal axes the two rear marks lie in the car's frame at
      exactly (∓(w/2 − 6), l/2 − 18). */
  lemma RearMarksPlacement(st: CarState, c: real, s: real)
    requires c * c + s * s == 1.0
    ensures var ml := LeftMark(st, c, s);
      WorldToLocal(st, c, s, Point(ml.x, ml.y)) == Point(-WheelOffsetX(st), RearAxleLocalY(st))
    ensures var mr := RightMark(st, c, s);
      WorldToLocal(st, c, s, Point(mr.x, mr.y)) == Point(WheelOffsetX(st), RearAxleLocalY(st))
  {
    LocalWorldRoundTrip(st, c, s, -WheelOffsetX(st), RearAxleLocalY(st));
    LocalWorldRoundTrip(st, c, s, WheelOffsetX(st), RearAxleLocalY(st));
  }

  // ---------------------------------------------------------------------
  // One rail, as values

  /** `push` then at most one `shift`. */
  function Record(rail: seq<Mark>, m: Mark): seq<Mark>
  {
    var r := rail + [m];
    if |r| > MaxSkidPoints then r[1..] else r
  }

  /** Every mark's opacity times 0.98, positions kept. */
  function FadeAll(rail: seq<Mark>): seq<Mark>
  {
    seq(|rail|, i requires 0 <= i < |rail| => rail[i].(alpha := rail[i].alpha * SkidFade))
  }

  /** One frame of one rail: record when the car skids, then fade. */
  function TrailStep(rail: seq<Mark>, m: Mark, skidding: bool): seq<Mark>
  {
    FadeAll(if skidding then Record(rail, m) else rail)
  }

  /** Recording keeps a rail within the cap; a rail below the cap grows by
      one and a full rail keeps its length. */
  lemma RecordLength(rail: seq<Mark>, m: Mark)
    requires |rail| <= MaxSkidPoints
    ensures |Record(rail, m)| <= MaxSkidPoints
    ensures |Record(rail, m)| == if |rail| < MaxSkidPoints then |rail| + 1 else MaxSkidPoints
  {
  }

  /** Recording is first-in first-out: the new mark is the last one, and the
      rest is the old rail, minus its oldest mark exactly when the rail was
      full. */
  lemma RecordFifo(rail: seq<Mark>, m: Mark)
    requires |rail| <= MaxSkidPoints
    ensures var r := Record(rail, m);
      && r[|r| - 1] == m
      && r[..|r| - 1] == (if |rail| == MaxSkidPoints then rail[1..] else rail)
  {
    var r := Record(rail, m);
    if |rail| == MaxSkidPoints {
      assert r == rail[1..] + [m];
    } else {
      assert r == rail + [m];
    }
  }

  /** Rails of equal length stay equal in length after a frame that treats
      both the same way, and never pass the cap. */
  lemma StepKeepsRailsPaired(left: seq<Mark>, right: seq<Mark>, ml: Mark, mr: Mark, skidding: bool)
    requires |left| == |right| <= MaxSkidPoints
    ensures |TrailStep(left, ml, skidding)| == |TrailStep(right, mr, skidding)| <= MaxSkidPoints
  {
    if skidding {
      RecordLength(left, ml);
      RecordLength(right, mr);
    }
  }

  /** After a frame every mark that was already on the rail (and not
      evicted) keeps its place in the order and its position, with exactly
      0.98 of its opacity; a mark recorded this frame ends at 0.5 · 0.98. */
  lemma StepFadesEveryMark(rail: seq<Mark>, m: Mark, skidding: bool)
    requires |rail| <= MaxSkidPoints
    ensures var r := TrailStep(rail, m, skidding);
      var kept := if skidding && |rail| == MaxSkidPoints then rail[1..] else rail;
      && |r| == |kept| + (if skidding then 1 else 0)
      && (forall i :: 0 <= i < |kept| ==>
            r[i].x == kept[i].x && r[i].y == kept[i].y && r[i].alpha == kept[i].alpha * SkidFade)
      && (skidding ==> r[|r| - 1] == m.(alpha := m.alpha * SkidFade))
  {
    if skidding {
      RecordFifo(rail, m);
    }
  }

  /** A recorded mark starts at 0.5 and has faded to 0.49 by the end of the
      frame that added it. */
  lemma NewMarkEndsFaded(st: CarState, c: real, s: real, rail: seq<Mark>)
    requires |rail| <= MaxSkidPoints
    ensures var r := TrailStep(rail, LeftMark(st, c, s), true);
      r[|r| - 1].alpha == SkidAlpha * SkidFade == 0.49
  {
    StepFadesEveryMark(rail, LeftMark(st, c, s), true);
  }

  /** All opacities in (0, 0.5]. */
  predicate Dim(rail: seq<Mark>)
  {
    forall i :: 0 <= i < |rail| ==> 0.0 < rail[i].alpha <= SkidAlpha
  }

  /** The opacity bound is kept by every frame: marks start at 0.5 and only
      fade, never vanish in finite time. */
  lemma StepKeepsDim(rail: seq<Mark>, st: CarState, c: real, s: real, skidding: bool)
    requires |rail| <= MaxSkidPoints && Dim(rail)
    ensures Dim(TrailStep(rail, LeftMark(st, c, s), skidding))
    ensures Dim(TrailStep(rail, RightMark(st, c, s), skidding))
  {
    StepFadesEveryMark(rail, LeftMark(st, c, s), skidding);
    StepFadesEveryMark(rail, RightMark(st, c, s), skidding);
  }

  // ---------------------------------------------------------------------
  // The two rails as the mutable arrays of the demo

  /** The pair `skidMarksLeft` / `skidMarksRight`. */
  class SkidTrail {
    var left: seq<Mark>
    var right: seq<Mark>

    /** Both rails have the same length, at most the cap. */
    ghost predicate Valid()
      reads this
    {
      |left| == |right| <= MaxSkidPoints
    }

    /** Both rails start empty. */
    constructor ()
      ensures left == [] && right == [] && Valid()
    {
      left := [];
      right := [];
    }

    /** The trail half of one `drawScene` call, for the car state `st` whose
        heading has cosine `c` and sine `s`. */
    method Update(st: CarState, c: real, s: real)
      requires Valid()
      modifies this
      ensures Valid()
      ensures var skidding := SkidSpeed(st, c, s) > SkidThreshold;
        && left == TrailStep(old(left), LeftMark(st, c, s), skidding)
        && right == TrailStep(old(right), RightMark(st, c, s), skidding)
    {
      var skidding := SkidSpeed(st, c, s) > SkidThreshold;
      if skidding {
        left := left + [LeftMark(st, c, s)];
        right := right + [RightMark(st, c, s)];
        if |left| > MaxSkidPoints {
          left := left[1..];
        }
        if |right| > MaxSkidPoints {
          right := right[1..];
        }
      }
      assert left == (if skidding then Record(old(left), LeftMark(st, c, s)) else old(left));
      assert right == (if skidding then Record(old(right), RightMark(st, c, s)) else old(right));
      StepKeepsRailsPaired(old(left), old(right), LeftMark(st, c, s), RightMark(st, c, s), skidding);
      left := Fade(left);
      right := Fade(right);
    }

    /** The `mark.alpha *= SKID_FADE` loop over one rail. */
    static method Fade(rail: seq<Mark>) returns (r: seq<Mark>)
      ensures r == FadeAll(rail)
    {
      r := rail;
      for i := 0 to |r|
        invariant |r| == |rail|
        invariant forall j :: 0 <= j < i ==> r[j] == rail[j].(alpha := rail[j].alpha * SkidFade)
        invariant forall j :: i <= j < |r| ==> r[j] == rail[j]
      {
        r := r[i := r[i].(alpha := r[i].alpha * SkidFade)];
      }
    }
  }
}
