/** The wall pass at the end of the drift car's physics step
    (scripts/drift.js:238-261): the car's box is built once from the
    integrated position, then every wall that overlaps that box pushes the car
    out along the axis of least overlap and zeroes the velocity component on
    that axis. */
module DriftCollision {
  import opened RealFacts
  import opened Geometry
  import opened DriftDynamics

  /** The car's axis-aligned box, centred on its position; the box ignores the
      heading. */
  function CarBox(st: CarState): (r: Rect)
    ensures r.w == st.w && r.h == st.l
    ensures r.x + r.w / 2.0 == st.x && r.y + r.h / 2.0 == st.y
  {
    Rect(st.x - st.w / 2.0, st.y - st.l / 2.0, st.w, st.l)
  }

  /** How far the car box would have to move right to clear the wall. */
  function OverlapRight(box: Rect, wall: Rect): real { wall.x + wall.w - box.x }

  /** How far the car box would have to move left to clear the wall. */
  function OverlapLeft(box: Rect, wall: Rect): real { box.x + box.w - wall.x }

  /** How far the car box would have to move down to clear the wall. */
  function OverlapBottom(box: Rect, wall: Rect): real { wall.y + wall.h - box.y }

  /** How far the car box would have to move up to clear the wall. */
  function OverlapTop(box: Rect, wall: Rect): real { box.y + box.h - wall.y }

  function MinOverlapX(box: Rect, wall: Rect): real { Min(OverlapRight(box, wall), OverlapLeft(box, wall)) }

  function MinOverlapY(box: Rect, wall: Rect): real { Min(OverlapBottom(box, wall), OverlapTop(box, wall)) }

  /** +1 (push right) exactly when clearing to the right is strictly shorter. */
  function PushDirX(box: Rect, wall: Rect): real
  {
    if OverlapRight(box, wall) < OverlapLeft(box, wall) then 1.0 else -1.0
  }

  /** +1 (push down) exactly when clearing downwards is strictly shorter. */
  function PushDirY(box: Rect, wall: Rect): real
  {
    if OverlapBottom(box, wall) < OverlapTop(box, wall) then 1.0 else -1.0
  }

  /** One wall of the loop: `box` is the box built before the loop, `st` the
      car as left by the earlier walls. */
  function ResolveWall(st: CarState, box: Rect, wall: Rect): CarState
  {
    if !Intersects(box, wall) then st
    else if MinOverlapX(box, wall) < MinOverlapY(box, wall) then
      st.(x := st.x + PushDirX(box, wall) * (MinOverlapX(box, wall) + 0.5), vx := 0.0)
    else
      st.(y := st.y + PushDirY(box, wall) * (MinOverlapY(box, wall) + 0.5), vy := 0.0)
  }

  /** The whole loop over the wall list, in list order, always against the
      same box. */
  function ResolveAll(st: CarState, box: Rect, walls: seq<Rect>): CarState
    decreases |walls|
  {
    if |walls| == 0 then st
    else ResolveWall(ResolveAll(st, box, walls[..|walls| - 1]), box, walls[|walls| - 1])
  }

  /** Overlapping boxes have positive overlaps on all four sides. */
  lemma OverlapsPositive(box: Rect, wall: Rect)
    requires Intersects(box, wall)
    ensures OverlapRight(box, wall) > 0.0 && OverlapLeft(box, wall) > 0.0
    ensures OverlapBottom(box, wall) > 0.0 && OverlapTop(box, wall) > 0.0
    ensures MinOverlapX(box, wall) > 0.0 && MinOverlapY(box, wall) > 0.0
  {
  }

  /** A wall that does not overlap the box leaves the car exactly as it was. */
  lemma MissLeavesUnchanged(st: CarState, box: Rect, wall: Rect)
    requires !Intersects(box, wall) || !Intersects(wall, box)
    ensures ResolveWall(st, box, wall) == st
  {
    IntersectsSymmetric(box, wall);
  }

  /** The resolved axis: the push is horizontal exactly when the smaller
      horizontal overlap is strictly below the smaller vertical one (ties go
      vertical). A horizontal push moves only `x`, rightwards exactly when the
      right overlap is the strictly shorter one, by the overlap plus 0.5, and
      zeroes only `vx`; a vertical push is the same on the other axis.
      Heading, spin and footprint never change. */
  lemma PushAxis(st: CarState, box: Rect, wall: Rect)
    requires Intersects(box, wall)
    ensures var r := ResolveWall(st, box, wall);
      && r.ang == st.ang && r.angVel == st.angVel && r.w == st.w && r.l == st.l
      && (MinOverlapX(box, wall) < MinOverlapY(box, wall) ==>
            && r.y == st.y && r.vy == st.vy && r.vx == 0.0
            && (r.x > st.x <==> OverlapRight(box, wall) < OverlapLeft(box, wall))
            && Abs(r.x - st.x) == MinOverlapX(box, wall) + 0.5)
      && (MinOverlapX(box, wall) >= MinOverlapY(box, wall) ==>
            && r.x == st.x && r.vx == st.vx && r.vy == 0.0
            && (r.y > st.y <==> OverlapBottom(box, wall) < OverlapTop(box, wall))
            && Abs(r.y - st.y) == MinOverlapY(box, wall) + 0.5)
  {
    OverlapsPositive(box, wall);
  }

  /** Push-out separates: when the box is the car's own current box, the box
      rebuilt from the pushed position no longer overlaps the wall, and a gap
      of exactly 0.5 lies between them on the resolved axis. */
  lemma PushSeparates(st: CarState, wall: Rect)
    requires Intersects(CarBox(st), wall)
    ensures var r := ResolveWall(st, CarBox(st), wall);
      var nb := CarBox(r);
      && !Intersects(nb, wall)
      && (nb.x == wall.x + wall.w + 0.5 || nb.x + nb.w == wall.x - 0.5 ||
          nb.y == wall.y + wall.h + 0.5 || nb.y + nb.h == wall.y - 0.5)
  {
    var box := CarBox(st);
    OverlapsPositive(box, wall);
    var r := ResolveWall(st, box, wall);
    var nb := CarBox(r);
    if MinOverlapX(box, wall) < MinOverlapY(box, wall) {
      if OverlapRight(box, wall) < OverlapLeft(box, wall) {
        assert nb.x == wall.x + wall.w + 0.5;
      } else {
        assert nb.x + nb.w == wall.x - 0.5;
      }
    } else {
      if OverlapBottom(box, wall) < OverlapTop(box, wall) {
        assert nb.y == wall.y + wall.h + 0.5;
      } else {
        assert nb.y + nb.h == wall.y - 0.5;
      }
    }
  }

  /** If no wall overlaps the box built before the loop, the loop changes
      nothing, whatever the earlier walls would have done to a fresh box. */
  lemma {:induction false} AllMissLeavesUnchanged(st: CarState, box: Rect, walls: seq<Rect>)
    requires forall i :: 0 <= i < |walls| ==> !Intersects(box, walls[i])
    ensures ResolveAll(st, box, walls) == st
    decreases |walls|
  {
    if |walls| > 0 {
      var prefix := walls[..|walls| - 1];
      assert forall i :: 0 <= i < |prefix| ==> prefix[i] == walls[i];
      AllMissLeavesUnchanged(st, box, prefix);
      MissLeavesUnchanged(st, box, walls[|walls| - 1]);
    }
  }

  /** Whatever the walls, the loop leaves heading, spin and footprint alone,
      and each velocity component either keeps its value or ends at zero. */
  lemma {:induction false} ResolveAllFrame(st: CarState, box: Rect, walls: seq<Rect>)
    ensures var r := ResolveAll(st, box, walls);
      && r.ang == st.ang && r.angVel == st.angVel && r.w == st.w && r.l == st.l
      && (r.vx == st.vx || r.vx == 0.0) && (r.vy == st.vy || r.vy == 0.0)
    decreases |walls|
  {
    if |walls| > 0 {
      var prefix := walls[..|walls| - 1];
      ResolveAllFrame(st, box, prefix);
      var q := ResolveAll(st, box, prefix);
      var wall := walls[|walls| - 1];
      if Intersects(box, wall) {
        PushAxis(q, box, wall);
      }
    }
  }

  /** A worked case: a 20 x 40 car centred at (100, 100) nosing 5 px into a
      tall wall on its right is pushed 5.5 px left and loses only `vx`. */
  lemma SideWallExample()
    ensures var st := CarState(100.0, 100.0, 0.0, 30.0, -7.0, 0.0, 20.0, 40.0);
      var wall := Rect(105.0, 0.0, 50.0, 300.0);
      ResolveAll(st, CarBox(st), [wall]) == st.(x := 94.5, vx := 0.0)
  {
    var st := CarState(100.0, 100.0, 0.0, 30.0, -7.0, 0.0, 20.0, 40.0);
    var wall := Rect(105.0, 0.0, 50.0, 300.0);
    assert [wall][..0] == [];
    assert MinOverlapX(CarBox(st), wall) == 5.0;
    assert MinOverlapY(CarBox(st), wall) == 120.0;
  }

  /** The box is not rebuilt inside the loop: the same wall listed twice
      pushes the car twice, 11 px in all, although one push already cleared
      it. */
  lemma StaleBoxExample()
    ensures var st := CarState(100.0, 100.0, 0.0, 30.0, -7.0, 0.0, 20.0, 40.0);
      var wall := Rect(105.0, 0.0, 50.0, 300.0);
      && !Intersects(CarBox(ResolveAll(st, CarBox(st), [wall])), wall)
      && ResolveAll(st, CarBox(st), [wall, wall]) == st.(x := 89.0, vx := 0.0)
  {
    var st := CarState(100.0, 100.0, 0.0, 30.0, -7.0, 0.0, 20.0, 40.0);
    var wall := Rect(105.0, 0.0, 50.0, 300.0);
    SideWallExample();
    assert [wall, wall][..1] == [wall];
    assert MinOverlapX(CarBox(st), wall) == 5.0;
    assert MinOverlapY(CarBox(st), wall) == 120.0;
  }
}
