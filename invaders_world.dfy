/** The moving parts of the invaders game (scripts/invaders.js): the player's
    cannon, the two bullet lists, and the wave of enemies that marches
    sideways, fires at random and steps down at the edges. Each list pass of
    `update` is a loop method proved against a function on sequences. */
module InvadersWorld {
  import opened RealFacts
  import opened Geometry

  /** `gameMode`: 'menu', 'playing' or 'gameover'. */
  datatype Mode = Menu | Playing | GameOver

  /** A bullet of either side: box and vertical speed per 60 Hz frame. */
  datatype Bullet = Bullet(x: real, y: real, w: real, h: real, vy: real)

  /** An enemy ship. `hp` is set but never read by the game. */
  datatype Enemy = Enemy(x: real, y: real, w: real, h: real, hp: int)

  function BulletBox(b: Bullet): Rect { Rect(b.x, b.y, b.w, b.h) }

  function EnemyBox(e: Enemy): Rect { Rect(e.x, e.y, e.w, e.h) }

  // Tuning constants.
  const Cols: nat := 10
  const Rows: nat := 4
  const GapX: real := 12.0
  const GapY: real := 16.0
  const EnemyW: real := 42.0
  const EnemyH: real := 18.0
  const WaveTop: real := 60.0
  const MoveSpeed: real := 4.0
  const ShotCooldown: real := 10.0
  const EnemyStepDown: real := 15.0
  const InitialSpeed: real := 0.6
  const InitialFireRate: real := 0.002
  const SpeedIncrement: real := 0.25
  const FireRateIncrement: real := 0.0005
  const InitialLives: int := 3
  const PointsPerHit: int := 10
  const EdgeMargin: real := 10.0
  const PlayerMargin: real := 20.0

  // ---------------------------------------------------------------------
  // The wave

  /** Left edge of the wave: the 10 columns and their 9 gaps are centred. */
  function WaveLeft(canvasW: real): real
  {
    (canvasW - (Cols as real * EnemyW + (Cols - 1) as real * GapX)) / 2.0
  }

  /** The enemy of row `r`, column `c`. */
  function WaveEnemy(canvasW: real, r: nat, c: nat): Enemy
  {
    Enemy(WaveLeft(canvasW) + c as real * (EnemyW + GapX), WaveTop + r as real * (EnemyH + GapY),
          EnemyW, EnemyH, 1)
  }

  /** The first `n` enemies pushed, row by row. */
  function WavePrefix(canvasW: real, n: nat): seq<Enemy>
  {
    seq(n, k requires 0 <= k => WaveEnemy(canvasW, k / Cols, k % Cols))
  }

  /** The full wave of `spawnEnemies`. */
  function Wave(canvasW: real): seq<Enemy>
  {
    WavePrefix(canvasW, Rows * Cols)
  }

  /** `spawnEnemies`: rows in the outer loop, columns in the inner one. */
  method SpawnEnemies(canvasW: real) returns (enemies: seq<Enemy>)
    ensures enemies == Wave(canvasW)
  {
    enemies := [];
    var startX := (canvasW - (Cols as real * EnemyW + (Cols - 1) as real * GapX)) / 2.0;
    for r := 0 to Rows
      invariant enemies == WavePrefix(canvasW, r * Cols)
    {
      for c := 0 to Cols
        invariant enemies == WavePrefix(canvasW, r * Cols + c)
      {
        var k := r * Cols + c;
        assert k / Cols == r && k % Cols == c;
        enemies := enemies + [Enemy(startX + c as real * (EnemyW + GapX),
                                    WaveTop + r as real * (EnemyH + GapY), EnemyW, EnemyH, 1)];
      }
    }
  }

  /** Index `k` of the wave is row `k / 10`, column `k % 10`. */
  lemma WaveAt(canvasW: real, k: nat)
    requires k < Rows * Cols
    ensures Wave(canvasW)[k] == WaveEnemy(canvasW, k / Cols, k % Cols)
    ensures k / Cols < Rows && k % Cols < Cols
  {
  }

  /** A wave has forty 42 x 18 ships of one hit point, with equal margins
      left and right: the first column starts as far from the left edge as
      the last column ends from the right edge. */
  lemma WaveShape(canvasW: real)
    ensures var wave := Wave(canvasW);
      && |wave| == 40
      && (forall k :: 0 <= k < |wave| ==> wave[k].hp == 1 && wave[k].w == EnemyW && wave[k].h == EnemyH)
      && wave[0].x == canvasW - (wave[Cols - 1].x + EnemyW)
      && wave[0].y == WaveTop
  {
    WaveAt(canvasW, 0);
    WaveAt(canvasW, Cols - 1);
  }

  /** No two ships of a wave overlap: ships in different columns are 54 px
      apart horizontally, ships in different rows 34 px apart vertically. */
  lemma WaveDisjoint(canvasW: real, i: nat, j: nat)
    requires i < j < Rows * Cols
    ensures !Intersects(EnemyBox(Wave(canvasW)[i]), EnemyBox(Wave(canvasW)[j]))
  {
    WaveAt(canvasW, i);
    WaveAt(canvasW, j);
    if i / Cols == j / Cols {
      assert i % Cols < j % Cols;
    } else {
      assert i / Cols < j / Cols;
    }
  }

  /** On a canvas at least 548 px wide a new wave is clear of both side
      margins, so it does not turn round on its first frame. */
  lemma WaveInsideMargins(canvasW: real, k: nat)
    requires canvasW >= 548.0 && k < Rows * Cols
    ensures var e := Wave(canvasW)[k]; EdgeMargin <= e.x && e.x + e.w <= canvasW - EdgeMargin
  {
    WaveAt(canvasW, k);
  }

  // ---------------------------------------------------------------------
  // The player

  /** Arrow keys move the cannon 4 px per 60 Hz frame, then it is clamped to
      `max(20, min(W - 20, x))`. */
  function MovePlayer(x: real, keys: set<string>, dt: real, canvasW: real): (r: real)
    ensures canvasW >= 2.0 * PlayerMargin ==> PlayerMargin <= r <= canvasW - PlayerMargin
    ensures canvasW < 2.0 * PlayerMargin ==> r == PlayerMargin
  {
    var afterLeft := if "ArrowLeft" in keys then x - MoveSpeed * dt else x;
    var afterRight := if "ArrowRight" in keys then afterLeft + MoveSpeed * dt else afterLeft;
    Max(PlayerMargin, Min(canvasW - PlayerMargin, afterRight))
  }

  /** Holding both arrows, or neither, leaves a cannon inside the margins
      where it is. */
  lemma MovePlayerBalanced(x: real, keys: set<string>, dt: real, canvasW: real)
    requires ("ArrowLeft" in keys <==> "ArrowRight" in keys)
    requires PlayerMargin <= x <= canvasW - PlayerMargin
    ensures MovePlayer(x, keys, dt, canvasW) == x
  {
  }

  /** With only the left arrow held the cannon moves left by 4 px per frame
      until it reaches the margin, and never right. */
  lemma MovePlayerLeft(x: real, keys: set<string>, dt: real, canvasW: real)
    requires "ArrowLeft" in keys && "ArrowRight" !in keys && dt >= 0.0
    requires PlayerMargin <= x <= canvasW - PlayerMargin
    ensures MovePlayer(x, keys, dt, canvasW) == Max(PlayerMargin, x - MoveSpeed * dt)
    ensures MovePlayer(x, keys, dt, canvasW) <= x
  {
    NonNegProduct(MoveSpeed, dt);
  }

  /** With only the right arrow held the cannon moves right by 4 px per
      frame until it reaches the margin, and never left. */
  lemma MovePlayerRight(x: real, keys: set<string>, dt: real, canvasW: real)
    requires "ArrowRight" in keys && "ArrowLeft" !in keys && dt >= 0.0
    requires PlayerMargin <= x <= canvasW - PlayerMargin
    ensures MovePlayer(x, keys, dt, canvasW) == Min(canvasW - PlayerMargin, x + MoveSpeed * dt)
    ensures MovePlayer(x, keys, dt, canvasW) >= x
  {
    NonNegProduct(MoveSpeed, dt);
  }

  /** The shot the cannon fires: 4 x 10, centred above it, rising 6 px per
      frame. */
  function PlayerShot(playerX: real, playerY: real): Bullet
  {
    Bullet(playerX - 2.0, playerY - 12.0, 4.0, 10.0, -6.0)
  }

  // ---------------------------------------------------------------------
  // Bullets

  /** Every bullet moved by its own speed for `dt` frames. */
  function Advance(bs: seq<Bullet>, dt: real): seq<Bullet>
  {
    seq(|bs|, i requires 0 <= i < |bs| => bs[i].(y := bs[i].y + bs[i].vy * dt))
  }

  /** `bullets.forEach(b => b.y += b.vy * dt)`. */
  method AdvanceBullets(bs: seq<Bullet>, dt: real) returns (r: seq<Bullet>)
    ensures r == Advance(bs, dt)
  {
    r := bs;
    for i := 0 to |bs|
      invariant |r| == |bs|
      invariant forall k :: 0 <= k < i ==> r[k] == Advance(bs, dt)[k]
      invariant forall k :: i <= k < |r| ==> r[k] == bs[k]
    {
      r := r[i := r[i].(y := r[i].y + r[i].vy * dt)];
    }
  }

  /** Moving for `d1` frames and then `d2` frames is moving for `d1 + d2`,
      and moving for no time changes nothing. */
  lemma AdvanceAdds(bs: seq<Bullet>, d1: real, d2: real)
    ensures Advance(Advance(bs, d1), d2) == Advance(bs, d1 + d2)
    ensures Advance(bs, 0.0) == bs
  {
    var a := Advance(Advance(bs, d1), d2);
    var b := Advance(bs, d1 + d2);
    forall i | 0 <= i < |bs|
      ensures a[i] == b[i]
    {
      assert bs[i].vy * d1 + bs[i].vy * d2 == bs[i].vy * (d1 + d2);
    }
  }

  /** `Array.prototype.filter` on a bullet list: the bullets that pass, in their order. */
  function Filter(s: seq<Bullet>, keep: Bullet -> bool): (r: seq<Bullet>)
    ensures |r| <= |s|
    ensures forall x :: x in r <==> x in s && keep(x)
    decreases |s|
  {
    if |s| == 0 then []
    else
      var rest := Filter(s[1..], keep);
      assert forall x :: x in s <==> x == s[0] || x in s[1..];
      if keep(s[0]) then [s[0]] + rest else rest
  }

  /** Filtering keeps the list when every element passes, and filtering
      twice with the same test is filtering once. */
  lemma {:induction false} FilterKeepsPassing(s: seq<Bullet>, keep: Bullet -> bool)
    requires forall i :: 0 <= i < |s| ==> keep(s[i])
    ensures Filter(s, keep) == s
    decreases |s|
  {
    if |s| > 0 {
      FilterKeepsPassing(s[1..], keep);
    }
  }

  /** A second filter by the same test removes nothing more. */
  lemma FilterIdempotent(s: seq<Bullet>, keep: Bullet -> bool)
    ensures Filter(Filter(s, keep), keep) == Filter(s, keep)
  {
    var r := Filter(s, keep);
    assert forall i :: 0 <= i < |r| ==> r[i] in r;
    FilterKeepsPassing(r, keep);
  }

  /** Filtering a concatenation filters each part: the survivors keep their
      relative order, whichever part they came from. */
  lemma {:induction false} FilterConcat(s: seq<Bullet>, t: seq<Bullet>, keep: Bullet -> bool)
    ensures Filter(s + t, keep) == Filter(s, keep) + Filter(t, keep)
    decreases |s|
  {
    if |s| == 0 {
      assert s + t == t;
    } else {
      var u := s + t;
      assert u[0] == s[0];
      assert u[1..] == s[1..] + t;
      FilterConcat(s[1..], t, keep);
      var head: seq<Bullet> := if keep(s[0]) then [s[0]] else [];
      assert Filter(u, keep) == head + Filter(u[1..], keep);
      assert Filter(s, keep) == head + Filter(s[1..], keep);
      AppendAssoc(head, Filter(s[1..], keep), Filter(t, keep));
    }
  }

  /** Appending one bullet appends it to the filtered list exactly when it
      passes; with `FilterConcat` this pins the result down as the passing
      bullets in their original order. */
  lemma FilterAppend(s: seq<Bullet>, x: Bullet, keep: Bullet -> bool)
    ensures Filter(s + [x], keep) == Filter(s, keep) + (if keep(x) then [x] else [])
  {
    FilterConcat(s, [x], keep);
    assert [x][1..] == [];
  }

  /** A player shot stays while its bottom edge is below y = -5. */
  predicate PlayerShotLive(b: Bullet)
  {
    b.y + b.h > -5.0
  }

  /** An enemy shot stays while its top is above the canvas bottom + 20. */
  predicate EnemyShotLive(b: Bullet, canvasH: real)
  {
    b.y < canvasH + 20.0
  }

  // ---------------------------------------------------------------------
  // The march

  /** The horizontal move of every ship this frame. */
  function MarchStep(direction: real, speed: real, dt: real): real
  {
    direction * speed * dt * 2.0
  }

  /** Every ship moved sideways by `step`. */
  function Marched(es: seq<Enemy>, step: real): seq<Enemy>
  {
    seq(|es|, i requires 0 <= i < |es| => es[i].(x := es[i].x + step))
  }

  /** A ship past a side margin. */
  predicate AtEdge(e: Enemy, canvasW: real)
  {
    e.x < EdgeMargin || e.x + e.w > canvasW - EdgeMargin
  }

  /** Some ship of the list is past a side margin. */
  predicate TouchesEdge(es: seq<Enemy>, canvasW: real)
  {
    exists i :: 0 <= i < |es| && AtEdge(es[i], canvasW)
  }

  /** The shot a ship drops: 4 x 10 from the middle of its bottom edge,
      falling 3 px per frame. */
  function EnemyShot(e: Enemy): Bullet
  {
    Bullet(e.x + e.w / 2.0 - 2.0, e.y + e.h, 4.0, 10.0, 3.0)
  }

  /** The shots of one march, in ship order: ship `j` fires when the `j`-th
      `Math.random()` draw of the pass, `roll(j)`, is below the fire rate. */
  function Volley(es: seq<Enemy>, rate: real, roll: nat -> real): (r: seq<Bullet>)
    ensures |r| <= |es|
    decreases |es|
  {
    if |es| == 0 then []
    else
      var n := |es| - 1;
      Volley(es[..n], rate, roll) + (if roll(n) < rate then [EnemyShot(es[n])] else [])
  }

  /** Draws at or above the rate fire nothing. */
  lemma {:induction false} VolleySilent(es: seq<Enemy>, rate: real, roll: nat -> real)
    requires forall j :: 0 <= j < |es| ==> roll(j) >= rate
    ensures Volley(es, rate, roll) == []
    decreases |es|
  {
    if |es| > 0 {
      VolleySilent(es[..|es| - 1], rate, roll);
    }
  }

  /** Draws all below the rate make every ship fire, in ship order. */
  lemma {:induction false} VolleyAll(es: seq<Enemy>, rate: real, roll: nat -> real)
    requires forall j :: 0 <= j < |es| ==> roll(j) < rate
    ensures Volley(es, rate, roll) == seq(|es|, j requires 0 <= j < |es| => EnemyShot(es[j]))
    decreases |es|
  {
    if |es| > 0 {
      VolleyAll(es[..|es| - 1], rate, roll);
    }
  }

  /** The ships of a list of `n` that fire, by index in increasing order:
      exactly the indices whose draw is below the rate. */
  function FiringShips(n: nat, rate: real, roll: nat -> real): seq<nat>
  {
    if n == 0 then []
    else FiringShips(n - 1, rate, roll) + (if roll(n - 1) < rate then [n - 1] else [])
  }

  /** The firing list holds every index below `n` whose draw is below the
      rate, only those, and in strictly increasing order. */
  lemma {:induction false} FiringShipsExact(n: nat, rate: real, roll: nat -> real)
    ensures var r := FiringShips(n, rate, roll);
      && (forall k :: 0 <= k < |r| ==> r[k] < n && roll(r[k]) < rate)
      && (forall j :: 0 <= j < n && roll(j) < rate ==> j in r)
      && (forall k, m :: 0 <= k < m < |r| ==> r[k] < r[m])
    decreases n
  {
    if n > 0 {
      FiringShipsExact(n - 1, rate, roll);
    }
  }

  /** The volley is the firing ships' shots in ship order: one shot per ship
      whose draw is below the rate, the `k`-th from the `k`-th such ship. */
  lemma {:induction false} VolleyInShipOrder(es: seq<Enemy>, rate: real, roll: nat -> real)
    ensures var r, idx := Volley(es, rate, roll), FiringShips(|es|, rate, roll);
      && |r| == |idx|
      && forall k :: 0 <= k < |r| ==> idx[k] < |es| && r[k] == EnemyShot(es[idx[k]])
    decreases |es|
  {
    if |es| > 0 {
      var n := |es| - 1;
      var front := es[..n];
      VolleyInShipOrder(front, rate, roll);
      var r0, idx0 := Volley(front, rate, roll), FiringShips(n, rate, roll);
      var r, idx := Volley(es, rate, roll), FiringShips(|es|, rate, roll);
      var fires := roll(n) < rate;
      assert r == r0 + (if fires then [EnemyShot(es[n])] else []);
      assert idx == idx0 + (if fires then [n] else []);
      forall k | 0 <= k < |r|
        ensures idx[k] < |es| && r[k] == EnemyShot(es[idx[k]])
      {
        if k < |r0| {
          assert r[k] == r0[k] && idx[k] == idx0[k];
          assert front[idx0[k]] == es[idx0[k]];
        } else {
          assert r[k] == EnemyShot(es[n]) && idx[k] == n;
        }
      }
    }
  }

  /** A shot is in the volley exactly when some ship whose draw is below the
      rate dropped it. */
  lemma VolleyMembers(es: seq<Enemy>, rate: real, roll: nat -> real, b: Bullet)
    ensures b in Volley(es, rate, roll)
            <==> exists j :: 0 <= j < |es| && roll(j) < rate && b == EnemyShot(es[j])
  {
    var r, idx := Volley(es, rate, roll), FiringShips(|es|, rate, roll);
    VolleyInShipOrder(es, rate, roll);
    FiringShipsExact(|es|, rate, roll);
    if b in r {
      var k :| 0 <= k < |r| && r[k] == b;
      assert roll(idx[k]) < rate && b == EnemyShot(es[idx[k]]);
    }
    if exists j :: 0 <= j < |es| && roll(j) < rate && b == EnemyShot(es[j]) {
      var j :| 0 <= j < |es| && roll(j) < rate && b == EnemyShot(es[j]);
      assert j in idx;
      var k :| 0 <= k < |idx| && idx[k] == j;
      assert r[k] == b;
    }
  }

  /** One more ship in the pass adds its shot, if it fires, at the end. */
  lemma VolleyExtend(es: seq<Enemy>, i: nat, rate: real, roll: nat -> real)
    requires i < |es|
    ensures Volley(es[..i + 1], rate, roll)
            == Volley(es[..i], rate, roll) + (if roll(i) < rate then [EnemyShot(es[i])] else [])
  {
    assert es[..i + 1][..i] == es[..i];
  }

  /** `enemies.forEach(...)`: move each ship, note whether any is past a
      margin, and let it fire. `shots` is the enemy bullet list before the
      pass. */
  method MarchEnemies(es: seq<Enemy>, direction: real, speed: real, dt: real, rate: real,
                      roll: nat -> real, canvasW: real, shots: seq<Bullet>)
    returns (moved: seq<Enemy>, newShots: seq<Bullet>, hitEdge: bool)
    ensures moved == Marched(es, MarchStep(direction, speed, dt))
    ensures hitEdge == TouchesEdge(moved, canvasW)
    ensures newShots == shots + Volley(moved, rate, roll)
  {
    ghost var target := Marched(es, MarchStep(direction, speed, dt));
    moved := es;
    newShots := shots;
    hitEdge := false;
    assert moved == target[..0] + es[0..];
    for i := 0 to |es|
      invariant moved == target[..i] + es[i..]
      invariant hitEdge == TouchesEdge(target[..i], canvasW)
      invariant newShots == shots + Volley(target[..i], rate, roll)
    {
      assert moved[i] == es[i];
      var e := moved[i].(x := moved[i].x + direction * speed * dt * 2.0);
      assert e == target[i];
      SpliceStep(target, es, i);
      moved := moved[i := e];
      TouchesEdgeExtend(target, i, canvasW);
      if e.x < 10.0 || e.x + e.w > canvasW - 10.0 {
        hitEdge := true;
      }
      ghost var before := newShots;
      if roll(i) < rate {
        newShots := newShots + [EnemyShot(e)];
      }
      VolleyStep(target, i, rate, roll, shots, before, newShots);
    }
    assert target[..|es|] == target;
    assert es[|es|..] == [];
  }

  /** Appending the shots of one ship to the pass so far. */
  lemma AppendAssoc(a: seq<Bullet>, b: seq<Bullet>, c: seq<Bullet>)
    ensures (a + b) + c == a + (b + c)
  {
  }

  /** The loop's enemy-bullet list after ship `i` has had its draw. */
  lemma VolleyStep(target: seq<Enemy>, i: nat, rate: real, roll: nat -> real,
                   shots: seq<Bullet>, before: seq<Bullet>, after: seq<Bullet>)
    requires i < |target|
    requires before == shots + Volley(target[..i], rate, roll)
    requires after == before + (if roll(i) < rate then [EnemyShot(target[i])] else [])
    ensures after == shots + Volley(target[..i + 1], rate, roll)
  {
    VolleyExtend(target, i, rate, roll);
    AppendAssoc(shots, Volley(target[..i], rate, roll),
                if roll(i) < rate then [EnemyShot(target[i])] else []);
  }

  /** The loop's list after `i` ships: the first `i` moved, the rest not;
      moving ship `i` extends the moved prefix by one. */
  lemma SpliceStep(target: seq<Enemy>, es: seq<Enemy>, i: nat)
    requires |target| == |es| && i < |es|
    ensures (target[..i] + es[i..])[i := target[i]] == target[..i + 1] + es[i + 1..]
  {
  }

  /** One more ship in the edge test is one more disjunct. */
  lemma TouchesEdgeExtend(es: seq<Enemy>, i: nat, canvasW: real)
    requires i < |es|
    ensures TouchesEdge(es[..i + 1], canvasW) == (TouchesEdge(es[..i], canvasW) || AtEdge(es[i], canvasW))
  {
    if TouchesEdge(es[..i + 1], canvasW) && !AtEdge(es[i], canvasW) {
      var k :| 0 <= k < i + 1 && AtEdge(es[..i + 1][k], canvasW);
      assert es[..i][k] == es[k];
    }
    if TouchesEdge(es[..i], canvasW) {
      var k :| 0 <= k < i && AtEdge(es[..i][k], canvasW);
      assert es[..i + 1][k] == es[k];
    }
    if AtEdge(es[i], canvasW) {
      assert es[..i + 1][i] == es[i];
    }
  }

  /** Every ship moved down by `d`. */
  function StepDown(es: seq<Enemy>, d: real): seq<Enemy>
  {
    seq(|es|, i requires 0 <= i < |es| => es[i].(y := es[i].y + d))
  }

  /** `enemies.forEach(e => e.y += enemyStepDown)`. */
  method StepDownAll(es: seq<Enemy>, d: real) returns (r: seq<Enemy>)
    ensures r == StepDown(es, d)
  {
    r := es;
    for i := 0 to |r|
      invariant |r| == |es|
      invariant forall k :: 0 <= k < i ==> r[k] == es[k].(y := es[k].y + d)
      invariant forall k :: i <= k < |r| ==> r[k] == es[k]
    {
      r := r[i := r[i].(y := r[i].y + d)];
    }
  }

  /** A march and a step-down move each ship by (step, d) and change nothing
      else; the order of the two does not matter. */
  lemma MarchThenStep(es: seq<Enemy>, step: real, d: real)
    ensures var r := StepDown(Marched(es, step), d);
      && r == Marched(StepDown(es, d), step)
      && |r| == |es|
      && (forall i :: 0 <= i < |es| ==>
            r[i].x == es[i].x + step && r[i].y == es[i].y + d
            && r[i].w == es[i].w && r[i].h == es[i].h && r[i].hp == es[i].hp)
  {
  }
}
