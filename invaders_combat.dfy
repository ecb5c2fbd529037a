/** The two collision passes of the invaders `update`
    (scripts/invaders.js:278-303). Both walk their bullet list from the last
    index down and splice hits out in place. Player bullets against ships:
    each bullet takes out the highest-indexed ship it overlaps and scores 10.
    Enemy bullets against the player's hitbox: each hit costs a life, and
    the pass stops at once when the lives run out. */
module InvadersCombat {
  import opened Geometry
  import opened InvadersWorld

  datatype Option<T> = None | Some(value: T)

  /** `aabbCollide(bullet, enemy)`. */
  predicate Hit(b: Bullet, e: Enemy)
  {
    Intersects(BulletBox(b), EnemyBox(e))
  }

  /** `s.splice(i, 1)`: the list without its element at `i`. */
  function Remove<T>(s: seq<T>, i: nat): (r: seq<T>)
    requires i < |s|
    ensures |r| == |s| - 1
    ensures r[..i] == s[..i] && r[i..] == s[i + 1..]
  {
    s[..i] + s[i + 1..]
  }

  /** Splicing removes exactly one copy of the element. */
  lemma RemoveMultiset<T>(s: seq<T>, i: nat)
    requires i < |s|
    ensures multiset(Remove(s, i)) == multiset(s) - multiset{s[i]}
  {
    assert s == s[..i] + [s[i]] + s[i + 1..];
  }

  // ---------------------------------------------------------------------
  // Player bullets against the wave

  /** The ship the inner loop stops at: the highest index the bullet
      overlaps, if any. */
  function LastHit(b: Bullet, es: seq<Enemy>): (r: Option<nat>)
    ensures r.Some? ==> r.value < |es| && Hit(b, es[r.value])
                        && forall k :: r.value < k < |es| ==> !Hit(b, es[k])
    ensures r.None? ==> forall k :: 0 <= k < |es| ==> !Hit(b, es[k])
    decreases |es|
  {
    if |es| == 0 then None
    else if Hit(b, es[|es| - 1]) then Some(|es| - 1)
    else LastHit(b, es[..|es| - 1])
  }

  /** What the pass leaves: the surviving bullets and ships, and how many
      bullets found a ship. */
  datatype Skirmish = Skirmish(bullets: seq<Bullet>, enemies: seq<Enemy>, hits: nat)

  /** The pass over `bs` against `es`, last bullet first: a bullet that hits
      goes, together with the ship it hit; the bullets before it then meet
      the thinned wave. */
  function ShootDown(bs: seq<Bullet>, es: seq<Enemy>): (r: Skirmish)
    ensures |bs| == |r.bullets| + r.hits && |es| == |r.enemies| + r.hits
    decreases |bs|
  {
    if |bs| == 0 then Skirmish([], es, 0)
    else
      var n := |bs| - 1;
      match LastHit(bs[n], es)
      case None =>
        var r := ShootDown(bs[..n], es);
        Skirmish(r.bullets + [bs[n]], r.enemies, r.hits + 0)
      case Some(j) =>
        var r := ShootDown(bs[..n], Remove(es, j));
        Skirmish(r.bullets, r.enemies, r.hits + 1)
  }

  /** The survivors are drawn from the bullets and ships the pass started
      with. */
  lemma {:induction false} ShootDownSubset(bs: seq<Bullet>, es: seq<Enemy>)
    ensures var r := ShootDown(bs, es);
      multiset(r.bullets) <= multiset(bs) && multiset(r.enemies) <= multiset(es)
    decreases |bs|
  {
    if |bs| > 0 {
      var n := |bs| - 1;
      assert bs == bs[..n] + [bs[n]];
      match LastHit(bs[n], es)
      case None =>
        ShootDownSubset(bs[..n], es);
      case Some(j) =>
        ShootDownSubset(bs[..n], Remove(es, j));
        RemoveMultiset(es, j);
    }
  }

  /** No bullet of the outcome overlaps a ship of the outcome. */
  predicate Cleared(r: Skirmish)
  {
    forall i, k :: 0 <= i < |r.bullets| && 0 <= k < |r.enemies| ==> !Hit(r.bullets[i], r.enemies[k])
  }

  /** After the pass no surviving bullet overlaps a surviving ship. */
  lemma {:induction false} ShootDownClears(bs: seq<Bullet>, es: seq<Enemy>)
    ensures Cleared(ShootDown(bs, es))
    decreases |bs|
  {
    if |bs| > 0 {
      var n := |bs| - 1;
      var b := bs[n];
      match LastHit(b, es)
      case None =>
        ShootDownClears(bs[..n], es);
        ShootDownSubset(bs[..n], es);
        var p := ShootDown(bs[..n], es);
        var r := ShootDown(bs, es);
        assert r.bullets == p.bullets + [b] && r.enemies == p.enemies;
        forall i, k | 0 <= i < |r.bullets| && 0 <= k < |r.enemies|
          ensures !Hit(r.bullets[i], r.enemies[k])
        {
          if i == |p.bullets| {
            assert r.bullets[i] == b;
            assert r.enemies[k] in multiset(es);
            var idx :| 0 <= idx < |es| && es[idx] == r.enemies[k];
          } else {
            assert r.bullets[i] == p.bullets[i];
          }
        }
      case Some(j) =>
        ShootDownClears(bs[..n], Remove(es, j));
        var p := ShootDown(bs[..n], Remove(es, j));
        var r := ShootDown(bs, es);
        assert r == Skirmish(p.bullets, p.enemies, p.hits + 1);
        forall i, k | 0 <= i < |r.bullets| && 0 <= k < |r.enemies|
          ensures !Hit(r.bullets[i], r.enemies[k])
        {
          assert r.bullets[i] == p.bullets[i] && r.enemies[k] == p.enemies[k];
        }
    }
  }

  /** A volley that overlaps no ship changes nothing. */
  lemma {:induction false} ShootDownMisses(bs: seq<Bullet>, es: seq<Enemy>)
    requires forall i, k :: 0 <= i < |bs| && 0 <= k < |es| ==> !Hit(bs[i], es[k])
    ensures ShootDown(bs, es) == Skirmish(bs, es, 0)
    decreases |bs|
  {
    if |bs| > 0 {
      var n := |bs| - 1;
      ShootDownMisses(bs[..n], es);
      assert bs == bs[..n] + [bs[n]];
    }
  }

  /** Two bullets in the same ship: the later-fired one, higher in the list,
      takes the ship, and the other flies on. */
  lemma ShootDownOneShipTwoBullets(b0: Bullet, b1: Bullet, e: Enemy)
    requires Hit(b0, e) && Hit(b1, e)
    ensures ShootDown([b0, b1], [e]) == Skirmish([b0], [], 1)
  {
    assert [b0, b1][..1] == [b0];
    assert [b0][..0] == [];
    assert Remove([e], 0) == [];
  }

  /** The nested loops, splicing in place; `score` is the score before the
      pass and gains 10 per hit. */
  method ShootDownEnemies(bs: seq<Bullet>, es: seq<Enemy>, score: int)
    returns (bullets: seq<Bullet>, enemies: seq<Enemy>, newScore: int)
    ensures var r := ShootDown(bs, es);
      bullets == r.bullets && enemies == r.enemies && newScore == score + PointsPerHit * r.hits
  {
    bullets, enemies, newScore := bs, es, score;
    ghost var hits: nat := 0;
    var i := |bs| - 1;
    assert bs[..i + 1] == bs && bullets[i + 1..] == [];
    assert ShootDown(bs, es).bullets + [] == ShootDown(bs, es).bullets;
    while i >= 0
      invariant -1 <= i < |bs|
      invariant |bullets| >= i + 1 && bullets[..i + 1] == bs[..i + 1]
      invariant newScore == score + PointsPerHit * hits
      invariant var v := ShootDown(bs[..i + 1], enemies);
        ShootDown(bs, es) == Skirmish(v.bullets + bullets[i + 1..], v.enemies, v.hits + hits)
      decreases i
    {
      var hit;
      bullets, enemies, hit := ShootOnce(bs, i, bullets, enemies);
      if hit {
        newScore := newScore + PointsPerHit;
        hits := hits + 1;
      }
      i := i - 1;
    }
  }

  /** One turn of the outer loop: bullet `i` against the ships, last ship
      first; on a hit both are spliced out. The result is `ShootDown`
      unfolded once on the bullets not yet visited. */
  method ShootOnce(ghost bs: seq<Bullet>, i: nat, bullets: seq<Bullet>, enemies: seq<Enemy>)
    returns (left: seq<Bullet>, after: seq<Enemy>, hit: bool)
    requires i < |bs| && i < |bullets| && bullets[..i + 1] == bs[..i + 1]
    ensures |left| >= i && left[..i] == bs[..i]
    ensures var v := ShootDown(bs[..i + 1], enemies);
      var w := ShootDown(bs[..i], after);
      v.bullets + bullets[i + 1..] == w.bullets + left[i..]
      && v.enemies == w.enemies
      && v.hits == w.hits + (if hit then 1 else 0)
  {
    assert bullets[i] == bs[..i + 1][i];
    var j := FindHit(bullets[i], enemies);
    left, after, hit := bullets, enemies, j >= 0;
    if hit {
      after := Remove(enemies, j);
      left := Remove(bullets, i);
    }
    StepShootDown(bs, i, enemies, bullets, j, after, left);
  }

  /** The inner loop: scan the ships from the last index down and stop at
      the first the bullet overlaps; -1 when there is none. */
  method FindHit(b: Bullet, es: seq<Enemy>) returns (j: int)
    ensures -1 <= j < |es|
    ensures j == -1 ==> forall k :: 0 <= k < |es| ==> !Hit(b, es[k])
    ensures j >= 0 ==> Hit(b, es[j]) && forall k :: j < k < |es| ==> !Hit(b, es[k])
  {
    j := |es| - 1;
    while j >= 0
      invariant -1 <= j < |es|
      invariant forall k :: j < k < |es| ==> !Hit(b, es[k])
      decreases j
    {
      if Intersects(BulletBox(b), EnemyBox(es[j])) {
        return;
      }
      j := j - 1;
    }
  }

  /** One turn of the outer loop, as the unfolding of `ShootDown` on the
      bullets not yet visited. */
  lemma StepShootDown(bs: seq<Bullet>, i: nat, before: seq<Enemy>, kept: seq<Bullet>, hitAt: int,
                      after: seq<Enemy>, left: seq<Bullet>)
    requires i < |bs| && i < |kept| && kept[..i + 1] == bs[..i + 1]
    requires -1 <= hitAt < |before|
    requires hitAt == -1 ==> after == before && left == kept
                             && forall k :: 0 <= k < |before| ==> !Hit(kept[i], before[k])
    requires hitAt >= 0 ==> after == Remove(before, hitAt) && left == Remove(kept, i)
                            && Hit(kept[i], before[hitAt])
                            && forall k :: hitAt < k < |before| ==> !Hit(kept[i], before[k])
    ensures |left| >= i && left[..i] == bs[..i]
    ensures var v := ShootDown(bs[..i + 1], before);
      var w := ShootDown(bs[..i], after);
      v.bullets + kept[i + 1..] == w.bullets + left[i..]
      && v.enemies == w.enemies
      && v.hits == w.hits + (if hitAt >= 0 then 1 else 0)
  {
    var prefix := bs[..i + 1];
    assert prefix[..i] == bs[..i];
    assert prefix[i] == kept[i];
    assert kept[..i] == bs[..i];
    if hitAt >= 0 {
      assert LastHit(kept[i], before) == Some(hitAt as nat);
      assert left[i..] == kept[i + 1..];
    } else {
      assert LastHit(kept[i], before) == None;
      assert kept[i..] == [kept[i]] + kept[i + 1..];
    }
  }

  // ---------------------------------------------------------------------
  // Enemy bullets against the player

  /** The player's hitbox, 36 x 16 around the cannon. */
  function PlayerHitbox(playerX: real, playerY: real): Rect
  {
    Rect(playerX - 18.0, playerY - 6.0, 36.0, 16.0)
  }

  /** An enemy shot (4 x 10) hits the player exactly when its corner lies in
      a 40 x 26 window around the cannon. */
  lemma HitboxWindow(b: Bullet, playerX: real, playerY: real)
    requires b.w == 4.0 && b.h == 10.0
    ensures Intersects(BulletBox(b), PlayerHitbox(playerX, playerY)) <==>
      playerX - 22.0 < b.x < playerX + 18.0 && playerY - 16.0 < b.y < playerY + 10.0
  {
  }

  /** What the pass leaves: the remaining enemy bullets, the lives, and
      whether the pass ended the game. */
  datatype Damage = Damage(bullets: seq<Bullet>, lives: int, fatal: bool)

  /** The pass over `bs`, last bullet first: a bullet in the hitbox goes and
      costs a life; the pass stops, leaving the bullets before it, as soon
      as the lives reach zero. */
  function Absorb(bs: seq<Bullet>, hitbox: Rect, lives: int): (r: Damage)
    ensures |bs| - |r.bullets| == lives - r.lives && r.lives <= lives
    ensures r.fatal <==> r.lives < lives && r.lives <= 0
    ensures lives >= 1 ==> r.lives >= 0
    decreases |bs|
  {
    if |bs| == 0 then Damage([], lives, false)
    else
      var n := |bs| - 1;
      if !Intersects(BulletBox(bs[n]), hitbox) then
        var r := Absorb(bs[..n], hitbox, lives);
        Damage(r.bullets + [bs[n]], r.lives, r.fatal)
      else if lives - 1 <= 0 then Damage(bs[..n], lives - 1, true)
      else Absorb(bs[..n], hitbox, lives - 1)
  }

  /** The remaining shots are drawn from those the pass started with, and
      unless the pass ended the game none of them is in the hitbox. */
  lemma {:induction false} AbsorbClears(bs: seq<Bullet>, hitbox: Rect, lives: int)
    ensures var r := Absorb(bs, hitbox, lives);
      && multiset(r.bullets) <= multiset(bs)
      && (!r.fatal ==> forall i :: 0 <= i < |r.bullets| ==> !Intersects(BulletBox(r.bullets[i]), hitbox))
    decreases |bs|
  {
    if |bs| > 0 {
      var n := |bs| - 1;
      assert bs == bs[..n] + [bs[n]];
      if !Intersects(BulletBox(bs[n]), hitbox) {
        AbsorbClears(bs[..n], hitbox, lives);
      } else if lives - 1 > 0 {
        AbsorbClears(bs[..n], hitbox, lives - 1);
      }
    }
  }

  /** Lives are lost one per removed bullet and never below what the pass
      started with minus the number of hits; a pass no shot lands in
      changes nothing. */
  lemma {:induction false} AbsorbMisses(bs: seq<Bullet>, hitbox: Rect, lives: int)
    requires forall i :: 0 <= i < |bs| ==> !Intersects(BulletBox(bs[i]), hitbox)
    ensures Absorb(bs, hitbox, lives) == Damage(bs, lives, false)
    decreases |bs|
  {
    if |bs| > 0 {
      AbsorbMisses(bs[..|bs| - 1], hitbox, lives);
      assert bs == bs[..|bs| - 1] + [bs[|bs| - 1]];
    }
  }

  /** With one life left the first shot that lands ends the game and the
      shots before it in the list stay where they are. */
  lemma LastLifeLost(bs: seq<Bullet>, b: Bullet, hitbox: Rect)
    requires Intersects(BulletBox(b), hitbox)
    ensures Absorb(bs + [b], hitbox, 1) == Damage(bs, 0, true)
  {
    assert (bs + [b])[..|bs|] == bs;
  }

  /** The reverse loop with its early exit; `fatal` is the `return` after
      `endGame`. */
  method AbsorbShots(bs: seq<Bullet>, hitbox: Rect, lives: int)
    returns (bullets: seq<Bullet>, newLives: int, fatal: bool)
    ensures Absorb(bs, hitbox, lives) == Damage(bullets, newLives, fatal)
  {
    bullets, newLives, fatal := bs, lives, false;
    var i := |bs| - 1;
    assert bs[..i + 1] == bs && bullets[i + 1..] == [];
    assert Absorb(bs, hitbox, lives).bullets + [] == Absorb(bs, hitbox, lives).bullets;
    while i >= 0
      invariant -1 <= i < |bs|
      invariant |bullets| >= i + 1 && bullets[..i + 1] == bs[..i + 1]
      invariant var v := Absorb(bs[..i + 1], hitbox, newLives);
        Absorb(bs, hitbox, lives) == Damage(v.bullets + bullets[i + 1..], v.lives, v.fatal)
      decreases i
    {
      ghost var kept := bullets;
      StepAbsorb(bs, i, kept, hitbox, newLives);
      if Intersects(BulletBox(bullets[i]), hitbox) {
        bullets := Remove(bullets, i);
        newLives := newLives - 1;
        if newLives <= 0 {
          fatal := true;
          return;
        }
      }
      i := i - 1;
    }
    assert bullets[0..] == bullets;
  }

  /** One turn of the loop, as the unfolding of `Absorb` on the shots not
      yet visited. */
  lemma StepAbsorb(bs: seq<Bullet>, i: nat, kept: seq<Bullet>, hitbox: Rect, lives: int)
    requires i < |bs| && i < |kept| && kept[..i + 1] == bs[..i + 1]
    ensures var v := Absorb(bs[..i + 1], hitbox, lives);
      if !Intersects(BulletBox(kept[i]), hitbox) then
        var w := Absorb(bs[..i], hitbox, lives);
        v == Damage(w.bullets + [kept[i]], w.lives, w.fatal)
        && w.bullets + kept[i..] == v.bullets + kept[i + 1..]
      else
        var left := Remove(kept, i);
        left[..i] == bs[..i]
        && (lives - 1 <= 0 ==> v == Damage(bs[..i], lives - 1, true)
                                && v.bullets + kept[i + 1..] == left)
        && (lives - 1 > 0 ==> v == Absorb(bs[..i], hitbox, lives - 1)
                               && left[i..] == kept[i + 1..])
  {
    var prefix := bs[..i + 1];
    assert prefix[..i] == bs[..i] && prefix[i] == kept[i];
    assert kept[..i] == bs[..i];
    assert kept[i..] == [kept[i]] + kept[i + 1..];
  }

  // ---------------------------------------------------------------------
  // Invasion

  /** Some ship's bottom edge has come within 4 px of the cannon's line. */
  predicate Invaded(es: seq<Enemy>, playerY: real)
  {
    exists i :: 0 <= i < |es| && es[i].y + es[i].h >= playerY - 4.0
  }
}
