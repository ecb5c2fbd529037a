/** One call of the invaders `update(dt)` while a game is running
    (scripts/invaders.js:225-317), as a function of the play state: move
    and fire, fly the player's shots, march the wave, fly the enemy shots,
    resolve both collision passes, then check for defeat or a cleared
    wave. */
module InvadersFrame {
  import opened RealFacts
  import opened Geometry
  import opened InvadersWorld
  import opened InvadersCombat

  /** The part of the game state `update` reads and writes. */
  datatype World = World(playerX: real, cooldown: real, playerBullets: seq<Bullet>,
                         enemyBullets: seq<Bullet>, enemies: seq<Enemy>, direction: real,
                         speed: real, fireRate: real, score: int, lives: int)

  /** The result of a frame: the new state, and whether `endGame` ran. */
  datatype Tick = Tick(world: World, over: bool)

  /** The cannon's fixed line, 40 px above the canvas bottom. */
  function PlayerLine(canvasH: real): real
  {
    canvasH - 40.0
  }

  /** The state `resetGame` builds: a fresh wave, no bullets, three lives,
      the cannon centred. */
  function Fresh(canvasW: real): World
  {
    World(canvasW / 2.0, 0.0, [], [], Wave(canvasW), 1.0, InitialSpeed, InitialFireRate, 0, InitialLives)
  }

  /** Arrow keys, then the clamp. */
  function Aim(w: World, keys: set<string>, dt: real, canvasW: real): World
  {
    w.(playerX := MovePlayer(w.playerX, keys, dt, canvasW))
  }

  /** The cooldown runs down while positive; the space bar fires when it is
      spent and restarts it at 10 frames. */
  function Reload(w: World, keys: set<string>, dt: real, playerY: real): World
  {
    var cooldown := if w.cooldown > 0.0 then w.cooldown - dt else w.cooldown;
    if " " in keys && cooldown <= 0.0 then
      w.(cooldown := ShotCooldown, playerBullets := w.playerBullets + [PlayerShot(w.playerX, playerY)])
    else w.(cooldown := cooldown)
  }

  /** The cannon fires at most one shot a frame, and only with the space
      bar held once the cooldown has run out; a shot appears above the
      cannon and restarts the cooldown at 10 frames. A frame that does not
      fire counts a positive cooldown down by dt and leaves a spent one
      alone. Nothing else changes. */
  lemma ReloadFires(w: World, keys: set<string>, dt: real, playerY: real)
    ensures var r := Reload(w, keys, dt, playerY);
      var n := |w.playerBullets|;
      var fires := " " in keys && (w.cooldown <= 0.0 || w.cooldown - dt <= 0.0);
      && |r.playerBullets| == n + (if fires then 1 else 0)
      && r.playerBullets[..n] == w.playerBullets
      && (fires ==> r.playerBullets[n] == PlayerShot(w.playerX, playerY) && r.cooldown == ShotCooldown)
      && (!fires ==> r.cooldown == (if w.cooldown > 0.0 then w.cooldown - dt else w.cooldown))
      && r == w.(cooldown := r.cooldown, playerBullets := r.playerBullets)
  {
    var r := Reload(w, keys, dt, playerY);
    assert r.playerBullets[..|w.playerBullets|] == w.playerBullets;
  }

  /** Shots are spaced: after a frame that fired, a frame shorter than the
      cooldown fires nothing, whatever keys are held. */
  lemma CooldownSpacesShots(w: World, keys: set<string>, keys2: set<string>, d1: real, d2: real, playerY: real)
    requires |Reload(w, keys, d1, playerY).playerBullets| > |w.playerBullets|
    requires d2 < ShotCooldown
    ensures var r := Reload(w, keys, d1, playerY);
      Reload(r, keys2, d2, playerY).playerBullets == r.playerBullets
  {
  }

  /** The player's shots move and those off the top are dropped. */
  function FlyPlayerShots(w: World, dt: real): World
  {
    w.(playerBullets := Filter(Advance(w.playerBullets, dt), PlayerShotLive))
  }

  /** The wave marches and fires; if a ship is past a margin the direction
      flips and every ship steps down. */
  function March(w: World, dt: real, roll: nat -> real, canvasW: real): World
  {
    var moved := Marched(w.enemies, MarchStep(w.direction, w.speed, dt));
    var shots := w.enemyBullets + Volley(moved, w.fireRate, roll);
    if TouchesEdge(moved, canvasW) then
      w.(enemies := StepDown(moved, EnemyStepDown), enemyBullets := shots, direction := w.direction * -1.0)
    else w.(enemies := moved, enemyBullets := shots)
  }

  /** The march moves every ship sideways by the same step. When a moved
      ship is past a margin the direction flips and every ship drops by
      exactly 15 px; otherwise the direction stays and no ship's height
      changes. The wave keeps its size and order, the new enemy shots are
      appended, and nothing else changes. */
  lemma MarchEdge(w: World, dt: real, roll: nat -> real, canvasW: real)
    ensures var m := March(w, dt, roll, canvasW);
      var step := MarchStep(w.direction, w.speed, dt);
      var edge := TouchesEdge(Marched(w.enemies, step), canvasW);
      && |m.enemies| == |w.enemies|
      && (forall i :: 0 <= i < |w.enemies| ==>
            m.enemies[i].x == w.enemies[i].x + step
            && m.enemies[i].y == w.enemies[i].y + (if edge then EnemyStepDown else 0.0)
            && m.enemies[i].w == w.enemies[i].w && m.enemies[i].h == w.enemies[i].h)
      && m.direction == (if edge then -w.direction else w.direction)
      && m.enemyBullets[..|w.enemyBullets|] == w.enemyBullets
      && m == w.(enemies := m.enemies, enemyBullets := m.enemyBullets, direction := m.direction)
  {
    var step := MarchStep(w.direction, w.speed, dt);
    MarchThenStep(w.enemies, step, EnemyStepDown);
  }

  /** The enemy shots fall and those below the canvas are dropped. */
  function FlyEnemyShots(w: World, dt: real, canvasH: real): World
  {
    w.(enemyBullets := Filter(Advance(w.enemyBullets, dt), b => EnemyShotLive(b, canvasH)))
  }

  /** The player's shots against the wave, 10 points a ship. */
  function Battle(w: World): World
  {
    var r := ShootDown(w.playerBullets, w.enemies);
    w.(playerBullets := r.bullets, enemies := r.enemies, score := w.score + PointsPerHit * r.hits)
  }

  /** A cleared wave is replaced by a new one, 0.25 faster and with 0.0005
      more chance to fire. */
  function NextWave(w: World, canvasW: real): World
  {
    if |w.enemies| == 0 then
      w.(speed := w.speed + SpeedIncrement, fireRate := w.fireRate + FireRateIncrement, enemies := Wave(canvasW))
    else w
  }

  /** The state after the moves and the shoot-down, before the enemy shots
      meet the player. */
  function Advanced(w: World, keys: set<string>, dt: real, roll: nat -> real, canvasW: real, canvasH: real): World
  {
    var playerY := PlayerLine(canvasH);
    Battle(FlyEnemyShots(March(FlyPlayerShots(Reload(Aim(w, keys, dt, canvasW), keys, dt, playerY), dt),
                               dt, roll, canvasW), dt, canvasH))
  }

  /** A whole `update` while playing. The game ends when the last life is
      lost, or when a ship reaches the cannon's line; otherwise a cleared
      wave is replaced. */
  function Step(w: World, keys: set<string>, dt: real, roll: nat -> real, canvasW: real, canvasH: real): Tick
  {
    var a := Advanced(w, keys, dt, roll, canvasW, canvasH);
    var playerY := PlayerLine(canvasH);
    var d := Absorb(a.enemyBullets, PlayerHitbox(a.playerX, playerY), a.lives);
    var b := a.(enemyBullets := d.bullets, lives := d.lives);
    if d.fatal then Tick(b, true)
    else if Invaded(b.enemies, playerY) then Tick(b, true)
    else Tick(NextWave(b, canvasW), false)
  }

  /** `Step` from its parts: the state after the moves, and the damage the
      enemy shots then do. */
  lemma StepParts(w: World, keys: set<string>, dt: real, roll: nat -> real, canvasW: real, canvasH: real,
                  a: World, d: Damage)
    requires a == Advanced(w, keys, dt, roll, canvasW, canvasH)
    requires d == Absorb(a.enemyBullets, PlayerHitbox(a.playerX, PlayerLine(canvasH)), a.lives)
    ensures var b := a.(enemyBullets := d.bullets, lives := d.lives);
      Step(w, keys, dt, roll, canvasW, canvasH)
        == if d.fatal || Invaded(b.enemies, PlayerLine(canvasH)) then Tick(b, true)
           else Tick(NextWave(b, canvasW), false)
  {
  }

  /** What holds of every state of a running or finished game: the march
      direction is one of the two, the score is a non-negative multiple of
      10, there are at most three lives, and on a canvas at least 40 px
      wide the cannon is between the margins. */
  predicate Sound(w: World, canvasW: real)
  {
    && (w.direction == 1.0 || w.direction == -1.0)
    && w.score >= 0 && w.score % PointsPerHit == 0
    && w.lives <= InitialLives
    && (canvasW >= 2.0 * PlayerMargin ==> PlayerMargin <= w.playerX <= canvasW - PlayerMargin)
  }

  /** A fresh game is sound. */
  lemma FreshSound(canvasW: real)
    ensures Sound(Fresh(canvasW), canvasW)
    ensures Fresh(canvasW).lives == 3 && |Fresh(canvasW).enemies| == 40
  {
    WaveShape(canvasW);
  }

  /** The moves and the shoot-down: the score grows by 10 per ship removed,
      the wave only shrinks (or is the same), lives are untouched, at most
      one new player shot appears, and soundness is kept. */
  lemma AdvancedFacts(w: World, keys: set<string>, dt: real, roll: nat -> real, canvasW: real, canvasH: real)
    requires Sound(w, canvasW)
    ensures var a := Advanced(w, keys, dt, roll, canvasW, canvasH);
      && Sound(a, canvasW)
      && a.lives == w.lives
      && a.score - w.score == PointsPerHit * (|w.enemies| - |a.enemies|)
      && |a.enemies| <= |w.enemies|
      && |a.playerBullets| <= |w.playerBullets| + 1
  {
    var playerY := PlayerLine(canvasH);
    var flown := FlyPlayerShots(Reload(Aim(w, keys, dt, canvasW), keys, dt, playerY), dt);
    var f := FlyEnemyShots(March(flown, dt, roll, canvasW), dt, canvasH);
    CannonFacts(w, keys, dt, canvasW, playerY);
    WaveFacts(flown, dt, roll, canvasW, canvasH);
    BattleFacts(f, canvasW);
  }

  /** The cannon stages (move, reload, player shots) keep soundness, touch
      neither the wave, the score nor the lives, and add at most one shot. */
  lemma CannonFacts(w: World, keys: set<string>, dt: real, canvasW: real, playerY: real)
    requires Sound(w, canvasW)
    ensures var p := FlyPlayerShots(Reload(Aim(w, keys, dt, canvasW), keys, dt, playerY), dt);
      && Sound(p, canvasW)
      && p.enemies == w.enemies && p.score == w.score && p.lives == w.lives
      && |p.playerBullets| <= |w.playerBullets| + 1
  {
    var aimed := Aim(w, keys, dt, canvasW);
    var loaded := Reload(aimed, keys, dt, playerY);
    assert Sound(aimed, canvasW);
    ReloadFires(aimed, keys, dt, playerY);
    assert |FlyPlayerShots(loaded, dt).playerBullets| <= |loaded.playerBullets|;
  }

  /** The wave stages (march, enemy shots) keep soundness and the wave's
      size, and touch neither the player's shots, the score nor the lives. */
  lemma WaveFacts(w: World, dt: real, roll: nat -> real, canvasW: real, canvasH: real)
    requires Sound(w, canvasW)
    ensures var f := FlyEnemyShots(March(w, dt, roll, canvasW), dt, canvasH);
      && Sound(f, canvasW)
      && |f.enemies| == |w.enemies| && f.playerBullets == w.playerBullets
      && f.score == w.score && f.lives == w.lives
  {
    MarchEdge(w, dt, roll, canvasW);
  }

  /** The shoot-down keeps soundness and the lives, and scores 10 a ship. */
  lemma BattleFacts(w: World, canvasW: real)
    requires Sound(w, canvasW)
    ensures var a := Battle(w);
      && Sound(a, canvasW)
      && a.lives == w.lives
      && a.score - w.score == PointsPerHit * (|w.enemies| - |a.enemies|)
      && |a.enemies| <= |w.enemies| && |a.playerBullets| <= |w.playerBullets|
  {
    var r := ShootDown(w.playerBullets, w.enemies);
    assert (w.score + PointsPerHit * r.hits) % PointsPerHit == 0;
  }

  /** One frame keeps the state sound, and a game that goes on has at least
      one life and a non-empty wave. */
  lemma StepSound(w: World, keys: set<string>, dt: real, roll: nat -> real, canvasW: real, canvasH: real)
    requires Sound(w, canvasW) && w.lives >= 1
    ensures var t := Step(w, keys, dt, roll, canvasW, canvasH);
      && Sound(t.world, canvasW)
      && (!t.over ==> t.world.lives >= 1 && |t.world.enemies| > 0)
  {
    AdvancedFacts(w, keys, dt, roll, canvasW, canvasH);
    WaveShape(canvasW);
  }

  /** The score never falls, and rises by 10 for each ship shot down. */
  lemma StepScore(w: World, keys: set<string>, dt: real, roll: nat -> real, canvasW: real, canvasH: real)
    requires Sound(w, canvasW)
    ensures var t := Step(w, keys, dt, roll, canvasW, canvasH);
      var a := Advanced(w, keys, dt, roll, canvasW, canvasH);
      && t.world.score == a.score
      && t.world.score - w.score == PointsPerHit * (|w.enemies| - |a.enemies|)
      && t.world.score >= w.score
  {
    AdvancedFacts(w, keys, dt, roll, canvasW, canvasH);
  }

  /** The game ends exactly when a shot takes the last life or a ship
      reaches the cannon's line; lives go down by one per shot absorbed. */
  lemma StepEnds(w: World, keys: set<string>, dt: real, roll: nat -> real, canvasW: real, canvasH: real)
    requires Sound(w, canvasW) && w.lives >= 1
    ensures var t := Step(w, keys, dt, roll, canvasW, canvasH);
      var a := Advanced(w, keys, dt, roll, canvasW, canvasH);
      var d := Absorb(a.enemyBullets, PlayerHitbox(a.playerX, PlayerLine(canvasH)), a.lives);
      && t.world.lives == d.lives
      && w.lives - t.world.lives == |a.enemyBullets| - |d.bullets|
      && (t.over <==> d.lives <= 0 || Invaded(a.enemies, PlayerLine(canvasH)))
  {
    AdvancedFacts(w, keys, dt, roll, canvasW, canvasH);
  }

  /** A wave shot down to the last ship, with the game going on, is
      replaced by a fresh wave that is faster and fires more often; the
      speed and fire rate change at no other time. */
  lemma StepNextWave(w: World, keys: set<string>, dt: real, roll: nat -> real, canvasW: real, canvasH: real)
    ensures var t := Step(w, keys, dt, roll, canvasW, canvasH);
      var a := Advanced(w, keys, dt, roll, canvasW, canvasH);
      && (!t.over && |a.enemies| == 0 ==>
            t.world.enemies == Wave(canvasW)
            && t.world.speed == w.speed + SpeedIncrement
            && t.world.fireRate == w.fireRate + FireRateIncrement)
      && (t.over || |a.enemies| > 0 ==>
            t.world.enemies == a.enemies && t.world.speed == w.speed && t.world.fireRate == w.fireRate)
  {
  }
}
