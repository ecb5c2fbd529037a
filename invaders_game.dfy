/** The invaders page's global state and its event handlers
    (scripts/invaders.js): the mode machine menu -> playing -> gameover,
    `resetGame`, `startGame`, `endGame`, the key handlers, the frame loop,
    and `update`, whose stages change the globals in place. */
module InvadersGame {
  import opened RealFacts
  import opened InvadersText
  import opened InvadersScores
  import opened InvadersWorld
  import opened InvadersCombat
  import opened InvadersFrame

  /** `loop`'s step: the elapsed milliseconds in 60 Hz frames. */
  function FrameDt(elapsedMs: real): (dt: real)
    ensures dt * (1000.0 / 60.0) == elapsedMs
    ensures elapsedMs >= 0.0 ==> dt >= 0.0
  {
    elapsedMs / (1000.0 / 60.0)
  }

  /** The table `endGame` writes for `name` and `score` at time `now`. */
  function SavedTable(stored: seq<Entry>, name: string, score: int, now: int): seq<Entry>
  {
    TopFive(Sort(stored + [Entry(CleanName(name), score, now)]))
  }

  class Game {
    var mode: Mode
    var pressedKeys: set<string>
    var playerBullets: seq<Bullet>
    var enemyBullets: seq<Bullet>
    var enemies: seq<Enemy>
    var enemyDirection: real
    var enemySpeed: real
    var enemyFireRate: real
    var score: int
    var lives: int
    var playerX: real
    var shootCooldown: real
    /** The name field's text. */
    var nameInput: string
    /** The stored highscore table. */
    var highscores: seq<Entry>
    var paused: bool
    var lastTs: real
    const canvasW: real
    const canvasH: real
    const playerY: real

    /** The play state as a value. */
    function State(): World
      reads this
    {
      World(playerX, shootCooldown, playerBullets, enemyBullets, enemies, enemyDirection,
            enemySpeed, enemyFireRate, score, lives)
    }

    ghost predicate Valid()
      reads this
    {
      Sound(State(), canvasW) && (mode == Playing ==> lives >= 1) && playerY == PlayerLine(canvasH)
    }

    /** Page load: the menu, an empty field of play, and the stored table. */
    constructor (canvasW: real, canvasH: real, name: string, stored: seq<Entry>)
      ensures Valid()
      ensures mode == Menu && pressedKeys == {} && playerBullets == [] && enemyBullets == []
      ensures enemies == [] && enemyDirection == 1.0 && enemySpeed == InitialSpeed
      ensures enemyFireRate == InitialFireRate && score == 0 && lives == InitialLives
      ensures playerX == canvasW / 2.0 && shootCooldown == 0.0 && playerY == canvasH - 40.0
      ensures nameInput == name && highscores == stored && !paused && lastTs == 0.0
      ensures this.canvasW == canvasW && this.canvasH == canvasH
    {
      mode := Menu;
      pressedKeys := {};
      playerBullets, enemyBullets, enemies := [], [], [];
      enemyDirection, enemySpeed, enemyFireRate := 1.0, InitialSpeed, InitialFireRate;
      score, lives := 0, InitialLives;
      this.canvasW, this.canvasH := canvasW, canvasH;
      playerX, playerY, shootCooldown := canvasW / 2.0, canvasH - 40.0, 0.0;
      nameInput, highscores := name, stored;
      paused, lastTs := false, 0.0;
    }

    /** `resetGame`: no keys held, no bullets, score 0, three lives, the
        starting pace, the cannon centred, and a new wave. */
    method ResetGame()
      modifies this`pressedKeys, this`playerBullets, this`enemyBullets, this`enemies
      modifies this`enemyDirection, this`enemySpeed, this`enemyFireRate, this`score, this`lives
      modifies this`playerX, this`shootCooldown
      ensures State() == Fresh(canvasW) && pressedKeys == {}
    {
      pressedKeys := {};
      playerBullets, enemyBullets := [], [];
      score, lives := 0, InitialLives;
      enemyDirection, enemySpeed, enemyFireRate := 1.0, InitialSpeed, InitialFireRate;
      playerX, shootCooldown := canvasW / 2.0, 0.0;
      enemies := SpawnEnemies(canvasW);
    }

    /** `startGame`: a blank name becomes "Player", then play starts from a
        reset. */
    method StartGame()
      requires playerY == PlayerLine(canvasH)
      modifies this`mode, this`nameInput
      modifies this`pressedKeys, this`playerBullets, this`enemyBullets, this`enemies
      modifies this`enemyDirection, this`enemySpeed, this`enemyFireRate, this`score, this`lives
      modifies this`playerX, this`shootCooldown
      ensures Valid()
      ensures nameInput == (if Trim(old(nameInput)) == [] then DefaultName else old(nameInput))
      ensures mode == Playing && State() == Fresh(canvasW) && pressedKeys == {}
    {
      if Trim(nameInput) == [] {
        nameInput := DefaultName;
      }
      mode := Playing;
      ResetGame();
      FreshSound(canvasW);
    }

    /** `endGame`: game over, and the score saved to the table under the
        name in the field. */
    method EndGame(now: int)
      modifies this`mode, this`highscores
      ensures mode == GameOver
      ensures highscores == SavedTable(old(highscores), nameInput, score, now)
      ensures Ranked(highscores) && |highscores| <= MaxEntries
    {
      mode := GameOver;
      highscores := SaveHighscore(nameInput, score, now, highscores);
    }

    /** Both `keydown` listeners, in the order they are registered: the key
        is marked held; Enter starts a game from the menu or the game-over
        screen; `p` or `P` toggles the pause. */
    method KeyDown(key: string)
      requires Valid()
      modifies this`mode, this`nameInput, this`paused
      modifies this`pressedKeys, this`playerBullets, this`enemyBullets, this`enemies
      modifies this`enemyDirection, this`enemySpeed, this`enemyFireRate, this`score, this`lives
      modifies this`playerX, this`shootCooldown
      ensures Valid()
      ensures var starts := (old(mode) == GameOver || old(mode) == Menu) && key == "Enter";
        && (starts ==> mode == Playing && State() == Fresh(canvasW) && pressedKeys == {}
                       && nameInput == (if Trim(old(nameInput)) == [] then DefaultName else old(nameInput)))
        && (!starts ==> mode == old(mode) && State() == old(State())
                        && pressedKeys == old(pressedKeys) + {key} && nameInput == old(nameInput))
      ensures paused == (if key == "p" || key == "P" then !old(paused) else old(paused))
    {
      pressedKeys := pressedKeys + {key};
      if (mode == GameOver || mode == Menu) && key == "Enter" {
        StartGame();
      }
      if key == "p" || key == "P" {
        paused := !paused;
      }
    }

    /** `keyup`: the key is released. */
    method KeyUp(key: string)
      modifies this`pressedKeys
      ensures pressedKeys == old(pressedKeys) - {key}
    {
      pressedKeys := pressedKeys - {key};
    }

    /** Arrow keys and the clamp, the cooldown, and the space bar. */
    method AimAndReload(dt: real)
      modifies this`playerX, this`shootCooldown, this`playerBullets
      ensures State() == Reload(Aim(old(State()), old(pressedKeys), dt, canvasW), old(pressedKeys), dt, playerY)
    {
      if "ArrowLeft" in pressedKeys {
        playerX := playerX - MoveSpeed * dt;
      }
      if "ArrowRight" in pressedKeys {
        playerX := playerX + MoveSpeed * dt;
      }
      playerX := Max(20.0, Min(canvasW - 20.0, playerX));
      if shootCooldown > 0.0 {
        shootCooldown := shootCooldown - dt;
      }
      if " " in pressedKeys && shootCooldown <= 0.0 {
        playerBullets := playerBullets + [Bullet(playerX - 2.0, playerY - 12.0, 4.0, 10.0, -6.0)];
        shootCooldown := 10.0;
      }
    }

    /** The player's shots fly, and those off the top are dropped. */
    method MovePlayerShots(dt: real)
      modifies this`playerBullets
      ensures State() == FlyPlayerShots(old(State()), dt)
    {
      playerBullets := AdvanceBullets(playerBullets, dt);
      playerBullets := Filter(playerBullets, PlayerShotLive);
    }

    /** The wave marches and fires, and turns and steps down at a margin. */
    method MarchWave(dt: real, roll: nat -> real)
      modifies this`enemies, this`enemyBullets, this`enemyDirection
      ensures State() == March(old(State()), dt, roll, canvasW)
    {
      var hitEdge;
      enemies, enemyBullets, hitEdge :=
        MarchEnemies(enemies, enemyDirection, enemySpeed, dt, enemyFireRate, roll, canvasW, enemyBullets);
      if hitEdge {
        enemyDirection := enemyDirection * -1.0;
        enemies := StepDownAll(enemies, EnemyStepDown);
      }
    }

    /** The enemy shots fall, and those below the canvas are dropped. */
    method MoveEnemyShots(dt: real)
      modifies this`enemyBullets
      ensures State() == FlyEnemyShots(old(State()), dt, canvasH)
    {
      enemyBullets := AdvanceBullets(enemyBullets, dt);
      enemyBullets := Filter(enemyBullets, b => EnemyShotLive(b, canvasH));
    }

    /** The player's shots against the wave. */
    method ShootDownWave()
      modifies this`playerBullets, this`enemies, this`score
      ensures State() == Battle(old(State()))
    {
      playerBullets, enemies, score := ShootDownEnemies(playerBullets, enemies, score);
    }

    /** The moves and the player's shots against the wave, stage by stage. */
    method Advance(dt: real, roll: nat -> real)
      requires playerY == PlayerLine(canvasH)
      modifies this`playerBullets, this`enemyBullets, this`enemies, this`enemyDirection
      modifies this`score, this`playerX, this`shootCooldown
      ensures State() == Advanced(old(State()), old(pressedKeys), dt, roll, canvasW, canvasH)
    {
      AimAndReload(dt);
      MovePlayerShots(dt);
      MarchWave(dt, roll);
      MoveEnemyShots(dt);
      ShootDownWave();
    }

    /** The enemy shots against the cannon's hitbox; `fatal` when the last
        life went. */
    method TakeHits() returns (fatal: bool)
      modifies this`enemyBullets, this`lives
      ensures var d := Absorb(old(enemyBullets), PlayerHitbox(playerX, playerY), old(lives));
        && State() == old(State()).(enemyBullets := d.bullets, lives := d.lives)
        && fatal == d.fatal
    {
      var hitbox := PlayerHitbox(playerX, playerY);
      enemyBullets, lives, fatal := AbsorbShots(enemyBullets, hitbox, lives);
    }

    /** A cleared wave gives way to a faster one that fires more often. */
    method ReplaceWave()
      modifies this`enemySpeed, this`enemyFireRate, this`enemies
      ensures State() == NextWave(old(State()), canvasW)
    {
      if |enemies| == 0 {
        enemySpeed := enemySpeed + SpeedIncrement;
        enemyFireRate := enemyFireRate + FireRateIncrement;
        enemies := SpawnEnemies(canvasW);
      }
    }

    /** The rest of `update` once the shoot-down is done: the enemy shots
        against the cannon, then defeat by the last life or by invasion,
        else the next wave when this one is cleared. */
    method Settle(now: int)
      modifies this`mode, this`highscores, this`enemyBullets, this`lives
      modifies this`enemySpeed, this`enemyFireRate, this`enemies
      ensures var d := Absorb(old(enemyBullets), PlayerHitbox(playerX, playerY), old(lives));
        var b := old(State()).(enemyBullets := d.bullets, lives := d.lives);
        var over := d.fatal || Invaded(b.enemies, playerY);
        && State() == (if over then b else NextWave(b, canvasW))
        && mode == (if over then GameOver else old(mode))
        && highscores == (if over then SavedTable(old(highscores), nameInput, b.score, now)
                          else old(highscores))
    {
      var fatal := TakeHits();
      if fatal {
        EndGame(now);
        return;
      }
      if Invaded(enemies, playerY) {
        EndGame(now);
        return;
      }
      ReplaceWave();
    }

    /** One `update(dt)` while playing. */
    method Play(dt: real, roll: nat -> real, now: int)
      requires Valid() && mode == Playing
      modifies this`mode, this`highscores, this`playerBullets, this`enemyBullets, this`enemies
      modifies this`enemyDirection, this`enemySpeed, this`enemyFireRate, this`score, this`lives
      modifies this`playerX, this`shootCooldown
      ensures var t := Step(old(State()), old(pressedKeys), dt, roll, canvasW, canvasH);
        && State() == t.world
        && mode == (if t.over then GameOver else Playing)
        && highscores == (if t.over then SavedTable(old(highscores), nameInput, t.world.score, now)
                          else old(highscores))
    {
      ghost var w0 := State();
      ghost var keys := pressedKeys;
      Advance(dt, roll);
      ghost var a := State();
      ghost var d := Absorb(a.enemyBullets, PlayerHitbox(a.playerX, playerY), a.lives);
      StepParts(w0, keys, dt, roll, canvasW, canvasH, a, d);
      Settle(now);
    }

    /** `update(dt)`, with `roll(j)` the `Math.random()` draw for the `j`-th
        ship of this frame and `now` the clock `endGame` reads. Outside play
        nothing changes; in play the state moves as `Step` says, and a game
        that ends is saved to the table. */
    method Update(dt: real, roll: nat -> real, now: int)
      requires Valid()
      modifies this`mode, this`highscores, this`playerBullets, this`enemyBullets, this`enemies
      modifies this`enemyDirection, this`enemySpeed, this`enemyFireRate, this`score, this`lives
      modifies this`playerX, this`shootCooldown
      ensures Valid()
      ensures old(mode) != Playing ==>
        mode == old(mode) && State() == old(State()) && highscores == old(highscores)
      ensures old(mode) == Playing ==>
        var t := Step(old(State()), old(pressedKeys), dt, roll, canvasW, canvasH);
        && State() == t.world
        && mode == (if t.over then GameOver else Playing)
        && highscores == (if t.over then SavedTable(old(highscores), old(nameInput), t.world.score, now)
                          else old(highscores))
    {
      if mode == Playing {
        StepSound(State(), pressedKeys, dt, roll, canvasW, canvasH);
        Play(dt, roll, now);
      }
    }

    /** `loop(ts)`: the step since the last frame in 60 Hz frames; the game
        is updated unless paused. */
    method Loop(ts: real, roll: nat -> real, now: int)
      requires Valid()
      modifies this`lastTs, this`mode, this`highscores, this`playerBullets, this`enemyBullets
      modifies this`enemies, this`enemyDirection, this`enemySpeed, this`enemyFireRate, this`score
      modifies this`lives, this`playerX, this`shootCooldown
      ensures Valid()
      ensures lastTs == ts
      ensures old(paused) || old(mode) != Playing ==>
        mode == old(mode) && State() == old(State()) && highscores == old(highscores)
      ensures !old(paused) && old(mode) == Playing ==>
        var t := Step(old(State()), old(pressedKeys), FrameDt(ts - old(lastTs)), roll, canvasW, canvasH);
        && State() == t.world
        && mode == (if t.over then GameOver else Playing)
        && highscores == (if t.over then SavedTable(old(highscores), old(nameInput), t.world.score, now)
                          else old(highscores))
    {
      var dt := FrameDt(ts - lastTs);
      ghost var w0 := State();
      lastTs := ts;
      assert State() == w0;
      if !paused {
        Update(dt, roll, now);
      } else {
        assert State() == old(State());
      }
    }
  }
}
