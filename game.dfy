/**
 * The `SpaceInvaders` game object of src/main.py, without its screen: the
 * enemy and bullet lists, the player's tank, the score and the `running`
 * flag, and the operations of the game loop that change them in place.
 */
module Game {
  import opened Wrappers
  import opened Entities
  import opened GameRules

  /** How a call of `shoot` ends: it returns, or it raises. */
  datatype Status = Returned | Raised(error: Error)

  class SpaceInvaders {
    var enemies: seq<Pos>
    var bullets: seq<Bullet>
    const player: Player
    const scoreManager: Score
    var running: bool

    /**
     * What the game keeps true: the tank was created at its spawn point and
     * only ever moves sideways, and every enemy stands on a cell of the grid
     * `spawn_enemies` lays out (enemies never move).
     */
    ghost predicate Valid()
      reads this, player
    {
      player.start == PlayerStart && player.y == PlayerStart.y &&
      forall e :: e in enemies ==> e in Grid()
    }

    /** `__init__` and the state part of `setup_game`. */
    constructor ()
      ensures Valid() && fresh(player) && fresh(scoreManager)
      ensures enemies == [] && bullets == [] && running
      ensures player.Position() == PlayerStart && player.visible && player.canShoot
      ensures scoreManager.score == 0
    {
      enemies := [];
      bullets := [];
      running := true;
      scoreManager := new Score();
      player := new Player(PlayerStart);
    }

    /** `can_spawn_enemies`: a new batch is due when no enemy is left. */
    predicate CanSpawnEnemies(): (r: bool)
      reads this
      ensures r <==> |enemies| == 0
    {
      if enemies == [] then true else false
    }

    /**
     * `shoot(entity=shooter)`: the player fires north, and only when its
     * firing flag is set (which it then clears); an enemy always fires south;
     * any other entity raises TypeError. A bullet starts 20 units ahead of its shooter.
     */
    method Shoot(shooter: Shooter) returns (status: Status)
      requires Valid()
      modifies this`bullets, player`canShoot
      ensures Valid()
      ensures shooter.OtherEntity? ==>
        status == Raised(TypeError) && bullets == old(bullets) && player.canShoot == old(player.canShoot)
      ensures shooter.PlayerTank? ==>
        status == Returned && !player.canShoot &&
        bullets == old(bullets) + (if old(player.canShoot) then [Bullet(Pos(player.x, player.y + 20), North)] else [])
      ensures shooter.EnemyTank? ==>
        status == Returned && player.canShoot == old(player.canShoot) &&
        bullets == old(bullets) + [EnemyBullet(shooter.pos)]
    {
      var bulletFacingDirection := ShooterFacing(shooter);
      if bulletFacingDirection.None? {
        return Raised(TypeError);
      }
      var facing := bulletFacingDirection.value;
      if facing == North {
        if !player.canShoot {
          return Returned;
        }
        player.canShoot := false;
      }
      var from := if shooter.PlayerTank? then player.Position() else shooter.pos;
      FacingRoundTrip(facing);
      var bullet := NewBullet(FacingToken(facing), from);
      bullets := bullets + [bullet.value];
      return Returned;
    }

    /** The scan of `move_bullets` over a copy of the enemies: the first one the bullet hits. */
    method FirstCollision(bullet: Bullet) returns (k: nat)
      ensures k == FirstHit(bullet.pos, enemies)
    {
      var snapshot := enemies;
      k := 0;
      while k < |snapshot|
        invariant k <= |snapshot|
        invariant forall j :: 0 <= j < k ==> !Collided(bullet.pos, snapshot[j])
      {
        if Collided(bullet.pos, snapshot[k]) {
          return;
        }
        k := k + 1;
      }
    }

    /**
     * The body of the `move_bullets` loop for the bullet at index `at` of
     * the bullet list: the bullets before it are the ones already handled.
     */
    method HandleBullet(bullet: Bullet, at: nat)
      requires Valid() && at < |bullets| && bullets[at] == bullet
      modifies this`bullets, this`enemies, this`running, scoreManager
      ensures Valid()
      ensures var r := StepBullet(Board(old(bullets[..at]), old(enemies), old(scoreManager.score), old(running)),
                                  bullet, player.Position());
        bullets == r.bullets + old(bullets[at + 1..]) && enemies == r.enemies &&
        scoreManager.score == r.score && running == r.running
    {
      var bulletYcor := bullet.pos.y;
      if bulletYcor > 250 || bulletYcor < -300 {
        bullets := RemoveAt(bullets, at);
        // The source does not `continue` here: it goes on to the facing
        // tests, still with the y read before the removal but with the
        // destroyed bullet reset to the origin. Those tests never match, so
        // the second removal they would attempt (which would raise) never happens.
        var destroyed := bullet.(pos := Origin);
        OriginOutOfReach(enemies, player.Position());
        if bullet.facing == North {
          if bulletYcor >= EnemyFloor {
            var k := FirstCollision(destroyed);
            assert k == |enemies|;
          }
        } else if bulletYcor <= PlayerCeiling {
          var hitPlayer := Collided(destroyed.pos, player.Position());
          assert !hitPlayer;
        }
      } else if bullet.facing == North {
        if bulletYcor < EnemyFloor {
          bullets := bullets[..at] + [Moved(bullet)] + bullets[at + 1..];
        } else {
          var k := FirstCollision(bullet);
          if k < |enemies| {
            bullets := RemoveAt(bullets, at);
            enemies := RemoveAt(enemies, k);
            scoreManager.IncreaseScore();
          } else {
            bullets := bullets[..at] + [Moved(bullet)] + bullets[at + 1..];
          }
        }
      } else {
        if bulletYcor <= PlayerCeiling && Collided(bullet.pos, player.Position()) {
          bullets := RemoveAt(bullets, at);
          running := false;
        } else {
          bullets := bullets[..at] + [Moved(bullet)] + bullets[at + 1..];
        }
        // The source then calls `move` on this bullet even when it was
        // removed; a removed bullet is no longer part of the game.
      }
    }

    /**
     * The bullets of `done` have been handled from `start` and those of
     * `rest` not yet: they are still the tail of the bullet list.
     */
    ghost predicate Handled(start: Board, done: seq<Bullet>, rest: seq<Bullet>, pp: Pos)
      reads this, scoreManager
    {
      var r := Pass(start, done, pp);
      var at := |bullets| - |rest|;
      0 <= at && bullets[..at] == r.bullets && bullets[at..] == rest &&
      enemies == r.enemies && scoreManager.score == r.score && running == r.running
    }

    /** One turn of the `move_bullets` loop, stated against the pass. */
    method HandleNext(ghost start: Board, ghost done: seq<Bullet>, bullet: Bullet, rest: seq<Bullet>, ghost pp: Pos)
      requires Valid() && player.Position() == pp && Handled(start, done, [bullet] + rest, pp)
      modifies this`bullets, this`enemies, this`running, scoreManager
      ensures Valid() && player.Position() == pp && Handled(start, done + [bullet], rest, pp)
    {
      var at := |bullets| - |rest| - 1;
      assert bullets[at..] == [bullet] + rest;
      assert bullets[at] == bullet && bullets[at + 1..] == rest;
      PassSnoc(start, done, bullet, pp);
      HandleBullet(bullet, at);
    }

    /**
     * `move_bullets`: one pass over a copy of the bullet list that removes
     * bullets and enemies in place, scores, or clears `running`, exactly as
     * the pass of GameRules does.
     */
    method MoveBullets()
      requires Valid()
      modifies this`bullets, this`enemies, this`running, scoreManager
      ensures Valid()
      ensures var r := Pass(Board([], old(enemies), old(scoreManager.score), old(running)), old(bullets), player.Position());
        bullets == r.bullets && enemies == r.enemies && scoreManager.score == r.score && running == r.running
    {
      var snapshot := bullets;
      ghost var start := Board([], enemies, scoreManager.score, running);
      ghost var pp := player.Position();
      var i := 0;
      assert snapshot[..0] == [] && snapshot[0..] == snapshot;
      while i < |snapshot|
        invariant 0 <= i <= |snapshot|
        invariant Valid() && player.Position() == pp
        invariant Handled(start, snapshot[..i], snapshot[i..], pp)
      {
        assert snapshot[i..] == [snapshot[i]] + snapshot[i + 1..];
        assert snapshot[..i + 1] == snapshot[..i] + [snapshot[i]];
        HandleNext(start, snapshot[..i], snapshot[i], snapshot[i + 1..], pp);
        i := i + 1;
      }
      assert snapshot[..i] == snapshot;
    }

    /**
     * `spawn_enemies`: appends two rows of enemies, at heights 200 and 100,
     * each with x running from SCREEN_WIDTH / 2 - 50 down past -SCREEN_WIDTH / 2 in steps of 50.
     */
    method SpawnEnemies()
      requires Valid()
      modifies this`enemies
      ensures Valid()
      ensures enemies == old(enemies) + Grid()
    {
      var screenPosWidth := ScreenWidth / 2;
      var screenNegWidth := -screenPosWidth;
      var rowHeight := 300;
      for row := 0 to 2
        invariant rowHeight == RowHeight(row)
        invariant enemies == old(enemies) + SpawnedRows(row)
      {
        rowHeight := rowHeight - 100;
        var xs := RangeDown(screenPosWidth - 50, screenNegWidth, 50);
        for j := 0 to |xs|
          invariant enemies == old(enemies) + SpawnedRows(row) + Row(xs[..j], rowHeight)
        {
          assert Row(xs[..j + 1], rowHeight) == Row(xs[..j], rowHeight) + [Pos(xs[j], rowHeight)];
          enemies := enemies + [Pos(xs[j], rowHeight)];
        }
        assert xs[..|xs|] == xs;
      }
    }

    /** The enemy-fire loop of `run`: enemy `i` (after the bullet pass) fires when `i` is in `fire`. */
    method EnemiesFire(fire: set<nat>)
      requires Valid()
      modifies this`bullets, player`canShoot
      ensures Valid()
      ensures bullets == old(bullets) + Volley(enemies, fire)
      ensures player.canShoot == old(player.canShoot)
    {
      for i := 0 to |enemies|
        invariant Valid()
        invariant bullets == old(bullets) + Volley(enemies[..i], fire)
        invariant player.canShoot == old(player.canShoot)
      {
        assert enemies[..i + 1][..i] == enemies[..i];
        if i in fire {
          var status := Shoot(EnemyTank(enemies[i]));
        }
      }
      assert enemies[..|enemies|] == enemies;
    }

    /**
     * One iteration of the `while self.running` loop of `run`: with no
     * enemy left, add the bonus and spawn a batch; otherwise run the bullet
     * pass and let the chosen enemies fire, even if the pass just ended the round.
     */
    method Tick(fire: set<nat>)
      requires Valid()
      modifies this`bullets, this`enemies, this`running, scoreManager, player`canShoot
      ensures Valid()
      ensures player.canShoot == old(player.canShoot)
      ensures old(enemies) == [] ==>
        enemies == Grid() && bullets == old(bullets) && running == old(running) &&
        scoreManager.score == SpawnBonus(old(scoreManager.score))
      ensures old(enemies) != [] ==>
        var r := Pass(Board([], old(enemies), old(scoreManager.score), old(running)), old(bullets), player.Position());
        enemies == r.enemies && bullets == r.bullets + Volley(r.enemies, fire) &&
        scoreManager.score == r.score && running == r.running
    {
      if CanSpawnEnemies() {
        if scoreManager.score != 0 {
          scoreManager.IncreaseScore(10);
        }
        SpawnEnemies();
        return;
      }
      MoveBullets();
      EnemiesFire(fire);
    }

    /** `restart_game` (state only): a fresh round with the tank back at its spawn point. */
    method Restart()
      requires Valid()
      modifies this`running, this`enemies, this`bullets, scoreManager, player`x, player`y, player`visible
      ensures Valid()
      ensures running && scoreManager.score == 0 && enemies == [] && bullets == []
      ensures player.Position() == PlayerStart && player.visible
      ensures player.canShoot == old(player.canShoot)
    {
      running := true;
      scoreManager.SetScore(0);
      player.Reset();
      enemies := [];
      bullets := [];
    }
  }
}
