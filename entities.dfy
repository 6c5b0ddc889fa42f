/**
 * The game entities of src/entities.py with all drawing removed: positions on
 * the integer grid the game actually uses, the bullet (a value), the player
 * tank (an object whose fields key presses update) and the score counter.
 */
module Entities {
  import opened Wrappers

  /** A turtle position. Every coordinate the game produces is an integer. */
  datatype Pos = Pos(x: int, y: int)

  /** Where `Turtle.reset()` (called by `Entity.destroy`) leaves a turtle. */
  const Origin := Pos(0, 0)

  /** The two exceptions the core raises. */
  datatype Error = ValueError | TypeError

  // ---------------------------------------------------------------- geometry

  /** Squared Euclidean distance: comparing it with 40 * 40 is the turtle's `distance(...) <= 40`. */
  function DistSq(a: Pos, b: Pos): (d: nat)
  {
    (a.x - b.x) * (a.x - b.x) + (a.y - b.y) * (a.y - b.y)
  }

  /** `Bullet.collided_with_entity`: the entity is at most 40 units away. */
  predicate Collided(bullet: Pos, entity: Pos)
  {
    DistSq(bullet, entity) <= 40 * 40
  }

  /**
   * What "within distance 40" means on the integer grid: the test is
   * symmetric, a hit is never more than 40 units off on either axis, and
   * anything within 40 units along the axes (|dx| + |dy| <= 40) is a hit.
   */
  lemma CollisionReach(bullet: Pos, entity: Pos)
    ensures Collided(bullet, entity) == Collided(entity, bullet)
    ensures Collided(bullet, entity) ==>
      -40 <= bullet.x - entity.x <= 40 && -40 <= bullet.y - entity.y <= 40
    ensures Abs(bullet.x - entity.x) + Abs(bullet.y - entity.y) <= 40 ==> Collided(bullet, entity)
  {
    var dx, dy := bullet.x - entity.x, bullet.y - entity.y;
    assert (entity.x - bullet.x) * (entity.x - bullet.x) == dx * dx;
    assert (entity.y - bullet.y) * (entity.y - bullet.y) == dy * dy;
    SquareBounds(dx);
    SquareBounds(dy);
    SumSquareBound(Abs(dx), Abs(dy));
  }

  function Abs(n: int): nat
  {
    if n < 0 then -n else n
  }

  /** A coordinate difference of more than 40 alone already puts an entity out of reach. */
  lemma SquareBounds(d: int)
    ensures d * d == Abs(d) * Abs(d)
    ensures Abs(d) > 40 ==> d * d > 40 * 40
  {
    if Abs(d) > 40 {
      assert Abs(d) * Abs(d) >= 41 * Abs(d);
    }
  }

  lemma SumSquareBound(a: nat, b: nat)
    ensures a + b <= 40 ==> a * a + b * b <= 40 * 40
  {
    if a + b <= 40 {
      assert a * a <= 40 * a;
      assert b * b <= 40 * b;
    }
  }

  // ----------------------------------------------------------------- facing

  /** The direction a bullet travels: "N" (fired by the player) or "S" (by an enemy). */
  datatype Facing = North | South

  /** The token the game passes to `Bullet(facing=...)`. */
  function FacingToken(f: Facing): string
  {
    match f
    case North => "N"
    case South => "S"
  }

  /** The lookup in the `directions` dictionary of `Bullet.__init__`. */
  function ParseFacing(token: string): (r: Option<Facing>)
    ensures r.Some? <==> token == "N" || token == "S"
    ensures r.Some? ==> FacingToken(r.value) == token
  {
    if token == "N" then Some(North)
    else if token == "S" then Some(South)
    else None
  }

  /** Every facing survives the trip through its token. */
  lemma FacingRoundTrip(f: Facing)
    ensures ParseFacing(FacingToken(f)) == Some(f)
  {
  }

  /** The turtle heading (degrees) a bullet of this facing is given. */
  function Heading(f: Facing): (deg: int)
    ensures deg == 90 || deg == 270
    ensures deg == 90 <==> f == North
  {
    match f
    case North => 90
    case South => 270
  }

  /** `forward(d)` with heading 90 (up the screen) or 270 (down): x never changes. */
  function Forward(p: Pos, f: Facing, d: int): (q: Pos)
    ensures q.x == p.x
    ensures q.y - p.y == (if Heading(f) == 90 then d else -d)
  {
    match f
    case North => Pos(p.x, p.y + d)
    case South => Pos(p.x, p.y - d)
  }

  // ----------------------------------------------------------------- bullet

  /** A bullet: where it is and which way it travels. The facing is fixed at creation. */
  datatype Bullet = Bullet(pos: Pos, facing: Facing)

  /**
   * `Bullet(facing=token, from_pos=from)`: an unknown token raises ValueError;
   * otherwise the bullet starts 20 units ahead of `from` in its direction.
   */
  function NewBullet(token: string, from: Pos): (r: Result<Bullet, Error>)
    ensures r.Success? <==> token == "N" || token == "S"
    ensures r.Failure? ==> r.error == ValueError
    ensures r.Success? ==> FacingToken(r.value.facing) == token
    ensures r.Success? ==> r.value.pos.x == from.x
    ensures r.Success? && token == "N" ==> r.value.pos.y == from.y + 20
    ensures r.Success? && token == "S" ==> r.value.pos.y == from.y - 20
  {
    match ParseFacing(token)
    case None => Failure(ValueError)
    case Some(f) => Success(Bullet(Forward(from, f, 20), f))
  }

  /** `Bullet.move`: 30 units further along the bullet's own facing. */
  function Moved(b: Bullet): (r: Bullet)
    ensures r.facing == b.facing && r.pos.x == b.pos.x
    ensures b.facing == North ==> r.pos.y > b.pos.y
    ensures b.facing == South ==> r.pos.y < b.pos.y
    ensures Abs(r.pos.y - b.pos.y) == 30
  {
    Bullet(Forward(b.pos, b.facing, 30), b.facing)
  }

  /** The bullet after `n` calls of `move`. */
  function MovedTimes(b: Bullet, n: nat): Bullet
  {
    if n == 0 then b else Moved(MovedTimes(b, n - 1))
  }

  /** However often it moves, a bullet keeps its facing and column, and travels 30 units per move. */
  lemma {:induction false} MovedTimesTrack(b: Bullet, n: nat)
    ensures MovedTimes(b, n).facing == b.facing
    ensures MovedTimes(b, n).pos.x == b.pos.x
    ensures MovedTimes(b, n).pos.y == b.pos.y + (if b.facing == North then 30 * n else -30 * n)
  {
    if n > 0 {
      MovedTimesTrack(b, n - 1);
    }
  }

  /** A freshly fired bullet after `n` moves is 20 + 30 n units from where it was fired. */
  lemma FiredBulletTrack(token: string, from: Pos, n: nat)
    requires NewBullet(token, from).Success?
    ensures var b := MovedTimes(NewBullet(token, from).value, n);
      b.pos.x == from.x &&
      b.pos.y == from.y + (if token == "N" then 20 + 30 * n else -20 - 30 * n)
  {
    MovedTimesTrack(NewBullet(token, from).value, n);
  }

  /**
   * `Bullet.can_move`: the source tests the y coordinate against both the
   * 480 and the 320 bound; only the 320 bound matters. (The game never calls it.)
   */
  predicate CanMove(b: Bullet): (r: bool)
    ensures r <==> -320 < b.pos.y < 320
  {
    var y := b.pos.y;
    -480 < y < 480 && -320 < y < 320
  }

  // ----------------------------------------------------------------- player

  /** Largest x from which `move_right` still moves, and its mirror for `move_left`. */
  const RightGuard := 370
  const LeftGuard := -370
  const Step := 20

  /** The x coordinate after `move_right`. */
  function StepRight(x: int): (r: int)
    ensures r == x + Step <==> x < RightGuard
    ensures r == x <==> x >= RightGuard
  {
    if x < RightGuard then x + Step else x
  }

  /** The x coordinate after `move_left`. */
  function StepLeft(x: int): (r: int)
    ensures r == x - Step <==> x > LeftGuard
    ensures r == x <==> x <= LeftGuard
  {
    if x > LeftGuard then x - Step else x
  }

  /** The two movement keys. */
  datatype Key = LeftKey | RightKey

  /** The x coordinate after pressing `keys` in order, starting from `x`. */
  function AfterKeys(x: int, keys: seq<Key>): int
    decreases |keys|
  {
    if keys == [] then x
    else AfterKeys(if keys[0] == RightKey then StepRight(x) else StepLeft(x), keys[1..])
  }

  /**
   * Whatever keys are pressed, a player starting on the 20-unit track inside
   * [-380, 380] stays on it: since the guard is tested before the step, the
   * reachable range is [-380, 380], not [-370, 370].
   */
  lemma {:induction false} KeysStayOnTrack(x: int, keys: seq<Key>)
    requires x % Step == 0 && -380 <= x <= 380
    ensures AfterKeys(x, keys) % Step == 0 && -380 <= AfterKeys(x, keys) <= 380
    decreases |keys|
  {
    if keys != [] {
      KeysStayOnTrack(if keys[0] == RightKey then StepRight(x) else StepLeft(x), keys[1..]);
    }
  }

  /** `n` presses of the same key. */
  function Presses(k: Key, n: nat): (r: seq<Key>)
    ensures |r| == n
  {
    seq(n, _ => k)
  }

  lemma {:induction false} PressRightUntil(x: int, n: nat)
    requires x + Step * n <= 380
    ensures AfterKeys(x, Presses(RightKey, n)) == x + Step * n
    decreases n
  {
    if n > 0 {
      assert Presses(RightKey, n)[1..] == Presses(RightKey, n - 1);
      PressRightUntil(StepRight(x), n - 1);
    }
  }

  lemma {:induction false} PressLeftUntil(x: int, n: nat)
    requires x - Step * n >= -380
    ensures AfterKeys(x, Presses(LeftKey, n)) == x - Step * n
    decreases n
  {
    if n > 0 {
      assert Presses(LeftKey, n)[1..] == Presses(LeftKey, n - 1);
      PressLeftUntil(StepLeft(x), n - 1);
    }
  }

  /** Both ends of [-380, 380] are reached from the spawn column x = 0, and nothing moves past them. */
  lemma PlayerRangeIsTight()
    ensures AfterKeys(0, Presses(RightKey, 19)) == 380
    ensures AfterKeys(0, Presses(LeftKey, 19)) == -380
    ensures AfterKeys(380, [RightKey]) == 380 && AfterKeys(-380, [LeftKey]) == -380
  {
    PressRightUntil(0, 19);
    PressLeftUntil(0, 19);
  }

  /** The player's tank. Key presses and the game loop update its fields in place. */
  class Player {
    /** `_starting_pos`, where `reset` puts the tank back. */
    const start: Pos
    var x: int
    var y: int
    var visible: bool
    var canShoot: bool

    /** `Player(starting_pos=start, visible=visible)`. */
    constructor (start: Pos, visible: bool := true)
      ensures this.start == start && x == start.x && y == start.y
      ensures this.visible == visible && canShoot
    {
      this.start := start;
      this.canShoot := true;
      this.x, this.y := start.x, start.y;
      this.visible := visible;
    }

    /** `pos()` */
    function Position(): (p: Pos)
      reads this
      ensures p.x == x && p.y == y
    {
      Pos(x, y)
    }

    /** `move_right`: 20 units to the right unless x has reached 370. */
    method MoveRight()
      modifies this`x
      ensures x == StepRight(old(x))
    {
      var crrXcor := x;
      if crrXcor < RightGuard {
        x := crrXcor + Step;
      }
    }

    /** `move_left`: 20 units to the left unless x has reached -370. */
    method MoveLeft()
      modifies this`x
      ensures x == StepLeft(old(x))
    {
      var crrXcor := x;
      if crrXcor > LeftGuard {
        x := crrXcor - Step;
      }
    }

    /** `toggle_can_shoot`: sets the firing flag and nothing else. */
    method ToggleCanShoot(canShoot: bool)
      modifies this`canShoot
      ensures this.canShoot == canShoot
    {
      this.canShoot := canShoot;
    }

    /** `reset`: back to the starting position and visible; the firing flag is untouched. */
    method Reset()
      modifies this`x, this`y, this`visible
      ensures x == start.x && y == start.y && visible
    {
      x, y := start.x, start.y;
      visible := true;
    }
  }

  // ------------------------------------------------------------------ score

  /** The score counter (its on-screen text is not modelled). */
  class Score {
    var score: int

    constructor ()
      ensures score == 0
    {
      score := 0;
    }

    /** `increase_score(amount=1)` */
    method IncreaseScore(amount: int := 1)
      modifies this
      ensures score == old(score) + amount
    {
      score := score + amount;
    }

    /** `set_score(amount)` */
    method SetScore(amount: int)
      modifies this
      ensures score == amount
    {
      score := amount;
    }
  }
}
