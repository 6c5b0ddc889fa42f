/**
 * The game-state rules of `SpaceInvaders` (src/main.py) as pure functions:
 * the enemy grid that `spawn_enemies` lays out, one `move_bullets` pass over
 * the bullet list, and the enemies' fire. The class in game.dfy is proved
 * to change its fields exactly as these functions say; the lemmas here state
 * what the rules guarantee.
 */
module GameRules {
  import opened Wrappers
  import opened Entities

  /** SCREEN_WIDTH, the only constant of the variables module the rules use. */
  const ScreenWidth := 800

  /** Where the player's tank is created and where it returns on a restart. */
  const PlayerStart := Pos(0, -260)

  // -------------------------------------------------------------- sequences

  /** `list.remove` of the element at index `k`. */
  function RemoveAt<T>(s: seq<T>, k: nat): (r: seq<T>)
    requires k < |s|
    ensures |r| == |s| - 1
    ensures forall j :: 0 <= j < k ==> r[j] == s[j]
    ensures forall j :: k <= j < |r| ==> r[j] == s[j + 1]
  {
    s[..k] + s[k + 1..]
  }

  /** `a` is obtained from `b` by deleting elements, keeping the order of the rest. */
  ghost predicate IsSubsequence<T>(a: seq<T>, b: seq<T>)
    decreases |b|
  {
    a == [] ||
    (b != [] &&
     (IsSubsequence(a, b[..|b| - 1]) ||
      (a[|a| - 1] == b[|b| - 1] && IsSubsequence(a[..|a| - 1], b[..|b| - 1]))))
  }

  lemma {:induction false} SubsequenceReflexive<T>(a: seq<T>)
    ensures IsSubsequence(a, a)
    decreases |a|
  {
    if a != [] {
      SubsequenceReflexive(a[..|a| - 1]);
    }
  }

  lemma SubsequenceEmpty<T>(a: seq<T>)
    requires IsSubsequence(a, [])
    ensures a == []
  {
  }

  lemma {:induction false} SubsequenceTransitive<T>(a: seq<T>, b: seq<T>, c: seq<T>)
    requires IsSubsequence(a, b) && IsSubsequence(b, c)
    ensures IsSubsequence(a, c)
    decreases |c|
  {
    if a == [] {
    } else if c == [] {
      SubsequenceEmpty(b);
    } else {
      var c' := c[..|c| - 1];
      if IsSubsequence(b, c') {
        SubsequenceTransitive(a, b, c');
      } else {
        assert b != [] && b[|b| - 1] == c[|c| - 1];
        var b' := b[..|b| - 1];
        assert IsSubsequence(b', c');
        if IsSubsequence(a, b') {
          SubsequenceTransitive(a, b', c');
        } else {
          assert a[|a| - 1] == b[|b| - 1] && IsSubsequence(a[..|a| - 1], b');
          SubsequenceTransitive(a[..|a| - 1], b', c');
        }
      }
    }
  }

  lemma SubsequenceSnoc<T>(a: seq<T>, b: seq<T>, x: T)
    requires IsSubsequence(a, b)
    ensures IsSubsequence(a, b + [x]) && IsSubsequence(a + [x], b + [x])
  {
    assert (b + [x])[..|b|] == b;
    assert (a + [x])[..|a|] == a;
  }

  /** Removing one element leaves a subsequence. */
  lemma {:induction false} RemoveAtSubsequence<T>(s: seq<T>, k: nat)
    requires k < |s|
    ensures IsSubsequence(RemoveAt(s, k), s)
    decreases |s|
  {
    var s' := s[..|s| - 1];
    if k == |s| - 1 {
      assert RemoveAt(s, k) == s';
      SubsequenceReflexive(s');
      SubsequenceSnoc(s', s', s[|s| - 1]);
      assert s' + [s[|s| - 1]] == s;
    } else {
      RemoveAtSubsequence(s', k);
      SubsequenceSnoc(RemoveAt(s', k), s', s[|s| - 1]);
      assert RemoveAt(s', k) + [s[|s| - 1]] == RemoveAt(s, k);
      assert s' + [s[|s| - 1]] == s;
    }
  }

  // ------------------------------------------------------------ enemy grid

  /** Python's `range(start, stop, -step)`: start, start - step, ... while above `stop`. */
  function RangeDown(start: int, stop: int, step: nat): seq<int>
    requires step > 0
    decreases if start > stop then start - stop else 0
  {
    if start <= stop then [] else [start] + RangeDown(start - step, stop, step)
  }

  lemma {:induction false} RangeDownBy50(start: int, stop: int, n: nat)
    requires start == stop + 50 * n
    ensures |RangeDown(start, stop, 50)| == n
    ensures forall i :: 0 <= i < n ==> RangeDown(start, stop, 50)[i] == start - 50 * i
    decreases n
  {
    if n > 0 {
      RangeDownBy50(start - 50, stop, n - 1);
    }
  }

  /** The x coordinates of one enemy row: `range(SCREEN_WIDTH // 2 - 50, -SCREEN_WIDTH // 2, -50)`. */
  function RowXs(): seq<int>
  {
    RangeDown(ScreenWidth / 2 - 50, -(ScreenWidth / 2), 50)
  }

  /** One row of enemies at height `y`, in the order of `xs`. */
  function Row(xs: seq<int>, y: int): (r: seq<Pos>)
    ensures |r| == |xs|
    ensures forall i :: 0 <= i < |xs| ==> r[i] == Pos(xs[i], y)
  {
    seq(|xs|, i requires 0 <= i < |xs| => Pos(xs[i], y))
  }

  /** The height of row `k` (1-based): `row_height` starts at 300 and drops by 100 before each row. */
  function RowHeight(k: nat): int
  {
    300 - 100 * k
  }

  /** The first `rows` rows that `spawn_enemies` appends. */
  function SpawnedRows(rows: nat): seq<Pos>
  {
    if rows == 0 then [] else SpawnedRows(rows - 1) + Row(RowXs(), RowHeight(rows))
  }

  /** The batch `spawn_enemies` appends: its two rows. */
  function Grid(): seq<Pos>
  {
    SpawnedRows(2)
  }

  /** The batch holds 30 enemies: 15 at y = 200, then 15 at y = 100, each row from x = 350 down to x = -350. */
  lemma GridLayout()
    ensures |Grid()| == 30
    ensures forall i :: 0 <= i < 15 ==> Grid()[i] == Pos(350 - 50 * i, 200)
    ensures forall i :: 0 <= i < 15 ==> Grid()[15 + i] == Pos(350 - 50 * i, 100)
  {
    RangeDownBy50(350, -400, 15);
    assert |RowXs()| == 15;
    assert SpawnedRows(1) == Row(RowXs(), 200);
  }

  /** Every enemy of the batch stands on one of the two rows, inside the screen, on a 50-unit column. */
  lemma GridCells(e: Pos)
    requires e in Grid()
    ensures e.y == 100 || e.y == 200
    ensures -350 <= e.x <= 350 && e.x % 50 == 0
  {
    GridLayout();
    var k :| 0 <= k < 30 && Grid()[k] == e;
    var i := if k < 15 then k else k - 15;
    assert Grid()[if k < 15 then i else 15 + i] == e;
    assert e.x == 350 - 50 * i == 50 * (7 - i);
  }

  /**
   * Where `Entity.destroy` has put a bullet (the origin) nothing can be hit:
   * the enemy rows are at least 100 and the player 260 units away.
   */
  lemma OriginOutOfReach(enemies: seq<Pos>, player: Pos)
    requires forall e :: e in enemies ==> e in Grid()
    requires player.y == PlayerStart.y
    ensures forall j :: 0 <= j < |enemies| ==> !Collided(Origin, enemies[j])
    ensures !Collided(Origin, player)
  {
    forall j | 0 <= j < |enemies|
      ensures !Collided(Origin, enemies[j])
    {
      GridCells(enemies[j]);
      CollisionReach(Origin, enemies[j]);
    }
    CollisionReach(Origin, player);
  }

  // ------------------------------------------------------- move_bullets pass

  /** What one pass works on: the bullets kept so far, the enemies, the score and `running`. */
  datatype Board = Board(bullets: seq<Bullet>, enemies: seq<Pos>, score: int, running: bool)

  /** The pass's first test: the bullet has left the playing field. */
  predicate Offscreen(b: Bullet)
  {
    b.pos.y > 250 || b.pos.y < -300
  }

  /** North bullets below this height are only moved: no enemy stands that low. */
  const EnemyFloor := 60
  /** South bullets above this height are only moved: the player stands lower. */
  const PlayerCeiling := -200

  /** The index of the first enemy, in list order, that a bullet at `p` hits; `|enemies|` if none. */
  function FirstHit(p: Pos, enemies: seq<Pos>): (k: nat)
    ensures k <= |enemies|
    ensures forall j :: 0 <= j < k ==> !Collided(p, enemies[j])
    ensures k < |enemies| ==> Collided(p, enemies[k])
    decreases |enemies|
  {
    if enemies == [] then 0
    else if Collided(p, enemies[0]) then 0
    else 1 + FirstHit(p, enemies[1..])
  }

  /** A south bullet that the pass finds on the player. */
  predicate HitsPlayer(b: Bullet, player: Pos)
  {
    !Offscreen(b) && b.facing == South && b.pos.y <= PlayerCeiling && Collided(b.pos, player)
  }

  /**
   * One iteration of the `move_bullets` loop for bullet `b`. A surviving
   * bullet is moved and kept; a bullet that leaves the screen, hits an
   * enemy or hits the player is dropped.
   */
  function StepBullet(st: Board, b: Bullet, player: Pos): (r: Board)
    ensures r.bullets == st.bullets || r.bullets == st.bullets + [Moved(b)]
    ensures r.score == st.score || r.score == st.score + 1
    ensures |r.enemies| + (r.score - st.score) == |st.enemies|
    ensures r.running == (st.running && !HitsPlayer(b, player))
  {
    if Offscreen(b) then st
    else match b.facing
      case North =>
        if b.pos.y < EnemyFloor then st.(bullets := st.bullets + [Moved(b)])
        else
          var k := FirstHit(b.pos, st.enemies);
          if k < |st.enemies| then st.(enemies := RemoveAt(st.enemies, k), score := st.score + 1)
          else st.(bullets := st.bullets + [Moved(b)])
      case South =>
        if b.pos.y <= PlayerCeiling && Collided(b.pos, player) then st.(running := false)
        else st.(bullets := st.bullets + [Moved(b)])
  }

  /** A whole `move_bullets` pass: the bullets `bs` handled one after another, in list order. */
  function Pass(start: Board, bs: seq<Bullet>, player: Pos): (r: Board)
    ensures |r.bullets| <= |start.bullets| + |bs|
    ensures start.score <= r.score <= start.score + |bs|
    ensures r.running ==> start.running
    decreases |bs|
  {
    if bs == [] then start
    else StepBullet(Pass(start, bs[..|bs| - 1], player), bs[|bs| - 1], player)
  }

  /** Every bullet of `bs` moved once. */
  function MovedAll(bs: seq<Bullet>): (r: seq<Bullet>)
    ensures |r| == |bs|
    ensures forall i :: 0 <= i < |bs| ==> r[i] == Moved(bs[i])
  {
    seq(|bs|, i requires 0 <= i < |bs| => Moved(bs[i]))
  }

  /** The bullets the pass drops because they left the screen. */
  function OffscreenCount(bs: seq<Bullet>): nat
  {
    if bs == [] then 0
    else OffscreenCount(bs[..|bs| - 1]) + (if Offscreen(bs[|bs| - 1]) then 1 else 0)
  }

  /** The bullets the pass finds on the player. */
  function PlayerHitCount(bs: seq<Bullet>, player: Pos): nat
  {
    if bs == [] then 0
    else PlayerHitCount(bs[..|bs| - 1], player) + (if HitsPlayer(bs[|bs| - 1], player) then 1 else 0)
  }

  /**
   * No bullet is added and none is moved twice: the bullets after the pass
   * are the moved survivors, in their original relative order.
   */
  lemma {:induction false} PassKeepsBulletOrder(start: Board, bs: seq<Bullet>, player: Pos)
    ensures IsSubsequence(Pass(start, bs, player).bullets, start.bullets + MovedAll(bs))
    decreases |bs|
  {
    if bs == [] {
      assert start.bullets + MovedAll(bs) == start.bullets;
      SubsequenceReflexive(start.bullets);
    } else {
      var pre, b := bs[..|bs| - 1], bs[|bs| - 1];
      PassKeepsBulletOrder(start, pre, player);
      var before := Pass(start, pre, player).bullets;
      assert start.bullets + MovedAll(bs) == start.bullets + MovedAll(pre) + [Moved(b)];
      SubsequenceSnoc(before, start.bullets + MovedAll(pre), Moved(b));
    }
  }

  /**
   * Enemies are only ever removed, in place, and exactly one is removed for
   * every point scored.
   */
  lemma {:induction false} PassRemovesEnemiesForPoints(start: Board, bs: seq<Bullet>, player: Pos)
    ensures IsSubsequence(Pass(start, bs, player).enemies, start.enemies)
    ensures |Pass(start, bs, player).enemies| + (Pass(start, bs, player).score - start.score) == |start.enemies|
    decreases |bs|
  {
    if bs == [] {
      SubsequenceReflexive(start.enemies);
    } else {
      var pre, b := bs[..|bs| - 1], bs[|bs| - 1];
      PassRemovesEnemiesForPoints(start, pre, player);
      var st := Pass(start, pre, player);
      var r := StepBullet(st, b, player);
      if r.enemies != st.enemies {
        var k := FirstHit(b.pos, st.enemies);
        assert k < |st.enemies| && r.enemies == RemoveAt(st.enemies, k);
        RemoveAtSubsequence(st.enemies, k);
        SubsequenceTransitive(r.enemies, st.enemies, start.enemies);
      }
    }
  }

  /**
   * `running` is cleared exactly when some bullet of the pass hits the
   * player, and nothing sets it back: the pass goes on after the hit.
   */
  lemma {:induction false} PassRunning(start: Board, bs: seq<Bullet>, player: Pos)
    ensures Pass(start, bs, player).running <==>
      start.running && forall i :: 0 <= i < |bs| ==> !HitsPlayer(bs[i], player)
    decreases |bs|
  {
    if bs != [] {
      var pre := bs[..|bs| - 1];
      PassRunning(start, pre, player);
      assert forall i :: 0 <= i < |pre| ==> pre[i] == bs[i];
    }
  }

  /**
   * Every bullet is handled exactly once: it is kept, or it scores a point,
   * or it left the screen, or it hit the player.
   */
  lemma {:induction false} PassAccountsForEveryBullet(start: Board, bs: seq<Bullet>, player: Pos)
    ensures var r := Pass(start, bs, player);
      |r.bullets| + (r.score - start.score) + OffscreenCount(bs) + PlayerHitCount(bs, player)
      == |start.bullets| + |bs|
    decreases |bs|
  {
    if bs != [] {
      PassAccountsForEveryBullet(start, bs[..|bs| - 1], player);
    }
  }

  /** Dropping a bullet from the end of both runs of the pass. */
  lemma PassSnoc(start: Board, bs: seq<Bullet>, b: Bullet, player: Pos)
    ensures Pass(start, bs + [b], player) == StepBullet(Pass(start, bs, player), b, player)
  {
    assert (bs + [b])[..|bs|] == bs;
  }

  /**
   * A bullet that is off the screen when the pass reaches it is removed and
   * has no other effect: the pass ends exactly as if it had not been in the list.
   */
  lemma {:induction false} OffscreenBulletIsInert(start: Board, pre: seq<Bullet>, b: Bullet, post: seq<Bullet>, player: Pos)
    requires Offscreen(b)
    ensures Pass(start, pre + [b] + post, player) == Pass(start, pre + post, player)
    decreases |post|
  {
    if post == [] {
      assert pre + [b] + post == pre + [b];
      assert pre + post == pre;
      PassSnoc(start, pre, b, player);
    } else {
      var post', c := post[..|post| - 1], post[|post| - 1];
      OffscreenBulletIsInert(start, pre, b, post', player);
      assert pre + [b] + post == (pre + [b] + post') + [c];
      assert pre + post == (pre + post') + [c];
      PassSnoc(start, pre + [b] + post', c, player);
      PassSnoc(start, pre + post', c, player);
    }
  }

  /** A north bullet high enough to reach the enemies, hitting at least one, removes only the first one hit and scores 1. */
  lemma NorthBulletHit(st: Board, b: Bullet, player: Pos, j: nat)
    requires !Offscreen(b) && b.facing == North && b.pos.y >= EnemyFloor
    requires j < |st.enemies| && Collided(b.pos, st.enemies[j])
    ensures exists k :: (0 <= k <= j && Collided(b.pos, st.enemies[k]) &&
      (forall i :: 0 <= i < k ==> !Collided(b.pos, st.enemies[i])) &&
      StepBullet(st, b, player) == Board(st.bullets, RemoveAt(st.enemies, k), st.score + 1, st.running))
  {
    var k := FirstHit(b.pos, st.enemies);
    assert k <= j;
  }

  /** A north bullet below the enemies, or hitting none, advances 30 units north and stays. */
  lemma NorthBulletMiss(st: Board, b: Bullet, player: Pos)
    requires !Offscreen(b) && b.facing == North
    requires b.pos.y < EnemyFloor || forall j :: 0 <= j < |st.enemies| ==> !Collided(b.pos, st.enemies[j])
    ensures StepBullet(st, b, player) == st.(bullets := st.bullets + [Moved(b)])
    ensures Moved(b).pos == Pos(b.pos.x, b.pos.y + 30)
  {
  }

  /** A south bullet on the player is removed and ends the round; any other south bullet on screen moves 30 units south. */
  lemma SouthBulletStep(st: Board, b: Bullet, player: Pos)
    requires !Offscreen(b) && b.facing == South
    ensures HitsPlayer(b, player) ==> StepBullet(st, b, player) == st.(running := false)
    ensures !HitsPlayer(b, player) ==>
      StepBullet(st, b, player) == st.(bullets := st.bullets + [Moved(b)]) &&
      Moved(b).pos == Pos(b.pos.x, b.pos.y - 30)
  {
  }

  // ------------------------------------------------------------ enemy fire

  /** The bullet `shoot(entity=enemy)` creates for an enemy at `e`. */
  function EnemyBullet(e: Pos): (b: Bullet)
    ensures b.facing == South && b.pos == Pos(e.x, e.y - 20)
  {
    NewBullet(FacingToken(South), e).value
  }

  /** The indices below `n` of the enemies that fire. */
  function Chosen(n: nat, fire: set<nat>): set<nat>
  {
    set j | 0 <= j < n && j in fire
  }

  lemma ChosenNext(n: nat, fire: set<nat>)
    ensures n !in Chosen(n, fire)
    ensures Chosen(n + 1, fire) == Chosen(n, fire) + (if n in fire then {n} else {})
  {
  }

  /** One bullet from every enemy, in the enemies' order. */
  function AllFire(enemies: seq<Pos>): (r: seq<Bullet>)
    ensures |r| == |enemies|
    ensures forall j :: 0 <= j < |enemies| ==> r[j] == EnemyBullet(enemies[j])
  {
    seq(|enemies|, j requires 0 <= j < |enemies| => EnemyBullet(enemies[j]))
  }

  /**
   * The bullets the enemies fire, in list order: enemy `i` fires when `i` is
   * in `fire`. Exactly one bullet comes from each chosen enemy, none from the
   * others, and they are in the enemies' order.
   */
  function Volley(enemies: seq<Pos>, fire: set<nat>): (r: seq<Bullet>)
    ensures |r| == |Chosen(|enemies|, fire)|
    ensures IsSubsequence(r, AllFire(enemies))
    ensures forall b :: b in r ==>
      exists j :: 0 <= j < |enemies| && j in fire && b == EnemyBullet(enemies[j])
    decreases |enemies|
  {
    if enemies == [] then []
    else
      var n := |enemies| - 1;
      var pre := enemies[..n];
      ChosenNext(n, fire);
      SubsequenceSnoc(Volley(pre, fire), AllFire(pre), EnemyBullet(enemies[n]));
      assert AllFire(pre) + [EnemyBullet(enemies[n])] == AllFire(enemies);
      if n in fire then Volley(pre, fire) + [EnemyBullet(enemies[n])] else Volley(pre, fire)
  }

  /** When every enemy fires there is one bullet per enemy, in the enemies' order. */
  lemma {:induction false} FullVolley(enemies: seq<Pos>, fire: set<nat>)
    requires forall j :: 0 <= j < |enemies| ==> j in fire
    ensures Volley(enemies, fire) == AllFire(enemies)
    decreases |enemies|
  {
    if enemies != [] {
      var n := |enemies| - 1;
      var pre := enemies[..n];
      FullVolley(pre, fire);
      assert Volley(enemies, fire) == Volley(pre, fire) + [EnemyBullet(enemies[n])];
      assert AllFire(pre) + [EnemyBullet(enemies[n])] == AllFire(enemies);
    }
  }

  /** When no enemy fires no bullet is added. */
  lemma {:induction false} SilentVolley(enemies: seq<Pos>, fire: set<nat>)
    requires forall j :: 0 <= j < |enemies| ==> j !in fire
    ensures Volley(enemies, fire) == []
    decreases |enemies|
  {
    if enemies != [] {
      var pre := enemies[..|enemies| - 1];
      SilentVolley(pre, fire);
      assert Volley(enemies, fire) == Volley(pre, fire);
    }
  }

  // ------------------------------------------------------------- spawning

  /** The bonus of a spawn tick: 10 points, but only when the score is not 0. */
  function SpawnBonus(score: int): (r: int)
    ensures r == score + 10 <==> score != 0
    ensures r == score <==> score == 0
  {
    if score != 0 then score + 10 else score
  }

  // ------------------------------------------------------------- shooting

  /** The entities `shoot` is given: the player's tank, an enemy tank, or anything else. */
  datatype Shooter = PlayerTank | EnemyTank(pos: Pos) | OtherEntity

  /** The `facing_directions` lookup of `shoot`, keyed by the shooter's type. */
  function ShooterFacing(s: Shooter): (r: Option<Facing>)
    ensures r.None? <==> s.OtherEntity?
    ensures r == Some(North) <==> s.PlayerTank?
  {
    match s
    case PlayerTank => Some(North)
    case EnemyTank(_) => Some(South)
    case OtherEntity => None
  }
}
