# Land-Invaders game state, modelled in Dafny

A model of the game-state logic of Land-Invaders, a turtle-graphics tank
shooter: the player's tank moves sideways and fires north at two rows of
enemy tanks, which now and then fire south. All drawing is stripped away.
What remains is:

- `entities.dfy`, module `Entities` (src/entities.py): positions on the
  integer grid, the bullet and its facing, the collision test, the player's
  tank as a class whose fields key presses change, and the score counter as a
  class;
- `rules.dfy`, module `GameRules` (src/main.py): the rules of the game loop as
  pure functions: the enemy batch `spawn_enemies` lays out, one
  `move_bullets` pass (`StepBullet` for one bullet, `Pass` for the whole
  list), the enemies' fire (`Volley`), the spawn bonus and the facing lookup
  of `shoot`, with the lemmas that state what the rules promise;
- `game.dfy`, module `Game` (src/main.py): the `SpaceInvaders` object as a
  class with the `enemies` and `bullets` lists, the tank, the score and the
  `running` flag, and one method per operation (`Shoot`, `MoveBullets`,
  `SpawnEnemies`, `Tick`, `Restart`), each proved to change the fields exactly
  as the functions of `GameRules` say;
- `wrappers.dfy`: `Option` and `Result`.

Abstractions. Turtle positions are float pairs; every coordinate the game
produces is an integer (the tank spawns at (0, -260), enemies stand on
multiples of 50, steps are 20 and 30), so positions are `int` pairs and
"distance at most 40" is "squared distance at most 1600". Headings 90 and 270
become the facing `North`/`South`. A destroyed bullet or enemy is one that has
left its list. Enemy fire, random in the source, is chosen by the caller: a
set of indices of the enemies that fire this tick.

Where the code and the game's documented intent differ, the model follows
the code:

- the tank's guards are `x < 370` and `x > -370`, tested before a 20-unit
  step, so the reachable range is [-380, 380], not [-370, 370]
  (`KeysStayOnTrack`, `PlayerRangeIsTight`);
- `can_move` tests only the y coordinate, and only its 320 bound has any
  effect (`CanMove`); the game never calls it, and removes bullets with the
  y > 250 / y < -300 test of `move_bullets` instead;
- the spawn bonus is added whenever the score is non-zero (`SpawnBonus`);
- a bullet that hits the player does not stop the pass: the remaining
  bullets are still handled and the enemies still fire in the same tick
  (`PassRunning`, `PassAccountsForEveryBullet`, `Tick`);
- the off-screen branch of `move_bullets` has no `continue`: the bullet is
  removed and reset to the origin, and the facing tests still run on it; from
  the origin nothing is within reach (`OriginOutOfReach`), so the only effect
  is the removal (`OffscreenBulletIsInert`).

## Model

| member | source | states |
|---|---|---|
| `Entities.Collided` | src/entities.py:113-118 | `collided_with_entity`: the squared distance between bullet and entity is at most 40 * 40 (its properties are `CollisionReach`) |
| `Entities.CollisionReach` | src/entities.py:113-118 | the hit test is symmetric; a hit is never more than 40 off on either axis; anything within 40 along the axes is a hit |
| `Entities.ParseFacing` | src/entities.py:86-93 | a facing is found exactly for the tokens "N" and "S", and it is the facing of that token |
| `Entities.FacingRoundTrip` | src/entities.py:86-96 | every facing's token parses back to that facing |
| `Entities.Heading` | src/entities.py:86-89 | a bullet's heading is 90 exactly when it faces north, else 270 |
| `Entities.Forward` | src/entities.py:101 | moving forward keeps x and changes y by the distance, up for heading 90 and down for 270 |
| `Entities.NewBullet` | src/entities.py:77-101 | construction fails with ValueError exactly for tokens other than "N"/"S"; otherwise the facing is the token and the bullet starts 20 units ahead of its origin, same x |
| `Entities.Moved` | src/entities.py:109-111 | a move keeps facing and x and goes 30 units in the facing's direction |
| `Entities.MovedTimesTrack` | src/entities.py:96-111 | after n moves a bullet has its original facing and x, and y changed by 30 n in the facing's direction |
| `Entities.FiredBulletTrack` | src/entities.py:98-111 | a bullet fired from a point is, after n moves, 20 + 30 n units from it along its facing |
| `Entities.CanMove` | src/entities.py:103-107 | `can_move` holds exactly when -320 < y < 320 |
| `Entities.StepRight` | src/entities.py:58-60 | `move_right` adds 20 exactly when x < 370, else leaves x |
| `Entities.StepLeft` | src/entities.py:62-64 | `move_left` subtracts 20 exactly when x > -370, else leaves x |
| `Entities.AfterKeys` | src/entities.py:58-64 | the x coordinate after a sequence of `move_right`/`move_left` calls (its properties are `KeysStayOnTrack` and `PlayerRangeIsTight`) |
| `Entities.KeysStayOnTrack` | src/entities.py:58-64 | from a multiple of 20 in [-380, 380], any sequence of key presses stays a multiple of 20 in [-380, 380] |
| `Entities.PlayerRangeIsTight` | src/entities.py:58-64 | from x = 0, 19 right presses reach 380 and 19 left presses reach -380, and neither end moves further |
| `Entities.Player.constructor` | src/entities.py:46-56 | a new tank stands at its starting position, keeps it as the reset point, can shoot, and has the given visibility |
| `Entities.Player.Position` | src/main.py:90 | the tank's `pos()` is its (x, y) |
| `Entities.Player.MoveRight` | src/entities.py:58-60 | x becomes `StepRight` of the old x; nothing else changes |
| `Entities.Player.MoveLeft` | src/entities.py:62-64 | x becomes `StepLeft` of the old x; nothing else changes |
| `Entities.Player.ToggleCanShoot` | src/entities.py:66-68 | the firing flag becomes the argument; nothing else changes |
| `Entities.Player.Reset` | src/entities.py:70-73 | the tank is back at its starting position and visible; the firing flag is untouched |
| `Entities.Score.constructor` | src/entities.py:122-125 | the score starts at 0 |
| `Entities.Score.IncreaseScore` | src/entities.py:131-133 | the score grows by the amount, 1 by default |
| `Entities.Score.SetScore` | src/entities.py:135-137 | the score becomes the amount |
| `GameRules.RangeDownBy50` | src/main.py:154 | a descending range by 50 from `stop + 50 n` has n elements, the i-th being `start - 50 i` |
| `GameRules.GridLayout` | src/main.py:146-156 | the batch has 30 enemies: 15 at y = 200 then 15 at y = 100, each row with x = 350, 300, ..., -350 in order |
| `GameRules.GridCells` | src/main.py:146-156 | every enemy of the batch is at y = 100 or 200, on a multiple of 50 in [-350, 350] |
| `GameRules.OriginOutOfReach` | src/main.py:102-139 | a bullet reset to the origin by `destroy` can hit neither a grid enemy nor the tank, so the tests after the off-screen removal never match |
| `GameRules.FirstHit` | src/main.py:114-121 | the index found is that of the first enemy in list order within reach of the bullet, or the list's length if there is none |
| `GameRules.StepBullet` | src/main.py:100-139 | handling one bullet either keeps it, moved once, or drops it; the score rises by 0 or 1, and by 1 exactly when one enemy is removed; `running` is cleared exactly when the bullet hits the tank |
| `GameRules.RemoveAt` | src/main.py:118-119 | `list.remove` of the element at index k: one element shorter, the elements before k unchanged, those after shifted down by one |
| `GameRules.RowXs` | src/main.py:147-154 | the x coordinates of a row, `range(SCREEN_WIDTH / 2 - 50, -SCREEN_WIDTH / 2, -50)` (its layout is `GridLayout`) |
| `GameRules.Grid` | src/main.py:146-156 | the batch `spawn_enemies` appends: the row at height 200 then the row at height 100 (its layout is `GridLayout`) |
| `GameRules.Offscreen` | src/main.py:103 | the pass's removal test y > 250 or y < -300 |
| `GameRules.HitsPlayer` | src/main.py:128-137 | a south bullet still on screen, at y <= -200, within 40 of the tank |
| `GameRules.Pass` | src/main.py:99-139 | the whole pass over the bullets in list order; it never adds bullets, the score rises by at most one per bullet, and it never sets `running` (its properties are the `Pass...` lemmas) |
| `GameRules.PassKeepsBulletOrder` | src/main.py:99-139 | the bullets after the pass are a subsequence of the original bullets each moved once, in the same order |
| `GameRules.PassRemovesEnemiesForPoints` | src/main.py:114-121 | the enemies after the pass are a subsequence of those before, and exactly one is gone per point scored |
| `GameRules.PassRunning` | src/main.py:127-139 | after the pass `running` holds exactly when it held before and no bullet of the pass hit the tank |
| `GameRules.PassAccountsForEveryBullet` | src/main.py:99-139 | every bullet is accounted for once: kept, or scoring a point, or off screen, or on the tank |
| `GameRules.OffscreenBulletIsInert` | src/main.py:102-105 | a bullet off screen when the pass reaches it is removed and changes nothing else: the pass ends as if it had not been in the list |
| `GameRules.NorthBulletHit` | src/main.py:108-121 | a north bullet at y >= 60 that reaches some enemy is removed with the first such enemy in list order, and the score rises by 1 |
| `GameRules.NorthBulletMiss` | src/main.py:108-125 | a north bullet below y = 60 or reaching no enemy stays and moves 30 north |
| `GameRules.SouthBulletStep` | src/main.py:127-139 | a south bullet at y <= -200 on the tank is removed and clears `running`; any other south bullet on screen stays and moves 30 south |
| `GameRules.EnemyBullet` | src/main.py:73-91 | an enemy's bullet faces south and starts 20 units below the enemy |
| `GameRules.Volley` | src/main.py:179-181 | the enemy fire adds exactly one south bullet per chosen enemy and none for the others (as many bullets as chosen enemies, a subsequence of all enemies' bullets in enemy order, each from a chosen enemy) |
| `GameRules.FullVolley` | src/main.py:179-181 | when every enemy fires, there is one bullet per enemy, in the enemies' order |
| `GameRules.SilentVolley` | src/main.py:179-181 | when no enemy fires, no bullet is added |
| `GameRules.SpawnBonus` | src/main.py:169-170 | a spawn tick adds 10 exactly when the score is not 0 |
| `GameRules.ShooterFacing` | src/main.py:73-80 | the lookup fails exactly for entities other than the two tank kinds, and gives north exactly for the player |
| `Game.SpaceInvaders.constructor` | src/main.py:18-23 | a new game has no enemies and no bullets, is running, scores 0, and has its tank at (0, -260), visible and able to shoot |
| `Game.SpaceInvaders.CanSpawnEnemies` | src/main.py:141-144 | enemies may be spawned exactly when none is left |
| `Game.SpaceInvaders.Shoot` | src/main.py:68-91 | another entity raises TypeError and adds nothing; the player adds one north bullet at its position + 20 only when it may shoot, and may not shoot afterwards; an enemy always adds one south bullet |
| `Game.SpaceInvaders.FirstCollision` | src/main.py:114-121 | the scan over a copy of the enemies stops at `FirstHit` |
| `Game.SpaceInvaders.HandleBullet` | src/main.py:100-139 | one loop iteration changes the lists, score and flag exactly as `StepBullet` says, leaving the unhandled bullets after it in place; after an off-screen removal it runs the source's facing tests on the bullet reset to the origin and proves, from the game invariant, that none of them matches |
| `Game.SpaceInvaders.HandleNext` | src/main.py:99-139 | one turn of the loop over the copied list moves the handled prefix from `done` to `done + [bullet]`, keeping the unhandled tail of the live list equal to the rest of the copy |
| `Game.SpaceInvaders.MoveBullets` | src/main.py:93-139 | the new bullets, enemies, score and flag are those of `Pass` over the old bullets |
| `Game.SpaceInvaders.SpawnEnemies` | src/main.py:146-156 | the batch `Grid` is appended to the enemies |
| `Game.SpaceInvaders.EnemiesFire` | src/main.py:179-181 | the chosen enemies' bullets are appended in enemy order; the tank's firing flag is untouched |
| `Game.SpaceInvaders.Tick` | src/main.py:167-184 | with no enemy: the score gets `SpawnBonus` and the batch is spawned, bullets untouched; otherwise the pass runs and the surviving enemies' chosen volley is appended, whatever the pass did to `running` |
| `Game.SpaceInvaders.Restart` | src/main.py:190-199 | running again, score 0, no enemies, no bullets, tank at its spawn point and visible, firing flag untouched |

## Left out

- Rendering and windowing: the screen set-up, background, sprite
  registration, redraws, the score's text, sprite choices. They are calls into
  the turtle library and change no game state.
- The random tire tracks and the random enemy sprite: cosmetic and random.
- Key bindings and the 1000 ms `ontimer` cooldown callback: the model offers
  the methods the keys call (`MoveRight`, `MoveLeft`, `Shoot`) and models the
  timer's expiry only as a call of `ToggleCanShoot(true)`.
- The random 1-in-41 chance of an enemy firing and the `time.sleep` pacing:
  the caller passes the set of enemies that fire.
- The unbounded `while self.running` loop, the `startup_effect` intro and the
  `restart_game` → `run` recursion: the model has single ticks (`Tick`) and
  the restart (`Restart`) instead.
- `end_game`: its explosion and the per-bullet redraw are visual; its
  `player.destroy()` teleports the tank to its start and hides it, which
  `Restart` then overrides, so its net effect on the state is `Restart`'s.
- src/effects.py (explosion and countdown animations) and src/variables.py
  (asset paths; SCREEN_WIDTH = 800 is inlined as `ScreenWidth`).
- Floating-point geometry and trigonometry: positions are integer pairs and
  the distance test compares squared distances.
- Object identity of bullets: a bullet is a value, so `Bullet.move`, which
  moves the turtle object in place, is modelled by replacing the bullet's
  entry in the `bullets` list with its moved value (`Moved`); removal by
  identity becomes removal at the bullet's index. No bullet is ever in the
  list twice, so nothing observable is lost.
- The visibility of destroyed enemies and bullets: they are modelled as
  removed from their lists.
