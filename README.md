# Four pygame games, modelled in Dafny

The repository holds four single-file arcade games written with pygame:

- **Platformer** (`Platformer/main.py`): a side-scrolling platformer and shooter.
  - A player with health, lives, invincibility windows, a cheat code and a gun.
  - Patrolling enemies, some of which shoot at the player.
  - Bullets, enemy bullets and explosions.
  - Coins and hearts to collect.
  - A camera that follows the player.
  - A chunk generator that lays ground segments and floating platforms ahead of the player.
- **Trivia** (`Trivia/main.py`): a multiple-choice quiz.
  - It is a four-screen state machine: intro, question, feedback and game over.
  - A classifier turns the score into a title.
  - A greedy word wrapper lays out the question text.
- **Snake** (`snake_game/Sebs_Snake_Game.py`): the classic snake game.
  - The body is a bounded queue of the head's last positions.
  - The game ends on leaving the screen or running into the body.
  - Eating an apple lengthens the snake.
- **Driving** (`DrivingGame/main.py`): a pseudo-3D in-car racer.
  - The speed chases a target.
  - Steering moves a lane offset that is clamped to the road.
  - Cars and roadside scenery are spawned ahead and approach the car.
  - Passed cars score.
  - The game finishes at 5000 metres and ends on a crash.

The model keeps each game's own shape:

- The objects that the code updates in place are classes with `modifies` frames: `Player`, `Enemy`, the platformer `Game`, `TriviaGame`, the driving `Game`, and the snake game's loop state, `SnakeGame`.
- The code's loops become methods with loop invariants, each proved against a function that specifies it.
- The pure pieces are functions with lemmas: overlap tests, clamps, the level classifier, the patrol step, the filters and the word wrapper.
- Key presses, held keys, event lists and time steps are parameters.
- Random draws are handled by the range of values they can take:
  - A `randint` draw becomes an arbitrary value of its inclusive range, chosen with `:|`.
  - The driving game's `random.random()` draws are a parameter record, constrained by a predicate that keeps every draw in [0, 1).
  - So every property holds for all draws.

Modules:

| module | file | models |
|---|---|---|
| `Geometry` | geometry.dfy | the `check_collision` rectangle test, the span overlap of the generator |
| `Seqs` | seqs.dfy | first-match search and order-preserving filter, as the games' loops and list comprehensions use them |
| `Options` | options.dfy | an `Option` type |
| `PlatformerConfig` | platformer_config.dfy | the platformer's constants |
| `PlatformerPlatforms` | platformer_platforms.dfy | platforms and the first overlapping one |
| `PlatformerItems` | platformer_items.dfy | `Bullet`, `EnemyBullet`, `Explosion`, `Coin`, `Heart` |
| `PlatformerPlayer` | platformer_player.dfy | class `Player` |
| `PlatformerEnemy` | platformer_enemy.dfy | class `Enemy` and its patrol |
| `PlatformerPasses` | platformer_passes.dfy | the per-frame list passes of `Game.update`, as functions |
| `PlatformerWorld` | platformer_world.dfy | platform kinds, the floating-platform height search |
| `PlatformerGame` | platformer_game.dfy | class `Game`: generator, key handling, `update` |
| `Trivia` | trivia.dfy | level titles, `TriviaGame`, the key dispatch of `main`, `wrap_text` |
| `Snake` | snake.dfy | the frame step of `gameLoop` and `randAppleGen` |
| `Driving` | driving.dfy | `clamp`, `_lerp`, `_smooth_damp`, `handle_input`, `update`, the gear letter, `run`'s events |

Python's floats are modelled as `real`. This covers the platformer's vertical position and speed, the heart and bullet positions, and all of the driving game. No claim is made about rounding. Integer quantities are `int`; none of them wraps in Python.

### Behaviour of the code worth knowing

The model follows the code, including where it behaves differently from what one would expect of the game:

- **Patrol range.** An enemy's offset from its patrol start can reach `patrol_distance + 1`, one pixel past the far end, when the patrol distance is odd (`PlatformerEnemy.OddPatrolOvershoots`). The enemy moves 2 pixels a step and turns only at or past an end. It does not stay within `[start, start + patrol_distance]`. The model proves that bound for even distances only.
- **Dying through `take_damage`.** A death through `take_damage` leaves the player invincible for 60 frames (`PlatformerPlayer.DeathKeepsInvincibility`). The death does not clear invincibility. Only a fall off the screen clears it.
- **Health is never 0.** Health is never 0 after `take_damage` returns: reaching 0 refills it at once. So the player invariant is `0 < health <= 100`.
- **The generation frontier.** It starts at 0 although the constructor has already generated [0, 1600). The first frames therefore generate the same ranges again, on top of the existing platforms (`PlatformerGame.Game.Reset`, `PlatformerGame.Game.ExtendWorld`).
- **Enemies on their platforms.** Enemies are not kept on their platforms. An enemy can start 50 pixels from the platform's right end, with a patrol of up to `width - 60`.
- **Overlapping platforms.** Floating platforms placed at the fallback height can overlap others. Every generated floating platform either clears all the platforms placed before it or sits at the fallback 480, and the fallback is used only after 50 draws that all clashed (`PlatformerWorld.FindFloatingY`, `PlatformerGame.Game.GenerateWorldSegment`).
- **Finishing the driving course.** Finishing the course sets the target speed to 0 once. Holding the accelerator afterwards drives on, because the finish flag is already set.
- **The driving game's off-road crash.** The off-road crash test never fires (`Driving.OffRoadNeverFires`). The lane offset is clamped to [-0.5, 0.5], and the test needs more than 0.8.
- **The driving game's spawn guard.** The spawners' `not game_over` guard is always true inside `update`, because `run` calls `update` only while the game is not over.
- **Trivia after the last answer.** Return moves to an empty question screen past the end instead of to the game-over screen. The next option key then ends the game without counting an answer (`Trivia.LastAnswerThenReturn`).
- **Snake reversal.** Turning straight back is not blocked. A snake of length three or more then runs into its neck and dies (`Snake.ReversalRunsIntoNeck`). A snake of length two survives, because the segment dropped from the queue is the neck the head moves onto (`Snake.ReversalOfTwoSurvives`).
- **Snake idling after growing.** A snake that has grown but not yet moved dies on its next frame (`Snake.IdleAfterGrowingDies`).

## Model

| member | source | states |
|---|---|---|
| Geometry.OverlapsSymmetric | Platformer/main.py:209-213 | the strict rectangle test gives the same answer with its two arguments swapped |
| Geometry.OverlapsIffIntersectionPositive | Platformer/main.py:209-213 | for boxes of positive size, the test holds exactly when both the x spans and the y spans share a part of positive length |
| Geometry.SpanOverlap | Platformer/main.py:700-704 | the generator's overlap length is within [0, min(w, pw)], positive exactly when the spans intersect, and 0 when they do not |
| Seqs.FirstIndex | Platformer/main.py:381-384 | the first index whose element passes the test; none before it passes; none exactly when no element passes |
| Seqs.Filter | Platformer/main.py:865 | a list comprehension `[b for b in s if p(b)]`: no longer than its input, and everything it keeps passes the test |
| Seqs.FilterMembers | Platformer/main.py:865 | an element is kept exactly when it is in the input and passes the test |
| Seqs.Count | DrivingGame/main.py:205-212 | the number of elements passing the test is at most the length |
| Seqs.FilterLength | DrivingGame/main.py:205-212 | the filter keeps exactly as many elements as pass the test |
| Seqs.FilterIdempotent | Platformer/main.py:865 | filtering an already filtered list changes nothing |
| Seqs.FilterKeepsAll | DrivingGame/main.py:205-212 | when every element passes, the whole list is kept |
| Seqs.FilterSnoc | DrivingGame/main.py:205-212 | scanning one more element appends it to the kept list exactly when it passes |
| Seqs.CountSnoc | DrivingGame/main.py:205-212 | scanning one more element adds one to the count exactly when it passes |
| PlatformerPlatforms.FirstOverlap | Platformer/main.py:381-384 | the first platform in list order that the box overlaps; none earlier overlaps; none exactly when no platform overlaps |
| PlatformerItems.BulletStep | Platformer/main.py:446-450 | a bullet moves by its speed and stays alive exactly when it was alive and its new x is within [0, WORLD_WIDTH] |
| PlatformerItems.BulletAfterFrames | Platformer/main.py:436-450 | after k frames a fired bullet is k speeds further and alive exactly when that position is still within the world: once out it never comes back |
| PlatformerItems.EnemyBulletStep | Platformer/main.py:425-429 | an enemy bullet keeps its velocity and stays alive exactly when its moved position is inside the world and within 100 pixels above or below the screen |
| PlatformerItems.ExplosionStep | Platformer/main.py:464-467 | an explosion stays in place, counts one frame, and is done once the count reaches EXPLOSION_LIFETIME_FRAMES |
| PlatformerItems.ExplosionLifetime | Platformer/main.py:457-467 | a new explosion has counted k frames after k updates and is done exactly from 20 updates on |
| PlatformerItems.Healed | Platformer/main.py:932 | health after a heart is exactly `min(MAX_HEALTH, health + heal_amount)`: at most both, and equal to one of them |
| PlatformerPlayer.LandPass | Platformer/main.py:138-149 | the platform loop computes the landing pass, and standing on the ground after it implies zero vertical speed |
| PlatformerPlayer.LandRestsWhenGrounded | Platformer/main.py:138-149 | on the ground after the pass means a vertical speed of 0: the snap zeroes it and later overlaps with speed 0 change nothing |
| PlatformerPlayer.LandKeepsOrStops | Platformer/main.py:138-149 | the pass either keeps the vertical speed or stops the player |
| PlatformerPlayer.LandOnTopOfPlatform | Platformer/main.py:140-146 | a player that lands stands exactly on top of one of the platforms |
| PlatformerPlayer.ClampX | Platformer/main.py:151-155 | the player's x ends within [0, WORLD_WIDTH - 32], unchanged when already there, at the nearer edge otherwise |
| PlatformerPlayer.MuzzlePosition | Platformer/main.py:267-274 | the muzzle is 39 pixels right of x facing right, 7 left of it facing left, and 19 below the top |
| PlatformerPlayer.ShotFrom | Platformer/main.py:172-180 | the new bullet is alive, at x + 39 facing right or x - 15 facing left, at y + 18, moving at +12 or -12 |
| PlatformerPlayer.CheatCodeSpellings | Platformer/main.py:201-207 | the code "idkfa" matches in any letter case and near misses do not match |
| PlatformerPlayer.Player.constructor | Platformer/main.py:80-106 | a new player at the given point, at rest, facing right, with 3 lives, full health, no score, no invincibility and no cooldown |
| PlatformerPlayer.Player.Update | Platformer/main.py:108-166 | gravity and movement, the countdowns, the landing pass at the moved x, the clamp, and a fall below the screen costing exactly one life with full health, no invincibility and a respawn at (100, 100); afterwards x is in range and on the ground implies zero vertical speed |
| PlatformerPlayer.Player.TickTimers | Platformer/main.py:128-136 | the shot cooldown counts down to 0; an ordinary invincibility window counts down and ends when no frames are left; the cheat's invincibility never ends |
| PlatformerPlayer.Player.FallOffReset | Platformer/main.py:157-166 | one life fewer, full health, no invincibility, back at the spawn point at rest |
| PlatformerPlayer.Player.Jump | Platformer/main.py:168-170 | the vertical speed becomes JUMP_POWER only from the ground |
| PlatformerPlayer.Player.Shoot | Platformer/main.py:172-181 | a bullet from the muzzle and a 12-frame cooldown exactly when the cooldown has run out; nothing otherwise |
| PlatformerPlayer.Player.TakeDamage | Platformer/main.py:183-199 | no effect while invincible; otherwise health drops by the damage, a 60-frame window starts, and emptying health costs exactly one life and refills it; nothing else changes |
| PlatformerPlayer.Player.ActivateCheatCode | Platformer/main.py:201-207 | accepts exactly the code in any ASCII letter case, which turns on permanent invincibility; a wrong code changes nothing |
| PlatformerPlayer.DeathKeepsInvincibility | Platformer/main.py:183-199 | 15 health taking 20 damage loses one life, refills health and leaves the player invincible for 60 frames |
| PlatformerEnemy.BodyCentre | Platformer/main.py:879 | the explosion point lies inside the enemy's box, at its centre up to integer halving |
| PlatformerEnemy.PatrolStepKeepsInvariant | Platformer/main.py:371-377 | a patrol step keeps the offset even, within [0, patrol + 1], and not past the end it heads to |
| PlatformerEnemy.PatrolStaysInRange | Platformer/main.py:371-377 | however long it patrols, an enemy stays within [start, start + patrol + 1], and within [start, start + patrol] for an even patrol |
| PlatformerEnemy.PatrolOutbound | Platformer/main.py:371-377 | until it reaches the far end, an enemy walks right 2 pixels a frame |
| PlatformerEnemy.OddPatrolOvershoots | Platformer/main.py:371-377 | with a patrol of 31 the enemy reaches offset 32, past the far end |
| PlatformerEnemy.SettledY | Platformer/main.py:379-384 | the first platform the fallen box overlaps puts it on its top; with none the box stays; it never moves down |
| PlatformerEnemy.Settle | Platformer/main.py:379-384 | the platform loop stops at the first overlap and computes the settled height |
| PlatformerEnemy.Enemy.constructor | Platformer/main.py:354-369 | a new enemy at its patrol start, facing right, with its kind's size and a shooter's first delay in [0, 90] |
| PlatformerEnemy.Enemy.Update | Platformer/main.py:371-388 | one patrol step, a settled fall, and a shooter's cooldown counting down; an enemy on its patrol stays on it |
| PlatformerPasses.CameraFor | Platformer/main.py:836-837 | the camera is always within [0, WORLD_WIDTH - SCREEN_WIDTH], centred on the player when that is in range and at the nearer limit otherwise |
| PlatformerPasses.CameraMonotone | Platformer/main.py:836-837 | the camera never moves left when the player moves right |
| PlatformerPasses.LiveBullets | Platformer/main.py:861-865 | after the bullet pass every bullet is alive and inside the world, and every bullet whose move keeps it inside is there |
| PlatformerPasses.LiveEnemyBullets | Platformer/main.py:905-908 | after the enemy-bullet pass every shot is alive and in bounds |
| PlatformerPasses.LiveExplosions | Platformer/main.py:886-889 | after the explosion pass no explosion is done and each has counted fewer than 20 frames |
| PlatformerPasses.FirstHit | Platformer/main.py:871-881 | the first bullet in list order, dead or alive, overlapping the enemy; none earlier overlaps; none exactly when no bullet overlaps |
| PlatformerPasses.Kill | Platformer/main.py:876 | killing a hit bullet keeps the list's length |
| PlatformerPasses.Marked | Platformer/main.py:867-884 | the hit pass keeps the bullet list's length |
| PlatformerPasses.ScanStep | Platformer/main.py:869-883 | one enemy of the hit pass: a miss keeps it, a hit adds one explosion and kills the bullet |
| PlatformerPasses.SurvivorsSplit | Platformer/main.py:867-884 | every enemy either survives or explodes, survivors come from the list in order, and distinct enemies stay distinct |
| PlatformerPasses.StruckSnoc | Platformer/main.py:867-884 | a bullet is some enemy's first hit after one more enemy exactly when it was before or is that enemy's first hit |
| PlatformerPasses.MarkedKillsStruck | Platformer/main.py:871-881 | the hit pass kills exactly the bullets that are some enemy's first hit and changes nothing else; one bullet may kill several enemies |
| PlatformerPasses.Guns | Platformer/main.py:892-893 | the shooting pass reads one record per enemy, in order |
| PlatformerPasses.Muzzles | Platformer/main.py:892-901 | at most one shot per enemy |
| PlatformerPasses.MuzzlesStep | Platformer/main.py:892-903 | the shooting pass over one more enemy adds that enemy's shot, if any, at the end |
| PlatformerPasses.FiredTwice | Platformer/main.py:891-903 | firing one volley after another fires both, in order |
| PlatformerPasses.Collect | Platformer/main.py:919-924 | every coin keeps its place, and a coin is collected afterwards exactly when it already was or the player touches it; `collected` never reverts |
| PlatformerPasses.CoinsHit | Platformer/main.py:919-924 | no more coins are scored than there are |
| PlatformerPasses.CollectLeavesNothing | Platformer/main.py:538-547 | right after a pass nothing is left to score at the same position: a coin scores only on the frame it is collected |
| PlatformerPasses.CollectIdempotent | Platformer/main.py:919-924 | a second pass at the same position changes nothing and scores nothing |
| PlatformerPasses.HealAll | Platformer/main.py:926-932 | the heart pass never lowers health and never passes MAX_HEALTH, heals by at least 40 or to full when a heart is touched, and leaves health alone otherwise |
| PlatformerPasses.TakeHearts | Platformer/main.py:926-930 | every heart keeps its place and is collected exactly when it already was or the player touches it |
| PlatformerWorld.KindAt | Platformer/main.py:720-726 | floating platforms are grass up to x = 1000, stone past 2000, ice in between |
| PlatformerWorld.CheckPlacement | Platformer/main.py:697-712 | the loop accepts a height exactly when the candidate overlaps every existing platform by at most a tenth of its width horizontally or sits at least 80 pixels from its height |
| PlatformerWorld.FindFloatingY | Platformer/main.py:689-718 | the heights drawn lie in [400, 520] and all but the last clashed; when a height is found it is the last draw and clears every existing platform; otherwise the fallback 480 is used after exactly 50 draws that all clashed |
| PlatformerWorld.FoundHeightClearsGround | Platformer/main.py:706-712 | a found height is at least 80 pixels above any ground segment already placed |
| PlatformerGame.Route | Platformer/main.py:784-817 | F fires only with the cheat input closed; printable ASCII text is typed only while it is open; R restarts only a lost or won game |
| PlatformerGame.CheatInput | Platformer/main.py:796-813 | '=' opens an empty input unless one is open; Return and Escape close and empty it; Backspace drops the last character; typing appends |
| PlatformerGame.TypeThenErase | Platformer/main.py:810-813 | typing one character and erasing it gives back the text that was there |
| PlatformerGame.DropLast | Platformer/main.py:811 | `text[:-1]`: empty stays empty, otherwise the text without its last character |
| PlatformerGame.StandStep | Platformer/main.py:730-743 | enemies placed on a new platform keep every generated enemy standing on a platform |
| PlatformerGame.OverStep | Platformer/main.py:745-750 | coins placed over a new platform keep every generated coin over a platform |
| PlatformerGame.LaidStep | Platformer/main.py:669-756 | placing one more platform at the cursor keeps the generated platforms left to right and non-overlapping |
| PlatformerGame.HurtOnceThenSpared | Platformer/main.py:183-199 | a hurt player is invincible, so any number of hits in one pass hurts at most once |
| PlatformerGame.ShotDown | Platformer/main.py:910-917 | the hit check keeps the enemy-bullet list's length |
| PlatformerGame.TakeShots | Platformer/main.py:910-917 | every enemy bullet touching the player dies; the first one deals 10 damage unless the player is invincible; nobody is moved, even on a death |
| PlatformerGame.FindHit | Platformer/main.py:871-881 | the inner bullet loop finds the first bullet overlapping the enemy |
| PlatformerGame.SurvivorsKeepPatrolling | Platformer/main.py:867-884 | enemies that survive the hit pass are still distinct, valid, on their patrol and from the old list |
| PlatformerGame.Game.constructor | Platformer/main.py:631-665 | the whole start state (`Started`): a fresh player at (100, 100) with 3 lives, full health and no invincibility; empty shot lists; the first two chunks as the generator lays them, with every enemy standing on and every coin above its platform; three hearts; camera and frontier at 0; neither lost nor won; no cheat input |
| PlatformerGame.Game.Reset | Platformer/main.py:791-795 | a restart reaches the same whole start state (`Started`) as the constructor, with a fresh player and fresh enemies |
| PlatformerGame.Game.ClearLists | Platformer/main.py:638-648 | every world list empty |
| PlatformerGame.Game.ClearFlags | Platformer/main.py:650-664 | camera and frontier at 0, neither lost nor won, cheat input closed and empty |
| PlatformerGame.Game.BuildWorld | Platformer/main.py:654-656 | on a cleared game, the first two chunks start with the initial ground chunk, every platform is one the generator lays and cleared against the earlier ones, every enemy stands on and every coin sits above its platform; three hearts at their fixed places; the game is then started |
| PlatformerGame.Game.GenerateHearts | Platformer/main.py:758-770 | three hearts appended at 20%, 45% and 70% of the world, 150 pixels above the bottom |
| PlatformerGame.Game.GenerateWorldSegment | Platformer/main.py:667-756 | only appends; lays at least one platform when the range is non-empty, the initial ground chunk at 0, each platform of a generated shape, left to right without overlap; each new floating platform clears every platform before it or sits at the fallback height; new enemies stand on and new coins float over new platforms |
| PlatformerGame.Game.LayNext | Platformer/main.py:671-756 | one turn of the generator's loop keeps the loop's invariants: platforms laid left to right and cleared, enemies and coins on them, the cursor moved right |
| PlatformerGame.ClearedStep | Platformer/main.py:689-728 | appending a platform cleared against the list keeps every new platform cleared against the ones before it |
| PlatformerGame.Game.PlaceSegment | Platformer/main.py:672-756 | one loop step: exactly one platform at the cursor, ground or floating of the generated sizes, a floating one clear of every existing platform or at the fallback height, the cursor moved past it by a 50 to 150 gap (800 at x = 0), and what stands on it |
| PlatformerGame.Game.PlaceEnemy | Platformer/main.py:730-743 | at most one new enemy, standing on the new platform with its start and patrol in the generator's ranges |
| PlatformerGame.Game.PlaceCoins | Platformer/main.py:745-750 | one to three new coins, each 30 pixels above the platform and at least 20 pixels from its ends |
| PlatformerGame.Game.HandleKey | Platformer/main.py:784-817 | each key as `Route` classifies it: a jump changes only the vertical speed; a restart reaches the whole start state (`Started`) with a fresh player and fresh enemies; cheat keys change only the cheat input, and a right code grants permanent invincibility; F fires exactly when the cooldown allows |
| PlatformerGame.Game.PlayKey | Platformer/main.py:789-817 | the same, for keys that do not restart |
| PlatformerGame.Game.EditCheat | Platformer/main.py:796-813 | the cheat input changes as `CheatInput` says and the world does not; submitting the right code makes the player permanently invincible |
| PlatformerGame.Game.FireKey | Platformer/main.py:814-817 | a bullet from the muzzle and a restarted cooldown when the cooldown has run out; nothing otherwise |
| PlatformerGame.Game.Update | Platformer/main.py:819-940 | nothing once lost or won; otherwise at most one life lost, score never lower, x in range, the world only grows, won exactly when x >= WORLD_WIDTH - 100 and lost exactly when no lives are left |
| PlatformerGame.Game.EndFrame | Platformer/main.py:919-940 | the coin and heart passes and the win and game-over latches |
| PlatformerGame.Game.MovePlayer | Platformer/main.py:823-844 | steering, the player update, the camera and world extension: the player's new state is `PlayerStep` of the steered old state over the old platforms, the camera is `CameraFor` the new x; x in range, at most one life lost and then with full health, score unchanged, the world only grows |
| PlatformerGame.Game.StepPlayer | Platformer/main.py:824-833 | the player's new state is `PlayerStep` of the steered old state: gravity, movement, landing, clamp, timers, and the fall-off respawn |
| PlatformerGame.Game.Combat | Platformer/main.py:846-917 | at most one life lost and none from full health, score never lower, the player either stays put or is respawned, surviving enemies come from the old list |
| PlatformerGame.Game.PlayerShots | Platformer/main.py:861-889 | the bullet, hit and explosion passes only raise the score and only remove enemies |
| PlatformerGame.Game.EnemyShots | Platformer/main.py:891-917 | an invincible player is untouched; at most one life lost, none from more than 10 health; score and position unchanged |
| PlatformerGame.Game.SteerPlayer | Platformer/main.py:825-831 | right wins over left, and no key stops the player; the facing follows the last key applied |
| PlatformerGame.Game.FollowCamera | Platformer/main.py:835-837 | the camera is the clamped centring of the player |
| PlatformerGame.Game.ExtendWorld | Platformer/main.py:839-844 | within a chunk of the frontier one chunk is generated and the frontier moves exactly 800 right; otherwise nothing changes |
| PlatformerGame.Game.UpdateBullets | Platformer/main.py:861-865 | the bullet list becomes the live bullets of the pass |
| PlatformerGame.Game.UpdateExplosions | Platformer/main.py:886-889 | the explosion list becomes the running explosions of the pass |
| PlatformerGame.Game.UpdateEnemyBullets | Platformer/main.py:905-908 | the enemy-bullet list becomes the live shots of the pass |
| PlatformerGame.Game.CollectCoins | Platformer/main.py:919-924 | the coins become the collected list and the score rises by 10 per coin collected now |
| PlatformerGame.Game.CollectHearts | Platformer/main.py:926-932 | the hearts become the collected list and health is healed by each touched heart in turn |
| PlatformerGame.Game.UpdateEnemies | Platformer/main.py:846-859 | every enemy takes its step; the player is hurt at most once, with respawn on a death; score and cheat unchanged |
| PlatformerGame.Game.EnemyTurn | Platformer/main.py:847-859 | one enemy steps; the player is hurt only if it overlaps the enemy, at most once |
| PlatformerGame.Game.Contact | Platformer/main.py:851-859 | a contact hurts a vulnerable player and a death puts it back at (100, 100) with the camera at 0; an invincible one is untouched |
| PlatformerGame.Game.ResolveBulletHits | Platformer/main.py:867-884 | enemies become the unhit ones in order, one explosion per hit enemy is appended, 25 points per hit enemy, and the bullets are marked as `Marked` says |
| PlatformerGame.Game.Install | Platformer/main.py:884 | the hit pass's results become the enemy, bullet and explosion lists and the score rises by 25 per explosion |
| PlatformerGame.Game.FireShooters | Platformer/main.py:891-903 | one aimed shot per ready shooter, in enemy order, from its centre towards the player; each shooter's cooldown restarts exactly when it fired |
| PlatformerGame.Game.EnemyBulletHits | Platformer/main.py:910-917 | the touching shots die and a vulnerable player takes 10 damage once; score and cheat unchanged |
| PlatformerGame.Volley | Platformer/main.py:892-903 | the loop of the shooting pass fires from each ready shooter in order and restarts exactly those cooldowns |
| PlatformerGame.ShooterTurn | Platformer/main.py:893-903 | a shooter fires exactly when ready and then restarts its cooldown |
| PlatformerGame.ScanHits | Platformer/main.py:868-883 | the nested loops compute the survivors, explosions and marked bullets |
| Driving.Clamp | DrivingGame/main.py:37-38 | within [lo, hi] when lo <= hi, the value itself when already in range, the nearer bound otherwise |
| Driving.Lerp | DrivingGame/main.py:566-567 | the result lies between a and b; t <= 0 gives a; t >= 1 gives b |
| Driving.SmoothDamp | DrivingGame/main.py:569-571 | a lerp by speed * dt: between current and target, current when the step is non-positive, target when it is at least 1 |
| Driving.NextTarget | DrivingGame/main.py:111-118 | 260 on accelerate, 0 on brake, otherwise the old target clamped to [0, 260] |
| Driving.NextSpeed | DrivingGame/main.py:120-126 | the speed stays within [0, 260]; from a speed in range it never drops while below the target, never rises while above it, and stays put at the target |
| Driving.BrakingSlowsAtLeastAsMuch | DrivingGame/main.py:123-125 | braking never leaves the car faster than coasting |
| Driving.InputAxis | DrivingGame/main.py:128-133 | within [-1, 1], negative exactly for left alone, positive exactly for right alone |
| Driving.SpeedFactor | DrivingGame/main.py:138 | agility within [0.4, 1], 1 at standstill, 0.4 at top speed |
| Driving.FasterIsLessAgile | DrivingGame/main.py:138 | a faster car is never more agile |
| Driving.Drift | DrivingGame/main.py:138-141 | steering and curve that both push one way move the car that way, and none moves it not at all |
| Driving.DriftSign | DrivingGame/main.py:140-141 | the sign of the lane offset's change follows steering and curve when they agree |
| Driving.NextLaneOffset | DrivingGame/main.py:137-144 | the lane offset stays within [-0.5, 0.5] and moves in the direction steering and curve push |
| Driving.Metres | DrivingGame/main.py:153-155 | distance and scroll never decrease |
| Driving.Gear | DrivingGame/main.py:530 | "D" exactly when the target exceeds 0.1, "N" exactly when not but the speed does, "P" otherwise |
| Driving.CurveDelay | DrivingGame/main.py:160 | the next curve change comes 5.6 to 12 seconds later |
| Driving.CarDelay | DrivingGame/main.py:173 | the next car comes 3.5 to 7.5 seconds later |
| Driving.SceneryDelay | DrivingGame/main.py:190 | the next tree or sign comes 1.08 to 2.52 seconds later |
| Driving.NewCar | DrivingGame/main.py:174-185 | a new car is 140 to 220 metres ahead, in a lane, shifted by less than 0.15 |
| Driving.NewScenery | DrivingGame/main.py:191-202 | a new tree or sign is 120 to 180 metres ahead, 1.8 to 2.2 out from the road's middle |
| Driving.SpawnedCars | DrivingGame/main.py:171-185 | one car exactly when the timer ran out and the game is not over, none otherwise |
| Driving.SpawnedScenery | DrivingGame/main.py:188-202 | one roadside item exactly when its timer ran out and the game is not over |
| Driving.ApproachCars | DrivingGame/main.py:206-207 | every car comes d metres closer, nothing else changes |
| Driving.ApproachScenery | DrivingGame/main.py:216-217 | every roadside item comes d metres closer, nothing else changes |
| Driving.CarsAfterPass | DrivingGame/main.py:205-212 | no more cars than before, all more than 0.5 metres ahead |
| Driving.SceneryAfterPass | DrivingGame/main.py:214-220 | no more items than before, all more than 0.5 metres ahead |
| Driving.NoCarPassedKeepsAll | DrivingGame/main.py:205-212 | when every car stays ahead the pass drops none |
| Driving.LaneCenter | DrivingGame/main.py:226 | lane 0 is centred at -0.5 and lane 1 at +0.5 |
| Driving.OwnLaneHits | DrivingGame/main.py:224-230 | driving down a car's lane centre hits it once it is 2 to 8 metres ahead |
| Driving.OtherLaneIsSafe | DrivingGame/main.py:224-230 | driving down the other lane's centre never touches the car |
| Driving.OffRoadNeverFires | DrivingGame/main.py:234-241 | with the lane offset in [-0.5, 0.5] the off-road test never fires |
| Driving.Game.constructor | DrivingGame/main.py:42-68 | at rest, on the start line, no traffic, no score, neither over nor finished |
| Driving.Game.Reset | DrivingGame/main.py:50-68 | every field back to its start value |
| Driving.Game.ResetCar | DrivingGame/main.py:51-57 | speeds, steering, lane offset and curve at 0 |
| Driving.Game.ResetCourse | DrivingGame/main.py:56-59 | scroll, curve timer and distance at 0, not finished |
| Driving.Game.ResetTraffic | DrivingGame/main.py:62-68 | no obstacles, timers at 0, no score, not over |
| Driving.Game.HandleInput | DrivingGame/main.py:104-144 | target, speed, steering and lane offset as their functions give them, so speed stays in [0, 260] and the offset in [-0.5, 0.5] |
| Driving.Game.Travel | DrivingGame/main.py:151-168 | the distance grows by the metres covered; the curve changes only when its timer runs out, and the timer is then reloaded with the drawn delay, otherwise it counts down by `dt`; finished latches at 5000 metres and stops the target once |
| Driving.Game.SpawnTraffic | DrivingGame/main.py:170-202 | each list gains the spawner's item exactly when its timer ran out and the game is not over; each timer is then reloaded with its drawn delay, otherwise it counts down by `dt` |
| Driving.Game.MoveTraffic | DrivingGame/main.py:204-220 | cars and scenery come closer and the passed ones are dropped in order; the score rises by the number of cars dropped |
| Driving.Game.PassCars | DrivingGame/main.py:205-212 | the `new_list` loop keeps exactly the moved cars still ahead, in order, and counts the rest, so kept plus passed is the number of cars |
| Driving.Game.PassScenery | DrivingGame/main.py:215-220 | the scenery loop keeps exactly the moved items still ahead, in order |
| Driving.Game.OffRoad | DrivingGame/main.py:235-241 | the scan finds an off-road crash exactly when an item is 1.5 to 6 metres ahead and the car is more than 0.8 out
| Driving.Game.CheckCollisions | DrivingGame/main.py:222-241 | game over latches exactly when a car is in reach, and a new crash stops the target |
| Driving.Game.Update | DrivingGame/main.py:151-241 | the distance grows by the metres covered, the three timers count down and reload as `Travel` and `SpawnTraffic` state, finished and game over latch, the cars are the spawned and moved ones still ahead, and the score counts every car dropped |
| Driving.Game.Frame | DrivingGame/main.py:574-590 | the program exits exactly on Quit or Escape; a crashed game without R stays as it is |
| Trivia.TriviaLevel | Trivia/main.py:37-57 | a title for every integer score |
| Trivia.Tier | Trivia/main.py:37-57 | the number of thresholds 5, 10, ..., 45 the score is above |
| Trivia.LevelIsTitleOfTier | Trivia/main.py:37-57 | the title is the one of the score's tier |
| Trivia.LevelMonotone | Trivia/main.py:37-57 | a higher score never gives an earlier title |
| Trivia.TitlesDistinct | Trivia/main.py:39-57 | no title serves two tiers |
| Trivia.Shuffle | Trivia/main.py:156 | the shuffled bank holds the same questions, each as often as before |
| Trivia.WrongMessage | Trivia/main.py:186 | the wrong-answer message ends with the correct letter |
| Trivia.AnswerOutcome | Trivia/main.py:174-188 | past the last question only the game ends; otherwise one more answer is counted, the score rises exactly when the answer is right, and feedback is shown |
| Trivia.NextOutcome | Trivia/main.py:165-172 | below the end, the next question with selection and message cleared; at the end, game over; the index never passes the number of questions |
| Trivia.Letter | Trivia/main.py:220-227 | A, B, C and D select their letters, other keys none |
| Trivia.Transition | Trivia/main.py:208-240 | the event dispatch of `main`, for every screen and key: Quit exits; Space starts the quiz or restarts after it; Q exits on the intro and game-over screens and ends a question; Return moves on from feedback; an option key answers during a question; every other key leaves the quiz as it is, except that during a question a selection left from before is answered |
| Trivia.TransitionKeepsConsistent | Trivia/main.py:208-240 | a fresh quiz is consistent and every event that keeps the game keeps it consistent |
| Trivia.ScoreBounded | Trivia/main.py:180-182 | in any reachable state, score <= tally <= number of questions |
| Trivia.QuitQuestionScoresNothing | Trivia/main.py:228-229 | Q during a question ends the game with nothing recorded, counted or scored |
| Trivia.LastAnswerThenReturn | Trivia/main.py:165-177 | after the last answer Return shows an empty question past the end, and the next option key ends the game without counting |
| Trivia.TriviaGame.constructor | Trivia/main.py:156-163 | the given question order, nothing asked, nothing scored, on the intro screen |
| Trivia.TriviaGame.NextQuestion | Trivia/main.py:165-172 | the game moves as `NextOutcome` says |
| Trivia.TriviaGame.HandleAnswer | Trivia/main.py:174-188 | the game moves as `AnswerOutcome` says |
| Trivia.NewGame | Trivia/main.py:60-163 | a fresh game on the intro screen over a permutation of the question bank |
| Trivia.Dispatch | Trivia/main.py:212-240 | the game moves to the state `Transition` names, or is left alone for an exit or a restart |
| Trivia.Step | Trivia/main.py:205-240 | the program exits exactly when the dispatch says so; a restart is a fresh game over a new shuffle; otherwise the same game in its next state |
| Trivia.TrimStart | Trivia/main.py:200 | the text after its leading whitespace, which all goes |
| Trivia.TrimEnd | Trivia/main.py:200 | the text before its trailing whitespace, which all goes |
| Trivia.Strip | Trivia/main.py:200 | `strip()` leaves no whitespace at either end |
| Trivia.StripIsPadded | Trivia/main.py:200 | what `strip()` keeps is a contiguous part of the input with only whitespace before and after it, so with the previous row the result is exactly the input less its leading and trailing whitespace |
| Trivia.TrimsArePadded | Trivia/main.py:200 | removing leading whitespace and then trailing whitespace leaves such a window of the input |
| Trivia.Split | Trivia/main.py:192 | `split(' ')` gives at least one piece and no piece holds a space |
| Trivia.JoinSplit | Trivia/main.py:192 | joining the pieces with spaces gives back the text |
| Trivia.WrapFrom | Trivia/main.py:193-202 | at least one line, at most one more than the words |
| Trivia.WrapText | Trivia/main.py:190-203 | the loop computes the greedy wrap of the words: at least one line, at most one more than the words |
| Trivia.FitsShift | Trivia/main.py:196-198 | testing k + 1 words is testing k words after adding the first |
| Trivia.FitsTail | Trivia/main.py:195-198 | words that pass the width test keep passing once the first has been added |
| Trivia.NoBreakWhileFits | Trivia/main.py:195-202 | while every word passes the width test the whole text lands on one line |
| Trivia.BreakAtFirstFailure | Trivia/main.py:195-201 | a line is broken exactly where the width test first fails, and the failing word starts the next line |
| Trivia.WideFirstWordGivesEmptyLine | Trivia/main.py:199-201 | a first word too wide on its own leaves an empty first line |
| Snake.ArrowVelocity | snake_game/Sebs_Snake_Game.py:156-171 | an arrow sets exactly one axis to plus or minus 20 in its direction and the other to 0 |
| Snake.LastArrow | snake_game/Sebs_Snake_Game.py:152-171 | the last arrow key among the frame's events, none exactly when there is none |
| Snake.ReadEventsMeaning | snake_game/Sebs_Snake_Game.py:152-171 | the velocity after a frame's events is that of the last arrow, reversal included, or unchanged; exit is set exactly on Quit |
| Snake.ReadEventsSteady | snake_game/Sebs_Snake_Game.py:156-171 | the velocity is always standing still or one arrow's |
| Snake.Advance | snake_game/Sebs_Snake_Game.py:183-189 | the head is appended and at most one tail segment dropped, so the body never exceeds the length and ends at the head |
| Snake.AdvanceKeepsNewest | snake_game/Sebs_Snake_Game.py:183-189 | the body stays the newest positions of the head's trail |
| Snake.CollidesWithBody | snake_game/Sebs_Snake_Game.py:191-193 | the loop finds the head exactly when some other segment equals it |
| Snake.Grow | snake_game/Sebs_Snake_Game.py:183-193 | the body update and self-collision test: the advanced body, and a hit exactly when the head lies on another segment |
| Snake.ReversalRunsIntoNeck | snake_game/Sebs_Snake_Game.py:183-193 | any snake whose length is three or more and whose body has reached that length dies when the key pressed is the reverse of its last step |
| Snake.ReversalOfTwoSurvives | snake_game/Sebs_Snake_Game.py:183-193 | a snake of length two that reverses does not hit itself |
| Snake.IdleAfterGrowingDies | snake_game/Sebs_Snake_Game.py:183-193 | a grown snake that does not move dies at once |
| Snake.RandApple | snake_game/Sebs_Snake_Game.py:80-84 | the apple's corner is in [0, 765) by [0, 565) |
| Snake.AppleHitIsOverlap | snake_game/Sebs_Snake_Game.py:199-205 | the nested apple test is exactly the strict overlap of the head's square with the apple |
| Snake.SnakeGame.ScoreCountsApples | snake_game/Sebs_Snake_Game.py:196 | the displayed score, length - 1, counts the apples eaten |
| Snake.SnakeGame.constructor | snake_game/Sebs_Snake_Game.py:120-130 | the head mid-screen and still, an empty body of length one, a fresh apple |
| Snake.SnakeGame.Restart | snake_game/Sebs_Snake_Game.py:149-150 | back to the start of the game loop, keeping the heading |
| Snake.SnakeGame.ResetBody | snake_game/Sebs_Snake_Game.py:124-130 | the head mid-screen with an empty body of length one |
| Snake.SnakeGame.OverEvent | snake_game/Sebs_Snake_Game.py:140-150 | on the game-over screen Quit and Q leave the game, Space starts a new one, other keys do nothing |
| Snake.SnakeGame.ReadFrameEvents | snake_game/Sebs_Snake_Game.py:152-173 | the frame's events set velocity, heading and exit as `ReadEvents` says and change nothing else |
| Snake.SnakeGame.Move | snake_game/Sebs_Snake_Game.py:175-193 | the head moves by the velocity, the body advances, and the game ends exactly when the old position was off screen or the head hits the body |
| Snake.SnakeGame.Install | snake_game/Sebs_Snake_Game.py:178-193 | the new head, body and game-over flag are stored and the trail grows by the head |
| Snake.SnakeGame.EatApple | snake_game/Sebs_Snake_Game.py:199-207 | a hit lengthens the snake by one and draws a new apple; a miss changes nothing |
| Snake.SnakeGame.Step | snake_game/Sebs_Snake_Game.py:175-207 | the move, body update, collision and apple test of a frame, keeping the body the newest positions and the score the apples eaten |
| Snake.SnakeGame.Frame | snake_game/Sebs_Snake_Game.py:152-207 | one frame: the events, then the step, with all of its guarantees |

## Left out

- Drawing is left out: every `draw`, `draw_legs`, `draw_ui`, `Background`, the fonts, the steering-wheel sprite, `_project` and the other `_draw_*` helpers, the snake's `snake`, `message_to_screen`, `text_objects` and `score`. They only paint the screen.
- Event pumping, `pygame.key.get_pressed` and `clock.tick` are left out. Their results are the parameters of the modelled operations: key events, held-key flags and `dt`.
- Platformer `Game.run` and its Quit handling, the Trivia screen drawing in `main`, and the snake's intro and pause screens are left out. They are loops around drawing and waiting for keys; the pause screen's Q quits the program.
- The odds of the random calls are left out: 40% ground, 70% enemy, the enemy kind weights, and uniformity. Only the ranges of the draws are modelled.
- Animation state is left out: the player's leg and jump animation, the coins' and hearts' `animation_frame`, the driving game's `wheel_visual_deg` (which needs `math.pow`), and the car colours and scenery kinds. None of it affects play.
- The shooter's aim normalisation uses a square root. A shot's velocity is modelled only as pointing from the shooter towards the player and no faster than 6 per frame, not as the exact quotient.
- Heart images are not loaded.
- `create_platforms`, `create_enemies` and `create_coins` are left out; their bodies are `pass`.
- The snake's restart calls `gameLoop()` recursively, and when that call returns the program quits. It is modelled as starting the loop state over, which is what a player sees.
- The snake's start position is `display_width/2`, a Python float. It is modelled as the integer 400, which it equals, as every move is a multiple of 20.
- Trivia.NewGame, Trivia.Step: take the question bank as a parameter; the program always passes its fixed bank of 93 questions, `Trivia.QUESTION_BANK`.
- Driving.Game.Update: its contract does not restate the road scroll, the road curve or the roadside scenery. `Driving.Game.Travel`, `Driving.Game.SpawnTraffic` and `Driving.Game.MoveTraffic` state those, and the class invariant keeps scroll and distance equal.
- Driving.Game.Frame: states the exit and the no-op on a crashed game (a finished game keeps driving); the state after input and physics is what `Driving.Game.HandleInput` and `Driving.Game.Update` state.
- PlatformerGame.Game.Update: states bounds and latches rather than the whole new state; each pass it runs states its own effect exactly.
- PlatformerGame.Game.Combat, PlatformerGame.Game.PlayerShots, PlatformerGame.Game.EnemyShots: state bounds on lives, score and position; the passes they run state their exact effect.
- PlatformerPasses.LiveEnemyBullets, PlatformerPasses.LiveExplosions: state what is kept; which elements are kept follows from `Seqs.FilterMembers`.
- PlatformerPasses.HealAll: states bounds on the healed health; `PlatformerItems.Healed` states each heart's exact effect, `min(MAX_HEALTH, health + heal_amount)`.
- PlatformerPasses.Muzzles, PlatformerPasses.CoinsHit, PlatformerPasses.Kill, PlatformerPasses.Marked, PlatformerGame.ShotDown: state only a size bound; `PlatformerPasses.MuzzlesStep`, `PlatformerPasses.CollectIdempotent`, `PlatformerPasses.MarkedKillsStruck` and the methods using them state the contents.
- PlatformerGame.Route: printable text is modelled as ASCII only, space to tilde. A key whose text is a printable non-ASCII character (`é`, say) is ignored by the model, while `str.isprintable` lets the program type it; so the model can submit a code the program would not. Python's Unicode tables for `isprintable` are not modelled.
- PlatformerPlayer.Player.ActivateCheatCode: the case fold is ASCII only, standing in for `str.lower`. A code such as "id" + U+212A (the Kelvin sign) + "fa", which `str.lower` folds to "idkfa", is accepted by the program and rejected by the model. Python's Unicode case tables are not modelled.
- Trivia.WrapFrom: states only the number of lines; `Trivia.NoBreakWhileFits` and `Trivia.BreakAtFirstFailure` state where lines break.
