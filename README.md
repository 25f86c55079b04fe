# Shoot-game frame rules in Dafny

This project models the per-frame simulation rules of a small Bevy 2D shooter (tora0091/shoot-game) and proves properties of them. The rules cover:

- **Field rules.** The player is clamped into the window, every moving entity takes an Euler step, entities that leave the field by more than the margin are despawned, and explosion markers live for half a second.
- **Player lifecycle.** The player respawns after a delay, rises into play before being enabled, moves only while enabled, and fires single shots.
- **Collision rules.** Three pairwise rules decide what is despawned, what explodes, when the player dies and how the spawn counter changes.
- **Enemy side.** This covers the fire-once wave schedule, the counter-gated random spawner, the fixed formation tables, the per-enemy repeating fire, and the motion patterns:
  - steering by a sine or by a random draw;
  - a counter-driven lateral drift with a sign carried from enemy to enemy;
  - an orbit around a drifting centre;
  - a bob above a base height;
  - a halt/wait/go sequence.
- **Early single-file version.** Its own bounds, player and movement.

## How the model is built

- **The entity store.** The engine's entity store is `Ecs.World`, a class. It holds:
  - the entities, as a sequence of `Entity(id, components)` in query iteration order;
  - the frame's deferred command buffer: a despawn set, a spawn queue, tag removals and component insertions;
  - the global resources: window bounds, player status, spawn counter, speed factor, game clock, wave schedule, and the pattern-005 spawn table.
- **Systems.** Every game system is a method over the world. It declares in `modifies` exactly the fields it writes, and states its new state in terms of specification functions of the old one.
- **Commands.** Commands take effect only in `Ecs.World.Flush`, so every system judges the same snapshot, as Bevy `Commands` do.
- **Numbers.** Positions and velocities are `real`. Counters are `nat` or an explicit `U32`.
- **Timers.** The engine's countdown/repeat timer is modelled concretely in `Clock` over whole nanoseconds: `Tick`, "just finished", "finished", `Once` and `Repeating`.
- **Parameters.** The sine and cosine, the box-overlap test, key input, the frame delta, the elapsed time, random draws and the unshown schedule and shoot-duration helpers are all parameters of the systems that use them.
- **Snapshots.** The source files come from different historical snapshots of the game. Each file is modelled on its own text:
  - The module `Formations` is `src/enemy/formations.rs`. It uses the exact `seconds ==` gate.
  - The modules `EnemyPattern001` … `EnemyPattern006` are the pattern files. They take the readiness test as a `ready` parameter.
  - `EnemyLegacy` is `src/enemy.rs`. Its `enemy_shoot_system` (src/enemy.rs:50-74) has the same text as the one in `src/enemy/mod.rs:35-59`, so both are modelled once, as `Enemies.EnemyShootSystem`.
  - `MainApp` is `src/main.rs`, with its own window, player and world (`MainApp.App`).

## Model

| member | source | states |
|---|---|---|
| Clock.FromSeconds | src/collision.rs:65 | a new timer has the requested duration and mode, nothing elapsed, and is neither finished nor just finished |
| Clock.Tick | src/player.rs:26 | a finished Once timer stays finished and reports no completion; otherwise the tick just finishes exactly when elapsed + delta reaches the duration; the new elapsed time is elapsed + delta while short of the duration, the duration for a finishing Once timer, and (elapsed + delta) mod duration for a Repeating one, which completes (elapsed + delta) div duration periods |
| Clock.FreshOnceRun | src/collision.rs:65 | a fresh Once timer after any run of ticks has elapsed min(total, duration) and is finished exactly when the total has reached the duration |
| Clock.OnceNotEarly | src/common.rs:89 | a fresh Once timer never reports just finished before its whole duration has been ticked |
| Clock.OnceCompletesAtMostOnce | src/common.rs:88-91 | a Once timer reports just finished in at most one tick of any run, never once finished, and is finished after its completion |
| Define.NewWindowSizeLimit | src/define.rs:27-29 | the constructor stores its arguments as top, bottom, right, left in that order |
| Define.GetPosition | src/define.rs:81-83 | the position is the stored (x, y, z) |
| Define.SetZPosition | src/define.rs:84-86 | the result is the stored position with z replaced; the player is a value and is unchanged |
| Define.SetOwnZIsPosition | src/define.rs:81-86 | replacing z by the player's own z gives back get_position |
| Ecs.Matching | src/common.rs:55 | the matching indices are exactly those whose entity satisfies the query, in strictly increasing store order |
| Ecs.Single | src/player.rs:59 | get_single yields an index only when exactly that one entity matches, and yields none when zero or several match |
| Ecs.Select | src/collision.rs:23-24 | the query snapshot holds only matching entities of the store, and every matching entity is in it |
| Ecs.SelectInOrder | src/collision.rs:23-24 | the snapshot lists exactly the entities at the matching indices, in store order |
| Ecs.IdsWhereIff | src/common.rs:88-91 | an identifier is collected exactly when some entity with it satisfies the test |
| Ecs.Survivors | src/collision.rs:33-34 | the survivors of a despawn set are exactly the entities whose identifier is not in it |
| Ecs.SurvivorsIdempotent | src/collision.rs:33-34 | despawning the same set twice removes nothing more |
| Ecs.SurvivorsUnion | src/collision.rs:33-34 | despawning one set and then another is despawning their union |
| Ecs.Edited | src/player.rs:119 | a queued tag removal clears only the start-position tag, a queued insertion sets only the wait timer, and nothing else about the entity changes |
| Ecs.Spawned | src/player.rs:36-48 | queued spawns join in queue order with consecutive fresh identifiers |
| Ecs.SurvivorsOrdered | src/collision.rs:33-34 | despawning keeps identifiers strictly increasing and below the next free one |
| Ecs.FlushKeepsOrder | src/player.rs:36-48 | after a flush identifiers are strictly increasing again, the spawned entities above every survivor and below the next free identifier |
| Ecs.World.Flush | src/collision.rs:33-41 | at the end of the frame despawned entities leave, tag removals and insertions reach the survivors, spawns join with fresh identifiers, and the buffer is emptied; identifier order is preserved |
| Common.ClampY | src/common.rs:28-36 | with a non-empty band the result lies in [bottom + R, top - R]; with an empty band the bottom clamp wins; a value already inside is unchanged |
| Common.ClampX | src/common.rs:38-46 | with a non-empty band the result lies in [left + R, right - R]; with an empty band the left clamp wins; a value already inside is unchanged |
| Common.ClampIdempotent | src/common.rs:28-46 | clamping twice is clamping once |
| Common.InWindow | src/common.rs:28-48 | the transform shows the clamped player; only the player's x and y and the transform change |
| Common.InWindowSpec | src/common.rs:27-48 | after the clamp the player lies in the band, z and the enable flag are kept, the transform equals the player's position, and a second clamp changes nothing |
| Common.InWindowKeepsInside | src/common.rs:27-48 | a player already inside the band whose transform shows it is left as it is |
| Common.PlayerInWindowSystem | src/common.rs:23-50 | with exactly one player it is clamped and its transform rewritten; with zero or several players nothing changes |
| Common.AutoMoved | src/common.rs:55-63 | an entity with transform and velocity moves to (x + vx, y + vy, z); velocity and all else are kept; others are unchanged |
| Common.AutoMoveSystem | src/common.rs:52-64 | every entity of the store takes one Euler step; order and identifiers are kept |
| Common.OnMarginStays | src/common.rs:73-76 | an entity exactly on the margin line is not out of the field, because the comparisons are strict |
| Common.OutOfField | src/common.rs:73-76 | out of the field exactly when outside the window widened by the margin on every side, edges included |
| Common.OutOfFieldIdsIff | src/common.rs:71-79 | an entity is marked for despawn exactly when it is auto-despawn, has a transform and lies strictly beyond the margin on some side |
| Common.AutoDespawnSystem | src/common.rs:66-81 | the despawn set grows by exactly the out-of-field auto-despawn entities |
| Common.BangTimer | src/common.rs:114 | a marker's timer is a fresh half-second Once timer |
| Common.TickedBang | src/common.rs:88-89 | only the marker's timer is ticked; entities without a marker are untouched |
| Common.BangNeverEarly | src/common.rs:88-91 | a marker is never despawned before half a second has been ticked |
| Common.BangExpiresOnce | src/common.rs:88-91 | a marker expires in at most one frame, and its timer is finished exactly once half a second has been ticked |
| Common.ShootBangSystem | src/common.rs:83-93 | every marker's timer is ticked once, and exactly the markers whose timer just finished are despawned |
| Common.BangAt | src/common.rs:102-115 | the marker sits at the point's (x, y) on layer 1 with a fresh half-second Once timer and nothing else |
| Common.BangsReplacePoints | src/common.rs:101-128 | every bang point yields exactly one marker, at its own position, in query order |
| Common.ShowBangSystem | src/common.rs:95-130 | the markers of all bang points are queued and every bang point is despawned |
| PlayerSystems.RespawnedPlayer | src/player.rs:28-48 | a respawned player stands at (0, bottom + R, 10), disabled, with the start-position tag and nothing else |
| PlayerSystems.StatusStep | src/player.rs:26-51 | a player spawns exactly when a respawn is pending and the ticked timer just finished; the timer is not ticked while none is pending; spawning clears the pending flag |
| PlayerSystems.PlayerStatusSystem | src/player.rs:18-52 | the status becomes its step, and exactly the respawned player is queued when the step spawns |
| PlayerSystems.AtMostOneRespawn | src/player.rs:26-50 | a pending respawn creates at most one player over any run of frames, and none is created while none is pending |
| PlayerSystems.RespawnAfterDelay | src/collision.rs:64-65 | after a death, a player is spawned in a run exactly when the run lasts three seconds |
| PlayerSystems.Moved | src/player.rs:61-77 | each held arrow key moves the player by the step, opposite keys cancel, and nothing else about the player changes |
| PlayerSystems.PlayerMoveSystem | src/player.rs:54-82 | with exactly one enabled player it moves by PLAYER_VELOCITY times the speed factor and the transform shows it; otherwise nothing changes |
| PlayerSystems.PlayerShot | src/player.rs:95-104 | the projectile sits at the player's (x, y, 0), moves up at SHOOT_VELOCITY times the speed factor, and is tagged auto-despawn and player-shot only |
| PlayerSystems.PlayerShootSystem | src/player.rs:84-108 | Space with exactly one player queues exactly one projectile from it, without any enable check; otherwise nothing is queued |
| PlayerSystems.EntryStep | src/player.rs:115-123 | below the line the player rises by 5; at or above it the player becomes enabled |
| PlayerSystems.PlayerStartPositionSystem | src/player.rs:110-125 | the one tagged player takes an entry step, and its tag removal is queued exactly when it reaches the line |
| PlayerSystems.EntryClimbs | src/player.rs:121-123 | while below the line each frame raises the player by exactly 5 and leaves it disabled |
| PlayerSystems.EntryEnables | src/player.rs:118-120 | at or above the line the next frame enables the player, and later frames change nothing more |
| PlayerSystems.RespawnEntryEnds | src/player.rs:30 | from the respawn height 31 frames reach the line and the 32nd enables the player |
| Collision.PairsForIff | src/collision.rs:54-61 | a pair is a hit of the inner loop exactly when it overlaps |
| Collision.AllHitsIff | src/collision.rs:23-32 | a pair is a hit exactly when it is an overlapping pair of the two snapshots |
| Collision.NoOverlapNoHits | src/collision.rs:32 | pairs that do not overlap cause no hit at all |
| Collision.HitIdsIff | src/collision.rs:33-34 | both entities of every hit, and only those, are marked for despawn |
| Collision.BangPointAt | src/collision.rs:41 | a bang point is at the given x and y and carries nothing else |
| Collision.FirstBangsAt | src/collision.rs:38-41 | the k-th bang point is at the first entity of the k-th hit |
| Collision.FirstBangsAppend | src/collision.rs:23-44 | bang points of consecutive scans concatenate |
| Collision.BothBangsAt | src/collision.rs:98-108 | hit k yields bang points 2k and 2k + 1, at the player first and then at the enemy |
| Collision.HitIdsAppend | src/collision.rs:23-44 | despawn marks of consecutive scans accumulate |
| Collision.TwoShotsTwoBangs | src/collision.rs:23-44 | an enemy hit by two shots in one pass yields two bang points at its position, because removal is deferred |
| Collision.Died | src/collision.rs:64-65 | after a death a respawn is pending with a fresh three-second Once timer, and the score is kept |
| Collision.WrappingDec | src/collision.rs:104 | the u32 decrement lowers a positive counter by one and wraps zero to the top of the range |
| Collision.DecTimesExact | src/collision.rs:104 | with at least n enemies counted, n collisions lower the counter by exactly n |
| Collision.DecFromZeroWraps | src/define.rs:41 | a collision with the counter at zero wraps it to 2^32 - 1 |
| Collision.ScanFirst | src/collision.rs:54-75 | the inner scan marks both entities of every hit and queues one bang point at the scanned entity per hit |
| Collision.ScanBoth | src/collision.rs:87-110 | the inner scan marks both entities of every hit, queues two bang points per hit, and decrements the counter once per hit |
| Collision.ScanAll | src/collision.rs:23-44 | the nested scan over enemies and shots yields the marks and bang points of all hits, outer loop first |
| Collision.PlayerShootCollisionSystem | src/collision.rs:17-45 | every hit enemy and shot is despawned and one bang point per hit is queued at the enemy; the spawn counter is not touched |
| Collision.EnemyShootCollisionSystem | src/collision.rs:47-77 | only with exactly one player: each overlapping enemy shot despawns it and the player, queues a bang at the player, and makes a respawn pending; otherwise nothing changes |
| Collision.PlayerEnemyCollisionSystem | src/collision.rs:79-112 | only with exactly one player: each overlapping enemy despawns it and the player, queues bangs at the player and then the enemy, makes a respawn pending, and decrements the counter |
| Enemies.Trunc | src/enemy/enemy_pattern_004.rs:67 | the integer part rounds toward zero |
| Enemies.FMod | src/enemy/enemy_pattern_004.rs:67 | the float remainder (also the `% 60.0` of src/enemy/formations.rs:57) takes the sign of x, is smaller than m in magnitude, and differs from x by a whole multiple of m |
| Enemies.WaveEnemy | src/enemy/formations.rs:32-46 | a wave enemy has the given position, velocity, repeating shoot timer, points and motion tag, is auto-despawn, and has nothing else |
| Enemies.WaveOf | src/enemy/enemy_pattern_001.rs:43-61 | one enemy per table entry in table order, each with its own shoot period |
| Enemies.WaveOfStep | src/enemy/enemy_pattern_001.rs:43-61 | spawning one more table entry extends the queued wave by its enemy |
| Enemies.InitialSchedule | src/enemy/mod.rs:13-19 | the triggers of patterns 001, 002 and 003 rise strictly, five seconds apart |
| Enemies.ShootTicked | src/enemy/mod.rs:43-45 | firing changes only the enemy's shoot timer; position and everything else are untouched |
| Enemies.EnemyShot | src/enemy/mod.rs:46-56 | the projectile sits at the enemy's (x, y, 0), falls at SHOOT_VELOCITY times the speed factor, is downward for positive speed, and is tagged auto-despawn and enemy-shot only |
| Enemies.OneShotPerFiringEnemy | src/enemy/mod.rs:43-57 | exactly the enemies whose timer just finished fire, one projectile each, from their own position, in query order |
| Enemies.QuietFrameNoShots | src/enemy/mod.rs:44 | a frame in which no shoot timer completes spawns no projectile |
| Enemies.EnemyShootSystem | src/enemy/mod.rs:35-59 | every enemy's shoot timer is ticked once and exactly the firing enemies' projectiles are queued |
| Formations.Gate | src/enemy/formations.rs:29-50 | the entry stays armed exactly when it was armed and the game second is not its trigger; its trigger never changes |
| Formations.FiringSpendsArming | src/enemy/formations.rs:29-50 | over any run, firings plus the remaining arming equal the initial arming |
| Formations.FiresAtMostOnce | src/enemy/formations.rs:49 | an entry fires at most once however many frames share its second, and never once disarmed |
| Formations.SkippedTriggerNeverFires | src/enemy/formations.rs:29 | a run whose game seconds skip the trigger never fires the entry, because the test is equality |
| Formations.ReachedTriggerFiresOnce | src/enemy/formations.rs:29-50 | an armed entry whose second occurs in the run fires exactly once |
| Formations.FormationEnemy | src/enemy/formations.rs:30-46 | a formation enemy is at (0, top - 30, 9), falls at 1, fires every second, has no points and carries the wave tag |
| Formations.Spawns | src/enemy/formations.rs:29-48 | a frame spawns one formation enemy when the entry fires and none otherwise |
| Formations.EnemySpawnPattern001 | src/enemy/formations.rs:21-51 | the first entry is gated as above and its spawn is queued |
| Formations.EnemySpawnPattern002 | src/enemy/formations.rs:64-94 | the second entry is gated as above and its spawn is queued |
| Formations.EnemySpawnPattern003 | src/enemy/formations.rs:108-138 | the third entry is gated as above and its spawn, with counter 0, is queued |
| Formations.SteerX | src/enemy/formations.rs:57-61 | a tagged enemy's sideways speed is set and velocity.y and all else are kept; others are unchanged |
| Formations.SwayArgumentInMinute | src/enemy/formations.rs:57 | the sine's argument, elapsed time mod 60, lies in [0, 60) |
| Formations.Sway001 | src/enemy/formations.rs:57 | the shared sideways speed of pattern 001 lies within [-pi, pi] |
| Formations.SteerAll | src/enemy/formations.rs:59-61 | every entity of the store is steered to the one shared speed |
| Formations.EnemyMovePattern001 | src/enemy/formations.rs:53-62 | every pattern-001 enemy gets the same sideways speed, pi sin(elapsed mod 60) |
| Formations.EnemyMovePattern002 | src/enemy/formations.rs:96-106 | every pattern-002 enemy gets the same random sideways speed, within [-10, 10) |
| Formations.Drift | src/enemy/formations.rs:147-159 | only the velocity and the counter are touched; an entity outside the lane is unchanged |
| Formations.DriftSpec | src/enemy/formations.rs:147-159 | the counter advances by one; at phases 0 and 100 velocity is kept, otherwise velocity.x moves by the carried sign; velocity.y and all else are never touched |
| Formations.SignIsUnit | src/enemy/formations.rs:144-153 | the carried sign is always +1 or -1 |
| Formations.PlusNeedsPhaseZero | src/enemy/formations.rs:144-150 | the sign is +1 only after an earlier enemy of the same pass sat at phase 0 |
| Formations.FirstInLaneSeesMinus | src/enemy/formations.rs:144 | the first enemy of a pass sees the sign -1 |
| Formations.LoneEnemyDecelerates | src/enemy/formations.rs:144-156 | the first, in particular a lone, enemy slows by exactly 1 on every non-phase frame |
| Formations.Drifted | src/enemy/formations.rs:145-160 | the pass keeps the number of entities |
| Formations.DriftedAt | src/enemy/formations.rs:145-160 | entity i is drifted with the sign its predecessors left |
| Formations.EnemyMovePattern003 | src/enemy/formations.rs:140-161 | the store becomes the whole pass with the sign carried from entity to entity |
| Formations.PassSpec | src/enemy/formations.rs:140-161 | after the pass the i-th entity keeps its identifier and is drifted with a unit sign carried from the entities before it |
| EnemyPattern001.Positions | src/enemy/enemy_pattern_001.rs:30-39 | the table has five spawn points |
| EnemyPattern001.PositionsMirrorRow | src/enemy/enemy_pattern_001.rs:30-39 | the row lies at top + 30 on layer 9, is mirror-symmetric about x = 0, and has five distinct columns for a positive right edge |
| EnemyPattern001.EnemySpawnPattern001 | src/enemy/enemy_pattern_001.rs:21-63 | when ready, the five enemies are queued in table order with velocity (0, -0.5), the pattern tag and their own shoot periods, each drawn from [1 s, 3 s); otherwise nothing |
| EnemyPattern002.WaveEnemy002 | src/enemy/enemy_pattern_002.rs:32-51 | the enemy is at (0, top + 30, 9), drifts down at 0.5, is worth 1, and has a repeating timer of the drawn period |
| EnemyPattern002.EnemySpawnPattern002 | src/enemy/enemy_pattern_002.rs:22-54 | when ready exactly that enemy is queued, with its shoot period drawn from [1 s, 3 s); otherwise nothing |
| EnemyPattern002.SteerToward | src/enemy/enemy_pattern_002.rs:60-65 | velocity.x becomes the gap to the target, velocity.y and all else are kept, and untagged entities are unchanged |
| EnemyPattern002.SteerThenMoveHitsTarget | src/enemy/enemy_pattern_002.rs:62-64 | after the steer, the Euler step puts the enemy exactly on the target column |
| EnemyPattern002.TargetBounded | src/enemy/enemy_pattern_002.rs:60 | the target 100 sin(t) lies in [-100, 100] |
| EnemyPattern002.EnemyMovePattern002 | src/enemy/enemy_pattern_002.rs:56-66 | every tagged enemy steers toward the same target |
| EnemyPattern003.WaveEnemy003 | src/enemy/enemy_pattern_003.rs:32-48 | the enemy is at (0, top - 30, 9), falls at 1, fires every second, and enters the drift lane at phase 0 with counter 0 |
| EnemyPattern003.EnemySpawnPattern003 | src/enemy/enemy_pattern_003.rs:23-53 | when ready the enemy is queued and the entry disarmed; otherwise nothing changes |
| EnemyPattern003.FirstPassAtPhaseZero | src/enemy/enemy_pattern_003.rs:62-66 | a fresh enemy's first pass keeps its velocity and turns the carried sign to +1 |
| EnemyPattern003.EnemyMovePattern003 | src/enemy/enemy_pattern_003.rs:55-76 | the store becomes the lateral-drift pass over this file's tag |
| EnemyPattern004.WaveEnemy004 | src/enemy/enemy_pattern_004.rs:36-59 | the enemy is at (0, top + 30, 9), drifts down at 0.5, is worth 1, and has base_y = top + 30 |
| EnemyPattern004.EnemySpawnPattern004 | src/enemy/enemy_pattern_004.rs:26-61 | when ready exactly that enemy is queued, with its shoot period drawn from [1 s, 3 s); otherwise nothing |
| EnemyPattern004.Theta | src/enemy/enemy_pattern_004.rs:67 | theta lies in [0, 360) for non-negative time |
| EnemyPattern004.OffsetOnCircle | src/enemy/enemy_pattern_004.rs:69-72 | the offset lies on the circle of radius 100 |
| EnemyPattern004.Offset | src/enemy/enemy_pattern_004.rs:69-72 | each coordinate of the offset lies within [-100, 100] |
| EnemyPattern004.Orbit | src/enemy/enemy_pattern_004.rs:75-77 | the enemy is placed at the offset from (0, old base_y), base_y moves by velocity.y, and velocity is kept |
| EnemyPattern004.CentreDrifts | src/enemy/enemy_pattern_004.rs:77 | after n frames base_y has moved by n times velocity.y |
| EnemyPattern004.OrbitRadius | src/enemy/enemy_pattern_004.rs:75-76 | the placed enemy lies at distance 100 from the centre it had before the frame |
| EnemyPattern004.EnemyMovePattern004 | src/enemy/enemy_pattern_004.rs:63-79 | every orbiting enemy is placed with the one shared offset of the frame |
| EnemyPattern005.SetupPositions | src/enemy/enemy_pattern_005.rs:40-46 | the table has five rows |
| EnemyPattern005.SetupEntersFromAlternateSides | src/enemy/enemy_pattern_005.rs:40-46 | rows alternate left side moving right and right side moving left, outside the window, at heights -200 to 200 in steps of 100 |
| EnemyPattern005.Setup | src/enemy/enemy_pattern_005.rs:36-51 | the stored resource is the table |
| EnemyPattern005.RowEnemy | src/enemy/enemy_pattern_005.rs:63-86 | the row's enemy sits at (x, y, 9), moves by (vx, 0), is worth 1, and has base_y = y |
| EnemyPattern005.Wave | src/enemy/enemy_pattern_005.rs:63-87 | one enemy per row, in table order |
| EnemyPattern005.EnemySpawnPattern005 | src/enemy/enemy_pattern_005.rs:53-89 | when ready one enemy per stored row is queued; otherwise nothing |
| EnemyPattern005.Abs | src/enemy/enemy_pattern_005.rs:98 | the absolute value is non-negative and equals x or -x |
| EnemyPattern005.Bob | src/enemy/enemy_pattern_005.rs:95-98 | the height becomes base_y + abs(s); x, depth, base_y and all else are kept |
| EnemyPattern005.BobWithinBand | src/enemy/enemy_pattern_005.rs:95-98 | the enemy stays between its base height and 50 above it |
| EnemyPattern005.BobForgetsHeight | src/enemy/enemy_pattern_005.rs:98 | the new height does not depend on the old one |
| EnemyPattern005.EnemyMovePattern005 | src/enemy/enemy_pattern_005.rs:91-100 | every tagged enemy gets the same offset above its base |
| EnemyPattern006.Positions | src/enemy/enemy_pattern_006.rs:36-46 | there are two spawn points |
| EnemyPattern006.WaveIsMirrorPair | src/enemy/enemy_pattern_006.rs:35-65 | the two enemies are at (80, top + 30) and (-80, top + 30), mirror images, falling at 2 with the pattern tag |
| EnemyPattern006.EnemySpawnPattern006 | src/enemy/enemy_pattern_006.rs:27-68 | when ready exactly the pair is queued; otherwise nothing |
| EnemyPattern006.WaitTimer | src/enemy/enemy_pattern_006.rs:79 | the wait timer is a fresh three-second Once timer |
| EnemyPattern006.Halt | src/enemy/enemy_pattern_006.rs:75-81 | exactly an enemy on the line y = -100 is stopped and nudged to -100.1; all else is unchanged |
| EnemyPattern006.HaltFiresOnce | src/enemy/enemy_pattern_006.rs:81 | a halted enemy is off the line and, being stopped, stays there |
| EnemyPattern006.WaitInsertsStep | src/enemy/enemy_pattern_006.rs:78-80 | each enemy on the line adds one wait-timer insertion |
| EnemyPattern006.EnemyMovePattern006 | src/enemy/enemy_pattern_006.rs:70-84 | every tagged enemy is halted as above and a wait timer insertion is queued for exactly those on the line |
| EnemyPattern006.Departure | src/enemy/enemy_pattern_006.rs:92-96 | the departure velocity is (3, 3) for x >= 0 and (-3, 3) otherwise |
| EnemyPattern006.WaitAndGo | src/enemy/enemy_pattern_006.rs:90-97 | a waiting enemy's timer is ticked; once it is finished the departure velocity is set, before that velocity is kept; entities without a wait timer are untouched |
| EnemyPattern006.GoesOnlyAfterWait | src/enemy/enemy_pattern_006.rs:91 | the enemy may go exactly once three seconds have been ticked |
| EnemyPattern006.GoIsReapplied | src/enemy/enemy_pattern_006.rs:91 | once gone, every later frame sets the departure velocity again, because the test is "finished" |
| EnemyPattern006.EnemyWaitAndGo | src/enemy/enemy_pattern_006.rs:86-99 | every entity of the store takes its wait-and-go step |
| EnemyLegacy.SpawnedEnemy | src/enemy.rs:34-45 | the random enemy sits at (x, y, 9) without velocity, keeps its spawn point and has a repeating timer of the drawn interval |
| EnemyLegacy.SpawnStep | src/enemy.rs:32-46 | below the maximum the timer is ticked and the spawn happens exactly when it just finished; at the maximum nothing changes; the counter rises by one per spawn |
| EnemyLegacy.CounterBounded | src/enemy.rs:32-46 | the counter counts the spawns and, starting at or below the maximum, never exceeds it |
| EnemyLegacy.EnemySpawnSystem | src/enemy.rs:18-48 | the spawner takes one step and exactly its spawn is queued; the random draws are within their ranges |
| EnemyLegacy.SpawnInsideField | src/enemy.rs:28-30 | a spawned enemy lies inside the window sideways and below the top edge |
| EnemyLegacy.Positions001 | src/enemy.rs:89-97 | the table has four points |
| EnemyLegacy.WaveEnemy001 | src/enemy.rs:102-114 | a wave enemy is at its point on layer 9, falls at 1, fires every second, and keeps its point |
| EnemyLegacy.Wave001At | src/enemy.rs:100-115 | enemy k of the wave stands on point k |
| EnemyLegacy.Wave001Spec | src/enemy.rs:89-114 | the wave is four enemies at x, 2x, -x and -2x, in mirror pairs, all at top + 50 |
| EnemyLegacy.EnemySpawnSystem001 | src/enemy.rs:76-117 | the wave timer is ticked by the total elapsed time, and the wave is queued exactly when it just finished |
| MainApp.GetPosition | src/main.rs:89-91 | the position is the stored (x, y, z) |
| MainApp.SetupLimit | src/main.rs:54-57 | the bounds are half the resolution on each side, so top = -bottom and right = -left |
| MainApp.InitialPlayerOnClampLine | src/main.rs:60-64 | the initial player stands exactly on the lower clamp line, and the clamp leaves it in place |
| MainApp.GameWindowFitsPlayer | src/main.rs:54-57 | the game's window gives bounds (305, -305, 250, -250), wide enough for the player |
| MainApp.Shifted | src/main.rs:100-114 | each held key shifts the player by exactly 3, with no enable gate or speed factor; opposite keys cancel |
| MainApp.AllKeysCancel | src/main.rs:100-114 | holding all four keys leaves the player in place |
| MainApp.Clamped | src/main.rs:125-143 | with a non-empty band the clamped player lies inside it; z is kept |
| MainApp.ClampedIdempotent | src/main.rs:125-143 | clamping twice is clamping once |
| MainApp.App.Setup | src/main.rs:43-79 | the bounds come from the resolution and there is one player, whose transform shows its position |
| MainApp.App.PlayerMoveSystem | src/main.rs:94-117 | the single player is shifted and its transform rewritten; the model requires exactly one player, since single_mut panics otherwise |
| MainApp.App.PlayerInWindowSystem | src/main.rs:119-146 | the single player is clamped and its transform rewritten; the model requires exactly one player, since single_mut panics otherwise |

## Left out

- **Rendering, assets and windowing.** Meshes, materials, colours, rotations, the camera, window creation, `close_on_esc`, plugin builds and system registration and ordering carry no game logic. A spawn is a record of components.
- **The marker's child quad.** It is folded into the marker: `despawn_recursive` removes one entity.
- **`src/enemy/enemy_pattern_007.rs`.** This file is not part of this model. Its motion is the engine's Bézier curve code.
- **`speed_control_system`.** It is keyboard polling, scaling and console output. The speed factor is the world field `speedControl`.
- **Parameters.** Key input, the frame delta, the elapsed time, the random draws, `sin`/`cos` and the box-overlap test `collide` are parameters of the systems that use them. They carry only the range facts the source gives.
- **Readiness test.** `EnemySchedule::is_ready` is not part of this model. It becomes the `ready` parameter, and whatever it does to its schedule entry is not modelled.
- **Shoot durations.** `get_shoot_duration` is not part of this model. Its results are parameters.
- **`ENEMY_SPAWN_MAX_COUNTER`.** Its value is not defined in the files modelled, so it is the parameter `max`.
- **Floating point.** f32 rounding is not modelled; arithmetic is on reals. In particular, the exact test y == -100.0 is plain real equality.
- **Timers.** Timer durations are whole nanoseconds, so the f32-to-duration conversion of the source is not modelled.
- **Scheduler wrap-around.** Over-long runs of a Repeating timer are not modelled.
- Collision.WrappingDec: models the u32 decrement as wrap-around, which is what a release build does. A debug build panics on underflow instead.
  - Formation and pattern enemies never raise the counter, so a player colliding with one while the counter is zero reaches this case.
  - `Collision.DecTimesExact` states the exact decrease when enough enemies are counted.
- **Lateral-drift counters.** The counters of `Formation003`/`Pattern003` are unbounded `nat`. Their u32 overflow, after 2^32 frames, is not modelled.
- **Despawned entities.** In the model, component insertions and tag removals on an entity despawned in the same frame are dropped with the entity. In the engine, a removal on such an entity is ignored, but an insertion panics when the command is applied. The one case in the core is the `WaitTimer` insert of `src/enemy/enemy_pattern_006.rs:78` on an enemy shot down in the same frame. That panic is not modelled.
- **Query order.** Query iteration order is taken to be the store order.
- **Historical snapshots.** The source files disagree in places, and each is modelled on its own text:
  - **Respawn state.** `src/collision.rs` writes a `PlayerSpawn` resource, which the model identifies with `PlayerStatus` (same fields).
  - **Initial schedule.** `src/enemy/mod.rs` builds the schedule from plain integers, modelled as `Enemies.InitialTriggers`. The systems read `ScheduleEntry` records with a trigger second and an enable flag.
  - **Enemy component.** `src/enemy.rs` keeps x/y in the enemy component, modelled as `spawnedAt`. Enemy literals without points have `point == None`.
  - **Respawned player.** The respawned player literal has no shoot type, so the model gives it `Normal`.
- **Pattern-001 wave tag.** The motion tag of the pattern-001 wave is read by no system in these files.
