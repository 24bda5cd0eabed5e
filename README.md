# Space shooter rules, modelled in Dafny

This project models the gameplay rules of `game.js`, a small Phaser arcade
shooter. The player moves with the cursor keys and fires upward with the space
bar. Enemies descend and are destroyed by bullets for points. Two minibosses
and a boss appear at score thresholds. Contact with an enemy costs health, and
yellow power-ups restore it. The weapon is upgraded through four tiers as the
score grows.

The model has three modules:

- `Rules` (`rules.dfy`) holds the pure rules:
  - the `guns` table and the gun-unlock step;
  - the `else if` boss chain with its three one-shot flags;
  - point values, movement, healing and damage;
  - the 20-slot bullet pool as a sequence of slots;
  - the spawn decisions, with the random rolls taken as inputs;
  - `fireBullet` as written, where the fire stamp it reads is the global
    `lastFired`, which is never assigned.
- `Transitions` (`transitions.dfy`) holds the whole game between two engine
  callbacks as a value, `Scene`:
  - every callback (`create`, `update`, `hitEnemy`, `playerHitEnemy`,
    `collectPowerUp`, `endGame`, `restartGame`) is a function from the scene
    before to the scene after;
  - the session invariant `SceneOk` holds between any two callbacks and is
    preserved by each of them;
  - runs of callbacks (`Run`) carry the multi-step properties: score, gun tier
    and boss flags never go back without a restart, a finished game stays
    finished, and the gun threshold stays in step;
  - `Run` follows the program as evidently intended: frames fire with the
    single scene stamp, and a restart resets the gun threshold
    (`RestartedResynced`). The restart as written (`Restarted`) also keeps
    the session invariant, but not the threshold in step with the tier
    (`RestartKeepsStaleThreshold`).
- `Session` (`session.dfy`) holds the class `GameState`:
  - its fields are the module-level variables of `game.js` (`score`,
    `playerHealth`, `gameOver`, the boss flags, `currentGunIndex`,
    `nextGunUnlock`) and the scene's state (the fire stamp, the bullet pool, the
    enemy and power-up groups, the player's velocity);
  - its methods update these fields step by step, as the source does, and each
    is proved to produce exactly the scene the matching `Transitions` function
    computes.

Inputs the engine supplies become parameters:

- the frame time;
- the key states;
- the two random rolls of a frame: `Phaser.Math.Between(0, 100)` for enemies
  and `Phaser.Math.Between(0, 500)` for power-ups;
- the overlaps the physics engine detects.

Enemies and power-ups are identified by fresh ids, which stand for Phaser's
sprite objects.

The player sprite exists exactly while the game is not over, so it has no
state of its own.

The boss chain defers lower-tier bosses but never skips them:

- If the score jumps past several thresholds at once, the chain spawns one
  boss per frame, lowest threshold first.
- Every pending boss appears within as many frames as there are pending
  thresholds (`BossCatchUp`, `BossesInThresholdOrder`).
- A boss that is never spawned would require the session to end (or restart)
  in between.

## Model

| member | source | states |
|---|---|---|
| Rules.UnlockThresholdsIncrease | game.js:44-69 | Later tiers cost more, unlock at higher thresholds, fire faster and shoot faster bullets. |
| Rules.GunStep | game.js:195-200 | The tier rises by exactly one when it is below the last tier and the score has reached `nextGunUnlock`, and otherwise nothing changes. After an upgrade the threshold is always the next tier's cost, or the sentinel at the last tier, whatever it was before. The step stays within the table and keeps the threshold in step with the tier. |
| Rules.TierFor | game.js:44-69 | The tier a score has paid for: the highest tier whose unlock cost the score reaches. |
| Rules.GunCatchUp | game.js:195-200 | With the threshold in step, n frames at a fixed score raise the tier to min(start + n, the tier paid for), one tier per frame. |
| Rules.StaleUnlockNeverUpgrades | game.js:331-343 | From tier 0 with the sentinel threshold left behind by a restart, the gun is never upgraded at any score below the sentinel. |
| Rules.StaleUnlockCounterexample | game.js:72 | At score 400, three frames reach the Laser Beam from the initial threshold but leave the stale-threshold session at the basic gun. |
| Rules.Enemy.PointValue | game.js:221-265 | A regular enemy is worth 5, a miniboss 100 and the boss 500; every value is in {5, 100, 500}. |
| Rules.BossStep | game.js:179-188 | At most one boss spawns per frame. Its flag goes from down to up, and only if its threshold is reached. Raised flags stay raised, and the number of raised flags grows by the number spawned. |
| Rules.BossFlagsStayRaised | game.js:179-188 | Over any run of frames no boss flag is lowered. |
| Rules.SpawnedWhileDown | game.js:179-188 | A boss is spawned in a run only if its flag was down at the start. |
| Rules.NoDuplicateBossSpawns | game.js:179-188 | Whatever the scores, no miniboss or boss is spawned twice in a session. |
| Rules.BossStepClearsOne | game.js:179-188 | A frame at a score at least s clears exactly one threshold pending for s, and leaves the flags due at s as they were. |
| Rules.BossCatchUp | game.js:179-188 | No threshold is skipped. Once every frame's score is at least s, as many frames as there are pending thresholds raise every flag that s calls for. |
| Rules.BossesInThresholdOrder | game.js:179-188 | A score already at 1000 spawns miniboss 1, miniboss 2 and the boss on three consecutive frames, in that order. |
| Rules.Movement | game.js:153-166 | Each axis runs at -300, 0 or 300. Left moves left whether or not right is held, right moves right only without left, and the same holds for up over down. |
| Rules.MovementDiagonal | game.js:153-166 | Both axes move exactly when a horizontal and a vertical key are held, and opposite keys never cancel. |
| Rules.Heal | game.js:316-320 | Healing adds 20 capped at 100, keeps health a multiple of 10 in range, and never lowers it. |
| Rules.ContactKeepsHealthOk | game.js:288-298 | A contact from positive health keeps health in 0..100 as a multiple of 10. It reaches 0 exactly when 10 remained. |
| Rules.ActiveCount | game.js:96-111 | The count of active bullets never exceeds the pool size, and equals it exactly when no slot is idle. |
| Rules.LaunchAt | game.js:272-275 | `bullets.get()` plus `enableBody` activates exactly the first idle slot at the gun's speed, and nothing else. |
| Rules.LaunchCount | game.js:272-275 | A launch from a pool with an idle slot activates exactly one more bullet. |
| Rules.KeepsFlyingCount | game.js:269-286 | A step that leaves every active bullet untouched never lowers the active count. |
| Rules.LaunchKeepsFlying | game.js:272-275 | A launch never deactivates or redirects a bullet in flight. |
| Rules.FirstIdleExists | game.js:272 | A pool with an idle slot has a first idle slot, the one `bullets.get()` returns. |
| Rules.Fire | game.js:269-279 | A shot happens exactly when the stamp has passed and a slot is free. The shot sets exactly the first idle slot flying at the current gun's bullet speed, adds one active bullet and moves the stamp to time plus the gun's fire rate. Otherwise pool and stamp are unchanged. |
| Rules.IdlePool | game.js:106-111 | `createMultiple` gives 20 slots, all inactive. |
| Rules.FireAsWritten | game.js:269-279 | When the global stamp is `undefined` or the time has not passed it, `fireBullet` changes nothing. With a free slot it sets the stamp to time plus the fire rate. |
| Rules.FireAsWrittenOnceDefined | game.js:269-279 | With a numeric global stamp, the as-written shot equals the intended one. |
| Rules.UndefinedStampNeverFires | game.js:169-171 | As written, the global stamp stays `undefined`, and no sequence of frames ever fires a bullet. |
| Transitions.AdmitAppend | game.js:116-118 | Creating two batches of enemies in turn is creating their concatenation. |
| Transitions.AdmitFresh | game.js:116-118 | With fresh ids, a batch adds exactly the next consecutive ids and grows the group by its length. |
| Transitions.AdmitKeepsAndAdds | game.js:116-118 | A batch keeps every existing enemy and places its members, in order, under consecutive ids. |
| Transitions.AdmitOne | game.js:205 | Creating one enemy is one map update under the next id. |
| Transitions.ArrivedAppend | game.js:116-118 | Two batches of arrivals in a scene are one batch of their concatenation. |
| Transitions.ArrivedKeepsFresh | game.js:174-188 | Arrivals under fresh ids keep ids fresh, keep every existing enemy and grow the group by their number. |
| Transitions.EnemyThenBoss | game.js:174-188 | The regular spawn followed by the boss chain adds the frame's arrivals in that order and takes the boss-flag step. |
| Transitions.CreatedFresh | game.js:80-146 | After `create`: 20 idle bullets, the stamp at 0, exactly five enemies all regular, no power-ups, the player at rest, ids fresh. |
| Transitions.Initial | game.js:25-146 | The first session satisfies the invariant: score 0, health 100, not over, no boss flags, the basic gun with threshold 50. |
| Transitions.Arrivals | game.js:174-188 | A frame creates at most two enemies: a regular one and the boss the chain spawns. |
| Transitions.Populated | game.js:173-193 | The spawning part of a frame keeps every existing enemy, adds the arrivals under fresh ids, takes the boss-flag step, adds a power-up on a lucky roll, and changes nothing else. |
| Transitions.Tick | game.js:148-201 | `update` on a finished game changes nothing. Otherwise it sets the movement velocity, takes the boss and gun steps and never changes score or health. The tier rises by at most one. No bullet in flight is disturbed. Exactly one bullet is fired when space is held, the stamp has passed and a slot is free, with the stamp moved on by the gun's fire rate. Otherwise pool and stamp are unchanged, and a moved stamp always means one shot. The enemy group gains exactly the frame's arrivals (a regular enemy on a lucky roll below five active, then the due boss) under fresh ids, and a power-up appears exactly on a lucky roll. The threshold stays in step. |
| Transitions.TickKeepsOk | game.js:148-201 | A frame keeps the session invariant. |
| Transitions.Hit | game.js:281-286 | A hit scores exactly the enemy's point value (5, 100 or 500), removes exactly that enemy, disables exactly that bullet, changes no power-up, stamp or velocity, and keeps the invariant. |
| Transitions.Contact | game.js:288-298 | After game over a contact does nothing. Otherwise it costs exactly 10 health. While health remains it removes exactly that enemy. The game ends exactly when health reaches 0, and then every enemy is gone. Bullets, power-ups, stamp and velocity are unchanged, and the invariant is kept. |
| Transitions.Collected | game.js:316-320 | Picking up removes exactly that power-up and heals by 20 capped at 100, changing nothing else, even after game over. The invariant is kept. |
| Transitions.Restarted | game.js:331-343 | Restart as written resets score, health, game over, boss flags and tier and re-runs `create`, but keeps the old `nextGunUnlock`. |
| Transitions.RestartedResynced | game.js:331-343 | Restart with the threshold reset for the basic gun gives a fresh session whose threshold is in step. |
| Transitions.RestartKeepsStaleThreshold | game.js:331-343 | After a restart from the Double Shot, the as-written threshold is out of step and score 100 leaves the basic gun. The resynchronised restart upgrades it. |
| Transitions.Apply | game.js:124-126 | Every engine callback of the corrected program (single stamp, resynchronised restart) keeps the session invariant. |
| Transitions.Run | game.js:148-343 | Every sequence of callbacks of the corrected program keeps the session invariant. |
| Transitions.ApplyProgresses | game.js:148-320 | No callback except restart lowers the score or the tier or lowers a boss flag. |
| Transitions.RunProgresses | game.js:148-320 | Over any run without a restart, score, tier and boss flags only grow. |
| Transitions.RunKeepsSynced | game.js:195-200 | With the resynchronised restart, `nextGunUnlock` is always the cost of the next tier. |
| Transitions.GameOverIsFinal | game.js:149-150 | Once over, and until a restart, the game stays over: no score, no enemies, no gun or boss-flag change. |
| Session.GameState.constructor | game.js:25-146 | The object starts as the initial session, which satisfies the invariant with the threshold in step. |
| Session.GameState.Create | game.js:80-146 | The `create` method, including its five-iteration spawn loop, produces the scene `Created` describes. |
| Session.GameState.AddEnemy | game.js:205 | `enemies.create` adds one enemy under the next fresh id. |
| Session.GameState.SpawnPowerUp | game.js:305-314 | `spawnPowerUp` adds one power-up under the next fresh id. |
| Session.GameState.FreeSlot | game.js:272 | The pool search finds a slot exactly when one is idle, and the slot it finds is the first idle one. |
| Session.GameState.FireBullet | game.js:269-279 | The method performs the intended shot of `Rules.Fire` on the fields. |
| Session.GameState.Update | game.js:148-201 | One frame performs `Transitions.Tick` and keeps the invariant. |
| Session.GameState.Populate | game.js:173-193 | The spawning steps perform `Transitions.Populated`. |
| Session.GameState.SpawnBossIfDue | game.js:179-188 | The `else if` chain on the flag fields performs `Rules.BossStep`. |
| Session.GameState.UnlockGun | game.js:195-200 | The unlock `if` on `currentGunIndex` and `nextGunUnlock` performs `Rules.GunStep`. |
| Session.GameState.HitEnemy | game.js:281-286 | `hitEnemy` performs `Transitions.Hit` and keeps the invariant. |
| Session.GameState.UpdateScore | game.js:300-303 | `updateScore` adds exactly the points. |
| Session.GameState.PlayerHitEnemy | game.js:288-298 | `playerHitEnemy` performs `Transitions.Contact` and keeps the invariant. |
| Session.GameState.CollectPowerUp | game.js:316-320 | `collectPowerUp` performs `Transitions.Collected` and keeps the invariant. |
| Session.GameState.EndGame | game.js:322-329 | `endGame` sets the game over and destroys every enemy, one at a time. |
| Session.GameState.ResetCounters | game.js:332-340 | The counters `restartGame` resets: not over, health 100, score 0, tier 0, no boss flags, and the given threshold. |
| Session.GameState.RestartGame | game.js:331-343 | `restartGame` as written performs `Transitions.Restarted` and keeps the invariant. |
| Session.GameState.RestartGameResynced | game.js:331-343 | The corrected restart performs `Transitions.RestartedResynced`, keeping the invariant and the threshold in step. |

## Left out

- Rendering, textures, text labels and the game-over DOM element are outside the game rules.
- Positions, sizes, world bounds, bounce and the enemies' random speeds are physics-engine state. Only the player's velocity is modelled.
- The enemies' `directionChangeTimer` changes horizontal velocity only.
- The random rolls are inputs, with no distribution. Their ranges, 0..100 and 0..500, are not enforced, because only the comparison with 2 matters.
- Overlap and collision detection are not modelled; the detected pairs are parameters.
- Bullets leaving the screen are never deactivated in the source either. The pool therefore fills, and the model keeps that.
- `scene.physics.pause()` in `endGame` is not modelled. `Transitions.Collected` still applies after game over, as `collectPowerUp` has no `gameOver` guard.
- Session.GameState.EndGame: destroys every enemy, which is what the `forEach` over `getChildren()` is meant to do. Whether Phaser's live child list skips entries while they are destroyed is engine behaviour, and the engine is not part of this model.
- `restartGame` is not bound to any click or key in the source. It is modelled as a callable operation, with `this.scene.restart()` taken as running `create` again on the same counters.
- Transitions.Apply: a bullet hit naming an idle slot or no live enemy changes nothing, because the engine reports overlaps only between enabled bullets and live enemies. The bullets are created disabled and are disabled again on a hit.
- The frame time is an integer number of milliseconds. Phaser passes `update` a fractional time, which would only shift when the fire stamp has passed.
- `preload` and the Phaser configuration have no game logic.

## Findings

| source | as written | input that shows it | evidently intended | confidence | as-written member | corrected member |
|---|---|---|---|---|---|---|
| game.js:331-343 | `restartGame` resets `currentGunIndex` to 0 but not `nextGunUnlock` | restart after reaching the Double Shot (threshold 150), then score 100: the basic gun is not upgraded; after reaching the Laser Beam the threshold is 2^53 - 1 and no upgrade ever happens | the threshold is reset to the Double Shot's cost, 50 | not executed | Transitions.RestartKeepsStaleThreshold | Transitions.RunKeepsSynced |
| game.js:269-279 | `fireBullet` is called as a plain function, so its `this.lastFired` is the global `lastFired`, which is `undefined` and never assigned; `time > undefined` is false | holding space on any frames: no bullet leaves the pool | `fireBullet` uses the scene's stamp, which `create` sets to 0 and `update` compares | not executed | Rules.UndefinedStampNeverFires | Session.GameState.FireBullet |
