/** The game session of game.js as one object. The module-level counters
    (`score`, `playerHealth`, `gameOver`, the three boss flags,
    `currentGunIndex`, `nextGunUnlock`) and the scene's state (its fire stamp,
    the bullet pool, the enemy and power-up groups, the player's velocity)
    become the fields of GameState. `create`, `update` and the collision
    callbacks become its methods; the engine's clock, key states, random rolls
    and detected overlaps become their parameters. Every method is proved to
    take the object from Snapshot() to the scene the matching function of
    module Transitions computes. The player entity exists exactly while the
    game is not over, so it has no field of its own. */
module Session {
  import opened Rules
  import opened Transitions

  class GameState {
    var score: int
    var playerHealth: int
    var gameOver: bool
    var miniboss1Spawned: bool
    var miniboss2Spawned: bool
    var bossSpawned: bool
    var currentGunIndex: nat
    var nextGunUnlock: int

    // The one fire stamp: set to 0 by `create`, compared by `update` and
    // advanced by `fireBullet`. In the source, `fireBullet` is called as a
    // plain function, so its `this.lastFired` is a global that is never
    // assigned and never the scene's field that `update` reads; as written no
    // bullet is ever fired (Rules.FireAsWritten, Rules.UndefinedStampNeverFires).
    // This field deliberately models the single stamp the code intends.
    var lastFired: int

    /** The pool of 20 bullets, each active or not. */
    var bullets: seq<Bullet>
    /** The enemy group; ids stand for the engine's sprite objects. */
    var enemies: map<nat, Enemy>
    var nextEnemyId: nat
    /** The power-up group. */
    var powerUps: set<nat>
    var nextPowerUpId: nat
    var playerVelocity: Velocity

    /** The whole state as a value. */
    function Snapshot(): Scene
      reads this
    {
      Scene(score, playerHealth, gameOver,
            BossFlags(miniboss1Spawned, miniboss2Spawned, bossSpawned),
            Armory(currentGunIndex, nextGunUnlock),
            lastFired, bullets, enemies, nextEnemyId, powerUps, nextPowerUpId, playerVelocity)
    }

    ghost predicate Valid()
      reads this
    {
      SceneOk(Snapshot())
    }

    /** The module-level initial values followed by the scene's `create`. */
    constructor ()
      ensures Snapshot() == Initial()
      ensures Valid() && Synced(Snapshot().armory)
    {
      score, playerHealth, gameOver := 0, MaxHealth, false;
      miniboss1Spawned, miniboss2Spawned, bossSpawned := false, false, false;
      currentGunIndex, nextGunUnlock := 0, Guns[1].unlockCost;
      lastFired, bullets := 0, [];
      enemies, nextEnemyId := map[], 0;
      powerUps, nextPowerUpId := {}, 0;
      playerVelocity := Velocity(0, 0);
      new;
      Create();
    }

    /** `create`: a fresh pool of inactive bullets, five regular enemies from
        its `for` loop, no power-ups, the fire stamp at 0. */
    method Create()
      modifies this
      ensures Snapshot() == Created(old(Snapshot()))
    {
      bullets := IdlePool();
      enemies, powerUps := map[], {};
      playerVelocity := Velocity(0, 0);
      ghost var cleared := Snapshot();
      for i := 0 to |FirstWave|
        invariant Snapshot() == Arrived(cleared, FirstWave[..i])
      {
        ArrivedAppend(cleared, FirstWave[..i], [Regular]);
        assert FirstWave[..i] + [Regular] == FirstWave[..i + 1];
        AddEnemy(Regular);
      }
      assert FirstWave[..|FirstWave|] == FirstWave;
      lastFired := 0;
    }

    /** `enemies.create`, as done by `spawnEnemy`, `spawnMiniboss` and `spawnBoss`. */
    method AddEnemy(e: Enemy)
      modifies this`enemies, this`nextEnemyId
      ensures Snapshot() == Arrived(old(Snapshot()), [e])
    {
      AdmitOne(enemies, nextEnemyId, e);
      enemies := enemies[nextEnemyId := e];
      nextEnemyId := nextEnemyId + 1;
    }

    /** `spawnPowerUp`: one more power-up in the group. */
    method SpawnPowerUp()
      modifies this`powerUps, this`nextPowerUpId
      ensures Snapshot() == WithPowerUp(old(Snapshot()))
    {
      powerUps := powerUps + {nextPowerUpId};
      nextPowerUpId := nextPowerUpId + 1;
    }

    /** `bullets.get()`: the first inactive slot of the pool, if any. */
    method FreeSlot() returns (found: bool, slot: nat)
      ensures found <==> HasIdle(bullets)
      ensures found ==> IsFirstIdle(bullets, slot)
    {
      slot := 0;
      while slot < |bullets| && bullets[slot].Flying?
        invariant slot <= |bullets|
        invariant forall j :: 0 <= j < slot ==> bullets[j].Flying?
      {
        slot := slot + 1;
      }
      found := slot < |bullets|;
      if !found {
        assert forall j :: 0 <= j < |bullets| ==> bullets[j].Flying?;
      }
    }

    /** `fireBullet(time)` with the single fire stamp: when the stamp has
        passed and a slot is free, the first free slot flies at the current
        gun's speed and the stamp moves on by its fire rate. */
    method FireBullet(time: int)
      requires currentGunIndex < |Guns|
      modifies this`lastFired, this`bullets
      ensures Snapshot() == Fired(old(Snapshot()), time)
    {
      var gun := Guns[currentGunIndex];
      if time > lastFired {
        var found, slot := FreeSlot();
        if found {
          LaunchAt(bullets, gun.bulletSpeed, slot);
          bullets := bullets[slot := Flying(gun.bulletSpeed)];
          lastFired := time + gun.fireRate;
        }
      }
    }

    /** One frame of `update(time)`. */
    method Update(time: int, keys: Keys, enemyRoll: int, powerUpRoll: int)
      requires Valid()
      modifies this
      ensures Snapshot() == Tick(old(Snapshot()), time, keys, enemyRoll, powerUpRoll)
      ensures Valid()
    {
      TickKeepsOk(Snapshot(), time, keys, enemyRoll, powerUpRoll);
      if gameOver {
        return;
      }
      playerVelocity := Movement(keys);
      if keys.fire && time > lastFired {
        FireBullet(time);
      }
      Populate(enemyRoll, powerUpRoll);
      UnlockGun();
    }

    /** The spawning part of `update`: a regular enemy on a lucky roll while
        fewer than five are active, then at most one boss, then a power-up on
        a lucky roll. */
    method Populate(enemyRoll: int, powerUpRoll: int)
      modifies this`enemies, this`nextEnemyId, this`miniboss1Spawned, this`miniboss2Spawned, this`bossSpawned
      modifies this`powerUps, this`nextPowerUpId
      ensures Snapshot() == Populated(old(Snapshot()), enemyRoll, powerUpRoll)
    {
      if EnemySpawnRoll(|enemies|, enemyRoll) {
        AddEnemy(Regular);
      }
      SpawnBossIfDue();
      if PowerUpSpawnRoll(powerUpRoll) {
        SpawnPowerUp();
      }
    }

    /** The boss part of `update`: an `else if` chain in which only the first
        pending threshold spawns its boss and raises its flag. */
    method SpawnBossIfDue()
      modifies this`enemies, this`nextEnemyId, this`miniboss1Spawned, this`miniboss2Spawned, this`bossSpawned
      ensures Snapshot() == BossChecked(old(Snapshot()))
    {
      if score >= Miniboss1Score && !miniboss1Spawned {
        AddEnemy(Miniboss(1));
        miniboss1Spawned := true;
      } else if score >= Miniboss2Score && !miniboss2Spawned {
        AddEnemy(Miniboss(2));
        miniboss2Spawned := true;
      } else if score >= BossScore && !bossSpawned {
        AddEnemy(Boss);
        bossSpawned := true;
      }
    }

    /** The gun-unlock part of `update`. */
    method UnlockGun()
      requires currentGunIndex < |Guns|
      modifies this`currentGunIndex, this`nextGunUnlock
      ensures Snapshot() == Unlocked(old(Snapshot()))
    {
      if currentGunIndex < LastTier && score >= nextGunUnlock {
        currentGunIndex := currentGunIndex + 1;
        nextGunUnlock := if currentGunIndex < LastTier then Guns[currentGunIndex + 1].unlockCost else MaxSafeInteger;
      }
    }

    /** `hitEnemy(bullet, enemy)`: the bullet goes back to the pool, the enemy
        is destroyed and its point value is added to the score. */
    method HitEnemy(slot: nat, id: nat)
      requires Valid() && slot < PoolSize && id in enemies
      modifies this
      ensures Snapshot() == Hit(old(Snapshot()), slot, id)
      ensures Valid()
    {
      bullets := bullets[slot := Idle];
      var points := enemies[id].PointValue();
      enemies := enemies - {id};
      UpdateScore(points);
    }

    /** `updateScore(points)`. */
    method UpdateScore(points: nat)
      modifies this`score
      ensures Snapshot() == Scored(old(Snapshot()), points)
    {
      score := score + points;
    }

    /** `playerHitEnemy(player, enemy)`: ignored once the game is over;
        otherwise the enemy is destroyed and 10 health is lost, and at 0
        health the game ends. */
    method PlayerHitEnemy(id: nat)
      requires Valid()
      modifies this
      ensures Snapshot() == Contact(old(Snapshot()), id)
      ensures Valid()
    {
      if gameOver {
        return;
      }
      enemies := enemies - {id};
      playerHealth := playerHealth - ContactDamage;
      if playerHealth <= 0 {
        EndGame();
      }
    }

    /** `collectPowerUp(player, powerUp)`: the power-up is destroyed and 20
        health restored, capped at 100. */
    method CollectPowerUp(id: nat)
      requires Valid()
      modifies this
      ensures Snapshot() == Collected(old(Snapshot()), id)
      ensures Valid()
    {
      powerUps := powerUps - {id};
      playerHealth := Heal(playerHealth);
    }

    /** `endGame`: the game is over and every remaining enemy is destroyed,
        one at a time as the `forEach` does. */
    method EndGame()
      modifies this
      ensures Snapshot() == Ended(old(Snapshot()))
    {
      gameOver := true;
      while enemies != map[]
        invariant Snapshot() == old(Snapshot()).(gameOver := true, enemies := enemies)
        decreases |enemies|
      {
        var id :| id in enemies;
        enemies := enemies - {id};
      }
    }

    /** The counters `restartGame` resets, in its order, with `nextUnlock`
        as the threshold afterwards. */
    method ResetCounters(nextUnlock: int)
      modifies this`gameOver, this`playerHealth, this`score, this`currentGunIndex, this`nextGunUnlock
      modifies this`miniboss1Spawned, this`miniboss2Spawned, this`bossSpawned
      ensures !gameOver && playerHealth == MaxHealth && score == 0 && currentGunIndex == 0 && nextGunUnlock == nextUnlock
      ensures !miniboss1Spawned && !miniboss2Spawned && !bossSpawned
    {
      gameOver := false;
      playerHealth := MaxHealth;
      score := 0;
      currentGunIndex := 0;
      nextGunUnlock := nextUnlock;
      miniboss1Spawned, miniboss2Spawned, bossSpawned := false, false, false;
    }

    /** `restartGame` as written: the counters are reset and the scene is
        re-created, but `nextGunUnlock` keeps its old value. */
    method RestartGame()
      requires Valid()
      modifies this
      ensures Snapshot() == Restarted(old(Snapshot()))
      ensures Valid()
    {
      ResetCounters(nextGunUnlock);
      Create();
    }

    /** `restartGame` with the threshold recomputed for the basic gun, as the
        reset of the tier evidently intends. */
    method RestartGameResynced()
      modifies this
      ensures Snapshot() == RestartedResynced(old(Snapshot()))
      ensures Valid() && Synced(Snapshot().armory)
    {
      ResetCounters(NextUnlock(0));
      Create();
    }
  }
}
