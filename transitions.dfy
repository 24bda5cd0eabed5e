/** The session of game.js as a value. A Scene holds every variable the game
    keeps between two engine callbacks: the module-level counters, the
    scene's fire stamp, the bullet pool, the enemy and power-up groups and the
    player's velocity. Each callback is a pure function from the scene before
    to the scene after; the GameState class in module Session is proved to
    perform exactly these functions. */
module Transitions {
  import opened Rules

  datatype Scene = Scene(
    score: int,
    health: int,
    gameOver: bool,
    flags: BossFlags,
    armory: Armory,
    lastFired: int,
    bullets: seq<Bullet>,
    enemies: map<nat, Enemy>,
    nextEnemyId: nat,
    powerUps: set<nat>,
    nextPowerUpId: nat,
    velocity: Velocity)

  // ---------------------------------------------------------------------
  // Groups: entities created with fresh ids
  // ---------------------------------------------------------------------

  /** Every entity id was handed out before. */
  ghost predicate IdsFresh(s: Scene) {
    && (forall id :: id in s.enemies ==> id < s.nextEnemyId)
    && (forall id :: id in s.powerUps ==> id < s.nextPowerUpId)
  }

  /** The enemy group after `es` are created in order, the first with id `next`. */
  function Admit(m: map<nat, Enemy>, next: nat, es: seq<Enemy>): map<nat, Enemy>
    decreases |es|
  {
    if es == [] then m else Admit(m[next := es[0]], next + 1, es[1..])
  }

  /** Creating two batches one after the other is creating their concatenation. */
  lemma {:induction false} AdmitAppend(m: map<nat, Enemy>, next: nat, a: seq<Enemy>, b: seq<Enemy>)
    ensures Admit(m, next, a + b) == Admit(Admit(m, next, a), next + |a|, b)
    decreases |a|
  {
    if a == [] {
      assert a + b == b;
    } else {
      assert (a + b)[1..] == a[1..] + b;
      AdmitAppend(m[next := a[0]], next + 1, a[1..], b);
    }
  }

  /** With fresh ids, a batch adds exactly the ids `next .. next + |es| - 1`
      and grows the group by its length. */
  lemma {:induction false} AdmitFresh(m: map<nat, Enemy>, next: nat, es: seq<Enemy>)
    requires forall id :: id in m ==> id < next
    ensures forall id :: id in Admit(m, next, es) <==> id in m || next <= id < next + |es|
    ensures |Admit(m, next, es)| == |m| + |es|
    decreases |es|
  {
    if es != [] {
      assert next !in m;
      AdmitFresh(m[next := es[0]], next + 1, es[1..]);
    }
  }

  /** A batch keeps every existing enemy and puts its members under
      consecutive ids, in order. */
  lemma {:induction false} AdmitKeepsAndAdds(m: map<nat, Enemy>, next: nat, es: seq<Enemy>)
    requires forall id :: id in m ==> id < next
    ensures forall id :: id in m ==> id in Admit(m, next, es) && Admit(m, next, es)[id] == m[id]
    ensures forall id: nat :: next <= id < next + |es| ==> id in Admit(m, next, es) && Admit(m, next, es)[id] == es[id - next]
    decreases |es|
  {
    if es != [] {
      var m' := m[next := es[0]];
      AdmitKeepsAndAdds(m', next + 1, es[1..]);
      assert Admit(m, next, es) == Admit(m', next + 1, es[1..]);
      forall j | 0 <= j < |es| - 1 ensures es[1..][j] == es[j + 1] {
      }
    }
  }

  /** The enemies `es` join the group in order under fresh ids. */
  function Arrived(s: Scene, es: seq<Enemy>): Scene {
    s.(enemies := Admit(s.enemies, s.nextEnemyId, es), nextEnemyId := s.nextEnemyId + |es|)
  }

  /** A batch of one is a single map update. */
  lemma AdmitOne(m: map<nat, Enemy>, next: nat, e: Enemy)
    ensures Admit(m, next, [e]) == m[next := e]
  {
    assert [e][1..] == [];
  }

  // ---------------------------------------------------------------------
  // The session invariant
  // ---------------------------------------------------------------------

  /** What holds between any two callbacks: a full pool, a score made of
      point values, health in range, a gun tier with a threshold of it or of
      a later tier, fresh ids, health left while running, and no enemy left
      once the game is over. */
  ghost predicate SceneOk(s: Scene) {
    && |s.bullets| == PoolSize
    && s.score >= 0 && s.score % 5 == 0
    && HealthOk(s.health)
    && ArmoryOk(s.armory)
    && IdsFresh(s)
    && (!s.gameOver ==> s.health > 0)
    && (s.gameOver ==> s.enemies == map[])
  }

  // ---------------------------------------------------------------------
  // create
  // ---------------------------------------------------------------------

  /** The five regular enemies `create` spawns in its `for` loop. */
  const FirstWave: seq<Enemy> := [Regular, Regular, Regular, Regular, Regular]

  /** `create`: a fresh pool of 20 inactive bullets, five regular enemies, no
      power-ups, a player at rest and the fire stamp at 0. The module-level
      counters are not touched. */
  function Created(s: Scene): Scene {
    Arrived(Cleared(s), FirstWave).(lastFired := 0)
  }

  /** The groups emptied and the pool refilled, before `create` spawns its enemies. */
  function Cleared(s: Scene): Scene {
    s.(bullets := IdlePool(), enemies := map[], powerUps := {}, velocity := Velocity(0, 0))
  }

  /** Two batches of arrivals are one batch of their concatenation. */
  lemma ArrivedAppend(s: Scene, a: seq<Enemy>, b: seq<Enemy>)
    ensures Arrived(Arrived(s, a), b) == Arrived(s, a + b)
  {
    AdmitAppend(s.enemies, s.nextEnemyId, a, b);
  }

  /** What `create` leaves behind, whatever came before. */
  lemma CreatedFresh(s: Scene)
    ensures var r := Created(s);
      && r.bullets == IdlePool() && r.lastFired == 0
      && |r.enemies| == MaxActiveEnemies && (forall id :: id in r.enemies ==> r.enemies[id] == Regular)
      && r.powerUps == {} && r.velocity == Velocity(0, 0)
      && IdsFresh(r)
  {
    AdmitFresh(map[], s.nextEnemyId, FirstWave);
    AdmitKeepsAndAdds(map[], s.nextEnemyId, FirstWave);
  }

  /** The module-level initial values followed by the first `create`. */
  function Initial(): (s: Scene)
    ensures SceneOk(s) && Synced(s.armory)
    ensures s.score == 0 && s.health == MaxHealth && !s.gameOver
    ensures s.flags == NoBosses && s.armory == StartArmory
  {
    assert StartArmory == Armory(0, NextUnlock(0));
    CreatedFresh(Scene(0, MaxHealth, false, NoBosses, StartArmory, 0, [], map[], 0, {}, 0, Velocity(0, 0)));
    Created(Scene(0, MaxHealth, false, NoBosses, StartArmory, 0, [], map[], 0, {}, 0, Velocity(0, 0)))
  }

  // ---------------------------------------------------------------------
  // update
  // ---------------------------------------------------------------------

  /** The movement part of `update`. */
  function Steered(s: Scene, keys: Keys): Scene {
    s.(velocity := Movement(keys))
  }

  /** `fireBullet(time)` with the one fire stamp the code intends. */
  function Fired(s: Scene, time: int): Scene
    requires s.armory.index < |Guns|
  {
    var v := Fire(s.bullets, s.lastFired, time, s.armory.index);
    s.(bullets := v.pool, lastFired := v.lastFired)
  }

  /** A regular enemy when fewer than five are active and the roll is lucky. */
  function EnemyRolled(s: Scene, roll: int): Scene {
    if EnemySpawnRoll(|s.enemies|, roll) then Arrived(s, [Regular]) else s
  }

  /** The boss `else if` chain: at most one boss joins and its flag is raised. */
  function BossChecked(s: Scene): Scene {
    var turn := BossStep(s.score, s.flags);
    Arrived(s, turn.spawn).(flags := turn.flags)
  }

  /** One more power-up in the group: `spawnPowerUp`. */
  function WithPowerUp(s: Scene): Scene {
    s.(powerUps := s.powerUps + {s.nextPowerUpId}, nextPowerUpId := s.nextPowerUpId + 1)
  }

  /** A power-up on a lucky roll. */
  function PowerUpRolled(s: Scene, roll: int): Scene {
    if PowerUpSpawnRoll(roll) then WithPowerUp(s) else s
  }

  /** The regular enemy (when fewer than five are active and the roll is
      lucky), then the boss of the `else if` chain: the enemies one frame of
      `update` creates. */
  function Arrivals(s: Scene, enemyRoll: int): (es: seq<Enemy>)
    ensures |es| <= 2
    ensures forall e :: e in es ==> e == Regular || e in BossStep(s.score, s.flags).spawn
  {
    (if EnemySpawnRoll(|s.enemies|, enemyRoll) then [Regular] else []) + BossStep(s.score, s.flags).spawn
  }

  /** The spawning part of `update`: a regular enemy, a boss and a power-up,
      each when due. Existing enemies are kept, the group grows by the
      arrivals under fresh ids, the boss flags take their step, a power-up
      gets a fresh id, and nothing else changes. */
  function Populated(s: Scene, enemyRoll: int, powerUpRoll: int): (r: Scene)
    ensures r.enemies == Admit(s.enemies, s.nextEnemyId, Arrivals(s, enemyRoll))
    ensures IdsFresh(s) ==> IdsFresh(r) && |r.enemies| == |s.enemies| + |Arrivals(s, enemyRoll)|
    ensures IdsFresh(s) ==> forall id :: id in s.enemies ==> id in r.enemies && r.enemies[id] == s.enemies[id]
    ensures r.flags == BossStep(s.score, s.flags).flags
    ensures r.powerUps == if PowerUpSpawnRoll(powerUpRoll) then s.powerUps + {s.nextPowerUpId} else s.powerUps
    ensures r.score == s.score && r.health == s.health && r.gameOver == s.gameOver && r.armory == s.armory
    ensures r.bullets == s.bullets && r.lastFired == s.lastFired && r.velocity == s.velocity
  {
    EnemyThenBoss(s, enemyRoll);
    var arrivals := Arrivals(s, enemyRoll);
    assert IdsFresh(s) ==> ArrivalKeeps(s, arrivals) by {
      if IdsFresh(s) {
        ArrivedKeepsFresh(s, arrivals);
      }
    }
    PowerUpRolled(BossChecked(EnemyRolled(s, enemyRoll)), powerUpRoll)
  }

  /** Arrivals under fresh ids keep the enemies there were. */
  ghost predicate ArrivalKeeps(s: Scene, es: seq<Enemy>) {
    var r := Arrived(s, es);
    && IdsFresh(r)
    && |r.enemies| == |s.enemies| + |es|
    && forall id :: id in s.enemies ==> id in r.enemies && r.enemies[id] == s.enemies[id]
  }

  lemma ArrivedKeepsFresh(s: Scene, es: seq<Enemy>)
    requires IdsFresh(s)
    ensures ArrivalKeeps(s, es)
  {
    AdmitFresh(s.enemies, s.nextEnemyId, es);
    AdmitKeepsAndAdds(s.enemies, s.nextEnemyId, es);
  }

  /** The regular enemy and then the boss join as one batch of arrivals. */
  lemma EnemyThenBoss(s: Scene, enemyRoll: int)
    ensures BossChecked(EnemyRolled(s, enemyRoll)) == Arrived(s, Arrivals(s, enemyRoll)).(flags := BossStep(s.score, s.flags).flags)
  {
    var regular := if EnemySpawnRoll(|s.enemies|, enemyRoll) then [Regular] else [];
    assert EnemyRolled(s, enemyRoll) == Arrived(s, regular);
    AdmitAppend(s.enemies, s.nextEnemyId, regular, BossStep(s.score, s.flags).spawn);
  }

  /** The gun-unlock part of `update`. */
  function Unlocked(s: Scene): Scene
    requires s.armory.index < |Guns|
  {
    s.(armory := GunStep(s.score, s.armory))
  }

  /** One frame of `update(time)` with the keys held and the two random rolls
      of that frame. A finished game is left alone. Otherwise the player
      steers, a bullet may be fired, enemies, a boss and a power-up may
      appear, and the gun may be upgraded; score and health never change. */
  function Tick(s: Scene, time: int, keys: Keys, enemyRoll: int, powerUpRoll: int): (r: Scene)
    requires s.armory.index < |Guns|
    ensures s.gameOver ==> r == s
    ensures !s.gameOver ==> !r.gameOver && r.velocity == Movement(keys)
    ensures r.score == s.score && r.health == s.health
    ensures !s.gameOver ==> r.flags == BossStep(s.score, s.flags).flags && r.armory == GunStep(s.score, s.armory)
    ensures r.armory.index == s.armory.index || r.armory.index == s.armory.index + 1
    ensures KeepsFlying(s.bullets, r.bullets)
    ensures ActiveCount(r.bullets) <= ActiveCount(s.bullets) + 1
    ensures ActiveCount(r.bullets) > ActiveCount(s.bullets) ==>
      keys.fire && time > s.lastFired && r.lastFired == time + Guns[s.armory.index].fireRate
    ensures r.lastFired != s.lastFired ==> ActiveCount(r.bullets) == ActiveCount(s.bullets) + 1
    ensures !s.gameOver && keys.fire && time > s.lastFired && HasIdle(s.bullets) ==>
      ActiveCount(r.bullets) == ActiveCount(s.bullets) + 1 && r.lastFired == time + Guns[s.armory.index].fireRate
    ensures !(keys.fire && time > s.lastFired && HasIdle(s.bullets)) ==> r.bullets == s.bullets && r.lastFired == s.lastFired
    ensures !s.gameOver ==> r.enemies == Admit(s.enemies, s.nextEnemyId, Arrivals(s, enemyRoll))
    ensures !s.gameOver ==> r.powerUps == if PowerUpSpawnRoll(powerUpRoll) then s.powerUps + {s.nextPowerUpId} else s.powerUps
    ensures Synced(s.armory) ==> Synced(r.armory)
  {
    if s.gameOver then s
    else
      var s1 := Steered(s, keys);
      var s2 := if keys.fire && time > s1.lastFired then Fired(s1, time) else s1;
      var s3 := Populated(s2, enemyRoll, powerUpRoll);
      assert s3.armory == s.armory && s3.score == s.score;
      assert Arrivals(s2, enemyRoll) == Arrivals(s, enemyRoll);
      Unlocked(s3)
  }

  /** A frame keeps the session invariant. */
  lemma TickKeepsOk(s: Scene, time: int, keys: Keys, enemyRoll: int, powerUpRoll: int)
    requires SceneOk(s)
    ensures SceneOk(Tick(s, time, keys, enemyRoll, powerUpRoll))
  {
    if !s.gameOver {
      var s1 := Steered(s, keys);
      var s2 := if keys.fire && time > s1.lastFired then Fired(s1, time) else s1;
      assert SceneOk(s2);
      var s3 := Populated(s2, enemyRoll, powerUpRoll);
      assert SceneOk(s3);
    }
  }

  // ---------------------------------------------------------------------
  // The collision callbacks
  // ---------------------------------------------------------------------

  /** `updateScore(points)`. */
  function Scored(s: Scene, points: nat): Scene {
    s.(score := s.score + points)
  }

  /** `hitEnemy(bullet, enemy)`: the bullet in `slot` returns to the pool, the
      enemy is destroyed and its point value is scored. */
  function Hit(s: Scene, slot: nat, id: nat): (r: Scene)
    requires slot < |s.bullets| && id in s.enemies
    ensures r.score - s.score in PointValues
    ensures r.score == s.score + s.enemies[id].PointValue()
    ensures id !in r.enemies && |r.enemies| == |s.enemies| - 1 && r.enemies.Keys <= s.enemies.Keys
    ensures |r.bullets| == |s.bullets| && r.bullets[slot] == Idle && KeepsFlying(r.bullets, s.bullets)
    ensures r.bullets == s.bullets[slot := Idle] && r.enemies == s.enemies - {id}
    ensures r.health == s.health && r.gameOver == s.gameOver && r.flags == s.flags && r.armory == s.armory
    ensures r.powerUps == s.powerUps && r.lastFired == s.lastFired && r.velocity == s.velocity
    ensures r.nextEnemyId == s.nextEnemyId && r.nextPowerUpId == s.nextPowerUpId
    ensures SceneOk(s) ==> SceneOk(r)
  {
    Scored(s.(bullets := s.bullets[slot := Idle], enemies := s.enemies - {id}), s.enemies[id].PointValue())
  }

  /** `endGame`: the game is over and every remaining enemy is destroyed. */
  function Ended(s: Scene): Scene {
    s.(gameOver := true, enemies := map[])
  }

  /** `playerHitEnemy(player, enemy)`: nothing once the game is over;
      otherwise the enemy is destroyed and 10 health is lost, and the game
      ends when health reaches 0. */
  function Contact(s: Scene, id: nat): (r: Scene)
    ensures s.gameOver ==> r == s
    ensures !s.gameOver ==> r.health == s.health - ContactDamage && (r.gameOver <==> r.health <= 0)
    ensures !s.gameOver ==> id !in r.enemies && r.enemies.Keys <= s.enemies.Keys
    ensures !s.gameOver && s.health > ContactDamage ==> r.enemies == s.enemies - {id}
    ensures !s.gameOver && s.health <= ContactDamage ==> r.enemies == map[]
    ensures r.score == s.score && r.flags == s.flags && r.armory == s.armory && r.bullets == s.bullets
    ensures r.powerUps == s.powerUps && r.lastFired == s.lastFired && r.velocity == s.velocity
    ensures r.nextEnemyId == s.nextEnemyId && r.nextPowerUpId == s.nextPowerUpId
    ensures SceneOk(s) ==> SceneOk(r)
  {
    if s.gameOver then s
    else
      assert HealthOk(s.health) && s.health > 0 ==> HealthOk(s.health - ContactDamage) by {
        if HealthOk(s.health) && s.health > 0 {
          ContactKeepsHealthOk(s.health);
        }
      }
      var t := s.(enemies := s.enemies - {id}, health := s.health - ContactDamage);
      if t.health <= 0 then Ended(t) else t
  }

  /** `collectPowerUp(player, powerUp)`: the power-up is destroyed and 20
      health restored, capped at 100. The source does not check `gameOver`. */
  function Collected(s: Scene, id: nat): (r: Scene)
    ensures r.powerUps == s.powerUps - {id}
    ensures r.health == Heal(s.health)
    ensures r.score == s.score && r.gameOver == s.gameOver && r.enemies == s.enemies
    ensures r.flags == s.flags && r.armory == s.armory && r.bullets == s.bullets
    ensures r.lastFired == s.lastFired && r.velocity == s.velocity
    ensures r.nextEnemyId == s.nextEnemyId && r.nextPowerUpId == s.nextPowerUpId
    ensures SceneOk(s) ==> SceneOk(r)
  {
    s.(powerUps := s.powerUps - {id}, health := Heal(s.health))
  }

  // ---------------------------------------------------------------------
  // restartGame
  // ---------------------------------------------------------------------

  /** The counters `restartGame` resets, with the threshold it leaves. */
  function Reset(s: Scene, nextUnlock: int): Scene {
    Scene(0, MaxHealth, false, NoBosses, Armory(0, nextUnlock),
          s.lastFired, s.bullets, s.enemies, s.nextEnemyId, s.powerUps, s.nextPowerUpId, s.velocity)
  }

  /** `restartGame` as written: the counters are reset and `create` runs
      again, but `nextGunUnlock` keeps whatever value it had. */
  function Restarted(s: Scene): (r: Scene)
    ensures r.score == 0 && r.health == MaxHealth && !r.gameOver && r.flags == NoBosses
    ensures r.armory == Armory(0, s.armory.nextUnlock)
    ensures r.bullets == IdlePool() && r.lastFired == 0 && r.powerUps == {}
    ensures |r.enemies| == MaxActiveEnemies && forall id :: id in r.enemies ==> r.enemies[id] == Regular
    ensures SceneOk(s) ==> SceneOk(r)
  {
    CreatedFresh(Reset(s, s.armory.nextUnlock));
    Created(Reset(s, s.armory.nextUnlock))
  }

  /** `restartGame` with the threshold recomputed for the basic gun, as the
      reset of the tier evidently intends. */
  function RestartedResynced(s: Scene): (r: Scene)
    ensures r.score == 0 && r.health == MaxHealth && !r.gameOver && r.flags == NoBosses
    ensures r.armory == StartArmory && Synced(r.armory)
    ensures r.bullets == IdlePool() && r.lastFired == 0 && r.powerUps == {}
    ensures |r.enemies| == MaxActiveEnemies && forall id :: id in r.enemies ==> r.enemies[id] == Regular
    ensures SceneOk(r)
  {
    assert StartArmory == Armory(0, NextUnlock(0));
    CreatedFresh(Reset(s, NextUnlock(0)));
    Created(Reset(s, NextUnlock(0)))
  }

  /** A session that reached the Double Shot and is restarted as written
      keeps the Rapid Fire threshold: at score 100 the basic gun is not
      upgraded, although the resynchronised restart upgrades it. */
  lemma RestartKeepsStaleThreshold()
    ensures var s := Initial().(armory := Armory(1, NextUnlock(1)));
      && SceneOk(s) && Synced(s.armory)
      && !Synced(Restarted(s).armory)
      && GunStep(100, Restarted(s).armory).index == 0
      && GunStep(100, RestartedResynced(s).armory).index == 1
  {
    var s := Initial().(armory := Armory(1, NextUnlock(1)));
    assert ArmoryOk(s.armory) by {
      assert s.armory.nextUnlock == NextUnlock(1);
    }
  }

  // ---------------------------------------------------------------------
  // Runs of callbacks
  // ---------------------------------------------------------------------

  /** Everything the engine can call into the game: a frame, or one of the
      overlaps and collisions it detects, or a restart. */
  datatype Event =
    | Frame(time: int, keys: Keys, enemyRoll: int, powerUpRoll: int)
    | BulletHit(slot: nat, id: nat)
    | Collision(id: nat)
    | PickUp(id: nat)
    | Restart

  /** The scene after one event, in the program as evidently intended: a
      frame fires with the single stamp, and a restart is the resynchronised
      one. The engine reports an overlap only between an enabled bullet and a
      live enemy, so a hit naming an idle slot or no enemy changes nothing. */
  function Apply(s: Scene, e: Event): (r: Scene)
    requires SceneOk(s)
    ensures SceneOk(r)
  {
    match e
    case Frame(time, keys, enemyRoll, powerUpRoll) =>
      TickKeepsOk(s, time, keys, enemyRoll, powerUpRoll);
      Tick(s, time, keys, enemyRoll, powerUpRoll)
    case BulletHit(slot, id) =>
      if slot < |s.bullets| && s.bullets[slot].Flying? && id in s.enemies then Hit(s, slot, id) else s
    case Collision(id) => Contact(s, id)
    case PickUp(id) => Collected(s, id)
    case Restart => RestartedResynced(s)
  }

  /** The scene after a sequence of events. */
  function Run(s: Scene, events: seq<Event>): (r: Scene)
    requires SceneOk(s)
    ensures SceneOk(r)
    decreases |events|
  {
    if events == [] then s else Run(Apply(s, events[0]), events[1..])
  }

  ghost predicate NoRestart(events: seq<Event>) {
    forall i :: 0 <= i < |events| ==> !events[i].Restart?
  }

  /** What only ever grows while no restart happens: the score, the gun tier
      and the raised boss flags. */
  ghost predicate Progressed(s: Scene, t: Scene) {
    t.score >= s.score && t.armory.index >= s.armory.index && Covers(t.flags, s.flags)
  }

  lemma ApplyProgresses(s: Scene, e: Event)
    requires SceneOk(s) && !e.Restart?
    ensures Progressed(s, Apply(s, e))
  {
    if e.BulletHit? && e.slot < |s.bullets| && s.bullets[e.slot].Flying? && e.id in s.enemies {
      assert Hit(s, e.slot, e.id).score >= s.score;
    }
  }

  /** Without a restart, score, gun tier and boss flags never go back. */
  lemma {:induction false} RunProgresses(s: Scene, events: seq<Event>)
    requires SceneOk(s) && NoRestart(events)
    ensures Progressed(s, Run(s, events))
    decreases |events|
  {
    if events != [] {
      var t := Apply(s, events[0]);
      ApplyProgresses(s, events[0]);
      assert NoRestart(events[1..]) by {
        forall i | 0 <= i < |events[1..]| ensures !events[1..][i].Restart? {
          assert events[1..][i] == events[i + 1];
        }
      }
      RunProgresses(t, events[1..]);
    }
  }

  /** With the resynchronised restart, `nextGunUnlock` is always the cost of
      the next tier. */
  lemma {:induction false} RunKeepsSynced(s: Scene, events: seq<Event>)
    requires SceneOk(s) && Synced(s.armory)
    ensures Synced(Run(s, events).armory)
    decreases |events|
  {
    if events != [] {
      var t := Apply(s, events[0]);
      assert Synced(t.armory);
      RunKeepsSynced(t, events[1..]);
    }
  }

  /** A finished game stays finished until a restart: nothing is scored,
      no enemy appears and neither the gun nor the boss flags change. */
  lemma {:induction false} GameOverIsFinal(s: Scene, events: seq<Event>)
    requires SceneOk(s) && s.gameOver && NoRestart(events)
    ensures var t := Run(s, events);
      t.gameOver && t.score == s.score && t.enemies == map[] && t.armory == s.armory && t.flags == s.flags
    decreases |events|
  {
    if events != [] {
      var t := Apply(s, events[0]);
      assert t.gameOver && t.score == s.score && t.armory == s.armory && t.flags == s.flags;
      assert NoRestart(events[1..]) by {
        forall i | 0 <= i < |events[1..]| ensures !events[1..][i].Restart? {
          assert events[1..][i] == events[i + 1];
        }
      }
      GameOverIsFinal(t, events[1..]);
    }
  }
}
