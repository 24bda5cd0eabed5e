/** The pure rules of the arcade shooter in game.js: the weapon table and its
    unlock step, the boss-spawn chain, player movement, healing, and the
    bullet pool seen as a sequence of slots. The mutable game session that
    applies these rules lives in module Session. */
module Rules {

  // ---------------------------------------------------------------------
  // Weapons (the `guns` table and the gun-unlock step of `update`)
  // ---------------------------------------------------------------------

  /** One weapon tier: milliseconds between shots, vertical bullet velocity
      (negative is upward) and the score at which the tier unlocks. */
  datatype Gun = Gun(name: string, fireRate: nat, bulletSpeed: int, unlockCost: nat)

  const Guns: seq<Gun> := [
    Gun("Basic Gun", 300, -400, 0),
    Gun("Double Shot", 250, -500, 50),
    Gun("Rapid Fire", 150, -600, 150),
    Gun("Laser Beam", 50, -800, 400)
  ]

  /** `guns.length - 1`: the index of the last tier. */
  const LastTier: nat := 3

  /** JavaScript's `Number.MAX_SAFE_INTEGER`, the "no further unlock" sentinel. */
  const MaxSafeInteger: int := 9007199254740991

  /** The threshold `nextGunUnlock` should hold while tier `index` is current. */
  function NextUnlock(index: nat): int
    requires index < |Guns|
  {
    if index < LastTier then Guns[index + 1].unlockCost else MaxSafeInteger
  }

  lemma UnlockThresholdsIncrease(i: nat, j: nat)
    requires i < j < |Guns|
    ensures Guns[i].unlockCost < Guns[j].unlockCost
    ensures NextUnlock(i) < NextUnlock(j)
    ensures Guns[j].fireRate < Guns[i].fireRate && Guns[j].bulletSpeed < Guns[i].bulletSpeed
  {
  }

  /** The weapon part of the game state: `currentGunIndex` and `nextGunUnlock`. */
  datatype Armory = Armory(index: nat, nextUnlock: int)

  /** The threshold is in step with the current tier. */
  ghost predicate Synced(a: Armory) {
    a.index < |Guns| && a.nextUnlock == NextUnlock(a.index)
  }

  /** The weaker invariant that survives `restartGame`: the threshold is the
      one of the current tier or of some later tier. */
  ghost predicate ArmoryOk(a: Armory) {
    a.index < |Guns| && exists k :: a.index <= k < |Guns| && a.nextUnlock == NextUnlock(k)
  }

  const StartArmory: Armory := Armory(0, Guns[1].unlockCost)

  /** The gun-unlock step at the end of each `update`: an `if`, not a loop. */
  function GunStep(score: int, a: Armory): (r: Armory)
    requires a.index < |Guns|
    ensures r.index < |Guns|
    ensures r.index == a.index || r.index == a.index + 1
    ensures r.index == a.index + 1 <==> a.index < LastTier && score >= a.nextUnlock
    ensures r.index == a.index ==> r == a
    ensures r.index == a.index + 1 ==> Synced(r)
    ensures ArmoryOk(a) ==> ArmoryOk(r)
    ensures Synced(a) ==> Synced(r)
  {
    if a.index < LastTier && score >= a.nextUnlock then
      Armory(a.index + 1, NextUnlock(a.index + 1))
    else
      a
  }

  /** `n` consecutive frames at an unchanged score. */
  function GunSteps(score: int, a: Armory, n: nat): (r: Armory)
    requires a.index < |Guns|
    ensures r.index < |Guns|
    decreases n
  {
    if n == 0 then a else GunSteps(score, GunStep(score, a), n - 1)
  }

  /** The highest tier whose unlock cost the score has reached. */
  function TierFor(score: int): (t: nat)
    ensures t < |Guns|
    ensures t == 0 || Guns[t].unlockCost <= score
    ensures t < LastTier ==> score < Guns[t + 1].unlockCost
  {
    if score >= Guns[3].unlockCost then 3
    else if score >= Guns[2].unlockCost then 2
    else if score >= Guns[1].unlockCost then 1
    else 0
  }

  /** With the threshold in step, the tier climbs one step per frame until it
      reaches the tier the score has paid for, and then stays there. */
  lemma {:induction false} GunCatchUp(score: int, a: Armory, n: nat)
    requires Synced(a) && a.index <= TierFor(score)
    ensures GunSteps(score, a, n).index == Min(a.index + n, TierFor(score))
    decreases n
  {
    if n > 0 {
      var b := GunStep(score, a);
      if a.index < TierFor(score) {
        if a.index + 1 < TierFor(score) {
          UnlockThresholdsIncrease(a.index + 1, TierFor(score));
        }
        assert b.index == a.index + 1;
      } else {
        assert b == a;
      }
      GunCatchUp(score, b, n - 1);
    }
  }

  /** After `restartGame` from a session that reached the Laser Beam tier, the
      threshold is still the sentinel and the basic gun is never upgraded. */
  lemma {:induction false} StaleUnlockNeverUpgrades(score: int, n: nat)
    requires score < MaxSafeInteger
    ensures GunSteps(score, Armory(0, MaxSafeInteger), n) == Armory(0, MaxSafeInteger)
    decreases n
  {
    if n > 0 {
      StaleUnlockNeverUpgrades(score, n - 1);
    }
  }

  /** A concrete instance: at score 400, three frames give the Laser Beam from
      a fresh threshold, but nothing from the stale one. */
  lemma StaleUnlockCounterexample()
    ensures GunSteps(400, StartArmory, 3).index == 3
    ensures GunSteps(400, Armory(0, MaxSafeInteger), 3).index == 0
  {
    GunCatchUp(400, StartArmory, 3);
    StaleUnlockNeverUpgrades(400, 3);
  }

  function Min(a: int, b: int): int {
    if a < b then a else b
  }

  // ---------------------------------------------------------------------
  // Enemies and the boss-spawn chain
  // ---------------------------------------------------------------------

  /** The kinds of enemy `spawnEnemy`, `spawnMiniboss` and `spawnBoss` create. */
  datatype Enemy = Regular | Miniboss(number: nat) | Boss {
    /** The `pointValue` each spawner attaches. */
    function PointValue(): (p: nat)
      ensures p in PointValues
      ensures p == 5 <==> Regular?
      ensures p == 500 <==> Boss?
    {
      match this
      case Regular => 5
      case Miniboss(_) => 100
      case Boss => 500
    }
  }

  const PointValues: set<nat> := {5, 100, 500}

  const Miniboss1Score: int := 250
  const Miniboss2Score: int := 500
  const BossScore: int := 1000

  /** The three one-shot flags `miniboss1Spawned`, `miniboss2Spawned`, `bossSpawned`. */
  datatype BossFlags = BossFlags(miniboss1: bool, miniboss2: bool, boss: bool)

  const NoBosses: BossFlags := BossFlags(false, false, false)

  /** Every flag raised in `b` is raised in `a`. */
  predicate Covers(a: BossFlags, b: BossFlags) {
    (b.miniboss1 ==> a.miniboss1) && (b.miniboss2 ==> a.miniboss2) && (b.boss ==> a.boss)
  }

  function FlagCount(f: BossFlags): nat {
    (if f.miniboss1 then 1 else 0) + (if f.miniboss2 then 1 else 0) + (if f.boss then 1 else 0)
  }

  /** Whether the flag belonging to enemy `e` is raised (regular enemies have none). */
  predicate Raised(f: BossFlags, e: Enemy) {
    match e
    case Regular => false
    case Miniboss(n) => if n == 1 then f.miniboss1 else n == 2 && f.miniboss2
    case Boss => f.boss
  }

  /** The flags after one frame and the boss spawned in it (none or one). */
  datatype BossTurn = BossTurn(flags: BossFlags, spawn: seq<Enemy>)

  /** The `else if` chain of `update`: only the first pending threshold fires. */
  function BossStep(score: int, f: BossFlags): (r: BossTurn)
    ensures Covers(r.flags, f)
    ensures |r.spawn| <= 1 && FlagCount(r.flags) == FlagCount(f) + |r.spawn|
    ensures r.spawn == [Miniboss(1)] <==> !f.miniboss1 && r.flags.miniboss1
    ensures r.spawn == [Miniboss(2)] <==> !f.miniboss2 && r.flags.miniboss2
    ensures r.spawn == [Boss] <==> !f.boss && r.flags.boss
    ensures r.flags.miniboss1 && !f.miniboss1 ==> score >= Miniboss1Score
    ensures r.flags.miniboss2 && !f.miniboss2 ==> score >= Miniboss2Score
    ensures r.flags.boss && !f.boss ==> score >= BossScore
    ensures forall e :: e in r.spawn ==> !Raised(f, e) && Raised(r.flags, e)
  {
    if score >= Miniboss1Score && !f.miniboss1 then
      BossTurn(f.(miniboss1 := true), [Miniboss(1)])
    else if score >= Miniboss2Score && !f.miniboss2 then
      BossTurn(f.(miniboss2 := true), [Miniboss(2)])
    else if score >= BossScore && !f.boss then
      BossTurn(f.(boss := true), [Boss])
    else
      BossTurn(f, [])
  }

  /** The flags after a run of frames, one score per frame. */
  function BossFlagsAlong(scores: seq<int>, f: BossFlags): BossFlags
    decreases |scores|
  {
    if scores == [] then f else BossFlagsAlong(scores[1..], BossStep(scores[0], f).flags)
  }

  /** The bosses spawned over a run of frames, in order. */
  function BossSpawnsAlong(scores: seq<int>, f: BossFlags): seq<Enemy>
    decreases |scores|
  {
    if scores == [] then [] else BossStep(scores[0], f).spawn + BossSpawnsAlong(scores[1..], BossStep(scores[0], f).flags)
  }

  /** A raised flag stays raised over any run of frames. */
  lemma {:induction false} BossFlagsStayRaised(scores: seq<int>, f: BossFlags)
    ensures Covers(BossFlagsAlong(scores, f), f)
    decreases |scores|
  {
    if scores != [] {
      BossFlagsStayRaised(scores[1..], BossStep(scores[0], f).flags);
    }
  }

  /** A boss is spawned only while its flag is still down at the start. */
  lemma {:induction false} SpawnedWhileDown(scores: seq<int>, f: BossFlags, e: Enemy)
    requires e in BossSpawnsAlong(scores, f)
    ensures !Raised(f, e)
    decreases |scores|
  {
    var t := BossStep(scores[0], f);
    if e !in t.spawn {
      SpawnedWhileDown(scores[1..], t.flags, e);
    }
  }

  ghost predicate Distinct(s: seq<Enemy>) {
    forall i, j :: 0 <= i < j < |s| ==> s[i] != s[j]
  }

  /** No boss or miniboss is spawned twice in a session, whatever the scores. */
  lemma {:induction false} NoDuplicateBossSpawns(scores: seq<int>, f: BossFlags)
    ensures Distinct(BossSpawnsAlong(scores, f))
    decreases |scores|
  {
    if scores != [] {
      var t := BossStep(scores[0], f);
      var rest := BossSpawnsAlong(scores[1..], t.flags);
      var all := BossSpawnsAlong(scores, f);
      assert all == t.spawn + rest;
      NoDuplicateBossSpawns(scores[1..], t.flags);
      forall i, j | 0 <= i < j < |all| ensures all[i] != all[j] {
        if i < |t.spawn| {
          var e := t.spawn[i];
          assert all[j] == rest[j - |t.spawn|];
          if e in rest {
            SpawnedWhileDown(scores[1..], t.flags, e);
          }
        } else {
          assert all[i] == rest[i - |t.spawn|] && all[j] == rest[j - |t.spawn|];
        }
      }
    }
  }

  /** The flags that should be raised once the score has reached `s`. */
  function Caught(s: int, f: BossFlags): BossFlags {
    BossFlags(f.miniboss1 || s >= Miniboss1Score, f.miniboss2 || s >= Miniboss2Score, f.boss || s >= BossScore)
  }

  /** The number of thresholds `s` has reached whose flag is still down. */
  function PendingCount(s: int, f: BossFlags): nat {
    (if s >= Miniboss1Score && !f.miniboss1 then 1 else 0)
    + (if s >= Miniboss2Score && !f.miniboss2 then 1 else 0)
    + (if s >= BossScore && !f.boss then 1 else 0)
  }

  /** A frame whose score is at least `s` clears exactly one threshold pending
      for `s`: the lowest. */
  lemma BossStepClearsOne(s: int, score: int, f: BossFlags)
    requires s <= score && PendingCount(s, f) > 0
    ensures PendingCount(s, BossStep(score, f).flags) == PendingCount(s, f) - 1
    ensures Caught(s, BossStep(score, f).flags) == Caught(s, f)
  {
  }

  /** No threshold is skipped: when every frame's score is at least `s`, as
      many frames as there are pending thresholds raise all of their flags,
      one per frame in threshold order. */
  lemma {:induction false} BossCatchUp(scores: seq<int>, f: BossFlags, s: int)
    requires forall i :: 0 <= i < |scores| ==> s <= scores[i]
    requires |scores| >= PendingCount(s, f)
    ensures Covers(BossFlagsAlong(scores, f), Caught(s, f))
    decreases |scores|
  {
    if PendingCount(s, f) == 0 {
      BossFlagsStayRaised(scores, f);
    } else {
      var g := BossStep(scores[0], f).flags;
      BossStepClearsOne(s, scores[0], f);
      BossCatchUp(scores[1..], g, s);
    }
  }

  /** The scenario of a score that jumps past all three thresholds at once. */
  lemma BossesInThresholdOrder()
    ensures BossSpawnsAlong([1000, 1000, 1000, 1000], NoBosses) == [Miniboss(1), Miniboss(2), Boss]
  {
  }

  // ---------------------------------------------------------------------
  // Spawn decisions (the rolls of `Phaser.Math.Between` are inputs)
  // ---------------------------------------------------------------------

  const MaxActiveEnemies: nat := 5

  /** A regular enemy spawns when fewer than five are active and the
      0..100 roll is below 2. */
  predicate EnemySpawnRoll(active: nat, roll: int) {
    active < MaxActiveEnemies && roll < 2
  }

  /** A power-up spawns when the 0..500 roll is below 2. */
  predicate PowerUpSpawnRoll(roll: int) {
    roll < 2
  }

  // ---------------------------------------------------------------------
  // Player movement
  // ---------------------------------------------------------------------

  /** The cursor keys and the space bar, as sampled in one frame. */
  datatype Keys = Keys(left: bool, right: bool, up: bool, down: bool, fire: bool)

  datatype Velocity = Velocity(x: int, y: int)

  const PlayerSpeed: int := 300

  /** The velocity `update` gives the player: left wins over right, up wins
      over down, no key means standing still on that axis. */
  function Movement(k: Keys): (v: Velocity)
    ensures v.x in {-PlayerSpeed, 0, PlayerSpeed} && v.y in {-PlayerSpeed, 0, PlayerSpeed}
    ensures v.x < 0 <==> k.left
    ensures v.x > 0 <==> !k.left && k.right
    ensures v.y < 0 <==> k.up
    ensures v.y > 0 <==> !k.up && k.down
  {
    Velocity(if k.left then -PlayerSpeed else if k.right then PlayerSpeed else 0,
             if k.up then -PlayerSpeed else if k.down then PlayerSpeed else 0)
  }

  /** Diagonal movement at full speed on both axes needs exactly one held key
      per axis group, and holding both keys of a pair never cancels out. */
  lemma MovementDiagonal(k: Keys)
    ensures (Movement(k).x != 0 && Movement(k).y != 0) <==> (k.left || k.right) && (k.up || k.down)
    ensures k.left && k.right ==> Movement(k).x == -PlayerSpeed
    ensures k.up && k.down ==> Movement(k).y == -PlayerSpeed
  {
  }

  // ---------------------------------------------------------------------
  // Health
  // ---------------------------------------------------------------------

  const MaxHealth: int := 100
  const ContactDamage: int := 10
  const PowerUpHeal: int := 20

  /** Health between 0 and 100 and a multiple of 10. */
  predicate HealthOk(h: int) {
    0 <= h <= MaxHealth && h % ContactDamage == 0
  }

  /** `collectPowerUp`'s `Math.min(100, playerHealth + 20)`. */
  function Heal(h: int): (r: int)
    ensures r <= MaxHealth
    ensures r == h + PowerUpHeal || (r == MaxHealth && h + PowerUpHeal > MaxHealth)
    ensures HealthOk(h) ==> HealthOk(r) && r > 0 && r >= h
  {
    if h + PowerUpHeal < MaxHealth then h + PowerUpHeal else MaxHealth
  }

  /** A contact from positive health leaves health in range, at 0 exactly when
      the last 10 points are lost. */
  lemma ContactKeepsHealthOk(h: int)
    requires HealthOk(h) && h > 0
    ensures HealthOk(h - ContactDamage)
    ensures h - ContactDamage <= 0 <==> h == ContactDamage
  {
  }

  // ---------------------------------------------------------------------
  // The bullet pool
  // ---------------------------------------------------------------------

  const PoolSize: nat := 20

  /** One pool slot: disabled and invisible, or flying at a vertical velocity. */
  datatype Bullet = Idle | Flying(velocityY: int)

  predicate HasIdle(pool: seq<Bullet>) {
    exists i :: 0 <= i < |pool| && pool[i] == Idle
  }

  /** Slot `i` is the first inactive one: the one `bullets.get()` hands out. */
  ghost predicate IsFirstIdle(pool: seq<Bullet>, i: int) {
    0 <= i < |pool| && pool[i] == Idle && forall j :: 0 <= j < i ==> pool[j].Flying?
  }

  /** The number of active bullets. */
  function ActiveCount(pool: seq<Bullet>): (n: nat)
    ensures n <= |pool|
    ensures n == |pool| <==> !HasIdle(pool)
    decreases |pool|
  {
    if pool == [] then 0
    else
      var rest := ActiveCount(pool[1..]);
      assert HasIdle(pool) <==> pool[0] == Idle || HasIdle(pool[1..]) by {
        if HasIdle(pool[1..]) {
          var i :| 0 <= i < |pool[1..]| && pool[1..][i] == Idle;
          assert pool[i + 1] == Idle;
        }
        if HasIdle(pool) && pool[0] != Idle {
          var i :| 0 <= i < |pool| && pool[i] == Idle;
          assert pool[1..][i - 1] == Idle;
        }
      }
      (if pool[0].Flying? then 1 else 0) + rest
  }

  /** The pool after a successful `bullets.get()`: the first idle slot flies. */
  function Launch(pool: seq<Bullet>, v: int): (r: seq<Bullet>)
    ensures |r| == |pool|
    decreases |pool|
  {
    if pool == [] then []
    else if pool[0] == Idle then [Flying(v)] + pool[1..]
    else [pool[0]] + Launch(pool[1..], v)
  }

  /** Launching changes exactly the first idle slot, and only that. */
  lemma {:induction false} LaunchAt(pool: seq<Bullet>, v: int, i: int)
    requires IsFirstIdle(pool, i)
    ensures Launch(pool, v) == pool[i := Flying(v)]
    decreases |pool|
  {
    if pool[0] != Idle {
      LaunchAt(pool[1..], v, i - 1);
      assert pool[i := Flying(v)] == [pool[0]] + pool[1..][i - 1 := Flying(v)];
    } else {
      assert pool[0 := Flying(v)] == [Flying(v)] + pool[1..];
    }
  }

  /** Launching activates exactly one more bullet when a slot is idle. */
  lemma {:induction false} LaunchCount(pool: seq<Bullet>, v: int)
    requires HasIdle(pool)
    ensures ActiveCount(Launch(pool, v)) == ActiveCount(pool) + 1
    decreases |pool|
  {
    var r := Launch(pool, v);
    if pool[0] == Idle {
      assert r[1..] == pool[1..];
    } else {
      var i :| 0 <= i < |pool| && pool[i] == Idle;
      assert pool[1..][i - 1] == Idle;
      LaunchCount(pool[1..], v);
      assert r[1..] == Launch(pool[1..], v);
    }
  }

  /** No active bullet is deactivated or altered from `before` to `after`. */
  ghost predicate KeepsFlying(before: seq<Bullet>, after: seq<Bullet>) {
    |before| == |after| && forall i :: 0 <= i < |before| && before[i].Flying? ==> after[i] == before[i]
  }

  /** A step that deactivates no bullet never lowers the active count. */
  lemma {:induction false} KeepsFlyingCount(before: seq<Bullet>, after: seq<Bullet>)
    requires KeepsFlying(before, after)
    ensures ActiveCount(before) <= ActiveCount(after)
    decreases |before|
  {
    if before != [] {
      assert KeepsFlying(before[1..], after[1..]) by {
        forall i | 0 <= i < |before[1..]| && before[1..][i].Flying?
          ensures after[1..][i] == before[1..][i]
        {
          assert before[i + 1].Flying?;
        }
      }
      KeepsFlyingCount(before[1..], after[1..]);
    }
  }

  /** Launching never grounds or redirects a bullet already in flight. */
  lemma {:induction false} LaunchKeepsFlying(pool: seq<Bullet>, v: int)
    ensures KeepsFlying(pool, Launch(pool, v))
    decreases |pool|
  {
    if pool != [] && pool[0] != Idle {
      LaunchKeepsFlying(pool[1..], v);
      var r := Launch(pool, v);
      forall i | 0 <= i < |pool| && pool[i].Flying? ensures r[i] == pool[i] {
        if i > 0 {
          assert r[i] == Launch(pool[1..], v)[i - 1];
          assert pool[1..][i - 1] == pool[i];
        }
      }
    }
  }

  /** A pool with an idle slot has a first one. */
  lemma {:induction false} FirstIdleExists(pool: seq<Bullet>)
    requires HasIdle(pool)
    ensures exists i :: IsFirstIdle(pool, i)
    decreases |pool|
  {
    if pool[0] != Idle {
      var k :| 0 <= k < |pool| && pool[k] == Idle;
      assert pool[1..][k - 1] == Idle;
      FirstIdleExists(pool[1..]);
      var i :| IsFirstIdle(pool[1..], i);
      assert IsFirstIdle(pool, i + 1) by {
        forall j | 0 <= j < i + 1 ensures pool[j].Flying? {
          if j > 0 {
            assert pool[j] == pool[1..][j - 1];
          }
        }
      }
    } else {
      assert IsFirstIdle(pool, 0);
    }
  }

  /** One `update` frame's shot as the code intends it: a single fire stamp,
      shared by `update`'s check and `fireBullet`, with `gun` the current tier.
      With no idle slot nothing changes, stamp included. */
  datatype Volley = Volley(pool: seq<Bullet>, lastFired: int)

  function Fire(pool: seq<Bullet>, lastFired: int, time: int, gun: nat): (r: Volley)
    requires gun < |Guns|
    ensures |r.pool| == |pool|
    ensures r.lastFired == if time > lastFired && HasIdle(pool) then time + Guns[gun].fireRate else lastFired
    ensures ActiveCount(r.pool) == ActiveCount(pool) + (if time > lastFired && HasIdle(pool) then 1 else 0)
    ensures KeepsFlying(pool, r.pool)
    ensures time > lastFired && HasIdle(pool) ==>
      exists i :: IsFirstIdle(pool, i) && r.pool == pool[i := Flying(Guns[gun].bulletSpeed)]
    ensures !(time > lastFired && HasIdle(pool)) ==> r.pool == pool
  {
    if time > lastFired && HasIdle(pool) then
      LaunchCount(pool, Guns[gun].bulletSpeed);
      LaunchKeepsFlying(pool, Guns[gun].bulletSpeed);
      assert exists i :: IsFirstIdle(pool, i) && Launch(pool, Guns[gun].bulletSpeed) == pool[i := Flying(Guns[gun].bulletSpeed)] by {
        FirstIdleExists(pool);
        var i :| IsFirstIdle(pool, i);
        LaunchAt(pool, Guns[gun].bulletSpeed, i);
      }
      Volley(Launch(pool, Guns[gun].bulletSpeed), time + Guns[gun].fireRate)
    else
      Volley(pool, lastFired)
  }

  /** A fresh pool: `createMultiple` with 20 inactive bullets. */
  function IdlePool(): (pool: seq<Bullet>)
    ensures |pool| == PoolSize && forall i :: 0 <= i < |pool| ==> pool[i] == Idle
  {
    seq(PoolSize, _ => Idle)
  }

  // ---------------------------------------------------------------------
  // fireBullet as written: its `this.lastFired` is the global one
  // ---------------------------------------------------------------------

  /** A JavaScript value that may be `undefined`. */
  datatype Stamp = Undefined | Defined(ms: int)

  /** `time > stamp`: any comparison with `undefined` is false. */
  predicate Later(time: int, stamp: Stamp) {
    stamp.Defined? && time > stamp.ms
  }

  datatype Shot = Shot(pool: seq<Bullet>, stamp: Stamp)

  /** `fireBullet(time)` as written, reading and writing the global `lastFired`
      that nothing else assigns, with `gun` the current tier. */
  function FireAsWritten(pool: seq<Bullet>, stamp: Stamp, time: int, gun: nat): (r: Shot)
    requires gun < |Guns|
    ensures !Later(time, stamp) ==> r == Shot(pool, stamp)
    ensures Later(time, stamp) && HasIdle(pool) ==> r.stamp == Defined(time + Guns[gun].fireRate)
  {
    if Later(time, stamp) && HasIdle(pool) then
      Shot(Launch(pool, Guns[gun].bulletSpeed), Defined(time + Guns[gun].fireRate))
    else
      Shot(pool, stamp)
  }

  /** Calling the as-written `fireBullet` once per frame. */
  function FireAlong(pool: seq<Bullet>, stamp: Stamp, times: seq<int>, gun: nat): Shot
    requires gun < |Guns|
    decreases |times|
  {
    if times == [] then Shot(pool, stamp)
    else
      var s := FireAsWritten(pool, stamp, times[0], gun);
      FireAlong(s.pool, s.stamp, times[1..], gun)
  }

  /** Once the global stamp holds a number, the as-written shot is the
      intended one: the only discrepancy is the stamp that is never defined. */
  lemma FireAsWrittenOnceDefined(pool: seq<Bullet>, stamp: int, time: int, gun: nat)
    requires gun < |Guns|
    ensures FireAsWritten(pool, Defined(stamp), time, gun)
         == Shot(Fire(pool, stamp, time, gun).pool, Defined(Fire(pool, stamp, time, gun).lastFired))
  {
  }

  /** As written, the global stamp starts `undefined` and stays so: however
      many frames the fire key is held, no bullet ever leaves the pool. */
  lemma {:induction false} UndefinedStampNeverFires(pool: seq<Bullet>, times: seq<int>, gun: nat)
    requires gun < |Guns|
    ensures FireAlong(pool, Undefined, times, gun) == Shot(pool, Undefined)
    decreases |times|
  {
    if times != [] {
      UndefinedStampNeverFires(pool, times[1..], gun);
    }
  }
}
