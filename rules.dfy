/** The rules Game.update applies after everything has moved: the camera, obstacle
    hits, the time limit and projectile hits on Lord Zing. The two builds differ only
    in the constants collected in a Rules value. */
module GameRules {
  import opened Geometry
  import opened Entities
  import opened Physics
  import opened World

  datatype Rules = Rules(
    build: Build,
    tuning: Tuning,
    hitShake: int,           // screen shake after an obstacle hit
    recordsTime: bool,       // whether game over and victory record time_taken
    powerUpScore: int,
    speedBoost: real,        // the speed a speed power-up sets
    timeLimits: map<int, int>,
    boltRange: int,          // how close a projectile must be to Lord Zing to hit him
    boltUsesCamera: bool,    // whether that distance adds the camera offset to his x
    meleeRange: int,         // how close the player's centre must be to his for a melee hit
    canShoot: bool,          // whether RETURN fires
    cameraLerp: real,
    shakeScale: int,         // the shake jitter is drawn from [-shakeScale * s, shakeScale * s]
    cameraNoise: bool)       // whether the camera also takes a random nudge

  /** main.py. */
  const CleanRules: Rules :=
    Rules(Clean, CleanTuning, 15, true, 200, 10.0, map[1 := 120, 2 := 90, 3 := 60],
          50, true, 100, true, 0.1, 1, false)

  /** main2.py. */
  const DevRules: Rules :=
    Rules(Dev, DevTuning, 30, false, 50, 20.0, map[1 := 120, 2 := 90],
          20, false, 80, false, 0.02, 2, true)

  const CoinScore: int := 100
  const MeleeShake: int := 10
  const BoltShake: int := 10

  predicate WellFormed(r: Rules) {
    Sane(r.tuning) && 0.0 < r.cameraLerp < 1.0 && r.shakeScale >= 1
  }

  lemma BothRulesWellFormed()
    ensures WellFormed(CleanRules) && WellFormed(DevRules)
  {
  }

  // ---------------------------------------------------------------- camera

  /** The offset that puts the player a third of the way across the screen. */
  function CameraTarget(playerX: int): int { -playerX + ScreenWidth / 3 }

  /** Moving a fraction t of the way from `offset` to `target`. */
  function Approach(offset: real, target: real, t: real): (r: real)
    requires 0.0 < t < 1.0
    ensures offset <= target ==> offset <= r <= target
    ensures target <= offset ==> target <= r <= offset
    ensures r - target == (offset - target) * (1.0 - t)
  {
    var gap := target - offset;
    var mag := AbsReal(gap);
    ProductNonNegative(mag, t);
    ProductNonNegative(mag, 1.0 - t);
    assert gap * t - gap == -(gap * (1.0 - t));
    assert mag * t == AbsReal(gap * t) && mag * (1.0 - t) == AbsReal(gap * (1.0 - t));
    offset + gap * t
  }

  lemma ProductNonNegative(a: real, b: real)
    requires a >= 0.0 && b >= 0.0
    ensures a * b >= 0.0
  {
  }

  /** update_camera: approach the target, then (dev build) a random nudge, then, while
      the screen shakes, a random jitter and one less frame of shake. The shake counts
      down as ShakeAfter does and never below zero; a camera with neither nudge nor
      shake only approaches its target; otherwise it strays from that approach by no
      more than the nudge and the jitter. */
  function CameraAfter(r: Rules, offset: real, playerX: int, shake: int, noise: int, jitter: int): (c: (real, int))
    requires WellFormed(r)
    ensures c.1 == ShakeAfter(shake, 1)
    ensures shake >= 0 ==> 0 <= c.1 <= shake
    ensures !r.cameraNoise && shake <= 0 ==>
      c.0 == Approach(offset, CameraTarget(playerX) as real, r.cameraLerp)
    ensures AbsReal(c.0 - Approach(offset, CameraTarget(playerX) as real, r.cameraLerp)) <=
      (if r.cameraNoise then Abs(noise) else 0) as real + (if shake > 0 then Abs(jitter) else 0) as real
  {
    var o := Approach(offset, CameraTarget(playerX) as real, r.cameraLerp);
    var o' := if r.cameraNoise then o + noise as real else o;
    if shake > 0 then (o' + jitter as real, shake - 1) else (o', shake)
  }

  /** The dev build's random nudge is drawn from [-5, 5]. */
  const CameraNoiseMax: int := 5

  /** How far the camera may stray from its approach in one frame when the random values
      come from their ranges: the nudge (dev build only) and, while the screen shakes,
      the jitter of up to shakeScale times the shake. */
  function CameraStray(r: Rules, shake: int): int {
    (if r.cameraNoise then CameraNoiseMax else 0) + (if shake > 0 then r.shakeScale * shake else 0)
  }

  /** With the nudge and the jitter drawn from their ranges, the camera lands within
      CameraStray of its approach. */
  lemma CameraStaysNearItsTarget(r: Rules, offset: real, playerX: int, shake: int, noise: int, jitter: int)
    requires WellFormed(r)
    requires r.cameraNoise ==> Abs(noise) <= CameraNoiseMax
    requires shake > 0 ==> Abs(jitter) <= r.shakeScale * shake
    ensures AbsReal(CameraAfter(r, offset, playerX, shake, noise, jitter).0 -
                    Approach(offset, CameraTarget(playerX) as real, r.cameraLerp)) <= CameraStray(r, shake) as real
  {
  }

  function ShakeAfter(shake: int, n: nat): int {
    if n == 0 then shake
    else var s := ShakeAfter(shake, n - 1); if s > 0 then s - 1 else s
  }

  /** A shake set to s fades out after exactly s frames and never goes negative. */
  lemma {:induction false} ShakeFades(shake: nat, n: nat)
    ensures ShakeAfter(shake, n) == if n <= shake then shake - n else 0
  {
    if n > 0 {
      ShakeFades(shake, n - 1);
    }
  }

  // ---------------------------------------------------------------- obstacle hits

  /** An obstacle as the hit test sees it: its rectangle and how much the player's
      rectangle is padded on each axis before the test. */
  datatype Hazard = Hazard(rect: Rect, padding: int)

  /** What the obstacle loop reads and changes: the player's position, speed and
      lives, whether the game is over, the screen shake and the recorded time. */
  datatype Hurt = Hurt(x: int, y: int, velX: real, velY: real, lives: int, ended: bool,
                       shake: int, time: real)

  function HurtRect(h: Hurt): Rect { Rect(h.x, h.y, PlayerWidth, PlayerHeight) }

  /** One obstacle: on contact a life is lost and the screen shakes; the game ends when
      no life is left (and the build that records times records `elapsed`), otherwise
      the player goes back to the spawn point. */
  function HurtBy(r: Rules, h: Hurt, z: Hazard, elapsed: real): Hurt {
    if Overlaps(Inflate(HurtRect(h), z.padding, z.padding), z.rect) then
      if h.lives - 1 <= 0 then
        h.(lives := h.lives - 1, ended := true, shake := r.hitShake,
           time := if r.recordsTime then elapsed else h.time)
      else Hurt(SpawnX, SpawnY, 0.0, 0.0, h.lives - 1, h.ended, r.hitShake, h.time)
    else h
  }

  /** The obstacles in order; each later one is checked against where the earlier ones
      left the player. */
  function HurtByAll(r: Rules, h: Hurt, zs: seq<Hazard>, elapsed: real): Hurt {
    if zs == [] then h else HurtBy(r, HurtByAll(r, h, zs[..|zs| - 1], elapsed), zs[|zs| - 1], elapsed)
  }

  /** What the obstacle loop does, in the player's terms: at most one life per
      obstacle goes; a player who loses none is untouched; any loss shakes the screen;
      the game ends exactly when a loss leaves no life (and the time is then
      recorded by the build that records times); otherwise a player who lost a life
      is back at the spawn point and at rest. */
  lemma {:induction false} HurtByAllMeans(r: Rules, h: Hurt, zs: seq<Hazard>, elapsed: real)
    ensures var o := HurtByAll(r, h, zs, elapsed);
      && h.lives - |zs| <= o.lives <= h.lives
      && (o.lives == h.lives ==> o == h)
      && (o.lives < h.lives ==> o.shake == r.hitShake)
      && (o.ended <==> h.ended || (o.lives < h.lives && o.lives <= 0))
      && o.time == (if r.recordsTime && o.lives < h.lives && o.lives <= 0 then elapsed else h.time)
      && (o.lives < h.lives && o.lives > 0 ==>
            o.x == SpawnX && o.y == SpawnY && o.velX == 0.0 && o.velY == 0.0)
  {
    if zs != [] {
      HurtByAllMeans(r, h, zs[..|zs| - 1], elapsed);
    }
  }

  /** A player touching no obstacle loses nothing. */
  lemma {:induction false} UntouchedIsUnhurt(r: Rules, h: Hurt, zs: seq<Hazard>, elapsed: real)
    requires forall i :: 0 <= i < |zs| ==> !Overlaps(Inflate(HurtRect(h), zs[i].padding, zs[i].padding), zs[i].rect)
    ensures HurtByAll(r, h, zs, elapsed) == h
  {
    if zs != [] {
      UntouchedIsUnhurt(r, h, zs[..|zs| - 1], elapsed);
    }
  }

  // ---------------------------------------------------------------- power-ups

  /** What the power-up loop changes in the player. */
  datatype Boosted = Boosted(score: int, speed: real, velY: real)

  /** One power-up: when it is taken the build's score is added, a speed power-up sets
      the speed, a jump power-up jumps, and an attack power-up does nothing more. */
  function BoostBy(r: Rules, b: Boosted, onGround: bool, taken: bool, kind: PowerKind): Boosted {
    if !taken then b
    else
      var score := b.score + r.powerUpScore;
      if kind == SpeedBoost then b.(score := score, speed := r.speedBoost)
      else if kind == JumpBoost then
        b.(score := score, velY := if MayJump(r.tuning, onGround, b.velY) then r.tuning.jumpSpeed else b.velY)
      else b.(score := score)
  }

  /** The power-ups in order, each taken if not yet collected and touching `pr`. */
  function BoostAfter(r: Rules, b: Boosted, onGround: bool, flags: seq<bool>, rects: seq<Rect>,
                      kinds: seq<PowerKind>, pr: Rect): Boosted
    requires |flags| == |rects| == |kinds|
    decreases |flags|
  {
    if flags == [] then b
    else
      var n := |flags| - 1;
      BoostBy(r, BoostAfter(r, b, onGround, flags[..n], rects[..n], kinds[..n], pr), onGround,
              !flags[n] && Overlaps(pr, rects[n]), kinds[n])
  }

  /** The power-up pass adds the build's score once per power-up newly taken, leaves
      the speed at the boost exactly when a speed power-up was taken, and jumps exactly
      when a jump power-up was taken and the player could jump. */
  lemma {:induction false} BoostAfterMeans(r: Rules, b: Boosted, onGround: bool, flags: seq<bool>,
                                           rects: seq<Rect>, kinds: seq<PowerKind>, pr: Rect)
    requires |flags| == |rects| == |kinds|
    ensures var o := BoostAfter(r, b, onGround, flags, rects, kinds, pr);
      && o.score == b.score + r.powerUpScore * NewPickups(flags, rects, pr)
      && o.speed == (if NewPickupOfKind(flags, rects, kinds, pr, SpeedBoost) then r.speedBoost else b.speed)
      && o.velY == (if NewPickupOfKind(flags, rects, kinds, pr, JumpBoost) && MayJump(r.tuning, onGround, b.velY)
                    then r.tuning.jumpSpeed else b.velY)
    decreases |flags|
  {
    if flags != [] {
      var n := |flags| - 1;
      BoostAfterMeans(r, b, onGround, flags[..n], rects[..n], kinds[..n], pr);
    }
  }

  // ---------------------------------------------------------------- time limit

  /** The level's time is up: it has a limit and more time than that has passed. */
  predicate TimeUp(r: Rules, level: int, elapsed: real) {
    level in r.timeLimits && elapsed > r.timeLimits[level] as real
  }

  // ---------------------------------------------------------------- projectiles

  /** Where the hit test places Lord Zing: his x, plus the camera offset when the build
      adds it. */
  function BoltTarget(r: Rules, bossX: int, camera: real): real {
    if r.boltUsesCamera then bossX as real + camera else bossX as real
  }

  predicate InBoltRange(p: Projectile, target: real, range: int) {
    AbsReal(p.x as real - target) < range as real
  }

  /** How many of the projectiles are within range this frame; every one of them hits,
      whether or not it hit before. */
  function BoltHits(ps: seq<Projectile>, target: real, range: int): (n: nat)
    ensures n <= |ps|
    ensures n == 0 <==> forall i :: 0 <= i < |ps| ==> !InBoltRange(ps[i], target, range)
  {
    if ps == [] then 0
    else BoltHits(ps[..|ps| - 1], target, range) + (if InBoltRange(ps[|ps| - 1], target, range) then 1 else 0)
  }

  /** The projectiles after the hit test: one for each, marked as having hit exactly
      when it had hit before or is within range now, and otherwise unchanged. */
  function MarkHits(ps: seq<Projectile>, target: real, range: int): (qs: seq<Projectile>)
    ensures |qs| == |ps|
    ensures forall i :: 0 <= i < |ps| ==> (qs[i].hit <==> ps[i].hit || InBoltRange(ps[i], target, range))
    ensures forall i :: 0 <= i < |ps| ==> qs[i].(hit := ps[i].hit) == ps[i]
  {
    seq(|ps|, i requires 0 <= i < |ps| => ps[i].(hit := ps[i].hit || InBoltRange(ps[i], target, range)))
  }

  /** What the projectile loop changes besides the projectiles: Lord Zing's health and
      defeat, whether the friend is free, and the shake. */
  datatype Duel = Duel(boss: BossStatus, rescued: bool, shake: int)

  /** One projectile: a hit costs Lord Zing a life, shakes the screen, and frees the
      friend if he is then defeated. */
  function DuelStep(d: Duel, hits: bool): Duel {
    if hits then
      var s := AfterHit(d.boss);
      Duel(s, d.rescued || s.defeated, BoltShake)
    else d
  }

  function DuelAfter(d: Duel, ps: seq<Projectile>, target: real, range: int): Duel {
    if ps == [] then d
    else DuelStep(DuelAfter(d, ps[..|ps| - 1], target, range), InBoltRange(ps[|ps| - 1], target, range))
  }

  /** After the projectile loop Lord Zing has taken one hit per projectile in range,
      the friend is free exactly when it was or when a hit left him defeated, and the
      screen shakes exactly when something hit. */
  lemma {:induction false} DuelAfterMeans(d: Duel, ps: seq<Projectile>, target: real, range: int)
    ensures var n := BoltHits(ps, target, range);
      var o := DuelAfter(d, ps, target, range);
      && o.boss == AfterHits(d.boss, n)
      && (o.rescued <==> d.rescued || (n > 0 && o.boss.defeated))
      && o.shake == (if n > 0 then BoltShake else d.shake)
  {
    if ps != [] {
      var q := ps[..|ps| - 1];
      DuelAfterMeans(d, q, target, range);
      var m := BoltHits(q, target, range);
      if m > 0 && AfterHits(d.boss, m).defeated {
        DefeatIsFinal(AfterHits(d.boss, m), 1);
      }
    }
  }

  /** A projectile that has hit stops where it is, so while Lord Zing's target stays put
      it hits again on every frame it has left. */
  lemma HitBoltStaysInRange(p: Projectile, target: real, range: int)
    requires p.hit && InBoltRange(p, target, range)
    ensures InBoltRange(Advanced(p), target, range)
  {
  }

  /** One projectile that reaches a fresh Lord Zing at a standing target defeats him
      on the third frame: it is marked as having hit, stops, and keeps hitting. */
  lemma {:induction false} OneBoltDefeatsTheBoss(p: Projectile, target: real, range: int)
    requires InBoltRange(p, target, range) && p.life > 2
    ensures var q1 := Advanced(MarkHits([p], target, range)[0]);
            var q2 := Advanced(MarkHits([q1], target, range)[0]);
      && BoltHits([p], target, range) == 1
      && BoltHits([q1], target, range) == 1
      && BoltHits([q2], target, range) == 1
      && AfterHits(AfterHits(AfterHits(FreshBoss, 1), 1), 1).defeated
  {
    var q0 := MarkHits([p], target, range)[0];
    assert q0.hit && q0.x == p.x;
    var q1 := Advanced(q0);
    assert q1.hit && q1.x == p.x;
    var q2 := Advanced(MarkHits([q1], target, range)[0]);
    assert q2.x == p.x;
    assert [q1][..0] == [] && [q2][..0] == [] && [p][..0] == [];
  }
}
