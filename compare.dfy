/** Where the dev build's rules part from the clean build's, stated on the shared model
    with the constants of each build filled in. */
module BuildComparison {
  import opened Geometry
  import opened Input
  import opened Entities
  import opened Physics
  import opened World
  import opened GameRules
  import opened Levels

  // ---------------------------------------------------------------- the jump gate

  /** The clean build jumps only from the ground; the dev build also whenever the
      vertical velocity is below 5, so every clean jump is a dev jump. */
  lemma JumpGates(onGround: bool, velY: real)
    ensures MayJump(CleanTuning, onGround, velY) <==> onGround
    ensures MayJump(DevTuning, onGround, velY) <==> onGround || velY < 5.0
    ensures MayJump(CleanTuning, onGround, velY) ==> MayJump(DevTuning, onGround, velY)
  {
  }

  /** At the top of a jump, with no ground below, only the dev build jumps again. */
  lemma DevJumpsInMidAir()
    ensures MayJump(DevTuning, false, 0.0) && !MayJump(CleanTuning, false, 0.0)
  {
  }

  // ---------------------------------------------------------------- moving platforms

  /** A step that would end exactly on a bound of the range: the clean platform (whose
      test is `>`) takes it and ends on the bound with its heading kept, while the dev
      platform (whose test is `>=`) turns round where it is. */
  lemma ExactBoundSplitsTheBuilds(x: int, d: Dir, origin: int, step: real, limit: int)
    requires limit >= 0
    requires x as real + d.Along(step) == (origin + limit) as real
          || x as real + d.Along(step) == (origin - limit) as real
    ensures PlatformStep(x, d, origin, step, limit).1 == d
    ensures Abs(PlatformStep(x, d, origin, step, limit).0 - origin) == limit
    ensures DevPlatformStep(x, d, origin, step, limit) == (x, d.Flip())
  {
    var ahead := x as real + d.Along(step);
    if ahead == (origin + limit) as real {
      assert AbsReal(ahead - origin as real) == limit as real;
      TruncWhole(origin + limit);
    } else {
      assert AbsReal(ahead - origin as real) == limit as real;
      TruncWhole(origin - limit);
    }
  }

  /** The first level's lower platform (origin 350, range 100, speed 1) one pixel short
      of its right bound. */
  lemma FirstPlatformAtItsBound()
    ensures PlatformStep(449, Right, 350, 1.0, 100) == (450, Right)
    ensures DevPlatformStep(449, Right, 350, 1.0, 100) == (449, Left)
  {
    ExactBoundSplitsTheBuilds(449, Right, 350, 1.0, 100);
  }

  // ---------------------------------------------------------------- obstacle hits

  /** The clean build tests the player's own rectangle; the dev build pads it by 10
      first, so every clean hit is a dev hit, and a dev hit shakes the screen for 30
      frames instead of 15. */
  lemma PaddedHitTest(h: Hurt, zr: Rect, elapsed: real)
    ensures HurtBy(CleanRules, h, Hazard(zr, 0), elapsed).lives < h.lives <==> Overlaps(HurtRect(h), zr)
    ensures Overlaps(HurtRect(h), zr) ==> HurtBy(DevRules, h, Hazard(zr, DevHitPadding), elapsed).lives < h.lives
    ensures HurtBy(DevRules, h, Hazard(zr, DevHitPadding), elapsed).lives < h.lives ==>
      HurtBy(DevRules, h, Hazard(zr, DevHitPadding), elapsed).shake == 30
    ensures HurtBy(CleanRules, h, Hazard(zr, 0), elapsed).lives < h.lives ==>
      HurtBy(CleanRules, h, Hazard(zr, 0), elapsed).shake == 15
  {
    assert Inflate(HurtRect(h), 0, 0) == HurtRect(h);
    if Overlaps(HurtRect(h), zr) {
      InflateKeepsOverlap(HurtRect(h), zr, DevHitPadding);
    }
  }

  /** A player at the spawn point with an obstacle 4 pixels to its right: untouched in
      the clean build, a life lost in the dev build. */
  lemma DevHitsAcrossAGap(h: Hurt, elapsed: real)
    requires h.x == SpawnX && h.y == SpawnY
    ensures var zr := Rect(SpawnX + PlayerWidth + 4, SpawnY, 35, 35);
      && HurtBy(CleanRules, h, Hazard(zr, 0), elapsed) == h
      && HurtBy(DevRules, h, Hazard(zr, DevHitPadding), elapsed).lives == h.lives - 1
  {
    var zr := Rect(SpawnX + PlayerWidth + 4, SpawnY, 35, 35);
    assert HurtRect(h) == Rect(50, 500, 40, 60);
    assert Inflate(HurtRect(h), 0, 0) == HurtRect(h);
    assert !Overlaps(HurtRect(h), zr);
    assert Inflate(HurtRect(h), DevHitPadding, DevHitPadding) == Rect(45, 495, 50, 70);
    assert Overlaps(Rect(45, 495, 50, 70), zr);
  }

  // ---------------------------------------------------------------- power-ups

  /** Over the same pickups in a frame, power-ups pay four times as much in the clean
      build (200 each) as in the dev build (50 each), and a speed power-up sets the
      speed to 10 in the clean build and to 20 in the dev build. */
  lemma PowerUpsPayFourTimesMoreInClean(b: Boosted, onGround: bool, flags: seq<bool>, rects: seq<Rect>,
                                        kinds: seq<PowerKind>, pr: Rect)
    requires |flags| == |rects| == |kinds|
    ensures var clean, dev := BoostAfter(CleanRules, b, onGround, flags, rects, kinds, pr),
                              BoostAfter(DevRules, b, onGround, flags, rects, kinds, pr);
      && clean.score - b.score == 4 * (dev.score - b.score)
      && dev.score - b.score == 50 * NewPickups(flags, rects, pr)
      && (NewPickupOfKind(flags, rects, kinds, pr, SpeedBoost) ==> clean.speed == 10.0 && dev.speed == 20.0)
  {
    BoostAfterMeans(CleanRules, b, onGround, flags, rects, kinds, pr);
    BoostAfterMeans(DevRules, b, onGround, flags, rects, kinds, pr);
  }

  // ---------------------------------------------------------------- the camera

  /** The dev build doubles the shake jitter and adds a nudge: a shaking dev camera may
      stray 5 + 2s from its approach where the clean one strays s, and a jitter of 2s,
      in the dev range, moves the dev camera by exactly 2s. */
  lemma DevShakeStraysTwiceAsFar(offset: real, playerX: int, s: int)
    requires s > 0
    ensures CameraStray(CleanRules, s) == s && CameraStray(DevRules, s) == CameraNoiseMax + 2 * s
    ensures CameraAfter(DevRules, offset, playerX, s, 0, 2 * s).0 -
            Approach(offset, CameraTarget(playerX) as real, DevRules.cameraLerp) == (2 * s) as real
  {
    BothRulesWellFormed();
  }

  // ---------------------------------------------------------------- levels and time

  /** Every clean level has a time limit: 120, 90 and 60 seconds. */
  lemma CleanLevelsAreTimed(level: LevelNumber, elapsed: real)
    ensures TimeUp(CleanRules, level, elapsed) <==>
      elapsed > (if level == 1 then 120.0 else if level == 2 then 90.0 else 60.0)
  {
  }

  /** The dev build's third level has no time limit, no obstacle and no one to rescue:
      nothing on it can end the game or the level. */
  lemma DevThirdLevelIsEndless(elapsed: real)
    ensures !TimeUp(DevRules, 3, elapsed)
    ensures LayoutOf(Dev, 3).obstacles == [] && LayoutOf(Dev, 3).cast == None
    ensures LayoutOf(Clean, 3).cast.Some? && TimeUp(CleanRules, 3, elapsed) == (elapsed > 60.0)
  {
  }

  /** The last coin of the dev build's second level lies past the right edge of the
      screen, where a player kept on the screen never reaches it. */
  lemma DevLastCoinOutOfReach(p: Body)
    requires 0 <= p.x && p.x + PlayerWidth <= ScreenWidth
    ensures var line := LayoutOf(Dev, 2).coins;
      line.count == 8 && !Overlaps(p.Rect(), CoinAt(line, 7))
  {
    assert CoinAt(LayoutOf(Dev, 2).coins, 7).x == 1250;
  }

  /** So after any player step that coin is out of reach, whatever the controls and the
      platforms. */
  lemma DevLastCoinNeverTaken(b: Body, c: Controls, ps: seq<Rect>)
    ensures !Overlaps(Step(DevTuning, b, c, ps).Rect(), CoinAt(LayoutOf(Dev, 2).coins, 7))
  {
    BothTuningsSane();
    DevLastCoinOutOfReach(Step(DevTuning, b, c, ps));
  }
}
