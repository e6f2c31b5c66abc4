/** The Game object: the session screens, the current level and its objects, the
    statistics, and what one frame of the main loop does to them. One class serves
    both builds; the differences are in its Rules. */
module Session {
  import opened Geometry
  import opened Input
  import opened Entities
  import opened Physics
  import opened World
  import opened Levels
  import opened GameRules

  /** What the outside world supplies to one frame: the events and held controls, the
      clock, Lord Zing's sine-driven position, the camera's random values, and the dev
      platforms' random speed factors (one per moving platform, 1.0 where missing). */
  datatype FrameInput = FrameInput(events: seq<Event>, controls: Controls, now: real,
                                   bossX: int, bossY: int, noise: int, jitter: int,
                                   factors: seq<real>)

  function FactorAt(fs: seq<real>, i: int): real {
    if 0 <= i < |fs| then fs[i] else 1.0
  }

  // ---------------------------------------------------------------- building a level

  predicate PlatformBuilt(p: MovingPlatform, b: Build, s: PlatformSpec) reads p {
    && p.build == b && p.x == s.x && p.originX == s.x && p.y == s.y
    && p.width == s.w && p.height == s.h && p.speed == s.speed && p.rangeLimit == s.limit
    && p.direction == Right && p.moveTimer == 0
  }

  predicate PlatformsBuilt(ps: seq<MovingPlatform>, b: Build, specs: seq<PlatformSpec>) reads ps {
    |ps| == |specs| && forall i :: 0 <= i < |ps| ==> PlatformBuilt(ps[i], b, specs[i])
  }

  predicate ObstacleBuilt(o: MovingObstacle, b: Build, s: ObstacleSpec) reads o {
    && o.build == b && o.x == s.x && o.originX == s.x && o.y == s.y
    && o.width == s.w && o.height == s.h && o.behaviour == s.kind
    && o.speed == (if b == Dev then s.speed * 2.0 else s.speed)
    && o.hitPadding == (if b == Dev then DevHitPadding else 0)
    && o.direction == Right && o.frameCount == 0
  }

  predicate ObstaclesBuilt(os: seq<MovingObstacle>, b: Build, specs: seq<ObstacleSpec>) reads os {
    |os| == |specs| && forall i :: 0 <= i < |os| ==> ObstacleBuilt(os[i], b, specs[i])
  }

  predicate CoinsBuilt(cs: seq<Coin>, line: CoinLine) reads cs {
    CoinRects(cs) == CoinRow(line) && forall i :: 0 <= i < |cs| ==> !cs[i].collected
  }

  predicate PowerUpBuilt(p: PowerUp, s: PowerSpec) reads p {
    p.rect == Rect(s.x, s.y, 30, 30) && p.kind == s.kind && !p.collected
  }

  predicate PowerUpsBuilt(ps: seq<PowerUp>, specs: seq<PowerSpec>) reads ps {
    |ps| == |specs| && forall i :: 0 <= i < |ps| ==> PowerUpBuilt(ps[i], specs[i])
  }

  /** Lord Zing and the friend stand where the level puts them, the boss unhurt and
      the friend still caged; a level without them has neither. */
  predicate CastBuilt(boss: LordZing?, friend: Friend?, cast: Option<Cast>) reads boss, friend {
    match cast
    case None => boss == null && friend == null
    case Some(c) =>
      && boss != null && friend != null
      && boss.x == c.bossX && boss.y == c.bossY && boss.Status() == FreshBoss
      && friend.x == c.friendX && friend.y == c.friendY && !friend.rescued
  }

  method NewPlatforms(b: Build, specs: seq<PlatformSpec>) returns (ps: seq<MovingPlatform>)
    ensures PlatformsBuilt(ps, b, specs) && Distinct(ps)
    ensures forall i :: 0 <= i < |ps| ==> fresh(ps[i])
  {
    ps := [];
    for i := 0 to |specs|
      invariant |ps| == i && Distinct(ps)
      invariant forall j :: 0 <= j < i ==> fresh(ps[j]) && PlatformBuilt(ps[j], b, specs[j])
    {
      var s := specs[i];
      var p := new MovingPlatform(b, s.x, s.y, s.w, s.h, s.speed, s.limit);
      ps := ps + [p];
    }
  }

  method NewObstacles(b: Build, specs: seq<ObstacleSpec>) returns (os: seq<MovingObstacle>)
    ensures ObstaclesBuilt(os, b, specs) && Distinct(os)
    ensures forall i :: 0 <= i < |os| ==> fresh(os[i])
  {
    os := [];
    for i := 0 to |specs|
      invariant |os| == i && Distinct(os)
      invariant forall j :: 0 <= j < i ==> fresh(os[j]) && ObstacleBuilt(os[j], b, specs[j])
    {
      var s := specs[i];
      var o := new MovingObstacle(b, s.x, s.y, s.w, s.h, s.kind, s.speed);
      os := os + [o];
    }
  }

  /** create_level's coin loop. */
  method NewCoins(line: CoinLine) returns (cs: seq<Coin>)
    ensures CoinsBuilt(cs, line) && Distinct(cs)
    ensures forall i :: 0 <= i < |cs| ==> fresh(cs[i])
  {
    cs := [];
    for i := 0 to line.count
      invariant |cs| == i && Distinct(cs)
      invariant forall j :: 0 <= j < i ==> fresh(cs[j]) && !cs[j].collected && cs[j].rect == CoinAt(line, j)
    {
      var c := new Coin(line.x0 + i * line.dx, line.y0 + i * line.dy);
      cs := cs + [c];
    }
  }

  method NewPowerUps(specs: seq<PowerSpec>) returns (ps: seq<PowerUp>)
    ensures PowerUpsBuilt(ps, specs) && Distinct(ps)
    ensures forall i :: 0 <= i < |ps| ==> fresh(ps[i])
  {
    ps := [];
    for i := 0 to |specs|
      invariant |ps| == i && Distinct(ps)
      invariant forall j :: 0 <= j < i ==> fresh(ps[j]) && PowerUpBuilt(ps[j], specs[j])
    {
      var p := new PowerUp(specs[i].x, specs[i].y, specs[i].kind);
      ps := ps + [p];
    }
  }

  method NewCast(cast: Option<Cast>) returns (boss: LordZing?, friend: Friend?)
    ensures CastBuilt(boss, friend, cast)
    ensures (boss != null ==> fresh(boss)) && (friend != null ==> fresh(friend))
  {
    if cast.Some? {
      boss := new LordZing(cast.value.bossX, cast.value.bossY);
      friend := new Friend(cast.value.friendX, cast.value.friendY);
    } else {
      boss, friend := null, null;
    }
  }

  /** The dev build's third level has nothing on it but the ground. */
  lemma DevThirdLevelIsBare()
    ensures LayoutOf(Dev, 3).obstacles == [] && LayoutOf(Dev, 3).cast == None
  {
  }

  // ---------------------------------------------------------------- the frame's parts

  /** The moving platforms' rectangles, one for each, in order. */
  function PlatformRects(ps: seq<MovingPlatform>): (r: seq<Rect>)
    reads ps
    ensures |r| == |ps|
  {
    seq(|ps|, i requires 0 <= i < |ps| reads ps => ps[i].Rect())
  }

  /** The obstacles as the hit test sees them, one for each, in order. */
  function Hazards(os: seq<MovingObstacle>): (r: seq<Hazard>)
    reads os
    ensures |r| == |os|
  {
    seq(|os|, i requires 0 <= i < |os| reads os => Hazard(os[i].Rect(), os[i].hitPadding))
  }

  twostate predicate PlatformMoved(p: MovingPlatform, factor: real) reads p {
    (p.x, p.direction, p.moveTimer) ==
      PlatformNext(p.build, old(p.x), old(p.direction), old(p.moveTimer), p.originX, p.speed,
                   p.rangeLimit, factor)
  }

  twostate predicate ObstacleMoved(o: MovingObstacle) reads o {
    (o.x, o.direction, o.frameCount) ==
      ObstacleNext(o.build, o.behaviour, old(o.x), old(o.direction), old(o.frameCount), o.originX, o.speed)
  }

  /** The screens a frame that starts in play can end on. */
  predicate InGame(s: Screen) { s == Playing || s == GameOver || s == Victory }

  /** How many frames run() goes through: up to and including the first one whose
      events ask to quit, or all of them. */
  function FramesRun(fs: seq<FrameInput>): nat {
    if fs == [] then 0
    else if Quit in fs[0].events then 1
    else 1 + FramesRun(fs[1..])
  }

  /** The frames run are those up to and including the first that asks to quit, or
      all of them when none does. */
  lemma {:induction false} FramesRunMeans(fs: seq<FrameInput>)
    ensures var n := FramesRun(fs);
      && n <= |fs|
      && (forall j :: 0 <= j < n - 1 ==> Quit !in fs[j].events)
      && (n < |fs| ==> n > 0 && Quit in fs[n - 1].events)
  {
    if fs != [] && Quit !in fs[0].events {
      FramesRunMeans(fs[1..]);
      var n := FramesRun(fs);
      forall j | 0 <= j < n - 1
        ensures Quit !in fs[j].events
      {
        if j > 0 {
          assert fs[j] == fs[1..][j - 1];
        }
      }
    }
  }

  class Game {
    const rules: Rules
    var state: Screen
    var currentLevel: LevelNumber
    var startTime: real
    var deaths: int
    var coinsCollected: int
    var timeTaken: real
    var cameraOffset: real
    var screenShake: int
    var player: Player
    var platforms: seq<Rect>
    var movingPlatforms: seq<MovingPlatform>
    var obstacles: seq<MovingObstacle>
    var coins: seq<Coin>
    var powerUps: seq<PowerUp>
    var boss: LordZing?
    var friend: Friend?

    /** What every method keeps: the rules are in range, the player follows the
        build's tuning, the boss and the friend come together, no object is listed
        twice, the game is only won on the third level, and the dev build's third
        level is bare. */
    predicate Valid()
      reads this`player, this`boss, this`friend, this`movingPlatforms, this`obstacles, this`coins,
            this`powerUps, this`state, this`currentLevel
    {
      && WellFormed(rules)
      && player.tuning == rules.tuning
      && (boss == null <==> friend == null)
      && Distinct(movingPlatforms) && Distinct(obstacles) && Distinct(coins) && Distinct(powerUps)
      && (state == Victory ==> currentLevel == 3)
      && (rules.build == Dev && currentLevel == 3 ==> obstacles == [] && friend == null)
    }

    /** The objects are exactly those create_level builds for layout `l`. */
    predicate HoldsLayout(l: Layout)
      reads this`platforms, this`movingPlatforms, this`obstacles, this`coins, this`powerUps,
            this`boss, this`friend, movingPlatforms, obstacles, coins, powerUps, boss, friend
    {
      && platforms == l.platforms
      && PlatformsBuilt(movingPlatforms, rules.build, l.moving)
      && ObstaclesBuilt(obstacles, rules.build, l.obstacles)
      && CoinsBuilt(coins, l.coins)
      && PowerUpsBuilt(powerUps, l.powerUps)
      && CastBuilt(boss, friend, l.cast)
    }

    /** Every object of the level was allocated since the state `old` refers to. */
    twostate predicate FreshLevel() reads this {
      && fresh(player)
      && (forall i :: 0 <= i < |movingPlatforms| ==> fresh(movingPlatforms[i]))
      && (forall i :: 0 <= i < |obstacles| ==> fresh(obstacles[i]))
      && (forall i :: 0 <= i < |coins| ==> fresh(coins[i]))
      && (forall i :: 0 <= i < |powerUps| ==> fresh(powerUps[i]))
      && (boss != null ==> fresh(boss)) && (friend != null ==> fresh(friend))
    }

    /** The level's objects are the ones they were (their fields may have changed). */
    twostate predicate SameLevel() reads this {
      && player == old(player) && movingPlatforms == old(movingPlatforms)
      && obstacles == old(obstacles) && coins == old(coins) && powerUps == old(powerUps)
      && boss == old(boss) && friend == old(friend)
    }

    /** Game.__init__: the menu, level 1, zero statistics, and level 1 built. */
    constructor (r: Rules, now: real)
      requires WellFormed(r)
      ensures rules == r && state == Menu && currentLevel == 1
      ensures deaths == 0 && coinsCollected == 0 && timeTaken == 0.0
      ensures screenShake == 0 && cameraOffset == 0.0 && startTime == now
      ensures Valid() && HoldsLayout(LayoutOf(r.build, 1))
      ensures player.State() == Body(SpawnX, SpawnY, 0.0, 0.0, false, PlayerSpeed, false, 3, 0)
    {
      rules := r;
      state, currentLevel, startTime := Menu, 1, 0.0;
      deaths, coinsCollected, timeTaken := 0, 0, 0.0;
      cameraOffset, screenShake := 0.0, 0;
      player := new Player(SpawnX, SpawnY, r.tuning);
      platforms, movingPlatforms, obstacles, coins, powerUps := [], [], [], [], [];
      boss, friend := null, null;
      new;
      ResetGame(now);
    }

    /** reset_game: a new player, a fresh copy of the current level, the clock
        restarted and the camera recentred; the screen, the statistics and the shake
        are kept. */
    method ResetGame(now: real)
      requires WellFormed(rules) && (state == Victory ==> currentLevel == 3)
      modifies this`player, this`startTime, this`cameraOffset, this`platforms, this`movingPlatforms,
               this`obstacles, this`coins, this`powerUps, this`boss, this`friend
      ensures Valid() && HoldsLayout(LayoutOf(rules.build, currentLevel)) && FreshLevel()
      ensures player.State() == Body(SpawnX, SpawnY, 0.0, 0.0, false, PlayerSpeed, false, 3, 0)
      ensures player.score == 0 && player.projectiles == []
      ensures startTime == now && cameraOffset == 0.0
      ensures state == old(state) && currentLevel == old(currentLevel)
      ensures deaths == old(deaths) && coinsCollected == old(coinsCollected)
      ensures timeTaken == old(timeTaken) && screenShake == old(screenShake)
    {
      NewPlayer(now);
      CreateLevel(currentLevel);
      DevThirdLevelIsBare();
    }

    /** The first half of reset_game: a new player, the clock and the camera. */
    method NewPlayer(now: real)
      modifies this`player, this`startTime, this`cameraOffset
      ensures fresh(player) && player.tuning == rules.tuning
      ensures player.State() == Body(SpawnX, SpawnY, 0.0, 0.0, false, PlayerSpeed, false, 3, 0)
      ensures player.score == 0 && player.projectiles == []
      ensures startTime == now && cameraOffset == 0.0
    {
      player := new Player(SpawnX, SpawnY, rules.tuning);
      startTime := now;
      cameraOffset := 0.0;
    }

    /** create_level: the ground and the level's platforms, moving platforms,
        obstacles, coins, power-ups, and Lord Zing with the friend if the level has
        them. */
    method CreateLevel(level: LevelNumber)
      modifies this`platforms, this`movingPlatforms, this`obstacles, this`coins,
               this`powerUps, this`boss, this`friend
      ensures HoldsLayout(LayoutOf(rules.build, level))
      ensures Distinct(movingPlatforms) && Distinct(obstacles) && Distinct(coins) && Distinct(powerUps)
      ensures forall i :: 0 <= i < |movingPlatforms| ==> fresh(movingPlatforms[i])
      ensures forall i :: 0 <= i < |obstacles| ==> fresh(obstacles[i])
      ensures forall i :: 0 <= i < |coins| ==> fresh(coins[i])
      ensures forall i :: 0 <= i < |powerUps| ==> fresh(powerUps[i])
      ensures (boss != null ==> fresh(boss)) && (friend != null ==> fresh(friend))
    {
      BuildLayout(LayoutOf(rules.build, level));
    }

    /** The body of create_level once the level's layout is chosen. */
    method BuildLayout(l: Layout)
      modifies this`platforms, this`movingPlatforms, this`obstacles, this`coins,
               this`powerUps, this`boss, this`friend
      ensures HoldsLayout(l)
      ensures Distinct(movingPlatforms) && Distinct(obstacles) && Distinct(coins) && Distinct(powerUps)
      ensures forall i :: 0 <= i < |movingPlatforms| ==> fresh(movingPlatforms[i])
      ensures forall i :: 0 <= i < |obstacles| ==> fresh(obstacles[i])
      ensures forall i :: 0 <= i < |coins| ==> fresh(coins[i])
      ensures forall i :: 0 <= i < |powerUps| ==> fresh(powerUps[i])
      ensures (boss != null ==> fresh(boss)) && (friend != null ==> fresh(friend))
    {
      platforms := l.platforms;
      movingPlatforms := NewPlatforms(rules.build, l.moving);
      obstacles := NewObstacles(rules.build, l.obstacles);
      BuildPickups(l);
    }

    /** The coins, the power-ups and the cast of layout `l`. */
    method BuildPickups(l: Layout)
      modifies this`coins, this`powerUps, this`boss, this`friend
      ensures CoinsBuilt(coins, l.coins) && PowerUpsBuilt(powerUps, l.powerUps) && CastBuilt(boss, friend, l.cast)
      ensures Distinct(coins) && Distinct(powerUps)
      ensures forall i :: 0 <= i < |coins| ==> fresh(coins[i])
      ensures forall i :: 0 <= i < |powerUps| ==> fresh(powerUps[i])
      ensures (boss != null ==> fresh(boss)) && (friend != null ==> fresh(friend))
    {
      coins := NewCoins(l.coins);
      powerUps := NewPowerUps(l.powerUps);
      boss, friend := NewCast(l.cast);
    }

    /** restart_level: one more death, the level rebuilt, and back to playing. */
    method RestartLevel(now: real)
      requires Valid()
      modifies this
      ensures Valid() && HoldsLayout(LayoutOf(rules.build, currentLevel)) && FreshLevel()
      ensures state == Playing && deaths == old(deaths) + 1 && currentLevel == old(currentLevel)
      ensures startTime == now && coinsCollected == old(coinsCollected)
      ensures screenShake == old(screenShake)
    {
      deaths := deaths + 1;
      state := Playing;
      ResetGame(now);
    }

    // ------------------------------------------------------------ events

    /** A melee attack: if Lord Zing is there and within reach he takes a hit, the
        screen shakes, and the friend is freed once he is defeated. */
    method Melee()
      requires Valid()
      modifies this`screenShake, {boss}`health, {boss}`defeated, {friend}`rescued, {friend}`cageBars
      ensures boss == null || Abs(player.Rect().CenterX() - boss.Rect().CenterX()) >= rules.meleeRange ==>
        && screenShake == old(screenShake) && (boss != null ==> unchanged(boss))
        && (friend != null ==> unchanged(friend))
      ensures boss != null && Abs(player.Rect().CenterX() - boss.Rect().CenterX()) < rules.meleeRange ==>
        && boss.Status() == AfterHit(old(boss.Status()))
        && screenShake == MeleeShake
        && (friend.rescued <==> old(friend.rescued) || boss.defeated)
    {
      if boss != null && Abs(player.Rect().CenterX() - boss.Rect().CenterX()) < rules.meleeRange {
        boss.TakeDamage();
        screenShake := MeleeShake;
        if boss.defeated {
          friend.Rescue();
        }
      }
    }

    /** A left click in play: a jump, then a melee attack. */
    method Strike()
      requires Valid()
      modifies player`velY, this`screenShake, {boss}`health, {boss}`defeated, {friend}`rescued, {friend}`cageBars
      ensures player.velY == if MayJump(rules.tuning, player.onGround, old(player.velY))
                             then rules.tuning.jumpSpeed else old(player.velY)
      ensures boss == null || Abs(player.Rect().CenterX() - boss.Rect().CenterX()) >= rules.meleeRange ==>
        && screenShake == old(screenShake) && (boss != null ==> unchanged(boss))
        && (friend != null ==> unchanged(friend))
      ensures boss != null && Abs(player.Rect().CenterX() - boss.Rect().CenterX()) < rules.meleeRange ==>
        && boss.Status() == AfterHit(old(boss.Status()))
        && screenShake == MeleeShake
        && (friend.rescued <==> old(friend.rescued) || boss.defeated)
    {
      player.Jump();
      Melee();
    }

    method OnKey(k: Key, now: real)
      requires Valid()
      modifies this, player
      ensures Valid()
      ensures state == ScreenAfter(old(state), KeyDown(k))
      ensures Restarts(old(state), KeyDown(k)) ==>
        && deaths == old(deaths) + 1 && currentLevel == old(currentLevel)
        && HoldsLayout(LayoutOf(rules.build, currentLevel)) && FreshLevel()
      ensures !Restarts(old(state), KeyDown(k)) ==>
        && deaths == old(deaths) && currentLevel == old(currentLevel) && SameLevel()
      ensures old(state) == Playing && k == Space ==>
        player.velY == if MayJump(rules.tuning, old(player.onGround), old(player.velY))
                       then rules.tuning.jumpSpeed else old(player.velY)
      ensures old(state) == Playing && k == Return && rules.canShoot ==>
        player.projectiles == old(player.projectiles) + [Fired(old(player.Rect()).CenterX(), old(player.Rect()).CenterY())]
      ensures !(old(state) == Playing && k == Return && rules.canShoot) && !Restarts(old(state), KeyDown(k)) ==>
        player.projectiles == old(player.projectiles)
      ensures coinsCollected == old(coinsCollected)
      ensures !Restarts(old(state), KeyDown(k)) ==>
        && timeTaken == old(timeTaken)
        && startTime == old(startTime) && cameraOffset == old(cameraOffset) && screenShake == old(screenShake)
        && player.x == old(player.x) && player.y == old(player.y) && player.velX == old(player.velX)
        && player.lives == old(player.lives) && player.score == old(player.score)
    {
      if k == Space {
        if state == Playing {
          player.Jump();
        } else if state == Menu {
          state := LevelSelect;
        }
      } else if k == KeyR && state == GameOver {
        RestartLevel(now);
      } else if k == Escape {
        state := Menu;
      }
      if k == Return && rules.canShoot && state == Playing {
        player.Shoot();
      }
    }

    method OnClick(button: int, target: Target, now: real)
      requires Valid()
      modifies this, player, boss, friend
      ensures Valid()
      ensures state == ScreenAfter(old(state), MouseDown(button, target))
      ensures Restarts(old(state), MouseDown(button, target)) ==>
        && deaths == old(deaths) + 1 && currentLevel == old(currentLevel)
        && HoldsLayout(LayoutOf(rules.build, currentLevel)) && FreshLevel()
      ensures ChoosesLevel(old(state), MouseDown(button, target)) ==>
        && deaths == old(deaths) && currentLevel == target.level && startTime == now
        && HoldsLayout(LayoutOf(rules.build, currentLevel)) && FreshLevel()
      ensures !Restarts(old(state), MouseDown(button, target)) && !ChoosesLevel(old(state), MouseDown(button, target)) ==>
        && deaths == old(deaths) && currentLevel == old(currentLevel) && SameLevel()
      ensures old(state) == Playing && button == 1 ==>
        player.velY == if MayJump(rules.tuning, old(player.onGround), old(player.velY))
                       then rules.tuning.jumpSpeed else old(player.velY)
      ensures old(state) != Playing || button != 1 ==> screenShake == old(screenShake)
      ensures (old(state) != Playing || button != 1) && !Restarts(old(state), MouseDown(button, target))
              && !ChoosesLevel(old(state), MouseDown(button, target)) ==>
        player.velY == old(player.velY) && (boss != null ==> boss.Status() == old(boss.Status()))
      ensures coinsCollected == old(coinsCollected)
      ensures !Restarts(old(state), MouseDown(button, target)) && !ChoosesLevel(old(state), MouseDown(button, target)) ==>
        && timeTaken == old(timeTaken)
        && startTime == old(startTime) && cameraOffset == old(cameraOffset)
        && player.x == old(player.x) && player.y == old(player.y) && player.velX == old(player.velX)
        && player.lives == old(player.lives) && player.score == old(player.score)
        && player.projectiles == old(player.projectiles)
    {
      if state == Playing {
        if button == 1 {
          Strike();
        }
      } else {
        ClickOnScreen(button, target, now);
      }
    }

    /** The menu, level-selection and end-screen buttons of a click made outside play. */
    method ClickOnScreen(button: int, target: Target, now: real)
      requires Valid() && state != Playing
      modifies this
      ensures Valid()
      ensures state == ScreenAfter(old(state), MouseDown(button, target))
      ensures Restarts(old(state), MouseDown(button, target)) ==>
        && deaths == old(deaths) + 1 && currentLevel == old(currentLevel)
        && HoldsLayout(LayoutOf(rules.build, currentLevel)) && FreshLevel()
      ensures ChoosesLevel(old(state), MouseDown(button, target)) ==>
        && deaths == old(deaths) && currentLevel == target.level && startTime == now
        && HoldsLayout(LayoutOf(rules.build, currentLevel)) && FreshLevel()
      ensures !Restarts(old(state), MouseDown(button, target)) && !ChoosesLevel(old(state), MouseDown(button, target)) ==>
        && deaths == old(deaths) && currentLevel == old(currentLevel) && SameLevel()
        && timeTaken == old(timeTaken) && startTime == old(startTime) && cameraOffset == old(cameraOffset)
      ensures screenShake == old(screenShake) && coinsCollected == old(coinsCollected)
    {
      if state == Menu {
        if target == Title {
          state := LevelSelect;
        }
      } else if state == LevelSelect {
        if target.LevelButton? {
          currentLevel := target.level;
          state := Playing;
          ResetGame(now);
        }
      } else if state == GameOver || state == Victory {
        if target == RestartButton {
          RestartLevel(now);
        } else if target == MenuButton {
          state := Menu;
        }
      }
    }

    /** One event of handle_events; false for a quit request. */
    method HandleEvent(e: Event, now: real) returns (keepRunning: bool)
      requires Valid()
      modifies this, player, boss, friend
      ensures Valid()
      ensures keepRunning <==> e != Quit
      ensures state == ScreenAfter(old(state), e)
      ensures Restarts(old(state), e) ==> deaths == old(deaths) + 1 && currentLevel == old(currentLevel)
      ensures ChoosesLevel(old(state), e) ==> deaths == old(deaths) && currentLevel == e.target.level
      ensures !Restarts(old(state), e) && !ChoosesLevel(old(state), e) ==>
        && deaths == old(deaths) && currentLevel == old(currentLevel)
        && player.lives == old(player.lives) && player.score == old(player.score)
      ensures coinsCollected == old(coinsCollected)
      ensures SameLevel() || FreshLevel()
    {
      keepRunning := true;
      match e
      case Quit =>
        keepRunning := false;
      case KeyDown(k) =>
        OnKey(k, now);
      case MouseDown(button, target) =>
        OnClick(button, target, now);
      case OtherEvent =>
    }

    /** handle_events: the events in order until the first quit request, which stops
        the loop and is reported as false. */
    method HandleEvents(es: seq<Event>, now: real) returns (running: bool)
      requires Valid()
      modifies this, player, boss, friend
      ensures Valid()
      ensures running <==> Quit !in es
      ensures state == ScreenAfterAll(old(state), BeforeQuit(es))
      ensures coinsCollected == old(coinsCollected)
      ensures SameLevel() || FreshLevel()
    {
      var i := 0;
      while i < |es|
        invariant 0 <= i <= |es| && Valid()
        invariant Quit !in es[..i]
        invariant state == ScreenAfterAll(old(state), es[..i])
        invariant coinsCollected == old(coinsCollected)
        invariant SameLevel() || FreshLevel()
      {
        var keep := HandleEvent(es[i], now);
        if !keep {
          BeforeQuitIsPrefix(es, i);
          return false;
        }
        ScreenAfterAllSnoc(old(state), es[..i], es[i]);
        assert es[..i + 1] == es[..i] + [es[i]];
        i := i + 1;
      }
      assert es[..i] == es;
      BeforeQuitIsPrefix(es, i);
      running := true;
    }

    // ------------------------------------------------------------ the frame

    /** One pass of run()'s loop: the events, then update, which runs even on the
        frame whose events asked to quit. */
    method Frame(f: FrameInput) returns (running: bool)
      requires Valid()
      modifies this, player, movingPlatforms, obstacles, coins, powerUps, boss, friend
      ensures Valid() && (SameLevel() || FreshLevel())
      ensures running <==> Quit !in f.events
      ensures var s := ScreenAfterAll(old(state), BeforeQuit(f.events));
        (s == Playing ==> InGame(state)) && (s != Playing ==> state == s)
      ensures ScreenAfterAll(old(state), BeforeQuit(f.events)) == Playing
              && TimeUp(rules, currentLevel, f.now - startTime) ==>
        state == GameOver && player.lives == 0
    {
      running := HandleEvents(f.events, f.now);
      Update(f);
    }

    /** run(): frames until one of them asks to quit. */
    method Run(frames: seq<FrameInput>) returns (played: nat)
      requires Valid()
      modifies this, player, movingPlatforms, obstacles, coins, powerUps, boss, friend
      ensures Valid() && played == FramesRun(frames)
    {
      played := 0;
      var running := true;
      while running && played < |frames|
        invariant Valid() && played <= |frames|
        invariant SameLevel() || FreshLevel()
        invariant running ==> FramesRun(frames) == played + FramesRun(frames[played..])
        invariant !running ==> played == FramesRun(frames)
      {
        ghost var rest := frames[played..];
        assert rest[1..] == frames[played + 1..];
        running := Frame(frames[played]);
        played := played + 1;
      }
    }


    /** Game.update: while playing, everything moves and then the rules are applied
        in the source's order; on any other screen nothing happens. */
    method Update(f: FrameInput)
      requires Valid()
      modifies this, player, movingPlatforms, obstacles, coins, powerUps, boss, friend
      ensures Valid() && (SameLevel() || FreshLevel())
      ensures old(state) != Playing ==>
        && unchanged(this) && unchanged(player) && (boss != null ==> unchanged(boss))
        && (friend != null ==> unchanged(friend)) && unchanged(movingPlatforms) && unchanged(obstacles)
        && unchanged(coins) && unchanged(powerUps)
      ensures old(state) == Playing ==> InGame(state)
      ensures old(state) == Playing && TimeUp(rules, currentLevel, f.now - startTime) ==>
        state == GameOver && player.lives == 0
      ensures old(state) == Playing && rules == DevRules && old(currentLevel) == 3 ==>
        state == Playing && currentLevel == 3
      ensures deaths == old(deaths) && coinsCollected >= old(coinsCollected)
    {
      if state == Playing {
        MoveAll(f);
        ApplyRules(f.now);
      }
    }

    /** The first half of update: the camera, the player, the platforms, the
        obstacles, Lord Zing and the projectiles move. */
    method MoveAll(f: FrameInput)
      requires WellFormed(rules) && player.tuning == rules.tuning
      requires Distinct(movingPlatforms) && Distinct(obstacles)
      modifies this`cameraOffset, this`screenShake, player, movingPlatforms, obstacles, boss
      ensures (cameraOffset, screenShake) ==
        CameraAfter(rules, old(cameraOffset), old(player.x), old(screenShake), f.noise, f.jitter)
      ensures player.State() ==
        Step(rules.tuning, old(player.State()), f.controls, old(platforms + PlatformRects(movingPlatforms)))
      ensures player.score == old(player.score)
      ensures player.projectiles == StepAll(old(player.projectiles))
      ensures forall i :: 0 <= i < |movingPlatforms| ==> PlatformMoved(movingPlatforms[i], FactorAt(f.factors, i))
      ensures forall i :: 0 <= i < |obstacles| ==> ObstacleMoved(obstacles[i])
      ensures boss != null ==> boss.Status() == old(boss.Status())
      ensures boss != null ==>
        (boss.x, boss.y) == if old(boss.defeated) then (old(boss.x), old(boss.y)) else (f.bossX, f.bossY)
    {
      UpdateCamera(f.noise, f.jitter);
      player.Update(f.controls, platforms + PlatformRects(movingPlatforms));
      MoveWorld(f);
      player.UpdateProjectiles();
    }

    /** The moving platforms, the obstacles and Lord Zing move. */
    method MoveWorld(f: FrameInput)
      requires Distinct(movingPlatforms) && Distinct(obstacles)
      modifies movingPlatforms, obstacles, boss
      ensures forall i :: 0 <= i < |movingPlatforms| ==> PlatformMoved(movingPlatforms[i], FactorAt(f.factors, i))
      ensures forall i :: 0 <= i < |obstacles| ==> ObstacleMoved(obstacles[i])
      ensures boss != null ==> boss.Status() == old(boss.Status())
      ensures boss != null ==>
        (boss.x, boss.y) == if old(boss.defeated) then (old(boss.x), old(boss.y)) else (f.bossX, f.bossY)
    {
      MovePlatforms(f.factors);
      MoveObstacles();
      if boss != null {
        boss.Follow(f.bossX, f.bossY);
      }
    }

    /** The second half of update: obstacle hits, coins, power-ups, the rescue, the
        time limit and the projectile hits, in that order. While the friend is caged the
        level stays, the obstacle pass decides the position and the lives, the time limit
        can still take them, and the projectiles fight Lord Zing; once he is free the
        next level is loaded fresh, or on the third level the game is won. */
    method ApplyRules(now: real)
      requires Valid() && state == Playing
      modifies this, player, coins, powerUps, boss, friend
      ensures Valid() && (SameLevel() || FreshLevel())
      ensures InGame(state)
      ensures TimeUp(rules, currentLevel, now - startTime) ==> state == GameOver && player.lives == 0
      ensures rules == DevRules && old(currentLevel) == 3 ==> state == Playing && currentLevel == 3
      ensures deaths == old(deaths) && coinsCollected >= old(coinsCollected)
      ensures old(friend) == null || !old(friend.rescued) ==>
        var h := old(HurtByAll(rules, HurtState(), Hazards(obstacles), now - startTime));
        var up := TimeUp(rules, currentLevel, now - startTime);
        && SameLevel() && currentLevel == old(currentLevel) && startTime == old(startTime)
        && player.x == h.x && player.y == h.y && player.velX == h.velX
        && player.lives == (if up then 0 else h.lives)
        && state == (if up || h.ended then GameOver else Playing)
      ensures old(friend) == null ==>
        screenShake == old(HurtByAll(rules, HurtState(), Hazards(obstacles), now - startTime)).shake
        && player.projectiles == old(player.projectiles)
      ensures old(friend) != null && !old(friend.rescued) && !old(boss.defeated) ==>
        var target := BoltTarget(rules, boss.x, cameraOffset);
        var d := Duel(old(boss.Status()), false,
          old(HurtByAll(rules, HurtState(), Hazards(obstacles), now - startTime)).shake);
        && player.projectiles == MarkHits(old(player.projectiles), target, rules.boltRange)
        && DuelState() == DuelAfter(d, old(player.projectiles), target, rules.boltRange)
      ensures old(friend) != null && old(friend.rescued) && old(currentLevel) < 3 ==>
        && currentLevel == old(currentLevel) + 1 && startTime == now
        && FreshLevel()
      ensures old(friend) != null && old(friend.rescued) && old(currentLevel) == 3 ==>
        && SameLevel() && state == (if TimeUp(rules, 3, now - startTime) then GameOver else Victory)
    {
      if friend != null && friend.rescued {
        RulesOnceRescued(now);
      } else {
        RulesWhileCaged(now);
      }
    }

    /** The rules of a frame in which the friend is still caged. */
    method RulesWhileCaged(now: real)
      requires Valid() && state == Playing
      requires friend == null || !friend.rescued
      modifies this, player, coins, powerUps, boss, friend
      ensures Valid() && InGame(state)
      ensures deaths == old(deaths) && coinsCollected >= old(coinsCollected)
      ensures var h := old(HurtByAll(rules, HurtState(), Hazards(obstacles), now - startTime));
        var up := TimeUp(rules, currentLevel, now - startTime);
        && SameLevel() && currentLevel == old(currentLevel) && startTime == old(startTime)
        && player.x == h.x && player.y == h.y && player.velX == h.velX
        && player.lives == (if up then 0 else h.lives)
        && state == (if up || h.ended then GameOver else Playing)
      ensures boss == null ==>
        screenShake == old(HurtByAll(rules, HurtState(), Hazards(obstacles), now - startTime)).shake
        && player.projectiles == old(player.projectiles)
      ensures boss != null && !old(boss.defeated) ==>
        var target := BoltTarget(rules, boss.x, cameraOffset);
        var d := Duel(old(boss.Status()), false,
          old(HurtByAll(rules, HurtState(), Hazards(obstacles), now - startTime)).shake);
        && player.projectiles == MarkHits(old(player.projectiles), target, rules.boltRange)
        && DuelState() == DuelAfter(d, old(player.projectiles), target, rules.boltRange)
    {
      HitsWhileCaged(now);
      CheckBolts();
    }

    /** The obstacle hits, the pickups and the time limit while the friend is caged. */
    method HitsWhileCaged(now: real)
      requires Valid() && state == Playing
      requires friend == null || !friend.rescued
      modifies this, player, coins, powerUps
      ensures Valid() && InGame(state)
      ensures deaths == old(deaths) && coinsCollected >= old(coinsCollected)
      ensures var h := old(HurtByAll(rules, HurtState(), Hazards(obstacles), now - startTime));
        var up := TimeUp(rules, currentLevel, now - startTime);
        && SameLevel() && currentLevel == old(currentLevel) && startTime == old(startTime)
        && player.x == h.x && player.y == h.y && player.velX == h.velX
        && player.lives == (if up then 0 else h.lives)
        && state == (if up || h.ended then GameOver else Playing)
        && screenShake == h.shake
      ensures cameraOffset == old(cameraOffset) && player.projectiles == old(player.projectiles)
    {
      ApplyHits(now);
      AdvanceCaged(now);
    }

    /** The rules of a frame that begins with the friend free: the next level, or on
        the third the victory. */
    method RulesOnceRescued(now: real)
      requires Valid() && state == Playing
      requires friend != null && friend.rescued
      modifies this, player, coins, powerUps, boss, friend
      ensures Valid() && InGame(state)
      ensures TimeUp(rules, currentLevel, now - startTime) ==> state == GameOver && player.lives == 0
      ensures deaths == old(deaths) && coinsCollected >= old(coinsCollected)
      ensures old(currentLevel) < 3 ==>
        && currentLevel == old(currentLevel) + 1 && startTime == now
        && FreshLevel()
      ensures old(currentLevel) == 3 ==>
        && SameLevel() && state == (if TimeUp(rules, 3, now - startTime) then GameOver else Victory)
    {
      ApplyHits(now);
      if currentLevel < 3 {
        NextLevel(now);
      } else {
        LastRescue(now);
      }
    }

    /** The rescue check, the time limit and the projectile check once the friend is
        free on the last level: the game is won unless the time is up. */
    method LastRescue(now: real)
      requires Valid() && (state == Playing || state == GameOver)
      requires friend != null && friend.rescued && currentLevel >= 3
      modifies this, player, boss, friend
      ensures Valid() && InGame(state)
      ensures TimeUp(rules, currentLevel, now - startTime) ==> state == GameOver && player.lives == 0
      ensures deaths == old(deaths) && coinsCollected == old(coinsCollected)
      ensures old(currentLevel) == 3 ==>
        && SameLevel() && state == (if TimeUp(rules, 3, now - startTime) then GameOver else Victory)
    {
      AdvanceRescued(now);
      CheckBolts();
    }

    /** The rescue check, the time limit and the projectile check once the friend is
        free on one of the first two levels: the next level is loaded fresh, and the
        projectile check finds no projectile on it. */
    method NextLevel(now: real)
      requires Valid() && (state == Playing || state == GameOver)
      requires friend != null && friend.rescued && currentLevel < 3
      modifies this, player, boss, friend
      ensures Valid() && InGame(state)
      ensures TimeUp(rules, currentLevel, now - startTime) ==> state == GameOver && player.lives == 0
      ensures deaths == old(deaths) && coinsCollected == old(coinsCollected)
      ensures currentLevel == old(currentLevel) + 1 && startTime == now
        && FreshLevel()
    {
      AdvanceRescued(now);
      CheckBolts();
    }

    /** The rescue check while the friend is caged finds nothing to do, so only the
        time limit acts. */
    method AdvanceCaged(now: real)
      requires Valid() && (state == Playing || state == GameOver)
      requires rules.build == Dev && currentLevel == 3 ==> state == Playing
      requires friend == null || !friend.rescued
      modifies this, player
      ensures Valid() && SameLevel()
      ensures currentLevel == old(currentLevel) && startTime == old(startTime)
      ensures deaths == old(deaths) && coinsCollected == old(coinsCollected)
      ensures screenShake == old(screenShake) && cameraOffset == old(cameraOffset)
      ensures player.x == old(player.x) && player.y == old(player.y) && player.velX == old(player.velX)
      ensures player.projectiles == old(player.projectiles)
      ensures player.lives == (if TimeUp(rules, currentLevel, now - startTime) then 0 else old(player.lives))
      ensures state == (if TimeUp(rules, currentLevel, now - startTime) then GameOver else old(state))
    {
      CheckRescue(now);
      CheckTime(now);
    }

    /** The rescue check once the friend is free: the next level, fresh, or on the
        third level victory, which the time limit can still turn into a game over. */
    method AdvanceRescued(now: real)
      requires Valid() && (state == Playing || state == GameOver)
      requires rules.build == Dev && currentLevel == 3 ==> state == Playing
      requires friend != null && friend.rescued
      modifies this, player
      ensures Valid() && InGame(state)
      ensures TimeUp(rules, currentLevel, now - startTime) ==> state == GameOver && player.lives == 0
      ensures deaths == old(deaths) && coinsCollected == old(coinsCollected)
      ensures old(currentLevel) < 3 ==>
        && currentLevel == old(currentLevel) + 1 && startTime == now
        && FreshLevel()
        && player.projectiles == []
      ensures old(currentLevel) == 3 ==>
        && currentLevel == 3 && SameLevel()
        && state == (if TimeUp(rules, 3, now - startTime) then GameOver else Victory)
    {
      CheckRescue(now);
      CheckTime(now);
    }

    /** Obstacle hits, then coins and power-ups: the player's position, lives, the
        screen, the shake and the recorded time are those the obstacle pass
        (HurtByAll) leaves; the pickups follow at that position. The game stays in play
        unless a hit ends it, and it stays in play on the bare dev level. */
    method ApplyHits(now: real)
      requires Valid() && state == Playing
      modifies this`state, this`screenShake, this`timeTaken, this`coinsCollected,
               player`x, player`y, player`velX, player`velY, player`lives, player`score, player`speed,
               coins, powerUps
      ensures Valid()
      ensures var h := old(HurtByAll(rules, HurtState(), Hazards(obstacles), now - startTime));
        && player.x == h.x && player.y == h.y && player.velX == h.velX && player.lives == h.lives
        && (state == GameOver <==> h.ended) && screenShake == h.shake && timeTaken == h.time
      ensures state == Playing || state == GameOver
      ensures rules.build == Dev && currentLevel == 3 ==> state == Playing
      ensures coinsCollected >= old(coinsCollected)
    {
      CheckObstacles(now);
      CollectItems();
    }

    /** The coin loop, then the power-up loop. */
    method CollectItems()
      requires Valid()
      modifies coins, powerUps, this`coinsCollected, player`score, player`speed, player`velY
      ensures Valid()
      ensures coinsCollected >= old(coinsCollected)
    {
      CollectCoins();
      CollectPowerUps();
    }

    /** update_camera. */
    method UpdateCamera(noise: int, jitter: int)
      requires WellFormed(rules)
      modifies this`cameraOffset, this`screenShake
      ensures (cameraOffset, screenShake) ==
        CameraAfter(rules, old(cameraOffset), player.x, old(screenShake), noise, jitter)
      ensures (rules.cameraNoise ==> Abs(noise) <= CameraNoiseMax) &&
              (old(screenShake) > 0 ==> Abs(jitter) <= rules.shakeScale * old(screenShake)) ==>
        AbsReal(cameraOffset - Approach(old(cameraOffset), CameraTarget(player.x) as real, rules.cameraLerp))
          <= CameraStray(rules, old(screenShake)) as real
    {
      ghost var before := (cameraOffset, screenShake);
      var target := CameraTarget(player.x) as real;
      cameraOffset := Approach(cameraOffset, target, rules.cameraLerp);
      if rules.cameraNoise {
        cameraOffset := cameraOffset + noise as real;
      }
      if screenShake > 0 {
        cameraOffset := cameraOffset + jitter as real;
        screenShake := screenShake - 1;
      }
      if (rules.cameraNoise ==> Abs(noise) <= CameraNoiseMax) && (before.1 > 0 ==> Abs(jitter) <= rules.shakeScale * before.1) {
        CameraStaysNearItsTarget(rules, before.0, player.x, before.1, noise, jitter);
      }
    }

    method MovePlatforms(factors: seq<real>)
      requires Distinct(movingPlatforms)
      modifies movingPlatforms
      ensures forall i :: 0 <= i < |movingPlatforms| ==> PlatformMoved(movingPlatforms[i], FactorAt(factors, i))
    {
      for i := 0 to |movingPlatforms|
        invariant forall j :: 0 <= j < i ==> PlatformMoved(movingPlatforms[j], FactorAt(factors, j))
        invariant forall j :: i <= j < |movingPlatforms| ==> unchanged(movingPlatforms[j])
      {
        movingPlatforms[i].Update(FactorAt(factors, i));
      }
    }

    method MoveObstacles()
      requires Distinct(obstacles)
      modifies obstacles
      ensures forall i :: 0 <= i < |obstacles| ==> ObstacleMoved(obstacles[i])
    {
      for i := 0 to |obstacles|
        invariant forall j :: 0 <= j < i ==> ObstacleMoved(obstacles[j])
        invariant forall j :: i <= j < |obstacles| ==> unchanged(obstacles[j])
      {
        obstacles[i].Update();
      }
    }

    /** The part of the state the obstacle loop reads and writes. */
    function HurtState(): Hurt reads this, player {
      Hurt(player.x, player.y, player.velX, player.velY, player.lives, state == GameOver, screenShake, timeTaken)
    }

    /** One obstacle of the loop: on contact a life goes, the screen shakes, and the
        player either respawns or, with no life left, the game is over (and timed, in
        the clean build). */
    method HitBy(z: Hazard, now: real)
      requires state == Playing || state == GameOver
      modifies this`state, this`screenShake, this`timeTaken, player`x, player`y,
               player`velX, player`velY, player`lives
      ensures HurtState() == HurtBy(rules, old(HurtState()), z, now - startTime)
      ensures state == Playing || state == GameOver
    {
      if Overlaps(Inflate(player.Rect(), z.padding, z.padding), z.rect) {
        player.lives := player.lives - 1;
        screenShake := rules.hitShake;
        if player.lives <= 0 {
          state := GameOver;
          if rules.recordsTime {
            timeTaken := now - startTime;
          }
        } else {
          player.x, player.y := SpawnX, SpawnY;
          player.velY, player.velX := 0.0, 0.0;
        }
      }
    }

    /** The obstacle loop: see HurtByAll. */
    method CheckObstacles(now: real)
      requires Valid() && state == Playing
      modifies this`state, this`screenShake, this`timeTaken, player`x, player`y,
               player`velX, player`velY, player`lives
      ensures HurtState() == old(HurtByAll(rules, HurtState(), Hazards(obstacles), now - startTime))
      ensures state == Playing || state == GameOver
      ensures obstacles == [] ==> state == Playing
      ensures Valid()
    {
      HitAll(Hazards(obstacles), now);
    }

    method HitAll(zs: seq<Hazard>, now: real)
      requires state == Playing || state == GameOver
      modifies this`state, this`screenShake, this`timeTaken, player`x, player`y,
               player`velX, player`velY, player`lives
      ensures HurtState() == HurtByAll(rules, old(HurtState()), zs, now - startTime)
      ensures state == Playing || state == GameOver
    {
      ghost var h0 := HurtState();
      for i := 0 to |zs|
        invariant HurtState() == HurtByAll(rules, h0, zs[..i], now - startTime)
        invariant state == Playing || state == GameOver
      {
        assert zs[..i + 1][..i] == zs[..i];
        HitBy(zs[i], now);
      }
      assert zs[..|zs|] == zs;
    }

    /** The coin loop: every coin not yet collected that the player touches is
        collected for 100 points and counted. */
    method CollectCoins()
      requires Distinct(coins)
      modifies coins, this`coinsCollected, player`score
      ensures CoinFlags(coins) == AfterPickup(old(CoinFlags(coins)), CoinRects(coins), player.Rect())
      ensures player.score == old(player.score) + CoinScore * NewPickups(old(CoinFlags(coins)), CoinRects(coins), player.Rect())
      ensures coinsCollected == old(coinsCollected) + NewPickups(old(CoinFlags(coins)), CoinRects(coins), player.Rect())
    {
      var pr := player.Rect();
      ghost var flags, rects := CoinFlags(coins), CoinRects(coins);
      for i := 0 to |coins|
        invariant forall j :: 0 <= j < i ==>
          coins[j].collected == (old(coins[j].collected) || Overlaps(pr, coins[j].rect))
        invariant forall j :: i <= j < |coins| ==> coins[j].collected == old(coins[j].collected)
        invariant player.score == old(player.score) + CoinScore * NewPickups(flags[..i], rects[..i], pr)
        invariant coinsCollected == old(coinsCollected) + NewPickups(flags[..i], rects[..i], pr)
      {
        NewPickupsSnoc(flags, rects, pr, i);
        assert flags[i] == coins[i].collected && rects[i] == coins[i].rect;
        var c := coins[i];
        if !c.collected && Overlaps(pr, c.rect) {
          c.collected := true;
          player.score := player.score + CoinScore;
          coinsCollected := coinsCollected + 1;
        }
      }
      assert flags[..|coins|] == flags && rects[..|coins|] == rects;
      CoinFlagsAfter(coins, flags, rects, pr);
    }

    function Boost(): Boosted reads this, player { Boosted(player.score, player.speed, player.velY) }

    /** The power-up loop: see BoostAfter and BoostAfterMeans. */
    method CollectPowerUps()
      requires Distinct(powerUps) && player.tuning == rules.tuning
      modifies powerUps, player`score, player`speed, player`velY
      ensures PowerUpFlags(powerUps) ==
        AfterPickup(old(PowerUpFlags(powerUps)), PowerUpRects(powerUps), player.Rect())
      ensures Boost() == BoostAfter(rules, old(Boost()), player.onGround, old(PowerUpFlags(powerUps)),
                                    PowerUpRects(powerUps), PowerUpKinds(powerUps), player.Rect())
    {
      var pr := player.Rect();
      ghost var g, b0 := player.onGround, Boost();
      ghost var flags, rects, kinds := PowerUpFlags(powerUps), PowerUpRects(powerUps), PowerUpKinds(powerUps);
      for i := 0 to |powerUps|
        invariant forall j :: 0 <= j < i ==>
          powerUps[j].collected == (old(powerUps[j].collected) || Overlaps(pr, powerUps[j].rect))
        invariant forall j :: i <= j < |powerUps| ==> powerUps[j].collected == old(powerUps[j].collected)
        invariant Boost() == BoostAfter(rules, b0, g, flags[..i], rects[..i], kinds[..i], pr)
      {
        BoostAfterSnoc(rules, b0, g, flags, rects, kinds, pr, i);
        assert flags[i] == powerUps[i].collected && rects[i] == powerUps[i].rect && kinds[i] == powerUps[i].kind;
        TakePowerUp(powerUps[i], pr);
      }
      assert flags[..|powerUps|] == flags && rects[..|powerUps|] == rects && kinds[..|powerUps|] == kinds;
      PowerUpFlagsAfter(powerUps, flags, rects, pr);
    }

    /** One power-up of the loop. */
    method TakePowerUp(p: PowerUp, pr: Rect)
      requires player.tuning == rules.tuning
      modifies p, player`score, player`speed, player`velY
      ensures p.collected == (old(p.collected) || Overlaps(pr, p.rect))
      ensures Boost() == BoostBy(rules, old(Boost()), player.onGround, !old(p.collected) && Overlaps(pr, p.rect), p.kind)
    {
      if !p.collected && Overlaps(pr, p.rect) {
        p.collected := true;
        player.score := player.score + rules.powerUpScore;
        if p.kind == SpeedBoost {
          player.speed := rules.speedBoost;
        } else if p.kind == JumpBoost {
          player.Jump();
        }
      }
    }

    /** The level is complete once the friend is free: the next level is loaded, or,
        after the third, the game is won (and, in the clean build, timed). */
    method CheckRescue(now: real)
      requires Valid()
      modifies this
      ensures Valid()
      ensures old(friend) == null || !old(friend.rescued) ==>
        && state == old(state) && currentLevel == old(currentLevel) && timeTaken == old(timeTaken)
        && startTime == old(startTime) && SameLevel() && cameraOffset == old(cameraOffset)
      ensures old(friend) != null && old(friend.rescued) && old(currentLevel) < 3 ==>
        && state == old(state) && currentLevel == old(currentLevel) + 1 && startTime == now
        && timeTaken == old(timeTaken) && player.projectiles == []
        && HoldsLayout(LayoutOf(rules.build, currentLevel)) && FreshLevel()
      ensures old(friend) != null && old(friend.rescued) && old(currentLevel) == 3 ==>
        && state == Victory && currentLevel == 3 && startTime == old(startTime)
        && timeTaken == (if rules.recordsTime then now - startTime else old(timeTaken))
        && SameLevel()
      ensures deaths == old(deaths) && coinsCollected == old(coinsCollected)
      ensures screenShake == old(screenShake)
    {
      if friend != null && friend.rescued {
        if currentLevel < 3 {
          currentLevel := currentLevel + 1;
          ResetGame(now);
        } else {
          state := Victory;
          if rules.recordsTime {
            timeTaken := now - startTime;
          }
        }
      }
    }

    /** The time limit: when the level has one and it has passed, the player loses
        every life and the game is over (and timed, in the clean build). */
    method CheckTime(now: real)
      modifies this`state, this`timeTaken, player`lives
      ensures TimeUp(rules, currentLevel, now - startTime) ==>
        && state == GameOver && player.lives == 0
        && timeTaken == (if rules.recordsTime then now - startTime else old(timeTaken))
      ensures !TimeUp(rules, currentLevel, now - startTime) ==>
        state == old(state) && player.lives == old(player.lives) && timeTaken == old(timeTaken)
    {
      var elapsed := now - startTime;
      if currentLevel in rules.timeLimits && elapsed > rules.timeLimits[currentLevel] as real {
        player.lives := 0;
        state := GameOver;
        if rules.recordsTime {
          timeTaken := elapsed;
        }
      }
    }

    function DuelState(): Duel reads this, boss, friend
      requires boss != null && friend != null
    {
      Duel(boss.Status(), friend.rescued, screenShake)
    }

    /** The projectile check, made only while Lord Zing stands. */
    method CheckBolts()
      requires Valid()
      modifies this`screenShake, player`projectiles, {boss}`health, {boss}`defeated, {friend}`rescued, {friend}`cageBars
      ensures boss == null || old(boss.defeated) ==>
        && screenShake == old(screenShake) && player.projectiles == old(player.projectiles)
        && (boss != null ==> boss.Status() == old(boss.Status()) && friend.rescued == old(friend.rescued))
      ensures boss != null && !old(boss.defeated) ==>
        var target := BoltTarget(rules, boss.x, cameraOffset);
        && player.projectiles == MarkHits(old(player.projectiles), target, rules.boltRange)
        && DuelState() == DuelAfter(old(DuelState()), old(player.projectiles), target, rules.boltRange)
      ensures old(player.projectiles) == [] ==>
        && screenShake == old(screenShake) && player.projectiles == []
        && (boss != null ==> boss.Status() == old(boss.Status()) && friend.rescued == old(friend.rescued))
    {
      if boss != null && !boss.defeated {
        BoltPass(BoltTarget(rules, boss.x, cameraOffset));
      }
    }

    /** The projectile loop: every projectile within range of the target hits and is
        marked; see DuelAfter and DuelAfterMeans. */
    method BoltPass(target: real)
      requires Valid() && boss != null
      modifies this`screenShake, player`projectiles, boss`health, boss`defeated, friend`rescued, friend`cageBars
      ensures player.projectiles == MarkHits(old(player.projectiles), target, rules.boltRange)
      ensures DuelState() == DuelAfter(old(DuelState()), old(player.projectiles), target, rules.boltRange)
    {
      ghost var ps := player.projectiles;
      var count := |player.projectiles|;
      for i := 0 to count
        invariant |player.projectiles| == |ps|
        invariant forall j :: 0 <= j < i ==>
          player.projectiles[j] == ps[j].(hit := ps[j].hit || InBoltRange(ps[j], target, rules.boltRange))
        invariant forall j :: i <= j < |ps| ==> player.projectiles[j] == ps[j]
        invariant DuelState() == DuelAfter(old(DuelState()), ps[..i], target, rules.boltRange)
      {
        assert ps[..i + 1][..i] == ps[..i];
        BoltAt(i, target);
      }
      assert ps[..count] == ps;
      assert player.projectiles == MarkHits(ps, target, rules.boltRange);
    }

    /** One projectile of the loop. */
    method BoltAt(i: nat, target: real)
      requires Valid() && boss != null && i < |player.projectiles|
      modifies this`screenShake, player`projectiles, boss`health, boss`defeated, friend`rescued, friend`cageBars
      ensures var p := old(player.projectiles[i]);
        var hits := InBoltRange(p, target, rules.boltRange);
        && player.projectiles == old(player.projectiles)[i := p.(hit := p.hit || hits)]
        && DuelState() == DuelStep(old(DuelState()), hits)
    {
      var p := player.projectiles[i];
      if InBoltRange(p, target, rules.boltRange) {
        boss.TakeDamage();
        player.projectiles := player.projectiles[i := p.(hit := true)];
        screenShake := BoltShake;
        if boss.defeated {
          friend.Rescue();
        }
      }
    }
  }

  lemma BeforeQuitIsPrefix(es: seq<Event>, i: nat)
    requires i <= |es| && Quit !in es[..i] && (i < |es| ==> es[i] == Quit)
    ensures BeforeQuit(es) == es[..i]
  {
    var r := BeforeQuit(es);
    if |r| < i {
      assert false;
    } else if |r| > i {
      assert false;
    }
  }

  lemma NewPickupsSnoc(flags: seq<bool>, rects: seq<Rect>, pr: Rect, i: nat)
    requires |flags| == |rects| && i < |flags|
    ensures NewPickups(flags[..i + 1], rects[..i + 1], pr) ==
      NewPickups(flags[..i], rects[..i], pr) + (if !flags[i] && Overlaps(pr, rects[i]) then 1 else 0)
  {
    assert flags[..i + 1][..i] == flags[..i] && rects[..i + 1][..i] == rects[..i];
  }

  lemma BoostAfterSnoc(r: Rules, b: Boosted, onGround: bool, flags: seq<bool>, rects: seq<Rect>,
                       kinds: seq<PowerKind>, pr: Rect, i: nat)
    requires |flags| == |rects| == |kinds| && i < |flags|
    ensures BoostAfter(r, b, onGround, flags[..i + 1], rects[..i + 1], kinds[..i + 1], pr) ==
      BoostBy(r, BoostAfter(r, b, onGround, flags[..i], rects[..i], kinds[..i], pr), onGround,
              !flags[i] && Overlaps(pr, rects[i]), kinds[i])
  {
    assert flags[..i + 1][..i] == flags[..i] && rects[..i + 1][..i] == rects[..i];
    assert kinds[..i + 1][..i] == kinds[..i];
  }

  lemma CoinFlagsAfter(cs: seq<Coin>, flags: seq<bool>, rects: seq<Rect>, pr: Rect)
    requires |flags| == |rects| == |cs|
    requires forall j :: 0 <= j < |cs| ==> cs[j].collected == (flags[j] || Overlaps(pr, rects[j]))
    ensures CoinFlags(cs) == AfterPickup(flags, rects, pr)
  {
  }

  lemma PowerUpFlagsAfter(ps: seq<PowerUp>, flags: seq<bool>, rects: seq<Rect>, pr: Rect)
    requires |flags| == |rects| == |ps|
    requires forall j :: 0 <= j < |ps| ==> ps[j].collected == (flags[j] || Overlaps(pr, rects[j]))
    ensures PowerUpFlags(ps) == AfterPickup(flags, rects, pr)
  {
  }
}
