# Turbo Runners: a verified model of the simulation core

Turbo Runners is a pygame side-scroller. Blippo runs and jumps across static and moving
platforms. Patrolling and floating obstacles cost a life on contact. Coins and power-ups
add to the score. Lord Zing, a boss with three hit points, guards a caged friend, and
freeing the friend completes the level. The repository holds two builds of the game:
`main.py`, the clean build, and `main2.py`, a dev build riddled with changed constants and
broken rules.

This project models the simulation underneath the drawing code of both builds. That means:

- the player's physics step;
- the jump gate;
- the projectile list;
- moving platforms and patrolling obstacles;
- Lord Zing's damage and the friend's rescue;
- the per-frame `Game.update` pass: obstacle hits, coin and power-up pickup, level
  progression, the time limit, and projectile hits;
- the session screens with `reset_game`, `create_level` and `restart_level`;
- the `run` loop.

There is one model for both builds. Every place where the builds differ is a field of a
`Rules` value (`CleanRules`, `DevRules`), a `Tuning` value (`CleanTuning`, `DevTuning`) or
a `Build` tag. `BuildComparison` states the differences as lemmas.

Modules:

- `Geometry`: rectangles, the overlap test, `inflate`, and the truncation a pygame
  rectangle applies to fractional coordinates.
- `Input`: held controls, discrete events, and the session screens with their transitions.
- `Entities`: projectiles, Lord Zing, the friend, coins, power-ups, and pickup counting.
- `Physics`: the player step as functions on a `Body` value, and the `Player` class whose
  methods follow `Player.update` phase by phase.
- `World`: `MovingPlatform` and `MovingObstacle`, their step functions, and the patrol
  finding.
- `Levels`: the layouts `create_level` builds, for both builds.
- `GameRules`: the rules `Game.update` applies, as functions on small state values.
- `Session`: the `Game` class with `handle_events`, `update` and `run`.
- `BuildComparison`: clean build versus dev build.

Assumptions of the model:

- **Truncation.** Assigning a fractional value to a pygame rectangle coordinate truncates
  it toward zero (`Geometry.Trunc`). For the non-negative coordinates of the game this is
  the floor.
- **Random and trigonometric values are inputs.** A frame's `FrameInput` carries:
  - the events and the held controls;
  - the wall-clock time;
  - Lord Zing's position, which `LordZing.update` computes with `math.sin`;
  - the camera's random shake jitter, and in the dev build its random nudge;
  - each dev platform's random speed factor.
- **One clock reading per frame.** A frame uses a single clock reading `now`. The source
  calls `time.time()` separately for each check.
- **Python `list.remove` on a projectile is a filter.** `update_projectiles` loops over a
  copy and removes each expired projectile. The projectiles before it that are still in
  the list have positive life, so the first equal element is the expired projectile
  itself. Removing it therefore keeps the survivors in order.

The model follows the code of each build. The dev build's own comments call some of its
behaviour wrong, and on several of those points the clean build does the same thing:

- A speed power-up sets the speed until the next `Player.update` sets it again
  (main.py:657-659, main.py:91-96). The dev build's comments ask for effects that expire
  (main2.py:28, main2.py:37, main2.py:873).
- A jump power-up calls `jump()`, so it acts only on the ground (main.py:660-661). The dev
  build's comment asks for a higher jump for a while instead (main2.py:866-867).
- Every overlapping obstacle costs a life in the same frame. Neither build has the
  invincibility window the dev build's comments ask for (main2.py:30, main2.py:154,
  main2.py:824).
- The dev build's projectile test uses neither the camera offset nor range 50, and its
  comment asks for both (main2.py:896-901). The clean build does both (main.py:682).
- The dev build's platform speed has a random factor, and its comment questions it
  (main2.py:310). The model keeps it as an input.
- The dev build has no third level and no time limit for it (main2.py:29, main2.py:97,
  main2.py:691-693).

One place is deliberately not as written. The clean `MovingObstacle` runs the corrected
patrol step `World.HomewardPatrolStep`, not the step of main.py:233-237 (see
"## Findings"). In the band around its range and at a whole-numbered speed, the
corrected step is the step as written (`World.WholeSpeedStepAgrees`). Several clean
patrols have fractional speeds (1.5, 2.5, 3.2, 3.5). For those the two steps can differ,
and the findings show it for the patrol at x = 800 on the second level.

## Model

| member | source | states |
|---|---|---|
| Geometry.HalfTowardZero | main2.py:822 | half of an integer rounded toward zero, between 0 and the integer, as `inflate` splits its padding |
| Geometry.InflateKeepsOverlap | main2.py:822-823 | padding the player's rectangle never loses an overlap, so every unpadded hit is a padded hit |
| Geometry.Trunc | main.py:106 | the truncated coordinate is within one of the value, on its side of zero |
| Geometry.TruncWhole | main.py:208 | a whole-numbered coordinate is stored unchanged |
| Geometry.TruncHalf | main.py:235 | a coordinate half a pixel past a whole number is stored as that number |
| Geometry.TruncBetween | main.py:106 | a value between two whole numbers is stored between them |
| Input.ScreenAfter | main.py:539-594 | an event moves the screen only along the session diagram; play is entered exactly by a restart or a level choice; game over and victory are never entered by an event |
| Input.EveryEdgeHasAnEvent | main.py:539-594 | every transition of the session diagram is taken by some event |
| Input.BeforeQuit | main.py:540-542 | handle_events processes exactly the events before the first quit request |
| Input.ScreenAfterAllSnoc | main.py:540 | the events are processed in order, one after another |
| Input.EventsNeverEndALevel | main.py:539-594 | no sequence of events reaches game over or victory from another screen |
| Entities.StepAll | main.py:153-160 | update_projectiles never grows the list and keeps only projectiles with life left |
| Entities.Survivors | main.py:158-160 | the projectiles kept are exactly those with more than one frame of life |
| Entities.StepAllIsAdvancedSurvivors | main.py:153-160 | update_projectiles is the survivors, in order, each aged by one frame and moved 15 to the right unless it has hit |
| Entities.StepProjectiles | main.py:153-160 | the in-place loop computes exactly StepAll |
| Entities.StepAllSnoc | main.py:155-160 | the loop handles the projectiles one at a time, in order |
| Entities.FiredProjectileFlight | main.py:144-160 | a fired projectile flies 15 pixels per frame for 29 frames and is gone after the 30th |
| Entities.HitsTaken | main.py:273-276 | n hits lower health by exactly n; the boss is defeated exactly when it was, or a hit brought health to 0 or below |
| Entities.FreshBossFallsOnThirdHit | main.py:264 | a fresh boss with health 3 is defeated by exactly the third hit |
| Entities.DefeatIsFinal | main.py:275-276 | defeat is never undone |
| Entities.LordZing.constructor | main.py:256-264 | a new boss stands at its origin with health 3, not defeated |
| Entities.LordZing.TakeDamage | main.py:273-276 | take_damage lowers health by one and sets defeated at 0 or below |
| Entities.LordZing.Follow | main.py:266-271 | the boss moves to its animated position only while not defeated |
| Entities.Friend.constructor | main.py:290-299 | a new friend is caged by six bars and not rescued |
| Entities.Friend.Rescue | main.py:308-310 | rescue sets rescued and removes the cage, so repeating it changes nothing |
| Entities.Coin.constructor | main.py:356-359 | a coin is a 25 by 25 rectangle, not collected |
| Entities.PowerUp.constructor | main.py:335-339 | a power-up is a 30 by 30 rectangle of its kind, not collected |
| Entities.CountCollected | main.py:650 | the collected count never exceeds the number of pickups |
| Entities.PickupGainIsNewlyCollected | main.py:646-650 | after a pickup pass, the collected count has grown by exactly the newly taken pickups |
| Entities.PickupIsIdempotent | main.py:647 | a second pass at the same position takes nothing: a collected pickup never scores again |
| Entities.AfterFrames | main.py:646-650 | pickup passes over several frames keep one flag per pickup |
| Entities.GainedOverFrames | main.py:646-650 | over any frames, the gain is the growth of the collected count and never exceeds the pickups still out |
| Physics.BothTuningsSane | main2.py:91-95 | both builds' constants have positive gravity, acceleration and a friction factor below 1 |
| Physics.RunSpeed | main.py:91-96 | the speed is 5 times the run factor while the mouse is held and 5 otherwise; in the dev build (main2.py:165-171) its run factor is 3.5, so its speed is 17.5 while the mouse is held |
| Physics.HorizontalVelocity | main.py:99-104 | left never goes below minus the speed and right never above it; with no key, friction keeps the sign and shrinks the magnitude |
| Physics.Damped | main.py:104 | friction keeps a velocity's sign, shrinks it strictly, and keeps zero at zero |
| Physics.FirstOverlap | main.py:114-115 | the index of the first platform the player overlaps, with none before it |
| Physics.FirstOverlapExtend | main.py:114 | the platform loop visits the platforms in order |
| Physics.Land | main.py:112-119 | the player lands exactly when falling onto an overlapping platform, standing on its top at rest; otherwise nothing changes |
| Physics.ClampToScreen | main.py:121-127 | the player ends inside the screen, and any clamp zeroes the horizontal velocity |
| Physics.Step | main.py:85-138 | after a step the player is on the screen horizontally, not below it, runs at the mouse's speed, has lost at most one life, and a lost life means a respawn at (50, 500) at rest |
| Physics.GravityOnce | main.py:109-110 | gravity is added exactly once, unless a landing or a respawn zeroed the velocity |
| Physics.LandsOnlyWhileFalling | main.py:112-119 | a landing happens exactly when falling onto some platform, onto the first one it overlaps; in the dev build (main2.py:187-204) the same holds with its stronger gravity |
| Physics.FallCostsOneLife | main.py:129-135 | a life is lost exactly when the player ends below the screen |
| Physics.ClampStops | main.py:121-127 | leaving the screen sideways stops the player |
| Physics.SpeedIsRecomputed | main2.py:165-171 | the step never reads the previous speed, so a speed power-up lasts only until the next update |
| Physics.Player.constructor | main.py:73-83 | a new player at the spawn point, at rest, with 3 lives, no score and no projectiles |
| Physics.Player.Update | main.py:85-138 | Player.update is exactly the physics step, and it touches neither the score nor the projectiles |
| Physics.Player.Move | main.py:90-106 | the mouse and keyboard phase |
| Physics.Player.ChooseSpeed | main.py:91-96 | the run flag follows the mouse button and the speed follows it |
| Physics.Player.Accelerate | main.py:98-104 | acceleration or friction, as HorizontalVelocity |
| Physics.Player.ApplyGravity | main.py:108-110 | one gravity step and the vertical move |
| Physics.Player.LandOn | main.py:112-119 | the platform loop computes exactly Land |
| Physics.Player.ClampToEdges | main.py:121-127 | the screen clamp |
| Physics.Player.CheckFall | main.py:129-135 | the fall check and respawn |
| Physics.Player.Jump | main.py:140-142 | the jump sets the jump speed exactly when the build's gate allows it, and otherwise changes nothing; in the dev build (main2.py:230-237) its gate also opens whenever the vertical velocity is below 5 |
| Physics.Player.Shoot | main.py:144-151 | shoot appends exactly one projectile at the player's centre with life 30, not hit, after the existing ones |
| Physics.Player.UpdateProjectiles | main.py:153-160 | the projectiles become exactly StepAll of the old ones |
| World.PlatformStep | main.py:194-208 | the direction flips exactly when the tentative x would exceed the range, and then x lands on the exceeded bound; otherwise x moves; the range is never left |
| World.PlatformMovesAtMostItsSpeed | main.py:194-208 | a platform moves by less than its speed plus one pixel in one frame; the extra pixel is truncation, as when the platform of main.py:425 turns at 680 and is stored at 678 |
| World.DevPlatformStep | main2.py:301-324 | with any speed factor, the dev platform flips when the tentative x reaches the range, lands on a bound it passed, and never leaves the range |
| World.DevPlatformTurnsShortOfTheBound | main2.py:315 | a dev platform whose step would end exactly on a bound turns without moving |
| World.PlatformNext | main.py:194-208 | a platform inside its range stays inside it in either build, whatever the dev factor; a clean platform inside its range moves less than its speed plus one pixel; only the dev build counts the frame |
| World.MovingPlatform.constructor | main.py:185-192 | a new platform at its origin, heading right |
| World.MovingPlatform.Update | main.py:194-208 | update is PlatformNext, and it keeps the platform within its range; in the dev build (main2.py:301-324) the update keeps the range with any random speed factor |
| World.MovingPlatform.Swing | main.py:196-208 | one move of the given step: the clean step, or with the dev build's early turn the dev step |
| World.PatrolStep | main.py:233-237 | the patrol as written moves less than its speed plus one pixel, and at a whole-numbered speed keeps the band: less than its speed plus one past its range, and heading back whenever outside it |
| World.HomewardPatrolStep | main.py:233-237 | the corrected patrol moves less than its speed plus one pixel and keeps the band at any non-negative speed |
| World.WholeStep | main.py:235 | at a whole-numbered speed the truncation takes nothing, so a step moves by exactly the speed |
| World.WholeSpeedStepAgrees | main.py:233-237 | inside the band and at a whole-numbered speed the corrected step is the step as written |
| World.HomewardPatrolBandForever | main.py:233-237 | a corrected patrol never leaves that band, for any speed and any number of frames |
| World.WholeSpeedPatrolBandForever | main.py:233-237 | for a whole-numbered speed the patrol as written keeps the band forever |
| World.PatrolComposes | main.py:233-237 | frames of patrol compose |
| World.RisingStep | main.py:235 | speed 2.5 heading right moves 2 pixels, because the result is truncated |
| World.FallingStep | main.py:235 | speed 2.5 heading left moves 3 pixels |
| World.DriftingPatrolRises | main.py:233-237 | the second level's patrol at x = 800 rises 2 pixels a frame to x = 1000 |
| World.DriftingPatrolFalls | main.py:233-237 | turned at 1002, it falls 3 pixels a frame past the left end of its range |
| World.StrayPair | main.py:233-237 | past the left end, two frames move it left by one pixel net, the heading flipping each frame |
| World.DriftingPatrolDrifts | main.py:233-237 | from there it keeps drifting left, one pixel every two frames |
| World.PatrolAsWrittenEscapes | main.py:233-237 | after 1035 frames the patrol as written is 600 pixels left of its origin, outside the band the corrected patrol keeps |
| World.DevPatrolStep | main2.py:363-381 | the dev patrol counts the frame, moves only on every third frame and by less than its speed plus one pixel, and with a whole-numbered speed keeps the dev band of its 300-pixel range and three-frame cycle |
| World.DevPatrolBandForever | main2.py:363-381 | a dev patrol with a whole-numbered speed never leaves that band |
| World.ObstacleNext | main.py:233-237 | floating obstacles never move and only the dev build counts the frame; the clean patrol takes the corrected step, which keeps the band and, at a whole-numbered speed inside it, is the step as written; a dev patrol with a whole-numbered speed keeps the dev band |
| World.MovingObstacle.constructor | main2.py:350-361 | a new obstacle at its origin heading right, inside its patrol band, with its speed doubled and a hit padding of 10 in the dev build |
| World.MovingObstacle.Update | main.py:233-237 | update is ObstacleNext with the corrected clean step, and it keeps the patrol band; in the dev build (main2.py:363-381) the update moves every third frame and keeps the dev band at whole-numbered speeds |
| World.MovingObstacle.PatrolHomeward | main.py:234-237 | the corrected clean patrol step, keeping the band |
| World.MovingObstacle.PatrolEveryThirdFrame | main2.py:367-374 | the dev patrol step after the frame counter advanced, keeping the dev band |
| Levels.CoinRow | main.py:435-437 | a level has as many coins as its row says, the first at the row's start and each next one the row's fixed step after the previous, all 25 by 25 |
| Levels.EveryLevelHasGround | main.py:411-412 | every level starts from the ground, and has a boss and a friend except the dev build's third level |
| Levels.CleanCoinsOnScreen | main.py:470-472 | every clean coin lies within the screen's width |
| Levels.PatrolSpeedsInDevAreWhole | main2.py:354-355 | the dev build's doubled obstacle speeds are whole numbers of pixels |
| GameRules.BothRulesWellFormed | main2.py:703 | both builds' camera fractions lie strictly between 0 and 1 |
| GameRules.Approach | main.py:531-532 | the camera moves part of the way toward its target, never past it, and the remaining gap shrinks by the fraction |
| GameRules.CameraAfter | main.py:529-537 | a positive shake counts down by one and a shake never leaves 0 to its start; without noise or shake the offset is exactly the approach, and otherwise it is off the approach by at most the noise and the jitter |
| GameRules.CameraStaysNearItsTarget | main.py:535-537 | with the jitter drawn from [-k·s, k·s] for the build's shake scale k and the dev nudge from [-5, 5], the camera lands within the nudge bound plus k·s of its approach; in the dev build (main2.py:707-714) k is 2 |
| GameRules.ShakeFades | main.py:535-537 | a shake of s frames is over after s frames and stays at 0 |
| GameRules.HurtByAllMeans | main.py:631-643 | each obstacle costs at most one life; an untouched player is unchanged; a loss shakes the screen; the game ends exactly when a loss leaves no life, recording the time in the clean build; otherwise the player respawns at rest; in the dev build (main2.py:820-840) it shakes by 30 and records no time |
| GameRules.UntouchedIsUnhurt | main.py:631-632 | a player touching no obstacle loses nothing |
| GameRules.BoostAfterMeans | main.py:653-661 | the power-up pass adds the build's score once per power-up newly taken, sets the boost speed exactly when a speed power-up is taken, and jumps exactly when a jump power-up is taken and the gate allows; in the dev build (main2.py:853-870) it pays 50 and sets the speed to 20 |
| GameRules.BoltHits | main.py:680-687 | the number of projectiles in range is zero exactly when none is in range |
| GameRules.MarkHits | main.py:684 | a projectile is marked hit exactly when it had hit or is in range of the target, and nothing else about it changes |
| GameRules.DuelAfterMeans | main.py:680-687 | the boss takes exactly one hit per projectile in range; the friend is freed exactly when a hit defeats the boss; the screen shakes exactly when something hit |
| GameRules.HitBoltStaysInRange | main.py:156-157 | a projectile that has hit stops moving, so it stays in range of a standing boss |
| GameRules.OneBoltDefeatsTheBoss | main.py:680-687 | one projectile reaching a fresh, standing boss defeats him on the third frame |
| Session.NewPlatforms | main.py:414-443 | the moving platforms are built from the layout, distinct and new |
| Session.NewObstacles | main.py:414-443 | the obstacles are built from the layout, distinct and new |
| Session.NewCoins | main.py:435-437 | the coins are built from the layout's row, distinct and new |
| Session.NewPowerUps | main.py:440 | the power-ups are built from the layout, distinct and new |
| Session.NewCast | main.py:443-444 | the boss and the friend are built from the layout, or are absent |
| Session.DevThirdLevelIsBare | main2.py:691-693 | the dev build's third level has no obstacle, no boss and no friend |
| Session.FramesRunMeans | main.py:1031-1036 | run goes through the frames up to and including the first that asks to quit, or all of them |
| Session.Game.constructor | main.py:372-388 | a new game shows the menu with level 1 built and zero statistics |
| Session.Game.ResetGame | main.py:390-402 | reset_game makes a new player and a fresh copy of the current level, restarts the clock and recentres the camera, keeping the screen and the statistics |
| Session.Game.NewPlayer | main.py:391 | the new player stands at the spawn point with 3 lives |
| Session.Game.CreateLevel | main.py:404-527 | create_level builds exactly the build's layout for the level; in the dev build (main2.py:585-693) its third level is only the ground |
| Session.Game.BuildLayout | main.py:404-527 | the level's objects are exactly those of the layout |
| Session.Game.BuildPickups | main.py:435-444 | the coins, power-ups, boss and friend of the layout |
| Session.Game.RestartLevel | main.py:596-599 | restart_level adds one death, rebuilds the current level, and returns to play |
| Session.Game.Melee | main.py:563-569 | a boss within melee reach takes a hit and shakes the screen, freeing the friend on defeat; otherwise nothing changes; in the dev build (main2.py:751-756) its melee reach is 80 |
| Session.Game.Strike | main.py:559-569 | a left click in play jumps through the build's gate and then attacks; out of reach neither the boss, the friend nor the shake changes |
| Session.Game.OnKey | main.py:544-556 | a key moves the screen as ScreenAfter, space jumps in play, R restarts after a game over, return shoots in the clean build, and without a shot or a restart the projectiles stay; every key keeps the coins collected, and a key that does not restart keeps the recorded time, the clock, the camera, the shake and the player's position, horizontal velocity, lives and score; in the dev build (main2.py:723-742) it never shoots |
| Session.Game.OnClick | main.py:558-592 | a click moves the screen as ScreenAfter, choosing a level builds it, restarting adds a death, and only a left click in play jumps or attacks: any other click that neither restarts nor chooses a level leaves the vertical velocity and the boss's status alone, and every other click leaves the shake alone; every click keeps the coins collected, and one that neither restarts nor chooses a level keeps the recorded time, the clock, the camera and the player's position, horizontal velocity, lives, score and projectiles |
| Session.Game.ClickOnScreen | main.py:571-592 | a click outside play moves the screen as ScreenAfter says: a level button builds that level fresh with the clock restarted, the restart button adds a death and rebuilds the level, and any other click keeps the level's objects, deaths, the recorded time, the clock and the camera; every such click keeps the coins collected and the shake |
| Session.Game.HandleEvent | main.py:540-592 | one event: false exactly for a quit request; the screen follows ScreenAfter; deaths grow only on a restart; the coins collected are kept, and an event that neither restarts nor chooses a level keeps the player's lives and score |
| Session.Game.HandleEvents | main.py:539-594 | handle_events processes the events before the first quit, reports whether there was one, and keeps the coins collected |
| Session.Game.Frame | main.py:1034-1036 | one pass of run's loop: the events, then update, even on the quitting frame: when the events leave the game in play and the level's time is up, the frame ends in game over with no lives, whether or not a QUIT came |
| Session.Game.Run | main.py:1031-1036 | run plays exactly FramesRun frames |
| Session.Game.Update | main.py:601-687 | update acts only in play, ends in play, game over or victory, ends the game when time is up, and never lowers the coins collected; in the dev build (main2.py:789-908) on its bare third level the game stays in play forever |
| Session.Game.MoveAll | main.py:602-628 | the camera is CameraAfter, the player takes Step against all platforms, the platforms and obstacles take their steps, the boss moves to its input position unless defeated, and the projectiles take StepAll |
| Session.Game.MoveWorld | main.py:609-622 | the platforms and obstacles take their steps; the boss keeps its status and moves to its input position unless defeated |
| Session.Game.ApplyRules | main.py:630-687 | while the friend is caged: the same level and clock, the position and horizontal velocity the obstacle pass leaves, the lives and screen the obstacle pass and time limit leave, and with a standing boss the projectiles and duel DuelAfter gives from the obstacle pass's shake; once the friend is free: the next level, all new, with the clock restarted, or on level 3 victory unless time is up |
| Session.Game.RulesWhileCaged | main.py:630-687 | while the friend is caged, the level and clock stay, the obstacle pass and time limit decide the position and lives, and a standing boss takes DuelAfter of the projectiles |
| Session.Game.HitsWhileCaged | main.py:630-677 | while the friend is caged the obstacle pass decides the position, lives and shake, and the time limit can then take all lives and end the game; the camera and projectiles stay |
| Session.Game.RulesOnceRescued | main.py:630-687 | once the friend is free, levels 1 and 2 go on to the next level, all new, with the clock restarted, and level 3 is won unless time is up |
| Session.Game.NextLevel | main.py:663-687 | on levels 1 and 2 a free friend loads the next level, all new, with the clock restarted |
| Session.Game.LastRescue | main.py:663-687 | on level 3 a free friend wins the game unless time is up, keeping the level's objects |
| Session.Game.AdvanceCaged | main.py:663-677 | while the friend is caged the level, clock, position, camera, shake and projectiles stay, and only the time limit can take the lives and end the game |
| Session.Game.AdvanceRescued | main.py:663-677 | a free friend moves levels 1 and 2 on to a new copy of the next level with the clock restarted and no projectiles, and wins on level 3 unless time is up |
| Session.Game.ApplyHits | main.py:630-661 | the position, horizontal velocity, lives, screen, shake and recorded time are those HurtByAll gives over the obstacles; the coins collected never go down |
| Session.Game.CollectItems | main.py:645-661 | the coin and power-up passes never lower the coins collected |
| Session.Game.UpdateCamera | main.py:529-537 | update_camera is CameraAfter, and with the random values drawn from their ranges the camera lands within CameraStray of its approach; in the dev build (main2.py:695-718) the fraction is 0.02, a nudge is added and the jitter range is doubled |
| Session.Game.MovePlatforms | main.py:609-610 | each moving platform takes exactly one step |
| Session.Game.MoveObstacles | main.py:612-613 | each obstacle takes exactly one step |
| Session.Game.HitBy | main.py:632-643 | one obstacle's hit test is HurtBy |
| Session.Game.CheckObstacles | main.py:631-643 | the obstacle loop is exactly HurtByAll over the obstacles in order, and the game stays in play when there are no obstacles |
| Session.Game.HitAll | main.py:631-643 | the loop over the hazards computes HurtByAll |
| Session.Game.CollectCoins | main.py:646-650 | each newly touched coin is flagged, adds 100 to the score and 1 to the coins collected |
| Session.Game.CollectPowerUps | main.py:653-661 | each newly touched power-up is flagged, and the score, speed and jump follow BoostAfter |
| Session.Game.TakePowerUp | main.py:654-661 | one power-up taken once |
| Session.Game.CheckRescue | main.py:663-670 | a rescued friend advances levels 1 and 2 to the next fresh level and wins on level 3, timed in the clean build |
| Session.Game.CheckTime | main.py:672-677 | time past the level's limit sets lives to 0 and ends the game; otherwise nothing changes; in the dev build (main2.py:886-890) levels without a limit never time out |
| Session.Game.CheckBolts | main.py:679-687 | while the boss stands, the projectile loop marks every projectile in range and the boss takes DuelAfter; with no projectiles nothing changes; in the dev build (main2.py:893-908) it tests within 20 of the boss's x without the camera offset |
| Session.Game.BoltPass | main.py:681-687 | the projectile loop computes MarkHits and DuelAfter |
| Session.Game.BoltAt | main.py:682-687 | one projectile of the loop |
| Session.BeforeQuitIsPrefix | main.py:540-542 | the events processed are the prefix before the first quit |
| Session.NewPickupsSnoc | main.py:646-647 | the coin loop counts one coin at a time |
| Session.BoostAfterSnoc | main.py:653-661 | the power-up loop handles one power-up at a time |
| Session.CoinFlagsAfter | main.py:647-648 | flags set one coin at a time are the pass's flags |
| Session.PowerUpFlagsAfter | main.py:654-655 | flags set one power-up at a time are the pass's flags |
| BuildComparison.JumpGates | main2.py:236 | the clean gate opens exactly on the ground; the dev gate also when the vertical velocity is below 5; every clean jump is a dev jump |
| BuildComparison.DevJumpsInMidAir | main2.py:236 | at the top of a jump, with no ground below, only the dev build jumps again |
| BuildComparison.ExactBoundSplitsTheBuilds | main2.py:315 | a step ending exactly on a bound is taken by the clean platform, onto the bound, while the dev platform turns where it is |
| BuildComparison.FirstPlatformAtItsBound | main.py:198 | the first level's lower platform one pixel short of its bound, in both builds |
| BuildComparison.PaddedHitTest | main2.py:822-827 | the clean build loses a life exactly on overlap; the padded dev test catches every clean hit; the shakes are 15 and 30 |
| BuildComparison.DevHitsAcrossAGap | main2.py:822-825 | an obstacle 4 pixels beside the spawn point hits only in the dev build |
| BuildComparison.PowerUpsPayFourTimesMoreInClean | main2.py:857-862 | power-ups pay 200 in the clean build and 50 in the dev build; a speed power-up sets 10 and 20 |
| BuildComparison.DevShakeStraysTwiceAsFar | main2.py:713-714 | a shaking camera may stray s from its approach in the clean build and 5 + 2s in the dev build, and a jitter of 2s moves the dev camera by exactly 2s |
| BuildComparison.CleanLevelsAreTimed | main.py:34 | the clean levels have limits of 120, 90 and 60 seconds |
| BuildComparison.DevThirdLevelIsEndless | main2.py:97 | the dev build's third level has no time limit, no obstacle and no one to rescue |
| BuildComparison.DevLastCoinOutOfReach | main2.py:674-676 | the last coin of the dev build's second level is at x = 1250, off the screen, beyond the reach of a player on the screen |
| BuildComparison.DevLastCoinNeverTaken | main2.py:674-676 | no player step ever reaches that coin |

## Left out

- Drawing: every `draw*` method, `draw_ui`, `draw_debug_overlay`, `draw_interactive_buttons`,
  the gradients and the `AnimatedBackground`. They only read state.
- Randomness and trigonometry become inputs. This covers `LordZing.update`'s sine motion,
  the camera's shake jitter and random nudge, and the dev platforms' random speed factor.
  `Friend.update`'s struggle is not modelled: the friend's rectangle is read only for
  drawing.
- I/O and the process boundary become inputs or are dropped. This covers `time.time()`,
  key and mouse polling, the pygame event queue, `clock.tick`, `display.flip`, `print`,
  `sys.exit` and the dev build's top-level `try`/`except`.
- The menu's pixel layout: a click is an abstract target (the title, a level button, the
  restart button, the menu button, or elsewhere).
- `level_complete`, `Platform`, `Collectible.update` and `PowerUp.update`: they hold no
  logic the simulation reads.
- World.ObstacleNext, World.MovingObstacle.PatrolHomeward, World.MovingObstacle.Update:
  the clean build uses the corrected patrol step, World.HomewardPatrolStep, not
  main.py:233-237 as written, which is World.PatrolStep (see Findings). The two agree at
  whole-numbered speeds inside the band (World.WholeSpeedStepAgrees). They can differ for
  the clean patrols with fractional speeds (main.py:464, 467, 505, 506, 512).
- Session.Game.CollectItems states only that the coins collected never go down. The
  passes themselves are stated by Session.Game.CollectCoins and Session.Game.CollectPowerUps.
- Session.Game.ApplyHits: it does not state the pickup flags, the score, the speed or the
  vertical velocity after the pickup passes. Session.Game.CollectCoins and
  Session.Game.CollectPowerUps state them. Composing those contracts here goes past the
  verifier's resource limit.
- Session.Game.ApplyRules: after a rescue on levels 1 and 2 it states the next level, the
  restarted clock and that every object is new, but not that the objects are the
  layout's (Session.Game.CheckRescue states that). Carrying the layout through the
  projectile check goes past the verifier's resource limit. It does not state the pickups
  or the score either (see Session.Game.ApplyHits).
- Session.Game.Update: it does not relate the lives, the position, the level or the boss
  to the frame's start. Session.Game.MoveAll states the movement half and
  Session.Game.ApplyRules the rules half; composing the two contracts goes past the
  verifier's resource limit. It does not state the score either. The score is stated pass
  by pass by Session.Game.CollectCoins and Session.Game.CollectPowerUps.
- Score, lives and health are unbounded integers. Python's integers do not overflow either.

## Findings

| source | as written | input that shows it | evidently intended | confidence | as-written member | corrected member |
|---|---|---|---|---|---|---|
| main.py:233-237 | a patrol outside its 200-pixel range reverses its heading on every frame. With a fractional speed, the truncated steps are 2 pixels right and 3 pixels left. Once it is past the left end, each reversal leaves it outside again, so it drifts left one pixel every two frames and never comes back | the second level's patrol `MovingObstacle(800, 610, 35, 35, "patrol", speed=2.5)` at main.py:467: after 1035 frames it is at x = 200, 600 pixels left of its origin | a patrol outside its range heads back toward its origin and stays within its speed of the range | not executed | World.PatrolAsWrittenEscapes | World.HomewardPatrolBandForever |
