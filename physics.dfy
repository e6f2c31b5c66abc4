/** The player, Blippo: one physics step per frame, the jump, and the projectiles it
    fires. Both builds run the same code with different constants and a different
    jump gate, collected here as a Tuning. */
module Physics {
  import opened Geometry
  import opened Input
  import opened Entities

  const PlayerWidth: int := 40
  const PlayerHeight: int := 60
  const PlayerSpeed: real := 5.0
  const SpawnX: int := 50
  const SpawnY: int := 500

  /** When a jump takes effect: only on the ground, or also while the vertical
      velocity is below a limit. */
  datatype JumpGate = OnGroundOnly | OnGroundOrBelow(limit: real)

  /** The physics constants of one build. */
  datatype Tuning = Tuning(gravity: real, jumpSpeed: real, runFactor: real,
                           accel: real, friction: real, gate: JumpGate)

  /** main.py: GRAVITY 0.8, JUMP_SPEED -15, run factor 1.8, acceleration 0.5,
      friction 0.8, jumps only from the ground. */
  const CleanTuning: Tuning := Tuning(0.8, -15.0, 1.8, 0.5, 0.8, OnGroundOnly)

  /** main2.py: GRAVITY 1.2, JUMP_SPEED -12, run factor 3.5, acceleration 1.2,
      friction 0.98, jumps from the ground or whenever vel_y < 5. */
  const DevTuning: Tuning := Tuning(1.2, -12.0, 3.5, 1.2, 0.98, OnGroundOrBelow(5.0))

  /** The ranges every tuning of either build lies in. */
  predicate Sane(t: Tuning) {
    t.gravity > 0.0 && t.jumpSpeed < 0.0 && t.runFactor > 1.0 && t.accel > 0.0
    && 0.0 < t.friction < 1.0
  }

  lemma BothTuningsSane()
    ensures Sane(CleanTuning) && Sane(DevTuning)
  {
  }

  function MaxReal(a: real, b: real): real { if a >= b then a else b }
  function MinReal(a: real, b: real): real { if a <= b then a else b }

  /** The fields of Player that one update changes. */
  datatype Body = Body(x: int, y: int, velX: real, velY: real, onGround: bool,
                       speed: real, running: bool, lives: int, frame: int)
  {
    function Rect(): Geometry.Rect { Geometry.Rect(x, y, PlayerWidth, PlayerHeight) }
  }

  /** The speed cap of a frame depends only on whether the mouse button is held. */
  function RunSpeed(t: Tuning, mouseHeld: bool): (s: real)
    requires Sane(t)
    ensures s >= PlayerSpeed
    ensures mouseHeld <==> s == PlayerSpeed * t.runFactor
    ensures !mouseHeld ==> s == PlayerSpeed
  {
    if mouseHeld then PlayerSpeed * t.runFactor else PlayerSpeed
  }

  /** The horizontal velocity after the keyboard: accelerate toward a held direction
      up to the speed cap, or lose a fraction to friction when no direction is held. */
  function HorizontalVelocity(t: Tuning, vx: real, speed: real, c: Controls): (r: real)
    requires Sane(t) && speed > 0.0
    ensures c.left ==> r >= -speed && (r == -speed || r == vx - t.accel)
    ensures !c.left && c.right ==> r <= speed && (r == speed || r == vx + t.accel)
    ensures !c.left && !c.right ==> (vx > 0.0 ==> 0.0 < r < vx) && (vx < 0.0 ==> vx < r < 0.0)
    ensures !c.left && !c.right ==> (r == 0.0 <==> vx == 0.0)
  {
    if c.left then MaxReal(vx - t.accel, -speed)
    else if c.right then MinReal(vx + t.accel, speed)
    else Damped(vx, t.friction)
  }

  /** Friction: scaling by a factor strictly between 0 and 1 keeps the sign and
      shrinks the magnitude. */
  function Damped(v: real, f: real): (r: real)
    requires 0.0 < f < 1.0
    ensures v > 0.0 ==> 0.0 < r < v
    ensures v < 0.0 ==> v < r < 0.0
    ensures r == 0.0 <==> v == 0.0
  {
    assert v > 0.0 ==> v - v * f == v * (1.0 - f);
    assert v < 0.0 ==> v * f - v == -v * (1.0 - f) && (-v) * f > 0.0;
    v * f
  }

  /** The index of the first platform that r overlaps, or |ps| when there is none. */
  function FirstOverlap(r: Rect, ps: seq<Rect>): (k: nat)
    ensures k <= |ps|
    ensures k < |ps| ==> Overlaps(r, ps[k])
    ensures forall j :: 0 <= j < k ==> !Overlaps(r, ps[j])
    decreases |ps|
  {
    if ps == [] then 0
    else if Overlaps(r, ps[0]) then 0
    else 1 + FirstOverlap(r, ps[1..])
  }

  /** Looking at one more platform moves the first overlap only when none was found. */
  lemma FirstOverlapExtend(r: Rect, ps: seq<Rect>, i: nat)
    requires i < |ps|
    ensures var k := FirstOverlap(r, ps[..i]);
      FirstOverlap(r, ps[..i + 1]) == if k < i then k else if Overlaps(r, ps[i]) then i else i + 1
  {
    var k, k' := FirstOverlap(r, ps[..i]), FirstOverlap(r, ps[..i + 1]);
    assert forall j :: 0 <= j < i ==> ps[..i + 1][j] == ps[..i][j];
  }

  /** The vertical outcome of the platform pass. */
  datatype Landing = Landing(y: int, velY: real, onGround: bool)

  /** The platform pass: a player that is falling and overlaps a platform stands on the
      first such platform with no vertical velocity; otherwise it keeps its position
      and velocity and is not on the ground. */
  function Land(r: Rect, velY: real, ps: seq<Rect>): (l: Landing)
    ensures l.onGround <==> velY > 0.0 && exists j :: 0 <= j < |ps| && Overlaps(r, ps[j])
    ensures l.onGround ==> l.velY == 0.0 && l.y + r.h == ps[FirstOverlap(r, ps)].y
    ensures l.onGround ==> forall j :: 0 <= j < FirstOverlap(r, ps) ==> !Overlaps(r, ps[j])
    ensures !l.onGround ==> l.y == r.y && l.velY == velY
  {
    var k := FirstOverlap(r, ps);
    if velY > 0.0 && k < |ps| then Landing(ps[k].y - r.h, 0.0, true)
    else Landing(r.y, velY, false)
  }

  /** The screen boundaries: a player past the left or right edge is put back on the
      edge and stopped; a player on the screen is left alone. */
  function ClampToScreen(x: int, vx: real): (h: (int, real))
    ensures 0 <= h.0 && h.0 + PlayerWidth <= ScreenWidth
    ensures x < 0 || x + PlayerWidth > ScreenWidth ==> h.1 == 0.0
    ensures 0 <= x && x + PlayerWidth <= ScreenWidth ==> h == (x, vx)
  {
    var (x1, vx1) := if x < 0 then (0, 0.0) else (x, vx);
    if x1 + PlayerWidth > ScreenWidth then (ScreenWidth - PlayerWidth, 0.0) else (x1, vx1)
  }

  // The phases of Player.update, in the order the source runs them.

  /** Mouse and keyboard: run flag, speed cap, horizontal velocity and move. */
  function Steer(t: Tuning, b: Body, c: Controls): Body
    requires Sane(t)
  {
    var speed := RunSpeed(t, c.mouseHeld);
    var vx := HorizontalVelocity(t, b.velX, speed, c);
    b.(running := c.mouseHeld, speed := speed, velX := vx, x := Trunc(b.x as real + vx))
  }

  /** One gravity step and the vertical move. */
  function Fall(t: Tuning, b: Body): Body {
    var vy := b.velY + t.gravity;
    b.(velY := vy, y := Trunc(b.y as real + vy))
  }

  /** The platform pass. */
  function Settle(b: Body, ps: seq<Rect>): Body {
    var l := Land(b.Rect(), b.velY, ps);
    b.(y := l.y, velY := l.velY, onGround := l.onGround)
  }

  function KeepOnScreen(b: Body): Body {
    var h := ClampToScreen(b.x, b.velX);
    b.(x := h.0, velX := h.1)
  }

  /** Death by falling below the screen. */
  function Respawn(b: Body): Body {
    if b.y > ScreenHeight then b.(lives := b.lives - 1, x := SpawnX, y := SpawnY, velY := 0.0, velX := 0.0)
    else b
  }

  /** The position the player tries to reach before platforms, clamp and respawn. */
  function TentativeRect(t: Tuning, b: Body, c: Controls): Rect
    requires Sane(t)
  {
    Fall(t, Steer(t, b, c)).Rect()
  }

  /** Player.update on the changed fields: speed and run flag from the mouse, the
      horizontal velocity and move, one gravity step and the vertical move, the
      platform pass, the screen clamp and the respawn after a fall, and the
      animation frame. */
  function Step(t: Tuning, b: Body, c: Controls, ps: seq<Rect>): (r: Body)
    requires Sane(t)
    ensures 0 <= r.x && r.x + PlayerWidth <= ScreenWidth
    ensures r.y <= ScreenHeight
    ensures r.speed == RunSpeed(t, c.mouseHeld) && r.running == c.mouseHeld
    ensures r.lives == b.lives || r.lives == b.lives - 1
    ensures r.lives == b.lives - 1 ==> r.x == SpawnX && r.y == SpawnY && r.velX == 0.0 && r.velY == 0.0
    ensures r.frame == b.frame + 1
  {
    Respawn(KeepOnScreen(Settle(Fall(t, Steer(t, b, c)), ps))).(frame := b.frame + 1)
  }

  /** Gravity is added exactly once per frame: the new vertical velocity is the old one
      plus gravity, unless a landing or a respawn set it to 0. */
  lemma GravityOnce(t: Tuning, b: Body, c: Controls, ps: seq<Rect>)
    requires Sane(t)
    ensures var r := Step(t, b, c, ps);
      r.velY == b.velY + t.gravity || (r.velY == 0.0 && (r.onGround || r.lives == b.lives - 1))
  {
  }

  /** A landing happens exactly when the player is falling after gravity and its
      tentative rectangle overlaps some platform; it then stands on the first one. */
  lemma {:induction false} LandsOnlyWhileFalling(t: Tuning, b: Body, c: Controls, ps: seq<Rect>)
    requires Sane(t)
    ensures var r, tr := Step(t, b, c, ps), TentativeRect(t, b, c);
      r.onGround <==> b.velY + t.gravity > 0.0 && exists j :: 0 <= j < |ps| && Overlaps(tr, ps[j])
    ensures var r, tr := Step(t, b, c, ps), TentativeRect(t, b, c);
      r.onGround && r.lives == b.lives ==> r.velY == 0.0 && r.y + PlayerHeight == ps[FirstOverlap(tr, ps)].y
  {
    var f := Fall(t, Steer(t, b, c));
    assert f.velY == b.velY + t.gravity && f.Rect() == TentativeRect(t, b, c);
    var l := Land(f.Rect(), f.velY, ps);
    assert Step(t, b, c, ps).onGround == l.onGround;
  }

  /** A fall below the screen costs exactly one life and respawns the player at (50, 500)
      at rest; no other frame changes the lives. */
  lemma {:induction false} FallCostsOneLife(t: Tuning, b: Body, c: Controls, ps: seq<Rect>)
    requires Sane(t)
    ensures var r, tr := Step(t, b, c, ps), TentativeRect(t, b, c);
      r.lives == b.lives - 1 <==> Land(tr, b.velY + t.gravity, ps).y > ScreenHeight
  {
    var f := Fall(t, Steer(t, b, c));
    assert f.velY == b.velY + t.gravity && f.Rect() == TentativeRect(t, b, c);
    var l := Land(f.Rect(), f.velY, ps);
    var r := Step(t, b, c, ps);
    assert l.y > ScreenHeight ==> r.lives == b.lives - 1;
    assert l.y <= ScreenHeight ==> r.lives == b.lives;
  }

  /** The screen clamp stops the player: when the tentative position left the screen and
      the player did not respawn, the horizontal velocity is 0. */
  lemma ClampStops(t: Tuning, b: Body, c: Controls, ps: seq<Rect>)
    requires Sane(t)
    ensures var r, tr := Step(t, b, c, ps), TentativeRect(t, b, c);
      (tr.x < 0 || tr.x + PlayerWidth > ScreenWidth) ==> r.velX == 0.0
  {
  }

  /** The speed a power-up writes into the player is gone after the next update:
      the step does not read the previous speed. */
  lemma SpeedIsRecomputed(t: Tuning, b: Body, c: Controls, ps: seq<Rect>, s: real)
    requires Sane(t)
    ensures Step(t, b.(speed := s), c, ps) == Step(t, b, c, ps)
  {
    assert Steer(t, b.(speed := s), c) == Steer(t, b, c);
  }

  /** Whether a jump takes effect. */
  predicate MayJump(t: Tuning, onGround: bool, velY: real) {
    match t.gate
    case OnGroundOnly => onGround
    case OnGroundOrBelow(limit) => onGround || velY < limit
  }

  /** Blippo. */
  class Player {
    const tuning: Tuning
    var x: int
    var y: int
    var velX: real
    var velY: real
    var onGround: bool
    var speed: real
    var running: bool
    var lives: int
    var score: int
    var frame: int
    var projectiles: seq<Projectile>

    /** The fields that Update changes, as a value. */
    function State(): Body reads this {
      Body(x, y, velX, velY, onGround, speed, running, lives, frame)
    }

    function Rect(): Geometry.Rect reads this { State().Rect() }

    constructor (x0: int, y0: int, t: Tuning)
      ensures tuning == t
      ensures State() == Body(x0, y0, 0.0, 0.0, false, PlayerSpeed, false, 3, 0)
      ensures score == 0 && projectiles == []
    {
      tuning := t;
      x, y := x0, y0;
      velX, velY := 0.0, 0.0;
      onGround := false;
      speed := PlayerSpeed;
      running := false;
      lives := 3;
      score := 0;
      frame := 0;
      projectiles := [];
    }

    /** Player.update with the controls held this frame and the rectangles of the
        static and moving platforms, in that order. */
    method Update(c: Controls, platforms: seq<Rect>)
      requires Sane(tuning)
      modifies this
      ensures State() == Step(tuning, old(State()), c, platforms)
      ensures score == old(score) && projectiles == old(projectiles)
    {
      Move(c);
      ApplyGravity();
      LandOn(platforms);
      ClampToEdges();
      CheckFall();
      frame := frame + 1;
    }

    /** Mouse controls, keyboard movement with acceleration, and the horizontal move. */
    method Move(c: Controls)
      requires Sane(tuning)
      modifies this`running, this`speed, this`velX, this`x
      ensures State() == Steer(tuning, old(State()), c)
    {
      ChooseSpeed(c);
      Accelerate(c);
      x := Trunc(x as real + velX);
    }

    /** Mouse controls: running and its speed cap while the button is held. */
    method ChooseSpeed(c: Controls)
      requires Sane(tuning)
      modifies this`running, this`speed
      ensures running == c.mouseHeld && speed == RunSpeed(tuning, c.mouseHeld)
    {
      if c.mouseHeld {
        running := true;
        speed := PlayerSpeed * tuning.runFactor;
      } else {
        running := false;
        speed := PlayerSpeed;
      }
    }

    /** Keyboard movement with acceleration, or friction. */
    method Accelerate(c: Controls)
      requires Sane(tuning) && speed > 0.0
      modifies this`velX
      ensures velX == HorizontalVelocity(tuning, old(velX), speed, c)
    {
      if c.left {
        velX := MaxReal(velX - tuning.accel, -speed);
      } else if c.right {
        velX := MinReal(velX + tuning.accel, speed);
      } else {
        velX := velX * tuning.friction;
      }
    }

    method ApplyGravity()
      modifies this`velY, this`y
      ensures State() == Fall(tuning, old(State()))
    {
      velY := velY + tuning.gravity;
      y := Trunc(y as real + velY);
    }

    /** The platform loop: the player snaps onto a platform it overlaps while falling. */
    method LandOn(platforms: seq<Rect>)
      modifies this`y, this`velY, this`onGround
      ensures State() == Settle(old(State()), platforms)
    {
      ghost var r0, vy0 := Rect(), velY;
      onGround := false;
      for i := 0 to |platforms|
        invariant Landing(y, velY, onGround) == Land(r0, vy0, platforms[..i])
      {
        FirstOverlapExtend(r0, platforms, i);
        if Overlaps(Rect(), platforms[i]) {
          if velY > 0.0 {
            y := platforms[i].y - PlayerHeight;
            velY := 0.0;
            onGround := true;
          }
        }
      }
      assert platforms[..|platforms|] == platforms;
    }

    /** The screen boundaries. */
    method ClampToEdges()
      modifies this`x, this`velX
      ensures State() == KeepOnScreen(old(State()))
    {
      if x < 0 {
        x := 0;
        velX := 0.0;
      }
      if x + PlayerWidth > ScreenWidth {
        x := ScreenWidth - PlayerWidth;
        velX := 0.0;
      }
    }

    /** Death by falling. */
    method CheckFall()
      modifies this`lives, this`x, this`y, this`velX, this`velY
      ensures State() == Respawn(old(State()))
    {
      if y > ScreenHeight {
        lives := lives - 1;
        x, y := SpawnX, SpawnY;
        velY, velX := 0.0, 0.0;
      }
    }

    /** jump: the build's gate decides; a refused jump changes nothing. */
    method Jump()
      modifies this`velY
      ensures velY == if MayJump(tuning, onGround, old(velY)) then tuning.jumpSpeed else old(velY)
    {
      if MayJump(tuning, onGround, velY) {
        velY := tuning.jumpSpeed;
      }
    }

    /** shoot: one fresh projectile at the player's centre, after the existing ones. */
    method Shoot()
      modifies this`projectiles
      ensures projectiles == old(projectiles) + [Fired(Rect().CenterX(), Rect().CenterY())]
    {
      projectiles := projectiles + [Fired(x + PlayerWidth / 2, y + PlayerHeight / 2)];
    }

    method UpdateProjectiles()
      modifies this`projectiles
      ensures projectiles == StepAll(old(projectiles))
    {
      projectiles := StepProjectiles(projectiles);
    }
  }
}
