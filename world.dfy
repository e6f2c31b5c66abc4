/** The moving scenery: platforms that swing back and forth inside
    a range around where they were placed, and obstacles that either patrol along the
    ground or float in place. */
module World {
  import opened Geometry

  // ---------------------------------------------------------------- platforms

  /** MovingPlatform.update on the horizontal position and heading. When the step
      would leave the range it turns round and stops on the bound it would have
      crossed; otherwise it takes the step. */
  function PlatformStep(x: int, d: Dir, origin: int, speed: real, limit: int): (r: (int, Dir))
    ensures r.1 != d <==> AbsReal(x as real + d.Along(speed) - origin as real) > limit as real
    ensures r.1 != d ==> r.0 == (if x as real + d.Along(speed) > (origin + limit) as real
                                 then origin + limit else origin - limit)
    ensures r.1 == d ==> r.0 == Trunc(x as real + d.Along(speed))
    ensures limit >= 0 ==> Abs(r.0 - origin) <= limit
  {
    var ahead := x as real + d.Along(speed);
    if AbsReal(ahead - origin as real) > limit as real then
      if ahead > (origin + limit) as real then (origin + limit, d.Flip())
      else (origin - limit, d.Flip())
    else
      TruncBetween(ahead, origin - limit, origin + limit);
      (Trunc(ahead), d)
  }

  /** A platform inside its range never jumps: it ends a frame less than one pixel
      more than its speed away from where it started. */
  lemma PlatformMovesAtMostItsSpeed(x: int, d: Dir, origin: int, speed: real, limit: int)
    requires speed >= 0.0 && Abs(x - origin) <= limit
    ensures var r := PlatformStep(x, d, origin, speed, limit);
      (Abs(r.0 - x) as real) < speed + 1.0
  {
  }

  /** The dev build's MovingPlatform.update, given the step it takes this frame (its
      speed times the random factor). It turns round when the step would reach the
      range, not only when it would leave it, and then moves only if the step would
      have crossed a bound. */
  function DevPlatformStep(x: int, d: Dir, origin: int, step: real, limit: int): (r: (int, Dir))
    ensures r.1 != d <==> AbsReal(x as real + d.Along(step) - origin as real) >= limit as real
    ensures r.1 != d && x as real + d.Along(step) > (origin + limit) as real ==> r.0 == origin + limit
    ensures r.1 != d && limit >= 0 && x as real + d.Along(step) < (origin - limit) as real ==>
      r.0 == origin - limit
    ensures r.1 == d ==> r.0 == Trunc(x as real + d.Along(step))
    ensures Abs(x - origin) <= limit ==> Abs(r.0 - origin) <= limit
  {
    var ahead := x as real + d.Along(step);
    if AbsReal(ahead - origin as real) >= limit as real then
      if ahead > (origin + limit) as real then (origin + limit, d.Flip())
      else if ahead < (origin - limit) as real then (origin - limit, d.Flip())
      else (x, d.Flip())
    else
      TruncBetween(ahead, origin - limit, origin + limit);
      (Trunc(ahead), d)
  }

  /** A dev platform whose step would end exactly on a bound turns round where it is,
      so it never reaches that bound. */
  lemma DevPlatformTurnsShortOfTheBound(x: int, d: Dir, origin: int, step: real, limit: int)
    requires AbsReal(x as real + d.Along(step) - origin as real) == limit as real
    ensures DevPlatformStep(x, d, origin, step, limit) == (x, d.Flip())
  {
  }

  /** Which of the two programs a scenery object belongs to. */
  datatype Build = Clean | Dev

  /** A moving platform's frame in either build: position, heading and move timer.
      Whatever the dev build's random factor, a platform inside its range stays
      inside it; a clean platform moves less than its speed plus one pixel; only the
      dev build counts the frame. */
  function PlatformNext(b: Build, x: int, d: Dir, timer: int, origin: int, speed: real,
                        limit: int, factor: real): (r: (int, Dir, int))
    ensures Abs(x - origin) <= limit ==> Abs(r.0 - origin) <= limit
    ensures b == Clean && speed >= 0.0 && Abs(x - origin) <= limit ==> (Abs(r.0 - x) as real) < speed + 1.0
    ensures b == Clean ==> r.2 == timer
    ensures b == Dev ==> r.2 == timer + 1
  {
    if b == Clean then
      var s := PlatformStep(x, d, origin, speed, limit); (s.0, s.1, timer)
    else
      var s := DevPlatformStep(x, d, origin, speed * factor, limit); (s.0, s.1, timer + 1)
  }

  class MovingPlatform {
    const build: Build
    var x: int
    const y: int
    const width: int
    const height: int
    const originX: int
    const speed: real
    var direction: Dir
    const rangeLimit: int
    var moveTimer: int

    constructor (b: Build, x0: int, y0: int, w: int, h: int, s: real, limit: int)
      ensures build == b && x == x0 && y == y0 && width == w && height == h
      ensures originX == x0 && speed == s && direction == Right && rangeLimit == limit
      ensures moveTimer == 0
    {
      build, x, y, width, height := b, x0, y0, w, h;
      originX, speed, direction, rangeLimit, moveTimer := x0, s, Right, limit, 0;
    }

    function Rect(): Rect reads this { Geometry.Rect(x, y, width, height) }

    predicate InRange() reads this { Abs(x - originX) <= rangeLimit }

    /** One frame. `factor` is the dev build's random speed factor; the clean build
        does not use it. */
    method Update(factor: real)
      modifies this`x, this`direction, this`moveTimer
      ensures (x, direction, moveTimer) ==
        PlatformNext(build, old(x), old(direction), old(moveTimer), originX, speed, rangeLimit, factor)
      ensures old(InRange()) ==> InRange()
    {
      if build == Clean {
        Swing(speed, false);
      } else {
        moveTimer := moveTimer + 1;
        Swing(speed * factor, true);
      }
    }

    /** One step of `step` pixels; `early` is the dev build's turn on reaching the
        bound rather than on passing it. */
    method Swing(step: real, early: bool)
      modifies this`x, this`direction
      ensures !early ==> (x, direction) == PlatformStep(old(x), old(direction), originX, step, rangeLimit)
      ensures early ==> (x, direction) == DevPlatformStep(old(x), old(direction), originX, step, rangeLimit)
    {
      var ahead := x as real + direction.Along(step);
      var reaches := if early then AbsReal(ahead - originX as real) >= rangeLimit as real
                     else AbsReal(ahead - originX as real) > rangeLimit as real;
      if reaches {
        direction := direction.Flip();
        if ahead > (originX + rangeLimit) as real {
          x := originX + rangeLimit;
        } else if ahead < (originX - rangeLimit) as real {
          x := originX - rangeLimit;
        }
      } else {
        x := Trunc(ahead);
      }
    }
  }

  // ---------------------------------------------------------------- obstacles

  const PatrolRange: int := 200

  datatype Behaviour = Patrol | Floating

  /** A speed that is a whole, non-negative number of pixels. */
  predicate Whole(speed: real) { speed >= 0.0 && speed == speed.Floor as real }

  /** Where one step at a non-negative speed ends: on the side of its heading, less
      than the speed plus one pixel away. */
  lemma StepBounds(x: int, d: Dir, speed: real)
    ensures var nx := Trunc(x as real + d.Along(speed));
      speed >= 0.0 ==>
        && (d == Right ==> x <= nx && (nx - x) as real < speed + 1.0)
        && (d == Left ==> nx <= x && (x - nx) as real < speed + 1.0)
  {
  }

  /** At a whole-numbered speed the truncation takes nothing: the step is exact. */
  lemma WholeStep(x: int, d: Dir, k: int)
    ensures Trunc(x as real + d.Along(k as real)) == if d == Right then x + k else x - k
  {
    var nx := if d == Right then x + k else x - k;
    assert x as real + d.Along(k as real) == nx as real;
    TruncWhole(nx);
  }

  /** Inside the patrol range, or less than `reach` past one end of it and heading
      back. */
  predicate InBand(x: int, d: Dir, origin: int, reach: real) {
    var off := x - origin;
    && (off > PatrolRange ==> (off - PatrolRange) as real < reach && d == Left)
    && (off < -PatrolRange ==> (-PatrolRange - off) as real < reach && d == Right)
  }

  /** MovingObstacle.update for a patrolling obstacle, as written: take the step, then
      turn round whenever the obstacle ends up more than 200 from its origin. It moves
      less than its speed plus one pixel, and at a whole-numbered speed it keeps its
      band: within that reach of its range, heading back whenever outside. */
  function PatrolStep(x: int, d: Dir, origin: int, speed: real): (r: (int, Dir))
    ensures speed >= 0.0 ==> (Abs(r.0 - x) as real) < speed + 1.0
    ensures Whole(speed) && InBand(x, d, origin, speed + 1.0) ==> InBand(r.0, r.1, origin, speed + 1.0)
  {
    StepBounds(x, d, speed);
    WholeStep(x, d, speed.Floor);
    var nx := Trunc(x as real + d.Along(speed));
    (nx, if Abs(nx - origin) > PatrolRange then d.Flip() else d)
  }

  /** The corrected patrol step: when the obstacle ends up outside its range it heads
      back towards its origin, instead of reversing whatever its heading was. At any
      non-negative speed it keeps the band; see WholeSpeedStepAgrees for whole-numbered
      speeds. */
  function HomewardPatrolStep(x: int, d: Dir, origin: int, speed: real): (r: (int, Dir))
    ensures speed >= 0.0 ==> (Abs(r.0 - x) as real) < speed + 1.0
    ensures speed >= 0.0 && InBand(x, d, origin, speed + 1.0) ==> InBand(r.0, r.1, origin, speed + 1.0)
  {
    StepBounds(x, d, speed);
    WholeStep(x, d, speed.Floor);
    var nx := Trunc(x as real + d.Along(speed));
    (nx, if Abs(nx - origin) <= PatrolRange then d else if nx > origin then Left else Right)
  }

  function PatrolAfter(x: int, d: Dir, origin: int, speed: real, n: nat): (int, Dir) {
    if n == 0 then (x, d)
    else
      var p := PatrolAfter(x, d, origin, speed, n - 1);
      PatrolStep(p.0, p.1, origin, speed)
  }

  function HomewardPatrolAfter(x: int, d: Dir, origin: int, speed: real, n: nat): (int, Dir) {
    if n == 0 then (x, d)
    else
      var p := HomewardPatrolAfter(x, d, origin, speed, n - 1);
      HomewardPatrolStep(p.0, p.1, origin, speed)
  }

  /** With the correction, a patrol placed at its origin stays within its speed plus
      one pixel of its range for ever, whatever its speed. */
  lemma {:induction false} HomewardPatrolBandForever(origin: int, speed: real, n: nat)
    requires speed >= 0.0
    ensures var p := HomewardPatrolAfter(origin, Right, origin, speed, n);
      InBand(p.0, p.1, origin, speed + 1.0)
  {
    if n > 0 {
      HomewardPatrolBandForever(origin, speed, n - 1);
    }
  }

  /** Inside the band and at a whole-numbered speed the corrected step is the step of
      the code as written. */
  lemma WholeSpeedStepAgrees(x: int, d: Dir, origin: int, speed: real)
    ensures Whole(speed) && InBand(x, d, origin, speed + 1.0) ==>
      HomewardPatrolStep(x, d, origin, speed) == PatrolStep(x, d, origin, speed)
  {
    StepBounds(x, d, speed);
    WholeStep(x, d, speed.Floor);
  }

  /** For a whole-numbered speed the code as written already keeps the band. */
  lemma {:induction false} WholeSpeedPatrolBandForever(origin: int, k: nat, n: nat)
    ensures var p := PatrolAfter(origin, Right, origin, k as real, n);
      InBand(p.0, p.1, origin, k as real + 1.0)
  {
    if n > 0 {
      WholeSpeedPatrolBandForever(origin, k, n - 1);
      assert Whole(k as real);
    }
  }

  // The patrol placed at x = 800 with speed 2.5 in the second level, as written.
  // Truncation makes its steps 2 pixels to the right and 3 to the left.

  lemma {:induction false} PatrolComposes(x: int, d: Dir, origin: int, speed: real, a: nat, b: nat)
    ensures var p := PatrolAfter(x, d, origin, speed, a);
      PatrolAfter(x, d, origin, speed, a + b) == PatrolAfter(p.0, p.1, origin, speed, b)
    decreases b
  {
    if b > 0 {
      PatrolComposes(x, d, origin, speed, a, b - 1);
    }
  }

  /** One frame of the drifting patrol heading right inside its range: 2 pixels. */
  lemma RisingStep(x: int)
    requires 800 <= x <= 998
    ensures PatrolStep(x, Right, 800, 2.5) == (x + 2, Right)
  {
    assert x as real + Right.Along(2.5) == (x + 2) as real + 0.5;
    TruncHalf(x + 2);
  }

  /** One frame of the drifting patrol heading left inside its range: 3 pixels. */
  lemma FallingStep(x: int)
    requires 603 <= x <= 1002
    ensures PatrolStep(x, Left, 800, 2.5) == (x - 3, Left)
  {
    assert x as real + Left.Along(2.5) == (x - 3) as real + 0.5;
    TruncHalf(x - 3);
  }

  lemma {:induction false} DriftingPatrolRises(j: nat)
    requires j <= 100
    ensures PatrolAfter(800, Right, 800, 2.5, j) == (800 + 2 * j, Right)
  {
    if j > 0 {
      DriftingPatrolRises(j - 1);
      RisingStep(800 + 2 * (j - 1));
    }
  }

  lemma {:induction false} DriftingPatrolFalls(j: nat)
    requires j <= 134
    ensures PatrolAfter(1002, Left, 800, 2.5, j) == (1002 - 3 * j, Left)
  {
    if j > 0 {
      DriftingPatrolFalls(j - 1);
      FallingStep(1002 - 3 * (j - 1));
    }
  }

  /** Two frames of the drifting patrol once it is out of range on the left: 3 pixels
      further left, a turn, 2 pixels back and a turn again. */
  lemma StrayPair(x: int)
    requires 3 <= x <= 600
    ensures PatrolAfter(x, Left, 800, 2.5, 2) == (x - 1, Left)
  {
    assert x as real + Left.Along(2.5) == (x - 3) as real + 0.5;
    TruncHalf(x - 3);
    assert PatrolStep(x, Left, 800, 2.5) == (x - 3, Right);
    assert (x - 3) as real + Right.Along(2.5) == (x - 1) as real + 0.5;
    TruncHalf(x - 1);
    assert PatrolStep(x - 3, Right, 800, 2.5) == (x - 1, Left);
    assert PatrolAfter(x, Left, 800, 2.5, 1) == (x - 3, Right);
  }

  /** Once it is 200 to the left of its origin, each pair of frames moves it one more
      pixel to the left: turning round twice undoes nothing the truncation took. */
  lemma {:induction false} DriftingPatrolDrifts(n: nat)
    requires n <= 597
    ensures PatrolAfter(600, Left, 800, 2.5, 2 * n) == (600 - n, Left)
  {
    if n > 0 {
      DriftingPatrolDrifts(n - 1);
      PatrolComposes(600, Left, 800, 2.5, 2 * (n - 1), 2);
      StrayPair(600 - (n - 1));
    }
  }

  /** As written, the second level's last patrol leaves its band for good: 1035 frames
      after it is placed it is 600 pixels from its origin and still heading away. */
  lemma PatrolAsWrittenEscapes()
    ensures PatrolAfter(800, Right, 800, 2.5, 1035) == (200, Left)
    ensures !InBand(200, Left, 800, 3.5)
  {
    DriftingPatrolRises(100);
    PatrolComposes(800, Right, 800, 2.5, 100, 1);
    assert Trunc(1002.5) == 1002;
    assert PatrolAfter(800, Right, 800, 2.5, 101) == (1002, Left);
    DriftingPatrolFalls(134);
    PatrolComposes(800, Right, 800, 2.5, 101, 134);
    DriftingPatrolDrifts(400);
    PatrolComposes(800, Right, 800, 2.5, 235, 800);
  }

  // The dev build's obstacles: they move only on every third frame, but check their
  // range on every frame, and the range is 300.

  const DevPatrolRange: int := 300

  /** Inside the range, or at most `k` past one end of it with the heading that the
      turn on every frame gives at this point of the three-frame cycle. */
  predicate DevInBand(x: int, d: Dir, frames: nat, origin: int, k: nat) {
    var off := x - origin;
    && (off > DevPatrolRange ==>
          off - DevPatrolRange <= k && d == (if frames % 3 == 1 then Right else Left))
    && (off < -DevPatrolRange ==>
          -DevPatrolRange - off <= k && d == (if frames % 3 == 1 then Left else Right))
  }

  /** The dev build's MovingObstacle.update for a patrol, on position, heading and frame
      counter. It counts the frame and moves only when the count is a multiple of
      three, by less than its speed plus one pixel; with a whole-numbered speed k it
      stays within k of its range. */
  function DevPatrolStep(x: int, d: Dir, frames: nat, origin: int, speed: real): (r: (int, Dir, nat))
    ensures r.2 == frames + 1
    ensures r.2 % 3 != 0 ==> r.0 == x
    ensures speed >= 0.0 ==> (Abs(r.0 - x) as real) < speed + 1.0
    ensures Whole(speed) && DevInBand(x, d, frames, origin, speed.Floor) ==>
      DevInBand(r.0, r.1, r.2, origin, speed.Floor)
  {
    StepBounds(x, d, speed);
    WholeStep(x, d, speed.Floor);
    var nx := if (frames + 1) % 3 == 0 then Trunc(x as real + d.Along(speed)) else x;
    (nx, if Abs(nx - origin) > DevPatrolRange then d.Flip() else d, frames + 1)
  }

  function DevPatrolAfter(x: int, d: Dir, frames: nat, origin: int, speed: real, n: nat): (int, Dir, nat) {
    if n == 0 then (x, d, frames)
    else
      var p := DevPatrolAfter(x, d, frames, origin, speed, n - 1);
      DevPatrolStep(p.0, p.1, p.2, origin, speed)
  }

  /** With a whole-numbered speed k, a dev patrol placed at its origin stays within k
      of its range for ever. */
  lemma {:induction false} DevPatrolBandForever(origin: int, k: nat, n: nat)
    ensures var p := DevPatrolAfter(origin, Right, 0, origin, k as real, n);
      DevInBand(p.0, p.1, p.2, origin, k)
  {
    if n > 0 {
      DevPatrolBandForever(origin, k, n - 1);
      assert Whole(k as real);
    }
  }

  /** An obstacle's frame in either build: position, heading and frame counter.
      Floating obstacles stay where they are. A clean patrol keeps its band at any
      non-negative speed and, at a whole-numbered speed, takes the step of the code
      as written; a dev patrol with a whole-numbered speed keeps the dev band. */
  function ObstacleNext(b: Build, kind: Behaviour, x: int, d: Dir, frames: nat, origin: int,
                        speed: real): (r: (int, Dir, nat))
    ensures kind == Floating ==> r.0 == x && r.1 == d
    ensures b == Clean ==> r.2 == frames
    ensures b == Dev ==> r.2 == frames + 1
    ensures b == Clean && kind == Patrol && speed >= 0.0 && InBand(x, d, origin, speed + 1.0) ==>
      InBand(r.0, r.1, origin, speed + 1.0)
    ensures b == Clean && kind == Patrol && Whole(speed) && InBand(x, d, origin, speed + 1.0) ==>
      (r.0, r.1) == PatrolStep(x, d, origin, speed)
    ensures b == Dev && kind == Patrol && Whole(speed) && DevInBand(x, d, frames, origin, speed.Floor) ==>
      DevInBand(r.0, r.1, r.2, origin, speed.Floor)
  {
    if kind == Floating then (x, d, if b == Dev then frames + 1 else frames)
    else if b == Clean then
      WholeSpeedStepAgrees(x, d, origin, speed);
      var s := HomewardPatrolStep(x, d, origin, speed); (s.0, s.1, frames)
    else DevPatrolStep(x, d, frames, origin, speed)
  }

  /** How far a dev patrol's hit test reaches beyond the player's rectangle. */
  const DevHitPadding: int := 10

  class MovingObstacle {
    const build: Build
    var x: int
    const y: int
    const width: int
    const height: int
    const behaviour: Behaviour
    const speed: real
    var direction: Dir
    const originX: int
    var frameCount: nat
    const hitPadding: int

    /** The dev build doubles the speed it is given and pads its hit test. */
    constructor (b: Build, x0: int, y0: int, w: int, h: int, kind: Behaviour, s: real)
      ensures build == b && x == x0 && y == y0 && width == w && height == h
      ensures behaviour == kind && direction == Right && originX == x0 && frameCount == 0
      ensures speed == (if b == Dev then s * 2.0 else s)
      ensures hitPadding == (if b == Dev then DevHitPadding else 0)
      ensures InPatrolBand()
    {
      build, x, y, width, height := b, x0, y0, w, h;
      behaviour, direction, originX, frameCount := kind, Right, x0, 0;
      speed := if b == Dev then s * 2.0 else s;
      hitPadding := if b == Dev then DevHitPadding else 0;
    }

    function Rect(): Rect reads this { Geometry.Rect(x, y, width, height) }

    /** A clean patrol is within its speed plus one pixel of its range, heading back
        when outside it; a dev patrol with a whole-numbered speed is within that speed
        of its range. */
    predicate InPatrolBand() reads this {
      behaviour == Patrol ==>
        if build == Clean then speed >= 0.0 ==> InBand(x, direction, originX, speed + 1.0)
        else Whole(speed) ==> DevInBand(x, direction, frameCount, originX, speed.Floor)
    }

    /** One frame, with the corrected patrol step in the clean build. */
    method Update()
      modifies this`x, this`direction, this`frameCount
      ensures (x, direction, frameCount) ==
        ObstacleNext(build, behaviour, old(x), old(direction), old(frameCount), originX, speed)
      ensures old(InPatrolBand()) ==> InPatrolBand()
    {
      if build == Dev {
        frameCount := frameCount + 1;
      }
      if behaviour == Patrol {
        if build == Clean {
          PatrolHomeward();
        } else {
          PatrolEveryThirdFrame();
        }
      }
    }

    method PatrolHomeward()
      requires build == Clean && behaviour == Patrol
      modifies this`x, this`direction
      ensures (x, direction) == HomewardPatrolStep(old(x), old(direction), originX, speed)
      ensures old(InPatrolBand()) ==> InPatrolBand()
    {
      x := Trunc(x as real + direction.Along(speed));
      if Abs(x - originX) > PatrolRange {
        direction := if x > originX then Left else Right;
      }
    }

    /** The dev patrol after its frame counter has been advanced. */
    method PatrolEveryThirdFrame()
      requires build == Dev && behaviour == Patrol && frameCount > 0
      modifies this`x, this`direction
      ensures (x, direction, frameCount) ==
        DevPatrolStep(old(x), old(direction), frameCount - 1, originX, speed)
      ensures Whole(speed) && DevInBand(old(x), old(direction), frameCount - 1, originX, speed.Floor) ==>
        InPatrolBand()
    {
      if frameCount % 3 == 0 {
        x := Trunc(x as real + direction.Along(speed));
      }
      if Abs(x - originX) > DevPatrolRange {
        direction := direction.Flip();
      }
    }
  }
}
