/** The three level layouts of each build, as the data create_level builds its
    objects from. */
module Levels {
  import opened Geometry
  import opened Input
  import opened Entities
  import opened World

  datatype Option<T> = None | Some(value: T)

  datatype PlatformSpec = PlatformSpec(x: int, y: int, w: int, h: int, speed: real, limit: int)

  datatype ObstacleSpec = ObstacleSpec(x: int, y: int, w: int, h: int, kind: Behaviour, speed: real)

  datatype PowerSpec = PowerSpec(x: int, y: int, kind: PowerKind)

  /** Where Lord Zing and the caged friend are placed. */
  datatype Cast = Cast(bossX: int, bossY: int, friendX: int, friendY: int)

  /** A row of `count` coins, the i-th at (x0 + i * dx, y0 + i * dy). */
  datatype CoinLine = CoinLine(count: nat, x0: int, dx: int, y0: int, dy: int)

  datatype Layout = Layout(platforms: seq<Rect>, moving: seq<PlatformSpec>,
                           obstacles: seq<ObstacleSpec>, coins: CoinLine,
                           powerUps: seq<PowerSpec>, cast: Option<Cast>)

  /** The ground every level starts with: the bottom 50 pixels of the screen. */
  const Ground: Rect := Rect(0, ScreenHeight - 50, ScreenWidth, 50)

  const CoinSize: int := 25

  function CoinAt(line: CoinLine, i: int): Rect {
    Rect(line.x0 + i * line.dx, line.y0 + i * line.dy, CoinSize, CoinSize)
  }

  /** The rectangles of a row of coins, as create_level's loop places them: `count`
      coins of the coin size, the first at (x0, y0), each at a fixed step of (dx, dy)
      from the one before. */
  function CoinRow(line: CoinLine): (r: seq<Rect>)
    ensures |r| == line.count
    ensures |r| > 0 ==> r[0].x == line.x0 && r[0].y == line.y0
    ensures forall i :: 0 < i < |r| ==> r[i].x == r[i - 1].x + line.dx && r[i].y == r[i - 1].y + line.dy
    ensures forall i :: 0 <= i < |r| ==> r[i].w == CoinSize && r[i].h == CoinSize
  {
    CoinSteps(line);
    seq(line.count, i requires 0 <= i < line.count => CoinAt(line, i))
  }

  /** Consecutive coins of a row are one step apart. */
  lemma CoinSteps(line: CoinLine)
    ensures forall i :: 0 < i ==> CoinAt(line, i).x == CoinAt(line, i - 1).x + line.dx
    ensures forall i :: 0 < i ==> CoinAt(line, i).y == CoinAt(line, i - 1).y + line.dy
  {
    forall i | 0 < i
      ensures CoinAt(line, i).x == CoinAt(line, i - 1).x + line.dx
      ensures CoinAt(line, i).y == CoinAt(line, i - 1).y + line.dy
    {
      assert (i - 1) * line.dx == i * line.dx - line.dx;
      assert (i - 1) * line.dy == i * line.dy - line.dy;
    }
  }

  /** The first level, the same in both builds. */
  function FirstLevel(): Layout {
    Layout(
      [Ground, Rect(200, 550, 150, 20), Rect(450, 450, 150, 20), Rect(700, 350, 150, 20)],
      [PlatformSpec(350, 500, 100, 20, 1.0, 100), PlatformSpec(600, 300, 100, 20, 1.5, 80)],
      [ObstacleSpec(300, 610, 35, 35, Patrol, 1.0), ObstacleSpec(500, 400, 30, 30, Floating, 2.0)],
      CoinLine(6, 250, 150, 400, -30),
      [PowerSpec(400, 400, SpeedBoost)],
      Some(Cast(950, 200, 1000, 250)))
  }

  function CleanLayout(level: LevelNumber): Layout {
    if level == 1 then FirstLevel()
    else if level == 2 then
      Layout(
        [Ground, Rect(150, 580, 100, 20), Rect(350, 480, 80, 20), Rect(550, 380, 80, 20),
         Rect(750, 280, 80, 20), Rect(950, 180, 100, 20)],
        [PlatformSpec(250, 530, 80, 20, 2.0, 120), PlatformSpec(450, 430, 80, 20, 1.5, 100),
         PlatformSpec(650, 330, 80, 20, 2.5, 90), PlatformSpec(850, 230, 80, 20, 1.8, 110)],
        [ObstacleSpec(200, 610, 35, 35, Patrol, 2.0), ObstacleSpec(400, 610, 35, 35, Patrol, 1.5),
         ObstacleSpec(500, 340, 30, 30, Floating, 2.0), ObstacleSpec(700, 240, 30, 30, Floating, 2.0),
         ObstacleSpec(800, 610, 35, 35, Patrol, 2.5)],
        CoinLine(8, 200, 120, 450, -25),
        [PowerSpec(300, 450, JumpBoost), PowerSpec(600, 320, SpeedBoost),
         PowerSpec(800, 220, AttackBoost)],
        Some(Cast(1000, 100, 1050, 150)))
    else
      Layout(
        [Ground, Rect(100, 600, 60, 15), Rect(250, 520, 50, 15), Rect(400, 440, 50, 15),
         Rect(550, 360, 50, 15), Rect(700, 280, 50, 15), Rect(850, 200, 50, 15),
         Rect(1000, 120, 80, 15)],
        [PlatformSpec(180, 570, 60, 15, 3.0, 80), PlatformSpec(320, 490, 60, 15, 2.5, 100),
         PlatformSpec(470, 410, 60, 15, 3.5, 70), PlatformSpec(620, 330, 60, 15, 3.0, 90),
         PlatformSpec(770, 250, 60, 15, 2.8, 85), PlatformSpec(920, 170, 60, 15, 3.2, 75)],
        [ObstacleSpec(150, 610, 35, 35, Patrol, 3.0), ObstacleSpec(300, 610, 35, 35, Patrol, 2.5),
         ObstacleSpec(450, 610, 35, 35, Patrol, 3.5), ObstacleSpec(350, 450, 30, 30, Floating, 2.0),
         ObstacleSpec(500, 370, 30, 30, Floating, 2.0), ObstacleSpec(650, 290, 30, 30, Floating, 2.0),
         ObstacleSpec(800, 210, 30, 30, Floating, 2.0), ObstacleSpec(600, 610, 35, 35, Patrol, 4.0),
         ObstacleSpec(750, 610, 35, 35, Patrol, 3.2)],
        CoinLine(12, 150, 80, 500, -20),
        [PowerSpec(200, 480, JumpBoost), PowerSpec(400, 380, SpeedBoost),
         PowerSpec(600, 280, AttackBoost), PowerSpec(800, 180, JumpBoost)],
        Some(Cast(1050, 80, 1100, 90)))
  }

  /** The dev build's layouts: a thinner second level, and a third level that is only
      the ground. */
  function DevLayout(level: LevelNumber): Layout {
    if level == 1 then FirstLevel()
    else if level == 2 then
      Layout(
        [Ground, Rect(150, 580, 100, 20), Rect(350, 480, 80, 20), Rect(550, 380, 80, 20)],
        [PlatformSpec(250, 530, 80, 20, 3.0, 200), PlatformSpec(450, 430, 80, 20, 2.5, 150)],
        [ObstacleSpec(200, 610, 35, 35, Patrol, 2.0), ObstacleSpec(400, 610, 35, 35, Patrol, 1.5),
         ObstacleSpec(300, 610, 35, 35, Patrol, 2.5), ObstacleSpec(500, 610, 35, 35, Patrol, 3.0)],
        CoinLine(8, 200, 150, 450, -40),
        [PowerSpec(300, 450, JumpBoost), PowerSpec(600, 320, SpeedBoost)],
        Some(Cast(1100, 50, 1150, 100)))
    else
      Layout([Ground], [], [], CoinLine(0, 0, 0, 0, 0), [], None)
  }

  function LayoutOf(b: Build, level: LevelNumber): Layout {
    if b == Clean then CleanLayout(level) else DevLayout(level)
  }

  /** Every level of either build starts from the ground, and every clean level and
      the first two dev levels have a boss and a friend to rescue. */
  lemma EveryLevelHasGround(b: Build, level: LevelNumber)
    ensures |LayoutOf(b, level).platforms| >= 1 && LayoutOf(b, level).platforms[0] == Ground
    ensures LayoutOf(b, level).cast.Some? <==> b == Clean || level < 3
  {
  }

  /** Every coin of the clean build lies within the screen's width. */
  lemma CleanCoinsOnScreen(level: LevelNumber, i: int)
    requires 0 <= i < CleanLayout(level).coins.count
    ensures var c := CoinAt(CleanLayout(level).coins, i);
      0 <= c.x && c.x + c.w <= ScreenWidth
  {
  }

  /** The dev build doubles every obstacle's speed, and every doubled speed of its
      layouts is a whole number of pixels. */
  lemma PatrolSpeedsInDevAreWhole(level: LevelNumber, i: int)
    requires 0 <= i < |DevLayout(level).obstacles|
    ensures var s := DevLayout(level).obstacles[i].speed * 2.0;
      s >= 0.0 && s == s.Floor as real
  {
  }
}
