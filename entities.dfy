/** The entities whose code is the same in both builds: projectiles, the boss Lord Zing,
    the caged friend, coins and power-ups, and what picking items up adds up to. */
module Entities {
  import opened Geometry

  /** No object appears twice in a list. */
  predicate Distinct<T(==)>(s: seq<T>) {
    forall i, j :: 0 <= i < j < |s| ==> s[i] != s[j]
  }

  // ---------------------------------------------------------------------------
  // Projectiles

  const ProjectileLife: int := 30
  const ProjectileStep: int := 15

  /** A projectile: position, remaining frames of life, and whether it hit the boss. */
  datatype Projectile = Projectile(x: int, y: int, life: int, hit: bool)

  /** A projectile as Player.shoot creates it at the player's centre. */
  function Fired(cx: int, cy: int): Projectile {
    Projectile(cx, cy, ProjectileLife, false)
  }

  /** One frame of flight: a projectile that has not hit moves 15 to the right, and
      every projectile loses one frame of life. */
  function Advanced(p: Projectile): Projectile {
    p.(x := if p.hit then p.x else p.x + ProjectileStep, life := p.life - 1)
  }

  /** update_projectiles: advance every projectile, drop those whose life reached 0. */
  function StepAll(ps: seq<Projectile>): (r: seq<Projectile>)
    ensures |r| <= |ps|
    ensures forall q :: q in r ==> q.life > 0
    decreases |ps|
  {
    if ps == [] then []
    else
      var q := Advanced(ps[|ps| - 1]);
      StepAll(ps[..|ps| - 1]) + (if q.life > 0 then [q] else [])
  }

  /** The projectiles that outlive the next frame, in their order. */
  function Survivors(ps: seq<Projectile>): (r: seq<Projectile>)
    ensures |r| <= |ps|
    ensures forall p :: p in r <==> p in ps && p.life > 1
    decreases |ps|
  {
    if ps == [] then []
    else
      var p := ps[|ps| - 1];
      Survivors(ps[..|ps| - 1]) + (if p.life > 1 then [p] else [])
  }

  function AdvanceEach(ps: seq<Projectile>): seq<Projectile> {
    seq(|ps|, i requires 0 <= i < |ps| => Advanced(ps[i]))
  }

  /** Reference reading of update_projectiles: keep exactly the projectiles with more
      than one frame of life, in order, and advance each of them. */
  lemma {:induction false} StepAllIsAdvancedSurvivors(ps: seq<Projectile>)
    ensures StepAll(ps) == AdvanceEach(Survivors(ps))
    decreases |ps|
  {
    if ps != [] {
      var init, p := ps[..|ps| - 1], ps[|ps| - 1];
      StepAllIsAdvancedSurvivors(init);
      var s := Survivors(init);
      if p.life > 1 {
        assert AdvanceEach(s + [p]) == AdvanceEach(s) + [Advanced(p)];
      } else {
        assert s + [] == s;
      }
    }
  }

  /** update_projectiles as the source runs it: iterate over a copy of the list,
      update each projectile where it stands, and remove it from the live list once its
      life is used up. The element removed by `list.remove` is the current projectile
      itself: every earlier element still in the list survived, so it has life > 0. */
  method StepProjectiles(ps: seq<Projectile>) returns (live: seq<Projectile>)
    ensures live == StepAll(ps)
  {
    live := ps;
    var k := 0;
    for i := 0 to |ps|
      invariant k <= |live| && |live| - k == |ps| - i
      invariant live[..k] == StepAll(ps[..i])
      invariant live[k..] == ps[i..]
    {
      StepAllSnoc(ps, i);
      assert live[k] == live[k..][0] == ps[i..][0] == ps[i];
      var proj := live[k];
      if !proj.hit {
        proj := proj.(x := proj.x + ProjectileStep);
      }
      proj := proj.(life := proj.life - 1);
      assert proj == Advanced(ps[i]);
      ghost var before := live;
      if proj.life <= 0 {
        live := live[..k] + live[k + 1..];
        assert live[..k] == before[..k];
        assert live[k..] == before[k + 1..] == before[k..][1..];
      } else {
        live := live[k := proj];
        assert live[..k + 1] == before[..k] + [proj];
        assert live[k + 1..] == before[k + 1..] == before[k..][1..];
        k := k + 1;
      }
    }
    assert ps[..|ps|] == ps;
    assert live == live[..k];
  }

  lemma StepAllSnoc(ps: seq<Projectile>, i: nat)
    requires i < |ps|
    ensures var q := Advanced(ps[i]);
      StepAll(ps[..i + 1]) == StepAll(ps[..i]) + (if q.life > 0 then [q] else [])
  {
    assert ps[..i + 1][..i] == ps[..i];
  }

  /** The projectiles after n frames of flight. */
  function Flown(ps: seq<Projectile>, n: nat): seq<Projectile> {
    if n == 0 then ps else StepAll(Flown(ps, n - 1))
  }

  /** A freshly fired projectile is in flight for 29 further frames, 15 to the right per
      frame, and is gone after the 30th. */
  lemma {:induction false} FiredProjectileFlight(cx: int, cy: int, n: nat)
    ensures Flown([Fired(cx, cy)], n) ==
      if n < ProjectileLife then [Projectile(cx + ProjectileStep * n, cy, ProjectileLife - n, false)]
      else []
  {
    if n > 0 {
      FiredProjectileFlight(cx, cy, n - 1);
      if n - 1 < ProjectileLife {
        var p := Projectile(cx + ProjectileStep * (n - 1), cy, ProjectileLife - (n - 1), false);
        assert Flown([Fired(cx, cy)], n) == StepAll([p]);
        assert [p][..0] == [];
        assert Advanced(p) == Projectile(cx + ProjectileStep * n, cy, ProjectileLife - n, false) by {
          assert ProjectileStep * (n - 1) + ProjectileStep == ProjectileStep * n;
        }
      } else {
        assert Flown([Fired(cx, cy)], n) == StepAll([]);
      }
    }
  }

  // ---------------------------------------------------------------------------
  // Lord Zing

  datatype BossStatus = BossStatus(health: int, defeated: bool)

  const FreshBoss: BossStatus := BossStatus(3, false)

  /** take_damage on a status value. */
  function AfterHit(s: BossStatus): BossStatus {
    var h := s.health - 1;
    BossStatus(h, s.defeated || h <= 0)
  }

  function AfterHits(s: BossStatus, n: nat): BossStatus {
    if n == 0 then s else AfterHit(AfterHits(s, n - 1))
  }

  /** n hits take exactly n off the health; the boss is defeated after them exactly
      when it already was, or when its health reached 0 or less on the way. */
  lemma {:induction false} HitsTaken(s: BossStatus, n: nat)
    ensures AfterHits(s, n).health == s.health - n
    ensures AfterHits(s, n).defeated <==> s.defeated || (n > 0 && s.health - n <= 0)
  {
    if n > 0 {
      HitsTaken(s, n - 1);
    }
  }

  /** A fresh boss (health 3) is defeated by the third hit and not before. */
  lemma FreshBossFallsOnThirdHit(n: nat)
    ensures AfterHits(FreshBoss, n).defeated <==> n >= 3
    ensures AfterHits(FreshBoss, n).health == 3 - n
  {
    HitsTaken(FreshBoss, n);
  }

  /** Defeat is never undone, however many hits follow. */
  lemma DefeatIsFinal(s: BossStatus, n: nat)
    requires s.defeated
    ensures AfterHits(s, n).defeated
  {
    HitsTaken(s, n);
  }

  /** Lord Zing: an 80 by 100 rectangle with health and a defeated flag. */
  class LordZing {
    var x: int
    var y: int
    const originX: int
    const originY: int
    var health: int
    var defeated: bool

    constructor (x0: int, y0: int)
      ensures x == x0 && y == y0 && originX == x0 && originY == y0
      ensures Status() == FreshBoss
    {
      x, y := x0, y0;
      originX, originY := x0, y0;
      health, defeated := 3, false;
    }

    function Rect(): Geometry.Rect reads this { Geometry.Rect(x, y, 80, 100) }

    function Status(): BossStatus reads this { BossStatus(health, defeated) }

    method TakeDamage()
      modifies this`health, this`defeated
      ensures Status() == AfterHit(old(Status()))
    {
      health := health - 1;
      if health <= 0 {
        defeated := true;
      }
    }

    /** Stands in for LordZing.update: the sine-driven position is an input, and the
        boss stops moving once defeated. */
    method Follow(nx: int, ny: int)
      modifies this`x, this`y
      ensures old(defeated) ==> x == old(x) && y == old(y)
      ensures !old(defeated) ==> x == nx && y == ny
    {
      if !defeated {
        x, y := nx, ny;
      }
    }
  }

  // ---------------------------------------------------------------------------
  // The caged friend

  /** The six bars of the cage around a friend placed at (x, y). */
  function CageBars(x: int, y: int): seq<Rect> {
    seq(6, i requires 0 <= i < 6 => Rect(x - 20 + i * 15, y - 20, 5, 95))
  }

  class Friend {
    var x: int
    var y: int
    var rescued: bool
    var cageBars: seq<Rect>

    constructor (x0: int, y0: int)
      ensures x == x0 && y == y0 && !rescued && cageBars == CageBars(x0, y0)
    {
      x, y := x0, y0;
      rescued := false;
      var bars := [];
      for i := 0 to 6
        invariant bars == CageBars(x0, y0)[..i]
      {
        bars := bars + [Rect(x0 - 20 + i * 15, y0 - 20, 5, 95)];
      }
      cageBars := bars;
    }

    /** rescue: sets the flag and removes the bars; the result does not depend on the
        previous state, so a second rescue changes nothing. */
    method Rescue()
      modifies this`rescued, this`cageBars
      ensures rescued && cageBars == []
    {
      rescued := true;
      cageBars := [];
    }
  }

  // ---------------------------------------------------------------------------
  // Coins and power-ups

  class Coin {
    const rect: Rect
    var collected: bool

    constructor (x: int, y: int)
      ensures rect == Rect(x, y, 25, 25) && !collected
    {
      rect := Rect(x, y, 25, 25);
      collected := false;
    }
  }

  datatype PowerKind = SpeedBoost | JumpBoost | AttackBoost

  class PowerUp {
    const rect: Rect
    const kind: PowerKind
    var collected: bool

    constructor (x: int, y: int, k: PowerKind)
      ensures rect == Rect(x, y, 30, 30) && kind == k && !collected
    {
      rect := Rect(x, y, 30, 30);
      kind := k;
      collected := false;
    }
  }

  // Views of the pickups as the pickup passes read them: entry i belongs to item i.

  function CoinFlags(cs: seq<Coin>): (r: seq<bool>)
    reads cs
    ensures |r| == |cs|
  {
    seq(|cs|, i requires 0 <= i < |cs| reads cs => cs[i].collected)
  }

  function CoinRects(cs: seq<Coin>): (r: seq<Rect>)
    ensures |r| == |cs|
  {
    seq(|cs|, i requires 0 <= i < |cs| => cs[i].rect)
  }

  function PowerUpFlags(ps: seq<PowerUp>): (r: seq<bool>)
    reads ps
    ensures |r| == |ps|
  {
    seq(|ps|, i requires 0 <= i < |ps| reads ps => ps[i].collected)
  }

  function PowerUpRects(ps: seq<PowerUp>): (r: seq<Rect>)
    ensures |r| == |ps|
  {
    seq(|ps|, i requires 0 <= i < |ps| => ps[i].rect)
  }

  function PowerUpKinds(ps: seq<PowerUp>): (r: seq<PowerKind>)
    ensures |r| == |ps|
  {
    seq(|ps|, i requires 0 <= i < |ps| => ps[i].kind)
  }

  /** Number of items not yet collected that overlap the player's rectangle. */
  function NewPickups(flags: seq<bool>, rects: seq<Rect>, pr: Rect): nat
    requires |flags| == |rects|
    decreases |flags|
  {
    if flags == [] then 0
    else
      var n := |flags| - 1;
      NewPickups(flags[..n], rects[..n], pr) + (if !flags[n] && Overlaps(pr, rects[n]) then 1 else 0)
  }

  /** Whether a not yet collected item of kind k overlaps the player's rectangle. */
  function NewPickupOfKind(flags: seq<bool>, rects: seq<Rect>, kinds: seq<PowerKind>, pr: Rect, k: PowerKind): bool
    requires |flags| == |rects| == |kinds|
    decreases |flags|
  {
    if flags == [] then false
    else
      var n := |flags| - 1;
      NewPickupOfKind(flags[..n], rects[..n], kinds[..n], pr, k) || (!flags[n] && Overlaps(pr, rects[n]) && kinds[n] == k)
  }

  /** The collected flags after one pickup pass. */
  function AfterPickup(flags: seq<bool>, rects: seq<Rect>, pr: Rect): seq<bool>
    requires |flags| == |rects|
  {
    seq(|flags|, i requires 0 <= i < |flags| => flags[i] || Overlaps(pr, rects[i]))
  }

  function CountCollected(flags: seq<bool>): (n: nat)
    ensures n <= |flags|
    decreases |flags|
  {
    if flags == [] then 0
    else CountCollected(flags[..|flags| - 1]) + (if flags[|flags| - 1] then 1 else 0)
  }

  /** What a pass gains is exactly the growth in the number of collected items. */
  lemma {:induction false} PickupGainIsNewlyCollected(flags: seq<bool>, rects: seq<Rect>, pr: Rect)
    requires |flags| == |rects|
    ensures CountCollected(AfterPickup(flags, rects, pr)) == CountCollected(flags) + NewPickups(flags, rects, pr)
    decreases |flags|
  {
    if flags != [] {
      var n := |flags| - 1;
      assert AfterPickup(flags, rects, pr)[..n] == AfterPickup(flags[..n], rects[..n], pr);
      PickupGainIsNewlyCollected(flags[..n], rects[..n], pr);
    }
  }

  /** An item already collected never scores again: a second pass at the same spot
      gains nothing. */
  lemma {:induction false} PickupIsIdempotent(flags: seq<bool>, rects: seq<Rect>, pr: Rect)
    requires |flags| == |rects|
    ensures NewPickups(AfterPickup(flags, rects, pr), rects, pr) == 0
    decreases |flags|
  {
    if flags != [] {
      var n := |flags| - 1;
      assert AfterPickup(flags, rects, pr)[..n] == AfterPickup(flags[..n], rects[..n], pr);
      PickupIsIdempotent(flags[..n], rects[..n], pr);
    }
  }

  /** The flags after one pickup pass per player position in `frames`. */
  function AfterFrames(flags: seq<bool>, rects: seq<Rect>, frames: seq<Rect>): (r: seq<bool>)
    requires |flags| == |rects|
    ensures |r| == |flags|
    decreases |frames|
  {
    if frames == [] then flags else AfterFrames(AfterPickup(flags, rects, frames[0]), rects, frames[1..])
  }

  /** Total gained over the frames. */
  function GainedOver(flags: seq<bool>, rects: seq<Rect>, frames: seq<Rect>): nat
    requires |flags| == |rects|
    decreases |frames|
  {
    if frames == [] then 0
    else NewPickups(flags, rects, frames[0]) + GainedOver(AfterPickup(flags, rects, frames[0]), rects, frames[1..])
  }

  /** Over any number of frames, the items gained are the items collected at the end
      minus those collected at the start: no more than the items that were left. */
  lemma {:induction false} GainedOverFrames(flags: seq<bool>, rects: seq<Rect>, frames: seq<Rect>)
    requires |flags| == |rects|
    ensures GainedOver(flags, rects, frames) == CountCollected(AfterFrames(flags, rects, frames)) - CountCollected(flags)
    ensures GainedOver(flags, rects, frames) <= |flags| - CountCollected(flags)
    decreases |frames|
  {
    if frames != [] {
      PickupGainIsNewlyCollected(flags, rects, frames[0]);
      GainedOverFrames(AfterPickup(flags, rects, frames[0]), rects, frames[1..]);
    }
  }
}
