/** The player-controlled avatar: guarded movement and the directional melee attack. */
module Avatar {
  import opened Config
  import opened Geometry
  import opened Adversary

  /** The keys held during one tick (arrow keys and the space bar). */
  datatype Keys = Keys(up: bool, down: bool, left: bool, right: bool, space: bool)

  /** The observable state of the avatar. */
  datatype PlayerState = PlayerState(x: int, y: int, speed: int, health: int, attackPower: int) {
    function Box(): Rect { Rect(x, y, PlayerSize, PlayerSize) }
  }

  /** The vertical part of a move. Up is applied first, when the top edge is
      below the top of the screen; down is then tested on the updated
      position, when the bottom edge is above the bottom of the screen. */
  function StepY(y: int, speed: int, keys: Keys): int {
    var y1 := if keys.up && y > 0 then y - speed else y;
    if keys.down && y1 + PlayerSize < Height then y1 + speed else y1
  }

  /** The horizontal part of a move: left, then right, each guarded like StepY. */
  function StepX(x: int, speed: int, keys: Keys): int {
    var x1 := if keys.left && x > 0 then x - speed else x;
    if keys.right && x1 + PlayerSize < Width then x1 + speed else x1
  }

  /** A coordinate within the arena of size `limit`, allowing the overshoot
      a guarded move at `speed` permits: the guard is no clamp, so a step
      that starts one pixel inside an edge ends speed - 1 pixels past it. */
  predicate InBand(c: int, limit: int, speed: int) {
    -(speed - 1) <= c && c + PlayerSize <= limit + speed - 1
  }

  /** A faster avatar has the wider band: an upgrade of speed keeps it inside. */
  lemma BandWidens(c: int, limit: int, speed: int, faster: int)
    requires speed <= faster && InBand(c, limit, speed)
    ensures InBand(c, limit, faster)
  {
  }

  /** Every held arrow key moves its coordinate by exactly `speed` or not at
      all, and a coordinate whose keys are not held stays put. */
  lemma MoveDelta(x: int, y: int, speed: int, keys: Keys)
    ensures var dy := StepY(y, speed, keys) - y;
      dy == -speed || dy == 0 || dy == speed
    ensures var dx := StepX(x, speed, keys) - x;
      dx == -speed || dx == 0 || dx == speed
    ensures !keys.up && !keys.down ==> StepY(y, speed, keys) == y
    ensures !keys.left && !keys.right ==> StepX(x, speed, keys) == x
    ensures keys.up && !keys.down ==> StepY(y, speed, keys) == if y > 0 then y - speed else y
    ensures keys.down && !keys.up ==> StepY(y, speed, keys) == if y + PlayerSize < Height then y + speed else y
    ensures keys.left && !keys.right ==> StepX(x, speed, keys) == if x > 0 then x - speed else x
    ensures keys.right && !keys.left ==> StepX(x, speed, keys) == if x + PlayerSize < Width then x + speed else x
  {
  }

  /** Moves at `speed` keep the avatar within speed - 1 pixels of the arena
      on every side. */
  lemma MoveStaysInBand(x: int, y: int, speed: int, keys: Keys)
    requires 0 < speed
    requires InBand(x, Width, speed) && InBand(y, Height, speed)
    ensures InBand(StepX(x, speed, keys), Width, speed) && InBand(StepY(y, speed, keys), Height, speed)
  {
  }

  /** The guard is not a clamp: from one pixel below the top edge an up move
      of speed 5 leaves the avatar four pixels above the screen. */
  lemma MoveOvershoots()
    ensures StepY(1, DefaultSpeed, Keys(true, false, false, false, false)) == -4
  {
  }

  /** The attack hitbox for an avatar whose top-left corner is (x, y). The
      first held arrow key in the order up, down, left, right picks a strip
      three avatar sizes long, flush against that side of the avatar; with
      no arrow key the hitbox is a square three avatar sizes wide centred on
      the avatar's top-left corner (not on its centre). */
  function Hitbox(x: int, y: int, keys: Keys): (r: Rect)
    ensures keys.up ==>
      r.x == x && r.w == PlayerSize && r.h == 3 * PlayerSize && r.Bottom() == y
    ensures !keys.up && keys.down ==>
      r.x == x && r.w == PlayerSize && r.h == 3 * PlayerSize && r.y == y + PlayerSize
    ensures !keys.up && !keys.down && keys.left ==>
      r.y == y && r.h == PlayerSize && r.w == 3 * PlayerSize && r.Right() == x
    ensures !keys.up && !keys.down && !keys.left && keys.right ==>
      r.y == y && r.h == PlayerSize && r.w == 3 * PlayerSize && r.x == x + PlayerSize
    ensures !keys.up && !keys.down && !keys.left && !keys.right ==>
      r.w == 3 * PlayerSize && r.h == 3 * PlayerSize && r.x + r.w / 2 == x && r.y + r.h / 2 == y
  {
    if keys.up then Rect(x, y - PlayerSize * 3, PlayerSize, PlayerSize * 3)
    else if keys.down then Rect(x, y + PlayerSize, PlayerSize, PlayerSize * 3)
    else if keys.left then Rect(x - PlayerSize * 3, y, PlayerSize * 3, PlayerSize)
    else if keys.right then Rect(x + PlayerSize, y, PlayerSize * 3, PlayerSize)
    else Rect(x - PlayerSize * 3 / 2, y - PlayerSize * 3 / 2, PlayerSize * 3, PlayerSize * 3)
  }

  /** The enemies an attack with hitbox `hb` leaves standing, in order. */
  function Survivors(es: seq<EnemyState>, hb: Rect): (r: seq<EnemyState>)
    ensures |r| <= |es|
  {
    if es == [] then []
    else
      var rest := Survivors(es[..|es| - 1], hb);
      var e := es[|es| - 1];
      if Overlaps(hb, e.Box()) then rest else rest + [e]
  }

  /** The enemies an attack with hitbox `hb` removes, in order. */
  function Struck(es: seq<EnemyState>, hb: Rect): (r: seq<EnemyState>)
    ensures |r| <= |es|
  {
    if es == [] then []
    else
      var rest := Struck(es[..|es| - 1], hb);
      var e := es[|es| - 1];
      if Overlaps(hb, e.Box()) then rest + [e] else rest
  }

  /** An attack leaves standing exactly the enemies that do not overlap the
      hitbox, and strikes exactly those that do. */
  lemma {:induction false} AttackSelects(es: seq<EnemyState>, hb: Rect)
    ensures forall e :: e in Survivors(es, hb) <==> e in es && !Overlaps(hb, e.Box())
    ensures forall e :: e in Struck(es, hb) <==> e in es && Overlaps(hb, e.Box())
  {
    if es != [] {
      AttackSelects(es[..|es| - 1], hb);
      assert es == es[..|es| - 1] + [es[|es| - 1]];
    }
  }

  /** An attack splits the enemies into those struck and those left, with
      nothing lost or duplicated. */
  lemma {:induction false} AttackPartitions(es: seq<EnemyState>, hb: Rect)
    ensures multiset(Survivors(es, hb)) + multiset(Struck(es, hb)) == multiset(es)
    ensures |Survivors(es, hb)| + |Struck(es, hb)| == |es|
  {
    if es != [] {
      AttackPartitions(es[..|es| - 1], hb);
      assert es == es[..|es| - 1] + [es[|es| - 1]];
    }
  }

  /** An enemy inside the hitbox joins the struck ones. */
  lemma StepHit(vs: seq<EnemyState>, i: int, hb: Rect)
    requires 0 <= i < |vs| && Overlaps(hb, vs[i].Box())
    ensures Survivors(vs[..i + 1], hb) == Survivors(vs[..i], hb)
    ensures Struck(vs[..i + 1], hb) == Struck(vs[..i], hb) + [vs[i]]
  {
    assert vs[..i + 1][..i] == vs[..i];
  }

  /** An enemy outside the hitbox joins the survivors. */
  lemma StepMiss(vs: seq<EnemyState>, i: int, hb: Rect)
    requires 0 <= i < |vs| && !Overlaps(hb, vs[i].Box())
    ensures Survivors(vs[..i + 1], hb) == Survivors(vs[..i], hb) + [vs[i]]
    ensures Struck(vs[..i + 1], hb) == Struck(vs[..i], hb)
  {
    assert vs[..i + 1][..i] == vs[..i];
  }

  lemma DistinctAppend(es: seq<Enemy>, e: Enemy)
    requires Distinct(es) && e !in es
    ensures Distinct(es + [e])
  {
  }

  lemma ViewsAppend(es: seq<Enemy>, e: Enemy)
    ensures Views(es + [e]) == Views(es) + [e.View()]
  {
    assert (es + [e])[..|es|] == es;
  }

  /** The points a swing earns for `kills` struck enemies: the attack power
      once per enemy struck. */
  function Points(kills: nat, power: int): int {
    if kills == 0 then 0 else Points(kills - 1, power) + power
  }

  /** A swing earns the number of enemies struck times the attack power. */
  lemma {:induction false} PointsIsProduct(kills: nat, power: int)
    ensures Points(kills, power) == kills * power
  {
    if kills > 0 {
      PointsIsProduct(kills - 1, power);
    }
  }

  /** The avatar. */
  class Player {
    var x: int
    var y: int
    var speed: int
    var health: int
    var attackPower: int

    /** A fresh avatar at (x0, y0) with default speed, full health and attack power 1. */
    constructor (x0: int, y0: int)
      ensures View() == PlayerState(x0, y0, DefaultSpeed, MaxHealth, DefaultAttackPower)
    {
      x, y := x0, y0;
      speed, health, attackPower := DefaultSpeed, MaxHealth, DefaultAttackPower;
    }

    function View(): PlayerState
      reads this
    {
      PlayerState(x, y, speed, health, attackPower)
    }

    function Box(): Rect
      reads this
    {
      Rect(x, y, PlayerSize, PlayerSize)
    }

    /** Moves by `speed` for each held arrow key whose edge is still inside
        the screen, testing each guard on the position the earlier keys left. */
    method Move(keys: Keys)
      modifies this`x, this`y
      ensures x == StepX(old(x), speed, keys) && y == StepY(old(y), speed, keys)
    {
      if keys.up && y > 0 {
        y := y - speed;
      }
      if keys.down && y + PlayerSize < Height {
        y := y + speed;
      }
      if keys.left && x > 0 {
        x := x - speed;
      }
      if keys.right && x + PlayerSize < Width {
        x := x + speed;
      }
    }

    /** Swings at `enemies`: returns the enemies left standing, in order and
        without the struck ones, and the points the swing earns, which are
        the number struck times the attack power. */
    method Attack(enemies: seq<Enemy>, keys: Keys) returns (remaining: seq<Enemy>, gained: int)
      ensures Views(remaining) == Survivors(Views(enemies), Hitbox(x, y, keys))
      ensures gained == Points(|Struck(Views(enemies), Hitbox(x, y, keys))|, attackPower)
      ensures forall e :: e in remaining ==> e in enemies
      ensures Distinct(enemies) ==> Distinct(remaining)
    {
      var hb := Hitbox(x, y, keys);
      ghost var vs := Views(enemies);
      remaining, gained := [], 0;
      ghost var kills: nat := 0;
      var i := 0;
      assert vs[..0] == [];
      while i < |enemies|
        invariant 0 <= i <= |enemies|
        invariant Views(remaining) == Survivors(vs[..i], hb)
        invariant kills == |Struck(vs[..i], hb)| && gained == Points(kills, attackPower)
        invariant forall e :: e in remaining ==> e in enemies[..i]
        invariant Distinct(enemies) ==> Distinct(remaining)
      {
        var e := enemies[i];
        assert vs[i] == e.View();
        if Overlaps(hb, e.Box()) {
          StepHit(vs, i, hb);
          gained, kills := gained + attackPower, kills + 1;
        } else {
          StepMiss(vs, i, hb);
          ViewsAppend(remaining, e);
          if Distinct(enemies) {
            assert e !in enemies[..i];
            DistinctAppend(remaining, e);
          }
          remaining := remaining + [e];
        }
        i := i + 1;
      }
      assert vs[..i] == vs;
    }
  }
}
