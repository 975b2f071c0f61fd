/** Pickups: the three item kinds and the effect each has on the avatar. */
module Pickups {
  import opened Config
  import opened Geometry
  import opened Avatar

  datatype Kind = Health | Attack | Speed

  /** An item lying in the room; items never change, they are only removed. */
  datatype Item = Item(x: int, y: int, kind: Kind) {
    function Box(): Rect { Rect(x, y, ItemSize, ItemSize) }
  }

  /** The effect of consuming one item of kind k. A health item heals one
      point unless health is already at the cap; attack and speed items set
      their stat to its upgraded value. The position never changes. */
  function Apply(p: PlayerState, k: Kind): (r: PlayerState)
    ensures r.x == p.x && r.y == p.y
    ensures k != Health ==> r.health == p.health
    ensures k == Health ==> r.health == if p.health < MaxHealth then p.health + 1 else p.health
    ensures p.health <= MaxHealth ==> p.health <= r.health <= MaxHealth
    ensures r.attackPower == if k == Attack then UpgradedAttackPower else p.attackPower
    ensures r.speed == if k == Speed then UpgradedSpeed else p.speed
  {
    match k
    case Health => if p.health < MaxHealth then p.(health := p.health + 1) else p
    case Attack => p.(attackPower := UpgradedAttackPower)
    case Speed => p.(speed := UpgradedSpeed)
  }

  /** Attack and speed items set rather than add: a second one changes nothing. */
  lemma UpgradeIdempotent(p: PlayerState, k: Kind)
    requires k != Health
    ensures Apply(Apply(p, k), k) == Apply(p, k)
  {
  }

  /** A health item consumed at full health has no effect at all. */
  lemma HealthAtCapIsNoop(p: PlayerState)
    requires p.health >= MaxHealth
    ensures Apply(p, Health) == p
  {
  }

  /** The avatar after consuming, in order, every item of `items` that
      overlaps its box (which consuming does not move). */
  function ConsumeAll(p: PlayerState, items: seq<Item>): (r: PlayerState)
    ensures r.x == p.x && r.y == p.y
  {
    if items == [] then p
    else
      var q := ConsumeAll(p, items[..|items| - 1]);
      var it := items[|items| - 1];
      if Overlaps(q.Box(), it.Box()) then Apply(q, it.kind) else q
  }

  /** The items the avatar at box b does not touch, in order. */
  function Untouched(items: seq<Item>, b: Rect): (r: seq<Item>)
    ensures |r| <= |items|
  {
    if items == [] then []
    else
      var rest := Untouched(items[..|items| - 1], b);
      var it := items[|items| - 1];
      if Overlaps(b, it.Box()) then rest else rest + [it]
  }

  /** How many items of kind k the box b touches. */
  function CountTouched(items: seq<Item>, b: Rect, k: Kind): nat {
    if items == [] then 0
    else
      var it := items[|items| - 1];
      CountTouched(items[..|items| - 1], b, k) + if Overlaps(b, it.Box()) && it.kind == k then 1 else 0
  }

  function Min(a: int, b: int): int { if a < b then a else b }

  /** Consuming a room's items in closed form: health gains one per touched
      health item up to the cap, and attack power and speed are upgraded
      exactly when at least one item of their kind is touched. */
  lemma {:induction false} ConsumeAllClosedForm(p: PlayerState, items: seq<Item>)
    requires p.health <= MaxHealth
    ensures var r := ConsumeAll(p, items);
      r.health == Min(MaxHealth, p.health + CountTouched(items, p.Box(), Health)) &&
      r.attackPower == (if CountTouched(items, p.Box(), Attack) > 0 then UpgradedAttackPower else p.attackPower) &&
      r.speed == (if CountTouched(items, p.Box(), Speed) > 0 then UpgradedSpeed else p.speed)
  {
    if items != [] {
      ConsumeAllClosedForm(p, items[..|items| - 1]);
    }
  }

  /** Every touched item is removed and every other item is kept. */
  lemma {:induction false} UntouchedSelects(items: seq<Item>, b: Rect)
    ensures forall it :: it in Untouched(items, b) <==> it in items && !Overlaps(b, it.Box())
  {
    if items != [] {
      UntouchedSelects(items[..|items| - 1], b);
      assert items == items[..|items| - 1] + [items[|items| - 1]];
    }
  }

  /** Picking up twice is picking up once: the touched items are gone, so a
      second pass over what is left changes neither the items nor the avatar. */
  lemma {:induction false} ConsumeIdempotent(p: PlayerState, items: seq<Item>)
    ensures Untouched(Untouched(items, p.Box()), p.Box()) == Untouched(items, p.Box())
    ensures ConsumeAll(p, Untouched(items, p.Box())) == p
  {
    if items != [] {
      var init := items[..|items| - 1];
      var it := items[|items| - 1];
      ConsumeIdempotent(p, init);
      var u := Untouched(init, p.Box());
      if !Overlaps(p.Box(), it.Box()) {
        assert Untouched(items, p.Box()) == u + [it];
        assert (u + [it])[..|u|] == u;
        assert ConsumeAll(p, u + [it]) == p;
      }
    }
  }
}
