/** The per-tick state machine of the game loop: move, attack and score,
    chase and damage with the death reset, door opening, pickups, and the
    door transition, in that order. */
module Simulation {
  import opened Config
  import opened Geometry
  import opened Adversary
  import opened Avatar
  import opened Pickups
  import opened RoomGen

  /** The observable game state between two ticks. */
  datatype World = World(player: PlayerState, enemies: seq<EnemyState>, items: seq<Item>, score: int, doorOpen: bool)

  // ---------------------------------------------------------------------
  // The phases of one tick, as functions on World

  /** Phase 1: the avatar moves on the held arrow keys. */
  function MovePhase(w: World, keys: Keys): World {
    w.(player := w.player.(x := StepX(w.player.x, w.player.speed, keys),
                           y := StepY(w.player.y, w.player.speed, keys)))
  }

  /** Phase 2: with the space bar held the avatar swings; the struck enemies
      are removed and the score grows by their number times the attack power. */
  function AttackPhase(w: World, keys: Keys): World {
    if keys.space then
      var hb := Hitbox(w.player.x, w.player.y, keys);
      w.(enemies := Survivors(w.enemies, hb),
         score := w.score + Points(|Struck(w.enemies, hb)|, w.player.attackPower))
    else w
  }

  /** An enemy after its chase step toward the avatar at (px, py). */
  function Chase(e: EnemyState, px: int, py: int): EnemyState {
    e.(x := ChaseAxis(e.x, px), y := ChaseAxis(e.y, py))
  }

  /** After its chase step the enemy touches the avatar and its cooldown has run out. */
  predicate Strikes(e: EnemyState, px: int, py: int, now: int) {
    Overlaps(Chase(e, px, py).Box(), Rect(px, py, PlayerSize, PlayerSize)) && Ready(e.lastAttack, now)
  }

  /** An enemy after its turn: moved, and with its cooldown restarted if it struck. */
  function Pursue(e: EnemyState, px: int, py: int, now: int): EnemyState {
    if Strikes(e, px, py, now) then Chase(e, px, py).(lastAttack := now) else Chase(e, px, py)
  }

  function PursueAll(es: seq<EnemyState>, px: int, py: int, now: int): (r: seq<EnemyState>)
    ensures |r| == |es| && forall k :: 0 <= k < |es| ==> r[k] == Pursue(es[k], px, py, now)
  {
    seq(|es|, k requires 0 <= k < |es| => Pursue(es[k], px, py, now))
  }

  /** Every enemy's turn, in the terms of the game: its cooldown restarts at
      `now` exactly when it strikes and is kept otherwise, and on each axis
      its distance to the avatar falls by EnemySpeed when it was at least
      that and is kept otherwise. */
  lemma PursueLaw(es: seq<EnemyState>, px: int, py: int, now: int)
    ensures var r := PursueAll(es, px, py, now);
      |r| == |es| &&
      forall k :: 0 <= k < |es| ==>
        r[k].lastAttack == (if Strikes(es[k], px, py, now) then now else es[k].lastAttack) &&
        Dist(r[k].x, px) == (if Dist(es[k].x, px) >= EnemySpeed then Dist(es[k].x, px) - EnemySpeed else Dist(es[k].x, px)) &&
        Dist(r[k].y, py) == (if Dist(es[k].y, py) >= EnemySpeed then Dist(es[k].y, py) - EnemySpeed else Dist(es[k].y, py))
  {
  }

  /** How many of the enemies strike the avatar at (px, py) this tick. */
  function Hits(es: seq<EnemyState>, px: int, py: int, now: int): nat {
    if es == [] then 0
    else Hits(es[..|es| - 1], px, py, now) + if Strikes(es[|es| - 1], px, py, now) then 1 else 0
  }

  /** The avatar dies this tick: some enemy strikes and the strikes use up
      all its health. The game checks after each strike, so the avatar dies
      on the strike that takes its health to zero or below. */
  predicate Dies(w: World, now: int) {
    var h := Hits(w.enemies, w.player.x, w.player.y, now);
    h >= 1 && h >= w.player.health
  }

  /** Phase 3: every enemy chases and may strike. On death the avatar returns
      to the centre with full health, keeping its speed and attack power, the
      score is reset, the door closes and the next room replaces the old one. */
  function ChasePhase(w: World, now: int, next: Layout): World {
    if Dies(w, now) then
      World(w.player.(x := CenterX, y := CenterY, health := MaxHealth), next.enemies, next.items, 0, false)
    else
      w.(player := w.player.(health := w.player.health - Hits(w.enemies, w.player.x, w.player.y, now)),
         enemies := PursueAll(w.enemies, w.player.x, w.player.y, now))
  }

  /** Phase 4: a room without enemies opens its door. */
  function DoorPhase(w: World): World {
    if |w.enemies| == 0 then w.(doorOpen := true) else w
  }

  /** Phase 5: the avatar consumes every item it touches. */
  function PickupPhase(w: World): World {
    w.(player := ConsumeAll(w.player, w.items), items := Untouched(w.items, w.player.Box()))
  }

  /** The avatar stands in the doorway: its right edge is at or past the
      door's left edge and its vertical centre is strictly inside the door. */
  predicate AtDoor(p: PlayerState) {
    p.Box().Right() >= DoorLeft && DoorTop < p.Box().CenterY() < DoorBottom
  }

  /** Phase 6: through an open door the avatar enters the next room at the
      centre; the door closes and the score is kept. */
  function TransitionPhase(w: World, next: Layout): World {
    if w.doorOpen && AtDoor(w.player) then
      World(w.player.(x := CenterX, y := CenterY), next.enemies, next.items, w.score, false)
    else w
  }

  /** One tick of the game loop with the held keys, the clock reading and the
      room generated for this tick should the avatar die or leave. */
  function Step(w: World, keys: Keys, now: int, next: Layout): World {
    var w1 := MovePhase(w, keys);
    var w2 := AttackPhase(w1, keys);
    var w3 := ChasePhase(w2, now, next);
    var w4 := DoorPhase(w3);
    var w5 := PickupPhase(w4);
    TransitionPhase(w5, next)
  }

  // ---------------------------------------------------------------------
  // Properties of a tick

  /** The part of the invariant about the avatar and the score: health in
      1..MaxHealth, a speed and attack power that only pickups change, the
      avatar within the overshoot band and a non-negative score. */
  predicate StatsOk(w: World) {
    1 <= w.player.health <= MaxHealth &&
    (w.player.speed == DefaultSpeed || w.player.speed == UpgradedSpeed) &&
    (w.player.attackPower == DefaultAttackPower || w.player.attackPower == UpgradedAttackPower) &&
    InBand(w.player.x, Width, w.player.speed) && InBand(w.player.y, Height, w.player.speed) &&
    w.score >= 0
  }

  /** What holds between ticks: StatsOk, and the door is open exactly when
      the room is clear. */
  predicate Inv(w: World) {
    StatsOk(w) && (w.doorOpen <==> w.enemies == [])
  }

  /** The state the game starts in, with the first generated room. */
  function Initial(room: Layout): (w: World)
    ensures w.player.health == MaxHealth && w.score == 0 && !w.doorOpen
  {
    World(PlayerState(CenterX, CenterY, DefaultSpeed, MaxHealth, DefaultAttackPower), room.enemies, room.items, 0, false)
  }

  lemma InitialInv(room: Layout)
    requires ValidLayout(room, CenterX, CenterY)
    ensures Inv(Initial(room))
  {
  }

  /** Strikes counted on a prefix of the enemies never exceed those on all of them. */
  lemma {:induction false} HitsPrefix(es: seq<EnemyState>, i: int, px: int, py: int, now: int)
    requires 0 <= i <= |es|
    ensures Hits(es[..i], px, py, now) <= Hits(es, px, py, now)
    decreases |es| - i
  {
    if i < |es| {
      var init := es[..|es| - 1];
      HitsPrefix(init, i, px, py, now);
      assert init[..i] == es[..i];
    } else {
      assert es[..i] == es;
    }
  }

  /** One more enemy adds its own strike, if any, to the count. */
  lemma HitsStep(es: seq<EnemyState>, i: int, px: int, py: int, now: int)
    requires 0 <= i < |es|
    ensures Hits(es[..i + 1], px, py, now) == Hits(es[..i], px, py, now) + if Strikes(es[i], px, py, now) then 1 else 0
  {
    assert es[..i + 1][..i] == es[..i];
  }

  /** How pickups change the avatar's stats: health stays in 1..MaxHealth and
      speed and attack power either keep their value or take the upgraded one. */
  lemma PickupKeepsStats(p: PlayerState, items: seq<Item>)
    requires 1 <= p.health <= MaxHealth
    ensures var r := ConsumeAll(p, items);
      p.health <= r.health <= MaxHealth &&
      (r.speed == p.speed || r.speed == UpgradedSpeed) &&
      (r.attackPower == p.attackPower || r.attackPower == UpgradedAttackPower)
  {
    ConsumeAllClosedForm(p, items);
  }

  lemma MovePhaseKeeps(w: World, keys: Keys)
    requires StatsOk(w)
    ensures StatsOk(MovePhase(w, keys))
    ensures MovePhase(w, keys).enemies == w.enemies && MovePhase(w, keys).doorOpen == w.doorOpen
  {
    MoveStaysInBand(w.player.x, w.player.y, w.player.speed, keys);
  }

  lemma AttackPhaseKeeps(w: World, keys: Keys)
    requires StatsOk(w) && (w.doorOpen ==> w.enemies == [])
    ensures var s := AttackPhase(w, keys);
      StatsOk(s) && (s.doorOpen ==> s.enemies == []) && s.score >= w.score
  {
    if keys.space {
      var hb := Hitbox(w.player.x, w.player.y, keys);
      PointsIsProduct(|Struck(w.enemies, hb)|, w.player.attackPower);
      if w.enemies == [] {
        assert Survivors(w.enemies, hb) == [];
      }
    }
  }

  lemma ChasePhaseKeeps(w: World, now: int, next: Layout)
    requires StatsOk(w) && (w.doorOpen ==> w.enemies == [])
    requires ValidLayout(next, CenterX, CenterY)
    ensures var s := ChasePhase(w, now, next);
      StatsOk(s) && (s.doorOpen ==> s.enemies == [])
  {
  }

  lemma DoorPhaseOpens(w: World)
    requires StatsOk(w) && (w.doorOpen ==> w.enemies == [])
    ensures Inv(DoorPhase(w))
  {
  }

  lemma PickupPhaseKeeps(w: World)
    requires Inv(w)
    ensures Inv(PickupPhase(w))
  {
    PickupKeepsStats(w.player, w.items);
    var q := PickupPhase(w).player;
    BandWidens(w.player.x, Width, w.player.speed, q.speed);
    BandWidens(w.player.y, Height, w.player.speed, q.speed);
  }

  lemma TransitionPhaseKeeps(w: World, next: Layout)
    requires Inv(w) && ValidLayout(next, CenterX, CenterY)
    ensures Inv(TransitionPhase(w, next))
  {
  }

  /** Every tick keeps the invariant; in particular health is at least 1
      after every tick, never above MaxHealth, and the door is open exactly
      when the room has no enemies. */
  lemma StepKeepsInv(w: World, keys: Keys, now: int, next: Layout)
    requires Inv(w)
    requires ValidLayout(next, CenterX, CenterY)
    ensures Inv(Step(w, keys, now, next))
  {
    var w1 := MovePhase(w, keys);
    MovePhaseKeeps(w, keys);
    var w2 := AttackPhase(w1, keys);
    AttackPhaseKeeps(w1, keys);
    var w3 := ChasePhase(w2, now, next);
    ChasePhaseKeeps(w2, now, next);
    var w4 := DoorPhase(w3);
    DoorPhaseOpens(w3);
    var w5 := PickupPhase(w4);
    PickupPhaseKeeps(w4);
    TransitionPhaseKeeps(w5, next);
  }

  /** A tick in which the avatar dies ends with it at the centre with full
      health, a zero score, a closed door and the next room's enemies; its
      speed and attack power survive, save for what the next room's pickups
      at the centre give. */
  lemma DeathResets(w: World, keys: Keys, now: int, next: Layout)
    requires Inv(w) && ValidLayout(next, CenterX, CenterY)
    requires Dies(AttackPhase(MovePhase(w, keys), keys), now)
    ensures var s := Step(w, keys, now, next);
      s.player.x == CenterX && s.player.y == CenterY &&
      s.player.health == MaxHealth && s.score == 0 && !s.doorOpen &&
      s.enemies == next.enemies &&
      s.items == Untouched(next.items, Rect(CenterX, CenterY, PlayerSize, PlayerSize)) &&
      (s.player.speed == w.player.speed || s.player.speed == UpgradedSpeed) &&
      (s.player.attackPower == w.player.attackPower || s.player.attackPower == UpgradedAttackPower)
  {
    var w3 := ChasePhase(AttackPhase(MovePhase(w, keys), keys), now, next);
    PickupKeepsStats(w3.player, w3.items);
  }

  /** Without a death, health drops by exactly the number of strikes and the
      enemies are the survivors of the swing, each after its chase turn. */
  lemma SurvivedTick(w: World, keys: Keys, now: int, next: Layout)
    requires Inv(w) && ValidLayout(next, CenterX, CenterY)
    requires !Dies(AttackPhase(MovePhase(w, keys), keys), now)
    ensures var w2 := AttackPhase(MovePhase(w, keys), keys);
      var w3 := ChasePhase(w2, now, next);
      w3.player.health == w2.player.health - Hits(w2.enemies, w2.player.x, w2.player.y, now) >= 1 &&
      w3.enemies == PursueAll(w2.enemies, w2.player.x, w2.player.y, now) &&
      var w1 := MovePhase(w, keys);
      w3.score == w.score + (if keys.space then Points(|Struck(w1.enemies, Hitbox(w1.player.x, w1.player.y, keys))|, w.player.attackPower) else 0)
  {
  }

  /** Death and the door transition never both happen in one tick, so one
      next room per tick is enough: after a death the avatar stands at the
      centre, far from the door. */
  lemma CentreIsNotAtDoor(p: PlayerState)
    requires p.x == CenterX && p.y == CenterY
    ensures !AtDoor(p)
  {
  }

  /** Going through the door keeps score, health, speed and attack power,
      closes the door and installs the next room. */
  lemma TransitionKeepsScore(w: World, next: Layout)
    requires w.doorOpen && AtDoor(w.player)
    ensures var s := TransitionPhase(w, next);
      s.score == w.score && s.player.health == w.player.health &&
      s.player.speed == w.player.speed && s.player.attackPower == w.player.attackPower &&
      s.player.x == CenterX && s.player.y == CenterY &&
      !s.doorOpen && s.enemies == next.enemies && s.items == next.items
  {
  }

  /** The door never opens while enemies remain: after any tick from a state
      satisfying the invariant, an open door means an empty room. */
  lemma DoorOpensOnlyWhenCleared(w: World, keys: Keys, now: int, next: Layout)
    requires Inv(w) && ValidLayout(next, CenterX, CenterY)
    ensures Step(w, keys, now, next).doorOpen ==> Step(w, keys, now, next).enemies == []
  {
    StepKeepsInv(w, keys, now, next);
  }

  /** A concrete swing: the avatar at the centre with one enemy 50 pixels
      above it, holding up and space. The up move takes the avatar to
      y = 295, the upward strip then covers the enemy, which is removed for
      one point, and the now empty room opens its door. */
  lemma ScenarioUpSwingKills(next: Layout)
    ensures var w := World(PlayerState(CenterX, CenterY, DefaultSpeed, MaxHealth, DefaultAttackPower),
                           [EnemyState(400, 250, 0)], [], 0, false);
      var s := Step(w, Keys(true, false, false, false, true), 0, next);
      s.score == 1 && s.enemies == [] && s.doorOpen && s.player.y == 295 && s.player.health == MaxHealth
  {
    var w := World(PlayerState(CenterX, CenterY, DefaultSpeed, MaxHealth, DefaultAttackPower),
                   [EnemyState(400, 250, 0)], [], 0, false);
    var keys := Keys(true, false, false, false, true);
    var w1 := MovePhase(w, keys);
    var hb := Hitbox(w1.player.x, w1.player.y, keys);
    assert hb == Rect(400, 235, 20, 60);
    assert [EnemyState(400, 250, 0)][..0] == [];
    assert Struck([EnemyState(400, 250, 0)], hb) == [EnemyState(400, 250, 0)];
    assert Survivors([EnemyState(400, 250, 0)], hb) == [];
  }

  /** The same swing against an enemy 60 pixels below misses: the score stays
      0, the enemy survives and, still out of reach, closes in by 2 pixels. */
  lemma ScenarioUpSwingMisses(next: Layout)
    ensures var w := World(PlayerState(CenterX, CenterY, DefaultSpeed, MaxHealth, DefaultAttackPower),
                           [EnemyState(400, 360, 0)], [], 0, false);
      var s := Step(w, Keys(true, false, false, false, true), 0, next);
      s.score == 0 && s.enemies == [EnemyState(400, 358, 0)] && !s.doorOpen && s.player.health == MaxHealth
  {
    var w := World(PlayerState(CenterX, CenterY, DefaultSpeed, MaxHealth, DefaultAttackPower),
                   [EnemyState(400, 360, 0)], [], 0, false);
    var keys := Keys(true, false, false, false, true);
    var w1 := MovePhase(w, keys);
    var hb := Hitbox(w1.player.x, w1.player.y, keys);
    var e := EnemyState(400, 360, 0);
    assert [e][..0] == [];
    assert Struck([e], hb) == [];
    assert Survivors([e], hb) == [e];
    assert Hits([e], 400, 295, 0) == 0;
  }

  // ---------------------------------------------------------------------
  // The running game

  class Game {
    const player: Player
    var enemies: seq<Enemy>
    var items: seq<Item>
    var score: int
    var doorOpen: bool

    function State(): World
      reads this, player, set e | e in enemies
    {
      World(player.View(), Views(enemies), items, score, doorOpen)
    }

    /** A new game in the first generated room: the avatar at the centre with
        default stats, score 0 and the door closed. */
    constructor (room: Room)
      ensures enemies == room.enemies && fresh(player)
      ensures State() == Initial(RoomView(room))
    {
      player := new Player(CenterX, CenterY);
      enemies, items := room.enemies, room.items;
      score, doorOpen := 0, false;
    }

    /** One tick: the state after it is Step of the state before it. */
    method Tick(keys: Keys, now: int, next: Room)
      requires Distinct(enemies) && Distinct(next.enemies)
      requires forall e :: e in next.enemies ==> e !in enemies
      modifies this, player, set e | e in enemies
      ensures State() == Step(old(State()), keys, now, old(RoomView(next)))
      ensures Distinct(enemies)
      ensures forall e :: e in enemies ==> e in old(enemies) || e in next.enemies
    {
      ghost var fv := RoomView(next);
      ghost var w0 := State();
      player.Move(keys);
      ghost var w1 := State();
      assert w1 == MovePhase(w0, keys);
      Swing(keys);
      ghost var w2 := State();
      assert w2 == AttackPhase(w1, keys);
      assert RoomView(next) == fv;
      Pursuit(now, next);
      ghost var w3 := State();
      assert w3 == ChasePhase(w2, now, fv);
      OpenDoorIfCleared();
      ghost var w4 := State();
      assert w4 == DoorPhase(w3);
      assert RoomView(next) == fv;
      CollectPickups();
      ghost var w5 := State();
      assert w5 == PickupPhase(w4);
      assert RoomView(next) == fv;
      TakeDoor(next);
      assert State() == TransitionPhase(w5, fv);
    }

    /** Phase 2 of a tick: with the space bar held the avatar attacks and the
        points it earns are added to the score. */
    method Swing(keys: Keys)
      modifies this`enemies, this`score
      ensures Views(enemies) == AttackPhase(old(State()), keys).enemies
      ensures score == AttackPhase(old(State()), keys).score
      ensures forall e :: e in enemies ==> e in old(enemies)
      ensures old(Distinct(enemies)) ==> Distinct(enemies)
    {
      if !keys.space {
        return;
      }
      var rest, gained := player.Attack(enemies, keys);
      enemies := rest;
      score := score + gained;
    }

    /** Phase 3 of a tick: each enemy in turn chases the avatar and, touching
        it with its cooldown run out, strikes for one point of health. The
        strike that takes health to zero or below resets the game into the
        next room and ends the phase. */
    method Pursuit(now: int, next: Room)
      requires Distinct(enemies)
      requires forall e :: e in next.enemies ==> e !in enemies
      modifies this, player, set e | e in enemies
      ensures State() == ChasePhase(old(State()), now, old(RoomView(next)))
      ensures enemies == old(enemies) || enemies == next.enemies
      ensures Distinct(enemies) || enemies == next.enemies
    {
      var died := ChaseAll(now);
      if !died {
        return;
      }
      Die(next);
    }

    /** The enemies' turns of phase 3, up to the strike that uses up the
        avatar's health; `died` tells whether that strike came. Until then
        the avatar only loses health and each enemy has taken its turn. */
    method ChaseAll(now: int) returns (died: bool)
      requires Distinct(enemies)
      modifies player`health, set e | e in enemies
      ensures var h := Hits(old(Views(enemies)), player.x, player.y, now);
        died == (h >= 1 && h >= old(player.health))
      ensures !died ==> player.health == old(player.health) - Hits(old(Views(enemies)), player.x, player.y, now)
      ensures !died ==> Views(enemies) == PursueAll(old(Views(enemies)), player.x, player.y, now)
    {
      var es := enemies;
      ghost var vs := Views(es);
      ghost var h0 := player.health;
      ghost var px, py := player.x, player.y;
      ghost var hits := 0;
      var i := 0;
      assert vs[..0] == [];
      while i < |es|
        invariant 0 <= i <= |es|
        invariant hits == Hits(vs[..i], px, py, now) && player.health == h0 - hits
        invariant !(hits >= 1 && hits >= h0)
        invariant forall k :: 0 <= k < |es| ==> es[k].View() == if k < i then Pursue(vs[k], px, py, now) else vs[k]
      {
        var e := es[i];
        HitsStep(vs, i, px, py, now);
        assert e.View() == vs[i];
        var struck := EnemyTurn(e, now);
        assert struck == Strikes(vs[i], px, py, now);
        hits := hits + if struck then 1 else 0;
        if struck {
          player.health := player.health - 1;
          if player.health <= 0 {
            HitsPrefix(vs, i + 1, px, py, now);
            return true;
          }
        }
        i := i + 1;
      }
      assert vs[..i] == vs;
      assert Views(es) == PursueAll(vs, px, py, now);
      return false;
    }

    /** One enemy's turn: it chases the avatar and, when it then touches the
        avatar, asks its cooldown gate whether it may strike. */
    method EnemyTurn(e: Enemy, now: int) returns (struck: bool)
      modifies e
      ensures struck == Strikes(old(e.View()), player.x, player.y, now)
      ensures e.View() == Pursue(old(e.View()), player.x, player.y, now)
    {
      e.MoveToward(player.x, player.y);
      struck := false;
      if Overlaps(e.Box(), player.Box()) {
        struck := e.CanAttack(now);
      }
    }

    /** The death reset: the avatar returns to the centre with full health,
        the score is cleared, the door closes and the next room is installed;
        speed and attack power are kept. */
    method Die(next: Room)
      modifies this, player`x, player`y, player`health
      ensures player.View() == old(player.View()).(x := CenterX, y := CenterY, health := MaxHealth)
      ensures enemies == next.enemies && items == next.items && score == 0 && !doorOpen
    {
      player.x, player.y := CenterX, CenterY;
      enemies, items := next.enemies, next.items;
      score := 0;
      player.health := MaxHealth;
      doorOpen := false;
    }

    /** Phase 4 of a tick: a room without enemies opens its door. */
    method OpenDoorIfCleared()
      modifies this`doorOpen
      ensures State() == DoorPhase(old(State()))
    {
      if |enemies| == 0 {
        doorOpen := true;
      }
    }

    /** Phase 6 of a tick: through the open door into the next room. */
    method TakeDoor(next: Room)
      modifies this, player`x, player`y
      ensures State() == TransitionPhase(old(State()), old(RoomView(next)))
      ensures enemies == old(enemies) || enemies == next.enemies
    {
      if doorOpen && AtDoor(player.View()) {
        player.x, player.y := CenterX, CenterY;
        enemies, items := next.enemies, next.items;
        doorOpen := false;
      }
    }

    /** Phase 5 of a tick: every item the avatar touches takes effect and is
        removed; the others stay, in order. */
    method CollectPickups()
      modifies this`items, player`health, player`attackPower, player`speed
      ensures State() == PickupPhase(old(State()))
    {
      var all := items;
      ghost var p0 := player.View();
      var kept: seq<Item> := [];
      var i := 0;
      assert all[..0] == [];
      while i < |all|
        invariant 0 <= i <= |all|
        invariant player.View() == ConsumeAll(p0, all[..i])
        invariant kept == Untouched(all[..i], p0.Box())
      {
        var it := all[i];
        assert all[..i + 1][..i] == all[..i];
        if Overlaps(player.Box(), it.Box()) {
          if it.kind == Health && player.health < MaxHealth {
            player.health := player.health + 1;
          } else if it.kind == Attack {
            player.attackPower := UpgradedAttackPower;
          } else if it.kind == Speed {
            player.speed := UpgradedSpeed;
          }
        } else {
          kept := kept + [it];
        }
        i := i + 1;
      }
      assert all[..i] == all;
      items := kept;
    }
  }
}
