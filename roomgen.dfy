/** Room population: enemies placed by rejection sampling away from the
    avatar's spawn point, and a handful of items. The random draws are
    inputs: the enemy count, the stream of candidate enemy positions and the
    item draws. */
module RoomGen {
  import opened Config
  import opened Adversary
  import opened Pickups

  datatype Point = Point(x: int, y: int)

  /** Strictly farther than SpawnClearance from (sx, sy), compared on squared
      distances, which for integers gives the same answer as comparing the
      square root with SpawnClearance. */
  predicate FarFromSpawn(p: Point, sx: int, sy: int) {
    (p.x - sx) * (p.x - sx) + (p.y - sy) * (p.y - sy) > SpawnClearance * SpawnClearance
  }

  /** The range of a drawn enemy position: its box lies inside the arena. */
  predicate EnemyInArena(x: int, y: int) {
    0 <= x <= Width - EnemySize && 0 <= y <= Height - EnemySize
  }

  /** The range of a drawn item position. */
  predicate ItemInArena(it: Item) {
    0 <= it.x <= Width - ItemSize && 0 <= it.y <= Height - ItemSize
  }

  /** The candidates the rejection test accepts, in the order drawn. */
  function Admitted(cands: seq<Point>, sx: int, sy: int): (r: seq<Point>)
    ensures |r| <= |cands|
    ensures forall p :: p in r ==> p in cands && FarFromSpawn(p, sx, sy)
  {
    if cands == [] then []
    else
      var rest := Admitted(cands[..|cands| - 1], sx, sy);
      var p := cands[|cands| - 1];
      if FarFromSpawn(p, sx, sy) then rest + [p] else rest
  }

  /** The rejection test is exact: a drawn candidate is accepted exactly when
      it is far enough from the spawn point. */
  lemma {:induction false} AdmittedSelects(cands: seq<Point>, sx: int, sy: int)
    ensures forall p :: p in Admitted(cands, sx, sy) <==> p in cands && FarFromSpawn(p, sx, sy)
  {
    if cands != [] {
      AdmittedSelects(cands[..|cands| - 1], sx, sy);
      assert cands == cands[..|cands| - 1] + [cands[|cands| - 1]];
    }
  }

  /** What the test accepts from a prefix of the draws is a prefix of what it
      accepts from all of them. */
  lemma {:induction false} AdmittedPrefix(cands: seq<Point>, j: int, sx: int, sy: int)
    requires 0 <= j <= |cands|
    ensures Admitted(cands[..j], sx, sy) <= Admitted(cands, sx, sy)
    decreases |cands| - j
  {
    if j < |cands| {
      var init := cands[..|cands| - 1];
      AdmittedPrefix(init, j, sx, sy);
      assert init[..j] == cands[..j];
    } else {
      assert cands[..j] == cands;
    }
  }

  /** A generated room: its enemies and its items. */
  datatype Room = Room(enemies: seq<Enemy>, items: seq<Item>)

  /** The observable contents of a room. */
  datatype Layout = Layout(enemies: seq<EnemyState>, items: seq<Item>)

  function RoomView(room: Room): Layout
    reads set e | e in room.enemies
  {
    Layout(Views(room.enemies), room.items)
  }

  /** What every generated room satisfies: 3 to 10 enemies inside the arena
      and clear of the spawn point (sx, sy), and 1 to 3 items inside the arena. */
  predicate ValidLayout(l: Layout, sx: int, sy: int) {
    3 <= |l.enemies| <= 10 &&
    (forall e :: e in l.enemies ==> EnemyInArena(e.x, e.y) && FarFromSpawn(Point(e.x, e.y), sx, sy)) &&
    1 <= |l.items| <= 3 &&
    (forall it :: it in l.items ==> ItemInArena(it))
  }

  /** Populates a room for an avatar spawning at (sx, sy) at clock reading
      `now`. For each of the `enemyCount` enemies, candidates are drawn from
      `cands` until one is far enough from the spawn point; `items` are the
      item draws. When the candidates run out first, `ok` is false: the draw
      stream supplied is too short (the game would go on drawing). */
  method GenerateRoom(sx: int, sy: int, enemyCount: int, cands: seq<Point>, items: seq<Item>, now: int)
    returns (ok: bool, room: Room)
    requires 3 <= enemyCount <= 10
    requires forall p :: p in cands ==> EnemyInArena(p.x, p.y)
    requires 1 <= |items| <= 3
    requires forall it :: it in items ==> ItemInArena(it)
    ensures ok <==> |Admitted(cands, sx, sy)| >= enemyCount
    ensures ok ==> |room.enemies| == enemyCount && room.items == items
    ensures ok ==> forall k :: 0 <= k < enemyCount ==>
      room.enemies[k].View() == EnemyState(Admitted(cands, sx, sy)[k].x, Admitted(cands, sx, sy)[k].y, now)
    ensures ok ==> ValidLayout(RoomView(room), sx, sy)
    ensures Distinct(room.enemies) && forall e :: e in room.enemies ==> fresh(e)
  {
    var enemies: seq<Enemy> := [];
    var j := 0;
    var n := 0;
    while n < enemyCount
      invariant 0 <= n <= enemyCount && 0 <= j <= |cands|
      invariant |enemies| == n == |Admitted(cands[..j], sx, sy)|
      invariant forall k :: 0 <= k < n ==>
        enemies[k].View() == EnemyState(Admitted(cands[..j], sx, sy)[k].x, Admitted(cands[..j], sx, sy)[k].y, now)
      invariant Distinct(enemies) && forall e :: e in enemies ==> fresh(e)
    {
      var placed := false;
      while !placed
        invariant 0 <= j <= |cands|
        invariant |enemies| == n + (if placed then 1 else 0) == |Admitted(cands[..j], sx, sy)|
        invariant forall k :: 0 <= k < |enemies| ==>
          enemies[k].View() == EnemyState(Admitted(cands[..j], sx, sy)[k].x, Admitted(cands[..j], sx, sy)[k].y, now)
        invariant Distinct(enemies) && forall e :: e in enemies ==> fresh(e)
        decreases |cands| - j, !placed
      {
        if j == |cands| {
          assert cands[..j] == cands;
          ok, room := false, Room(enemies, items);
          return;
        }
        var p := cands[j];
        assert cands[..j + 1][..j] == cands[..j];
        j := j + 1;
        if FarFromSpawn(p, sx, sy) {
          var e := new Enemy(p.x, p.y, now);
          enemies := enemies + [e];
          placed := true;
        }
      }
      n := n + 1;
    }
    AdmittedPrefix(cands, j, sx, sy);
    ok, room := true, Room(enemies, items);
    forall e | e in Views(room.enemies)
      ensures EnemyInArena(e.x, e.y) && FarFromSpawn(Point(e.x, e.y), sx, sy)
    {
      var k :| 0 <= k < |room.enemies| && Views(room.enemies)[k] == e;
      assert Admitted(cands, sx, sy)[k] in Admitted(cands, sx, sy);
    }
  }
}
