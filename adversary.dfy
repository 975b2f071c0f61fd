/** Enemies: the greedy chase and the attack cooldown. */
module Adversary {
  import opened Config
  import opened Geometry

  /** The observable state of one enemy. */
  datatype EnemyState = EnemyState(x: int, y: int, lastAttack: int) {
    function Box(): Rect { Rect(x, y, EnemySize, EnemySize) }
  }

  function Dist(a: int, b: int): nat { if a < b then b - a else a - b }

  /** One axis of the chase: step EnemySpeed toward the target coordinate p,
      or stay when already level with it. The distance to p shrinks by
      EnemySpeed when it is at least that, and is otherwise kept (an enemy one
      pixel away jumps over the target and stays one pixel away). */
  function ChaseAxis(e: int, p: int): (r: int)
    ensures r == e - EnemySpeed || r == e || r == e + EnemySpeed
    ensures r == e <==> e == p
    ensures r > e ==> p > e
    ensures r < e ==> p < e
    ensures Dist(r, p) == if Dist(e, p) >= EnemySpeed then Dist(e, p) - EnemySpeed else Dist(e, p)
  {
    if e < p then e + EnemySpeed
    else if e > p then e - EnemySpeed
    else e
  }

  /** The cooldown gate: an enemy that last hit at `last` may hit again at `now`. */
  predicate Ready(last: int, now: int) {
    now - last >= AttackCooldown
  }

  /** The times among the queries `times` at which the gate answers yes,
      starting from a last hit at `last`; each yes restarts the window. */
  function Granted(last: int, times: seq<int>): (r: seq<int>)
    ensures |r| <= |times|
    decreases |times|
  {
    if times == [] then []
    else if Ready(last, times[0]) then [times[0]] + Granted(times[0], times[1..])
    else Granted(last, times[1..])
  }

  /** An enemy hits at most once per cooldown window: the first granted query
      is a full cooldown after the last hit, every later one a full cooldown
      after the previous one, and each granted time is one of the queries. */
  lemma {:induction false} GrantedSpacing(last: int, times: seq<int>)
    ensures var r := Granted(last, times);
      (|r| > 0 ==> r[0] - last >= AttackCooldown) &&
      (forall i :: 0 < i < |r| ==> r[i] - r[i - 1] >= AttackCooldown) &&
      (forall t :: t in r ==> t in times)
    decreases |times|
  {
    if times != [] {
      GrantedSpacing(if Ready(last, times[0]) then times[0] else last, times[1..]);
      var r := Granted(last, times);
      if Ready(last, times[0]) {
        var tail := Granted(times[0], times[1..]);
        assert r == [times[0]] + tail;
        forall i | 0 < i < |r| ensures r[i] - r[i - 1] >= AttackCooldown {
          if i > 1 { assert r[i] == tail[i - 1] && r[i - 1] == tail[i - 2]; }
        }
      }
    }
  }

  /** After a granted query at time t, a query at t2 is granted exactly when a
      full cooldown has passed. */
  lemma CooldownWindow(t: int, t2: int)
    ensures Granted(t, [t2]) == (if t2 - t >= AttackCooldown then [t2] else [])
  {
  }

  /** An enemy of the running game. */
  class Enemy {
    var x: int
    var y: int
    var lastAttack: int

    /** A new enemy at (x0, y0), created at clock reading `now`: its cooldown
        window starts at its creation. */
    constructor (x0: int, y0: int, now: int)
      ensures x == x0 && y == y0 && lastAttack == now
    {
      x, y, lastAttack := x0, y0, now;
    }

    function View(): EnemyState
      reads this
    {
      EnemyState(x, y, lastAttack)
    }

    function Box(): Rect
      reads this
    {
      Rect(x, y, EnemySize, EnemySize)
    }

    /** One chase step toward the player's top-left corner (px, py). */
    method MoveToward(px: int, py: int)
      modifies this`x, this`y
      ensures x == ChaseAxis(old(x), px) && y == ChaseAxis(old(y), py)
    {
      if x < px {
        x := x + EnemySpeed;
      } else if x > px {
        x := x - EnemySpeed;
      }
      if y < py {
        y := y + EnemySpeed;
      } else if y > py {
        y := y - EnemySpeed;
      }
    }

    /** Asks the cooldown gate at clock reading `now`; a yes restarts the window. */
    method CanAttack(now: int) returns (ok: bool)
      modifies this`lastAttack
      ensures ok == Ready(old(lastAttack), now)
      ensures lastAttack == if ok then now else old(lastAttack)
      ensures Granted(old(lastAttack), [now]) == if ok then [now] else []
    {
      ok := now - lastAttack >= AttackCooldown;
      if ok {
        lastAttack := now;
      }
    }
  }

  /** The states of a sequence of enemies, in order. */
  function Views(es: seq<Enemy>): (r: seq<EnemyState>)
    reads set e | e in es
    ensures |r| == |es|
    ensures forall k :: 0 <= k < |es| ==> r[k] == es[k].View()
  {
    seq(|es|, k reads set e | e in es requires 0 <= k < |es| => es[k].View())
  }

  /** No enemy occurs twice (a sprite group holds each sprite once). */
  predicate Distinct(es: seq<Enemy>) {
    forall i, j :: 0 <= i < j < |es| ==> es[i] != es[j]
  }
}
