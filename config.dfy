/** Fixed configuration of the game: arena, entity extents, speeds, health
    cap and attack cooldown. */
module Config {
  const Width: int := 800
  const Height: int := 600
  const PlayerSize: int := 20
  const EnemySize: int := 20
  const ItemSize: int := 15

  const DefaultSpeed: int := 5
  /** The speed a speed pickup sets. */
  const UpgradedSpeed: int := 8
  const MaxHealth: int := 3
  const DefaultAttackPower: int := 1
  /** The attack power an attack pickup sets. */
  const UpgradedAttackPower: int := 2

  /** Pixels an enemy moves per axis per tick. */
  const EnemySpeed: int := 2
  /** Milliseconds between two hits of one enemy. */
  const AttackCooldown: int := 1000

  /** An enemy must spawn strictly farther than this from the avatar's spawn point. */
  const SpawnClearance: int := 50

  /** Where the avatar is placed on a new room, a death or a door transition. */
  const CenterX: int := Width / 2
  const CenterY: int := Height / 2

  /** The exit door occupies the strip right of DoorLeft, between DoorTop and DoorBottom. */
  const DoorLeft: int := Width - 50
  const DoorTop: int := Height / 2 - 50
  const DoorBottom: int := Height / 2 + 50
}
