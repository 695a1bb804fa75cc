/** The tile enumerations and the record of a placed tile. */
module TileTypes {
  import opened Vectors

  /** NORMAL, GAP, BUILDABLE and COLLECTIBLE (the last is declared but never generated). */
  datatype TileType = Normal | Gap | Buildable | Collectible

  /** NONE keeps the heading; LEFT and RIGHT rotate it after the tile is placed. */
  datatype TurnDirection = NoTurn | Left | Right

  /**
   * A placed tile: its world anchor, its two enum fields and whether its
   * scene node is active (shown).
   */
  datatype PlacedTile = PlacedTile(position: Vec3, kind: TileType, turn: TurnDirection, active: bool)

  /** The tile prefab; active is the activity an instance starts with. */
  datatype Prefab = Prefab(active: bool)
}
