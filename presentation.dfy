/** The values the display code derives from the game state: the player's
    sprite tiles and mirroring, the power meter fill and the high score. */
module Presentation {
  import opened CInt
  import opened Player

  const METER_SEGMENTS := 10
  /** The player's tiles: four per pose, three poses. */
  const PLAYER_TILES := 12

  /** The first of the four tiles of a pose. */
  function BaseTile(pose: Pose): Uint8 {
    match pose
    case Standing => 0
    case Casting => 4
    case Reeling => 8
  }

  /** animate_player: the tiles of sprites 0 to 3 (top-left, top-right,
      bottom-left, bottom-right of the 16x16 player) and whether all four
      are flipped horizontally. */
  function PlayerSprites(pose: Pose, facingRight: bool): (r: (seq<Uint8>, bool))
    ensures |r.0| == 4 && r.1 == !facingRight
  {
    var b := BaseTile(pose);
    if !facingRight then ([b + 1, b, b + 3, b + 2], true)
    else ([b, b + 1, b + 2, b + 3], false)
  }

  /** Facing right, sprite k shows the pose's k-th tile. Facing left shows
      that picture mirrored: the two columns of tiles swap and every tile
      is flipped. Each pose draws its own four tiles, disjoint from the
      other poses' and within the twelve loaded. */
  lemma PlayerMirror(pose: Pose, other: Pose)
    ensures forall k :: 0 <= k < 4 ==> PlayerSprites(pose, true).0[k] == BaseTile(pose) + k
    ensures var t := PlayerSprites(pose, true).0;
      PlayerSprites(pose, false).0 == [t[1], t[0], t[3], t[2]] &&
      !PlayerSprites(pose, true).1 && PlayerSprites(pose, false).1
    ensures forall facing: bool, i :: 0 <= i < 4 ==>
      BaseTile(pose) <= PlayerSprites(pose, facing).0[i] < BaseTile(pose) + 4 <= PLAYER_TILES
    ensures pose != other ==> BaseTile(pose) + 4 <= BaseTile(other) || BaseTile(other) + 4 <= BaseTile(pose)
  {
  }

  /** update_power_meter's filled segment count (power * 10) / 7. */
  function MeterFill(power: Uint8): (r: Uint8)
    ensures power <= MAX_CAST_POWER ==>
      r <= METER_SEGMENTS && (r == 0 <==> power == 0) && (r == METER_SEGMENTS <==> power == MAX_CAST_POWER)
  {
    Wrap8(power * METER_SEGMENTS / MAX_CAST_POWER)
  }

  /** The meter never shrinks while the power rises, and every power level
      adds one or two segments. */
  lemma MeterGrows(a: Uint8, b: Uint8)
    requires a <= b <= MAX_CAST_POWER
    ensures MeterFill(a) <= MeterFill(b)
    ensures b == a + 1 ==> MeterFill(a) + 1 <= MeterFill(b) <= MeterFill(a) + 2
  {
    assert a * METER_SEGMENTS <= b * METER_SEGMENTS;
  }

  /** check_high_score: the high score becomes the larger of the two. */
  function HighScoreAfter(score: Uint16, high: Uint16): (r: Uint16)
    ensures r >= score && r >= high && (r == score || r == high)
  {
    if score > high then score else high
  }
}
