/** What the buttons do to the angler during play: walking, charging and
    releasing a cast while no line is out, and reeling with B while one is. */
module Controls {
  import opened CInt
  import opened Buttons
  import opened Player
  import opened LurePhysics

  /** The fields of the game record handle_input changes during play. */
  datatype Angler = Angler(x: Uint8, facingRight: bool, power: Uint8, pose: Pose, casting: bool, reeling: bool)

  /** handle_input with no line out: the walk, then the charge. The
      player moves at most one pixel and never starts reeling; a cast
      starts exactly when A is let go with some charge, and only a cast
      moves the lure. */
  function IdleStep(a: Angler, l: Lure, input: bv8, frame: Uint8, playerY: Uint8): (r: (Angler, Lure))
    ensures Abs(r.0.x - a.x) <= 1 && r.0.reeling == a.reeling
    ensures r.0.casting <==> a.casting || (!Holds(input, J_A) && a.power > 0)
    ensures r.1 != l ==> !Holds(input, J_A) && a.power > 0 && r.1.phase == Flying
  {
    var (x, f) := Walk(a.x, a.facingRight, input);
    ChargeOrCast(a.(x := x, facingRight := f), l, input, frame, playerY)
  }

  /** A held charges on the cadence (and shows the casting pose when the
      power rises); A let go with some power casts the lure from where the
      player now stands and empties the charge. The player does not move,
      and reeling is untouched. */
  function ChargeOrCast(a: Angler, l: Lure, input: bv8, frame: Uint8, playerY: Uint8): (r: (Angler, Lure))
    ensures r.0.x == a.x && r.0.facingRight == a.facingRight && r.0.reeling == a.reeling
    ensures Holds(input, J_A) ==> r.1 == l && r.0.casting == a.casting && a.power <= r.0.power <= a.power + 1
    ensures !Holds(input, J_A) && a.power > 0 ==>
      r.0.power == 0 && r.0.casting && r.0.pose == Casting && r.1.phase == Flying
    ensures !Holds(input, J_A) && a.power == 0 ==> r == (a, l)
  {
    if Holds(input, J_A) then
      var p := Charged(a.power, frame);
      (a.(power := p, pose := if p != a.power then Casting else a.pose), l)
    else if a.power > 0 then
      (a.(power := 0, pose := Casting, casting := true), Launched(l, a.power, a.facingRight, a.x, playerY))
    else
      (a, l)
  }

  /** handle_input with the line out: B held reels; otherwise reeling
      stops and a lure in the water puts the player back to standing.
      Only the reeling flag and the pose change; a pose change is to
      reeling, or to standing once the lure has landed. */
  function LineStep(a: Angler, input: bv8, phase: CastPhase): (r: Angler)
    ensures r == a.(reeling := r.reeling, pose := r.pose)
    ensures r.reeling <==> Holds(input, J_B)
    ensures r.pose != a.pose ==> r.pose == Reeling || (r.pose == Standing && phase == Landed)
  {
    if Holds(input, J_B) then a.(reeling := true, pose := Reeling)
    else a.(reeling := false, pose := if phase == Landed then Standing else a.pose)
  }

  /** The state the game keeps during play: on the pier, a charge of at
      most 7, and reeling only with a line out. */
  predicate OnPier(a: Angler) {
    MIN_PLAYER_X <= a.x as int <= PLAYER_START_X && a.power as int <= MAX_CAST_POWER && (a.reeling ==> a.casting)
  }

  /** Idle play keeps the angler on the pier and never starts reeling. A
      cast happens exactly when A is let go with some charge; it empties
      the charge and throws the lure from the rod tip at the new position
      with the whole charge as its speed, toward the side faced. Without a
      cast the lure stays where it is. */
  lemma IdleCasts(a: Angler, l: Lure, input: bv8, frame: Uint8, playerY: Uint8)
    requires OnPier(a) && !a.casting && !a.reeling && playerY <= 251
    ensures var (b, m) := IdleStep(a, l, input, frame, playerY);
      OnPier(b) && !b.reeling &&
      (b.casting <==> !Holds(input, J_A) && a.power > 0) &&
      (b.casting ==>
        b.power == 0 && b.pose == Casting && m.phase == Flying &&
        m.velX == (if b.facingRight then a.power as int else -(a.power as int)) && m.velY == -(a.power as int) &&
        m.x == (if b.facingRight then b.x + 12 else b.x - 4) && m.y == playerY + 4) &&
      (!b.casting ==> m == l) &&
      (Holds(input, J_A) ==> a.power <= b.power <= a.power + 1)
  {
    var (x, f) := Walk(a.x, a.facingRight, input);
    WalkOnPier(a.x, a.facingRight, input);
    if !Holds(input, J_A) && a.power > 0 {
      LaunchFromRodTip(l, a.power, f, x, playerY);
    }
  }

  /** With the line out, reeling follows B exactly; the player stays put
      and the charge and the line are untouched. */
  lemma LineReels(a: Angler, input: bv8, phase: CastPhase)
    requires OnPier(a) && a.casting
    ensures var b := LineStep(a, input, phase);
      OnPier(b) && b.casting && (b.reeling <==> Holds(input, J_B)) &&
      (b.x, b.facingRight, b.power) == (a.x, a.facingRight, a.power) &&
      (b.pose == Reeling <==> Holds(input, J_B) || (a.pose == Reeling && phase != Landed))
  {
  }
}
