/** The angler on the pier: walking between the pier's ends and charging
    a cast while A is held. */
module Player {
  import opened CInt
  import opened Buttons

  const MIN_PLAYER_X := 16
  /** Walking right stops here, two pixels short of the start position. */
  const PIER_END_X := 48
  const PLAYER_START_X := 50
  const MAX_CAST_POWER := 7
  const MIN_CAST_POWER := 1
  /** The power rises on frames whose counter is divisible by this. */
  const CHARGE_CADENCE := 6

  /** game.player_state: 0 standing, 1 casting, 2 reeling. */
  datatype Pose = Standing | Casting | Reeling

  /** handle_input's two movement tests, applied in order: a left step
      while x > 16, then a right step while x < 48, each turning the
      player to face its direction. A step is one pixel at most; a step
      left needs LEFT, ends facing left and not left of 16, and a step
      right needs RIGHT, ends facing right and not right of 48. */
  function Walk(x: Uint8, facingRight: bool, input: bv8): (r: (Uint8, bool))
    ensures Abs(r.0 - x) <= 1
    ensures r.0 < x ==> Holds(input, J_LEFT) && !r.1 && r.0 >= MIN_PLAYER_X
    ensures r.0 > x ==> Holds(input, J_RIGHT) && r.1 && r.0 <= PIER_END_X
  {
    var (x1, f1) := if Holds(input, J_LEFT) && x > MIN_PLAYER_X then (x - 1, false) else (x, facingRight);
    if Holds(input, J_RIGHT) && x1 < PIER_END_X then (x1 + 1, true) else (x1, f1)
  }

  /** The player stays on the pier, between 16 and the start position 50,
      and once at or left of 48 never walks right of it. A step is one
      pixel at most; moving left needs LEFT held, moving right needs RIGHT
      held and x below 48, and with neither held nothing changes. A turn
      faces the held direction. */
  lemma WalkOnPier(x: Uint8, facingRight: bool, input: bv8)
    requires MIN_PLAYER_X <= x <= PLAYER_START_X
    ensures var (nx, nf) := Walk(x, facingRight, input);
      MIN_PLAYER_X <= nx <= PLAYER_START_X && (x <= PIER_END_X ==> nx <= PIER_END_X) &&
      Abs(nx - x) <= 1 &&
      (nx < x ==> Holds(input, J_LEFT)) &&
      (nx > x ==> Holds(input, J_RIGHT) && x < PIER_END_X) &&
      (!Holds(input, J_LEFT) && !Holds(input, J_RIGHT) ==> nx == x && nf == facingRight) &&
      (nf && !facingRight ==> Holds(input, J_RIGHT)) &&
      (!nf && facingRight ==> Holds(input, J_LEFT))
  {
  }

  /** One frame of holding A while idle: the power rises by one exactly on
      frames divisible by 6 while it is below 7, and otherwise stays. */
  function Charged(power: Uint8, frame: Uint8): (r: Uint8)
    ensures power <= r <= power + 1
    ensures r > power <==> power < MAX_CAST_POWER && frame % CHARGE_CADENCE == 0
  {
    if power < MAX_CAST_POWER && frame % CHARGE_CADENCE == 0 then power + 1 else power
  }

  /** The power after holding A for n consecutive frames, the frame counter
      wrapping at 256. */
  function ChargeFor(power: Uint8, frame: Uint8, n: nat): Uint8
    decreases n
  {
    if n == 0 then power else ChargeFor(Charged(power, frame), Wrap8(frame + 1), n - 1)
  }

  /** Charging never lowers the power and never takes it past 7. */
  lemma {:induction false} ChargeBounded(power: Uint8, frame: Uint8, n: nat)
    requires power <= MAX_CAST_POWER
    ensures power <= ChargeFor(power, frame, n) <= MAX_CAST_POWER
    decreases n
  {
    if n > 0 {
      ChargeBounded(Charged(power, frame), Wrap8(frame + 1), n - 1);
    }
  }

  /** The frame counter j frames after `frame`. */
  function Later(frame: Uint8, j: nat): Uint8 {
    Wrap8(frame + j)
  }

  /** Frames off the cadence leave the power as it is. */
  lemma {:induction false} ChargeWaits(power: Uint8, frame: Uint8, k: nat, rest: nat)
    requires k <= CHARGE_CADENCE
    requires forall j :: 0 <= j < k ==> Later(frame, j) % CHARGE_CADENCE != 0
    ensures ChargeFor(power, frame, k + rest) == ChargeFor(power, Later(frame, k), rest)
    decreases k
  {
    if k > 0 {
      var next := Wrap8(frame + 1);
      assert Later(frame, 0) == frame;
      forall j | 0 <= j < k - 1
        ensures Later(next, j) % CHARGE_CADENCE != 0
      {
        assert Later(next, j) == Later(frame, j + 1);
      }
      ChargeWaits(power, next, k - 1, rest);
      assert Later(next, k - 1) == Later(frame, k);
    }
  }

  /** The next frame counter on the cadence is at most five frames away. */
  lemma NextCadence(frame: Uint8) returns (m: nat)
    ensures m < CHARGE_CADENCE && Later(frame, m) % CHARGE_CADENCE == 0
    ensures forall j :: 0 <= j < m ==> Later(frame, j) % CHARGE_CADENCE != 0
  {
    if frame > 252 {
      m := 256 - frame;
      assert Later(frame, m) == 0;
    } else {
      m := (CHARGE_CADENCE - frame % CHARGE_CADENCE) % CHARGE_CADENCE;
      assert Later(frame, m) == frame + m;
    }
    forall j | 0 <= j < m
      ensures Later(frame, j) % CHARGE_CADENCE != 0
    {
      assert Later(frame, j) == frame + j;
    }
  }

  /** Holding A for 6 frames per missing power level always fills the
      charge: every run of six consecutive frame counters, also across the
      wrap from 255 to 0, holds one divisible by 6. */
  lemma {:induction false} ChargeFills(power: Uint8, frame: Uint8, n: nat)
    requires power <= MAX_CAST_POWER && n >= CHARGE_CADENCE * (MAX_CAST_POWER - power)
    ensures ChargeFor(power, frame, n) == MAX_CAST_POWER
    decreases MAX_CAST_POWER - power
  {
    if power == MAX_CAST_POWER {
      ChargeBounded(power, frame, n);
    } else {
      var m := NextCadence(frame);
      ChargeWaits(power, frame, m, n - m);
      var at := Later(frame, m);
      assert ChargeFor(power, at, n - m) == ChargeFor(power + 1, Wrap8(at + 1), n - m - 1);
      ChargeFills(power + 1, Wrap8(at + 1), n - m - 1);
    }
  }
}
