/** Lure (bobber) physics and the fishing line: start_cast's launch, the
    flying and landed steps of update_lure, and update_line's interpolation
    from the rod tip to the lure. */
module LurePhysics {
  import opened CInt

  const WATER_LINE := 85
  const PIER_HEIGHT := 75
  const LURE_MIN_X := 8
  const LURE_MAX_X := 160
  const GRAVITY := 1
  const SPLASH_FRAMES := 30
  /** The lure stops sinking at this depth. */
  const SINK_LIMIT := WATER_LINE + 50
  const MAX_LINE_SEGMENTS := 8

  /** game.cast_phase: 0 charging, 1 flying, 2 landed. */
  datatype CastPhase = Charging | Flying | Landed

  /** game.lure_state: 0 normal, 1 splash, 2 bite (never assigned). */
  datatype LureLook = Plain | Splash | Bite

  /** The lure fields of the game record. */
  datatype Lure = Lure(x: Uint8, y: Uint8, velX: Int8, velY: Int8, look: LureLook,
                       splashTimer: Uint8, phase: CastPhase)

  /** Where the rod tip is: 12 pixels right of the player facing right,
      4 pixels left facing left, 4 pixels below the player's y. */
  function RodTipX(playerX: Uint8, facingRight: bool): Uint8 {
    Wrap8(playerX + (if facingRight then 12 else -4))
  }

  function RodTipY(playerY: Uint8): Uint8 {
    Wrap8(playerY + 4)
  }

  // ---------------------------------------------------------------- launch

  /** The lure as start_cast leaves it: flying with the normal look, the
      splash timer not touched. With a power that fits an int8_t it goes
      up and sideways with the same speed, the power, sideways toward the
      side the player faces. */
  function Launched(l: Lure, power: Uint8, facingRight: bool, playerX: Uint8, playerY: Uint8): (r: Lure)
    ensures r.phase == Flying && r.look == Plain && r.splashTimer == l.splashTimer
    ensures power < 0x80 ==>
      r.velY == -(power as int) && Abs(r.velX) == power as int && (r.velX > 0 <==> facingRight && power > 0)
  {
    l.(x := RodTipX(playerX, facingRight), y := RodTipY(playerY),
       velX := WrapS8(if facingRight then power else -(power as int)), velY := WrapS8(-(power as int)),
       look := Plain, phase := Flying)
  }

  /** A launch with any power the charge can reach throws the lure from the
      rod tip, horizontally with the cast power toward the facing side and
      upward with the same speed. */
  lemma LaunchFromRodTip(l: Lure, power: Uint8, facingRight: bool, playerX: Uint8, playerY: Uint8)
    requires power <= 7 && 4 <= playerX <= 243 && playerY <= 251
    ensures var r := Launched(l, power, facingRight, playerX, playerY);
      r.velX == (if facingRight then power else -(power as int)) && r.velY == -(power as int) &&
      r.x == (if facingRight then playerX + 12 else playerX - 4) && r.y == playerY + 4 &&
      r.phase == Flying && r.look == Plain && r.splashTimer == l.splashTimer
  {
  }

  // ---------------------------------------------------------------- flight

  /** The uint8_t next_x of the flying step. */
  function NextX(l: Lure): Uint8 {
    Wrap8(l.x + l.velX)
  }

  predicate ClampsLeft(l: Lure) {
    NextX(l) < LURE_MIN_X || (l.velX < 0 && l.x <= LURE_MIN_X)
  }

  predicate ClampsRight(l: Lure) {
    !ClampsLeft(l) && (NextX(l) > LURE_MAX_X || (l.velX > 0 && l.x >= LURE_MAX_X))
  }

  /** The vertical step would take the lure above the top of the screen. */
  predicate ClampsTop(l: Lure) {
    l.y + l.velY < 0
  }

  /** The flying step reaches the water line. */
  predicate Splashes(l: Lure) {
    !ClampsTop(l) && Wrap8(l.y + l.velY) >= WATER_LINE
  }

  /** One flying step of update_lure (cast_phase 1). The lure ends inside
      [8, 160] and never below the water line; a lure on the water line has
      just landed, stopped, with the 30-frame splash started, and one above
      it keeps its look, splash timer and phase. */
  function FlightStep(l: Lure): (r: Lure)
    ensures LURE_MIN_X <= r.x <= LURE_MAX_X && r.y <= WATER_LINE
    ensures r.y == WATER_LINE ==>
      r.phase == Landed && r.velX == 0 && r.velY == 0 && r.splashTimer == SPLASH_FRAMES && r.look == Splash
    ensures r.y < WATER_LINE ==> r.phase == l.phase && r.look == l.look && r.splashTimer == l.splashTimer
  {
    var x := if ClampsLeft(l) then LURE_MIN_X else if ClampsRight(l) then LURE_MAX_X else NextX(l);
    var velX := if ClampsLeft(l) || ClampsRight(l) then 0 else l.velX;
    var y := if ClampsTop(l) then 0 else Wrap8(l.y + l.velY);
    var velY := WrapS8((if ClampsTop(l) then 0 else l.velY) + GRAVITY);
    if y >= WATER_LINE then
      l.(x := x, y := WATER_LINE, velX := 0, velY := 0, phase := Landed,
         splashTimer := SPLASH_FRAMES, look := Splash)
    else
      l.(x := x, y := y, velX := velX, velY := velY)
  }

  /** Horizontally, a flying step always leaves the lure inside [8, 160]:
      a clamp pins it to the edge it crossed and zeroes its horizontal
      velocity, otherwise it moves by that velocity, which is kept unless
      the lure lands. */
  lemma FlightHorizontal(l: Lure)
    ensures var r := FlightStep(l);
      LURE_MIN_X <= r.x <= LURE_MAX_X &&
      r.x == (if ClampsLeft(l) then LURE_MIN_X else if ClampsRight(l) then LURE_MAX_X else NextX(l)) &&
      r.velX == (if ClampsLeft(l) || ClampsRight(l) || Splashes(l) then 0 else l.velX)
  {
  }

  /** A step that would leave the screen at the top pins the lure to row 0
      with its vertical velocity zeroed before gravity adds 1. */
  lemma FlightTopClamp(l: Lure)
    requires ClampsTop(l)
    ensures var r := FlightStep(l); r.y == 0 && r.velY == 1 && r.phase == l.phase
  {
  }

  /** While the lure stays in the air, gravity adds exactly 1 to its
      vertical velocity (with int8_t wrap-around), and the look, splash
      timer and phase stay. */
  lemma FlightGravity(l: Lure)
    requires !Splashes(l)
    ensures var r := FlightStep(l);
      r.velY == WrapS8((if ClampsTop(l) then 0 else l.velY) + GRAVITY) &&
      r.y == (if ClampsTop(l) then 0 else Wrap8(l.y + l.velY)) &&
      r.phase == l.phase && r.look == l.look && r.splashTimer == l.splashTimer
  {
  }

  /** Reaching the water line pins the lure there, stops it, starts the
      30-frame splash and switches to the landed phase; nothing else lands. */
  lemma FlightLanding(l: Lure)
    ensures var r := FlightStep(l);
      (r.phase == Landed <==> Splashes(l) || l.phase == Landed) &&
      (Splashes(l) ==> r.y == WATER_LINE && r.velX == 0 && r.velY == 0 &&
                       r.splashTimer == SPLASH_FRAMES && r.look == Splash)
  {
  }

  /** The flying steps update_lure takes, n of them at most, stopping once
      the lure is no longer flying. */
  function Fly(l: Lure, n: nat): Lure
    decreases n
  {
    if n == 0 || l.phase != Flying then l else Fly(FlightStep(l), n - 1)
  }

  /** Frames a lure flying above the water line needs to land at most:
      it first rises until its vertical velocity is positive, and from then
      on goes down by at least one pixel a frame. */
  function FlightBound(l: Lure): nat {
    if l.velY <= 0 then 1 - l.velY + WATER_LINE else if l.y < WATER_LINE then WATER_LINE - l.y else 0
  }

  /** Every flight above the water line ends on the water within
      FlightBound frames. */
  lemma {:induction false} FlightLands(l: Lure, n: nat)
    requires l.phase == Flying && l.y < WATER_LINE && n >= FlightBound(l)
    ensures Fly(l, n).phase == Landed
    decreases n
  {
    var l' := FlightStep(l);
    if Splashes(l) {
      assert l'.phase == Landed;
      assert Fly(l', n - 1) == l';
    } else {
      FlightGravity(l);
      assert l'.phase == Flying;
      assert l'.y < WATER_LINE;
      if l.velY > 0 {
        assert l.velY + 1 < 0x80;
        assert FlightBound(l') < FlightBound(l);
      } else if ClampsTop(l) {
        assert l'.velY == 1;
      } else {
        assert l'.velY == l.velY + 1;
      }
      FlightLands(l', n - 1);
    }
  }

  /** A cast from the pier (player at height 75, charge at most 7) always
      lands, within 93 frames. */
  lemma CastAlwaysLands(l: Lure, power: Uint8, facingRight: bool, playerX: Uint8)
    requires power <= 7 && 16 <= playerX <= 50
    ensures Fly(Launched(l, power, facingRight, playerX, PIER_HEIGHT), 93).phase == Landed
  {
    var c := Launched(l, power, facingRight, playerX, PIER_HEIGHT);
    LaunchFromRodTip(l, power, facingRight, playerX, PIER_HEIGHT);
    FlightLands(c, 93);
  }

  // ---------------------------------------------------------------- water

  /** One landed step of update_lure (cast_phase 2): slow sinking on every
      fourth frame unless reeling, and the splash countdown. The lure sinks
      at most one pixel and not past depth 135, and only when not reeled;
      the timer never rises, and the look changes only back to normal, when
      the timer has run out; position x, velocities and phase stay. */
  function WaterStep(l: Lure, reeling: bool, frame: Uint8): (r: Lure)
    ensures r.x == l.x && r.velX == l.velX && r.velY == l.velY && r.phase == l.phase
    ensures l.y <= r.y <= l.y + 1 && (r.y > l.y ==> !reeling && r.y <= SINK_LIMIT)
    ensures r.splashTimer <= l.splashTimer && (r.look != l.look ==> r.look == Plain && r.splashTimer == 0)
  {
    var y := if !reeling && frame % 4 == 0 && l.y < SINK_LIMIT then l.y + 1 else l.y;
    if l.splashTimer != 0 then
      var t := l.splashTimer - 1;
      l.(y := y, splashTimer := t, look := if t == 0 then Plain else l.look)
    else
      l.(y := y)
  }

  /** Landed, the lure only sinks: one pixel on frames divisible by 4 when
      the player is not reeling and it is above depth 135. The splash timer
      counts down to 0 and the look returns to normal exactly on the frame
      it reaches 0. Position x, velocities and phase stay. */
  lemma WaterSinksAndSettles(l: Lure, reeling: bool, frame: Uint8)
    ensures var r := WaterStep(l, reeling, frame);
      r.y == l.y + (if !reeling && frame % 4 == 0 && l.y < SINK_LIMIT then 1 else 0) &&
      r.splashTimer == (if l.splashTimer > 0 then l.splashTimer - 1 else 0) &&
      r.look == (if l.splashTimer == 1 then Plain else l.look) &&
      r.x == l.x && r.velX == l.velX && r.velY == l.velY && r.phase == l.phase
  {
  }

  /** The lure after n landed frames without reeling, the frame counter
      going up by one (with the uint8_t wrap) each frame. */
  function Resting(l: Lure, frame: Uint8, n: nat): Lure
    decreases n
  {
    if n == 0 then l else Resting(WaterStep(l, false, frame), Wrap8(frame + 1), n - 1)
  }

  /** How many of the n frames counted from `frame` are divisible by 4. */
  function SinkFrames(frame: Uint8, n: nat): nat {
    (n + (frame + 3) % 4) / 4
  }

  /** Left alone in the water for n frames, the lure sinks one pixel on
      each frame divisible by 4 until it rests at depth 135; the splash
      timer runs down by n to no lower than 0, and once it has run out the
      lure looks normal again. */
  lemma {:induction false} SinksToRest(l: Lure, frame: Uint8, n: nat)
    ensures var r := Resting(l, frame, n);
      r.y == (if l.y >= SINK_LIMIT then l.y
              else if l.y + SinkFrames(frame, n) < SINK_LIMIT then l.y + SinkFrames(frame, n)
              else SINK_LIMIT) &&
      r.splashTimer == (if l.splashTimer > n then l.splashTimer - n else 0) &&
      r.look == (if 0 < l.splashTimer <= n then Plain else l.look) &&
      r.x == l.x && r.velX == l.velX && r.velY == l.velY && r.phase == l.phase
    decreases n
  {
    if n > 0 {
      SinkFramesStep(frame, n);
      SinksToRest(WaterStep(l, false, frame), Wrap8(frame + 1), n - 1);
    }
  }

  /** The first of n frames counts when it is divisible by 4; the frame
      counter's wrap from 255 to 0 keeps the count going, since 256 is a
      multiple of 4. */
  lemma SinkFramesStep(frame: Uint8, n: nat)
    requires n > 0
    ensures SinkFrames(frame, n) == (if frame % 4 == 0 then 1 else 0) + SinkFrames(Wrap8(frame + 1), n - 1)
  {
    var next := Wrap8(frame + 1);
    assert next == if frame == 255 then 0 else frame + 1;
    assert (next as int + 3) % 4 == (frame as int + 4) % 4;
  }

  // ---------------------------------------------------------------- line

  /** update_line's coordinate of segment i, interpolated from the rod tip
      `start` to the lure `end` with C's truncating division. */
  function LinePoint(start: Uint8, end: Uint8, i: nat): (p: Uint8)
    requires i < MAX_LINE_SEGMENTS
    ensures (start <= end ==> start <= p <= end) && (end <= start ==> end <= p <= start)
  {
    TruncatedFraction(end - start, i);
    Wrap8(start + CDiv((end - start) * i, MAX_LINE_SEGMENTS - 1))
  }

  /** The y of segment i, with the alternating one-pixel wave in the water:
      odd segments one pixel below the straight line, even ones one above
      (when that stays on screen); out of the water, the straight line. */
  function SegmentY(startY: Uint8, lureY: Uint8, i: nat, inWater: bool): (y: Uint8)
    requires i < MAX_LINE_SEGMENTS
    ensures var p := LinePoint(startY, lureY, i);
      (!inWater ==> y == p) && (inWater && 0 < p < 0xFF ==> y == p + (if i % 2 == 1 then 1 else -1))
  {
    var y := LinePoint(startY, lureY, i);
    if inWater then Wrap8(y + (if i % 2 == 1 then 1 else -1)) else y
  }

  /** The first segment sits on the rod tip and the last on the lure. */
  lemma LineEndpoints(start: Uint8, end: Uint8)
    ensures LinePoint(start, end, 0) == start
    ensures LinePoint(start, end, MAX_LINE_SEGMENTS - 1) == end
  {
    var d := end - start;
    assert d * 0 == 0 && CDiv(0, MAX_LINE_SEGMENTS - 1) == 0;
    assert CDiv(d * 7, MAX_LINE_SEGMENTS - 1) == d;
  }

  /** Every segment lies between rod tip and lure, at the fraction i/7 of
      their distance rounded toward the rod tip, whichever side the lure is
      on (truncating division; a flooring one would round away from the rod
      when the lure is left of or above it). */
  lemma LinePointBetween(start: Uint8, end: Uint8, i: nat)
    requires i < MAX_LINE_SEGMENTS
    ensures var p := LinePoint(start, end, i);
      (start <= end ==> start <= p <= end) && (end <= start ==> end <= p <= start) &&
      Abs(p - start) == Abs(end - start) * i / (MAX_LINE_SEGMENTS - 1)
  {
    var d := end - start;
    var q := CDiv(d * i, MAX_LINE_SEGMENTS - 1);
    TruncatedFraction(d, i);
    assert (d >= 0 ==> 0 <= q <= d) && (d <= 0 ==> d <= q <= 0);
    assert LinePoint(start, end, i) == start + q;
  }

  /** The magnitude of C's (d * i) / 7 is the floor of |d| * i / 7, and it
      is at most |d| for i <= 7. */
  lemma TruncatedFraction(d: int, i: nat)
    requires i < MAX_LINE_SEGMENTS
    ensures Abs(CDiv(d * i, 7)) == Abs(d) * i / 7 <= Abs(d)
    ensures (d >= 0 ==> CDiv(d * i, 7) >= 0) && (d <= 0 ==> CDiv(d * i, 7) <= 0)
  {
    var n := Abs(d) * i;
    AbsOfProduct(d, i);
    ProductBelow(Abs(d), i);
    var q := CDiv(d * i, 7);
    assert Abs(q) * 7 <= n < Abs(q) * 7 + 7;
  }

  lemma AbsOfProduct(d: int, i: nat)
    ensures Abs(d * i) == Abs(d) * i
  {
    if d < 0 {
      assert d * i == -((-d) * i);
    }
  }

  lemma ProductBelow(a: nat, i: nat)
    requires i <= 7
    ensures 0 <= a * i <= a * 7
  {
    assert a * 7 - a * i == a * (7 - i);
  }
}
