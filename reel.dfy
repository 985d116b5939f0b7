/** handle_catch's reeling approach: each frame the lure moves one pixel
    toward the rod tip on its larger axis, and one on the other axis too
    while it is still far away. */
module Reel {
  import opened CInt

  /** At a Manhattan distance below this the catch is resolved. */
  const CATCH_DISTANCE := 8
  /** Beyond this distance the lure moves on both axes. */
  const DIAGONAL_DISTANCE := 16

  function Manhattan(x: int, y: int, tx: int, ty: int): nat {
    Abs(tx - x) + Abs(ty - y)
  }

  /** One pixel toward the target along one axis (uint8_t += 1 / -= 1). */
  function Toward(a: Uint8, delta: int): Uint8 {
    if delta > 0 then Wrap8(a + 1) else if delta < 0 then Wrap8(a - 1) else a
  }

  /** The lure position after one reeling step toward (tx, ty). Toward an
      on-screen target it moves at most one pixel on each axis, never away
      from the target, and it stays only once it is on the target. */
  function ReelStep(x: Uint8, y: Uint8, tx: int, ty: int): (r: (Uint8, Uint8))
    ensures 0 <= tx < 0x100 && 0 <= ty < 0x100 ==>
      Abs(r.0 - x) <= 1 && Abs(r.1 - y) <= 1 &&
      Abs(tx - r.0) <= Abs(tx - x) && Abs(ty - r.1) <= Abs(ty - y) &&
      (r == (x, y) <==> tx == x && ty == y)
  {
    var dx := tx - x;
    var dy := ty - y;
    var far := Manhattan(x, y, tx, ty) > DIAGONAL_DISTANCE;
    if Abs(dx) > Abs(dy) then
      (Toward(x, dx), if far then Toward(y, dy) else y)
    else
      (if far then Toward(x, dx) else x, Toward(y, dy))
  }

  /** While the lure is not yet within catching distance of an on-screen
      target, a step moves it one pixel closer on its larger axis (the y
      axis on a tie), one pixel closer on the other axis as well when the
      distance exceeds 16 and that axis is not already aligned, and nowhere
      else: the Manhattan distance drops by exactly 1 or 2. */
  lemma ReelStepApproaches(x: Uint8, y: Uint8, tx: int, ty: int)
    requires 0 <= tx < 0x100 && 0 <= ty < 0x100
    requires Manhattan(x, y, tx, ty) >= CATCH_DISTANCE
    ensures var (nx, ny) := ReelStep(x, y, tx, ty);
      var d := Manhattan(x, y, tx, ty);
      var major := if Abs(tx - x) > Abs(ty - y) then Abs(tx - nx) < Abs(tx - x) else Abs(ty - ny) < Abs(ty - y);
      var minorAligned := if Abs(tx - x) > Abs(ty - y) then ty == y else tx == x;
      major && Abs(nx - x) <= 1 && Abs(ny - y) <= 1 &&
      Manhattan(nx, ny, tx, ty) == d - 1 - (if d > DIAGONAL_DISTANCE && !minorAligned then 1 else 0)
  {
  }

  /** The lure position after n reeling frames, stopping once it is within
      catching distance. */
  function Reeled(x: Uint8, y: Uint8, tx: int, ty: int, n: nat): (Uint8, Uint8)
    decreases n
  {
    if n == 0 || Manhattan(x, y, tx, ty) < CATCH_DISTANCE then (x, y)
    else
      var (nx, ny) := ReelStep(x, y, tx, ty);
      Reeled(nx, ny, tx, ty, n - 1)
  }

  /** Reeling always brings the lure within catching distance of an
      on-screen rod tip, after at most distance - 7 frames. */
  lemma {:induction false} ReelArrives(x: Uint8, y: Uint8, tx: int, ty: int, n: nat)
    requires 0 <= tx < 0x100 && 0 <= ty < 0x100
    requires n + CATCH_DISTANCE > Manhattan(x, y, tx, ty)
    ensures var (fx, fy) := Reeled(x, y, tx, ty, n); Manhattan(fx, fy, tx, ty) < CATCH_DISTANCE
    decreases n
  {
    if Manhattan(x, y, tx, ty) >= CATCH_DISTANCE {
      ReelStepApproaches(x, y, tx, ty);
      var (nx, ny) := ReelStep(x, y, tx, ty);
      ReelArrives(nx, ny, tx, ty, n - 1);
    }
  }
}
