/** C integer semantics used by the game: the fixed-width unsigned and signed
    types of its fields, the wrap-around that assignment to them performs, and
    C's division, which truncates toward zero. */
module CInt {

  type Uint8 = x: int | 0 <= x < 0x100
  type Int8 = x: int | -0x80 <= x < 0x80
  type Uint16 = x: int | 0 <= x < 0x1_0000

  /** The value an int takes when stored into a uint8_t. */
  function Wrap8(x: int): (r: Uint8)
    ensures (r - x) % 0x100 == 0
    ensures 0 <= x < 0x100 ==> r == x
  {
    x % 0x100
  }

  /** The value an int takes when stored into an int8_t (two's complement). */
  function WrapS8(x: int): (r: Int8)
    ensures (r - x) % 0x100 == 0
    ensures -0x80 <= x < 0x80 ==> r == x
  {
    (x + 0x80) % 0x100 - 0x80
  }

  /** The value an int takes when stored into a uint16_t. */
  function Wrap16(x: int): (r: Uint16)
    ensures (r - x) % 0x1_0000 == 0
    ensures 0 <= x < 0x1_0000 ==> r == x
  {
    x % 0x1_0000
  }

  function Abs(x: int): (r: nat)
    ensures r == x || r == -x
  {
    if x < 0 then -x else x
  }

  /** C's `a / b` for a positive divisor: the quotient is rounded toward zero,
      so its magnitude is the floor of |a| / b and its sign is that of a. */
  function CDiv(a: int, b: int): (q: int)
    requires b > 0
    ensures Abs(q) * b <= Abs(a) < Abs(q) * b + b
    ensures a >= 0 ==> q >= 0
    ensures a <= 0 ==> q <= 0
  {
    if a >= 0 then a / b else -((-a) / b)
  }
}
