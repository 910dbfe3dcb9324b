/** Python's integer bit operations on unbounded integers. Python treats an
    `int` as an infinite two's-complement bit string, so `&`, `|`, `^`, `~`,
    `<<`, `>>` and `%` are defined here for every integer, negative ones
    included. */
module Bits {

  datatype BitOp = And | Or | Xor

  function Apply(op: BitOp, p: bool, q: bool): bool {
    match op
    case And => p && q
    case Or => p || q
    case Xor => p != q
  }

  function Abs(x: int): nat {
    if x < 0 then -x else x
  }

  /** True when x is all zeros or all ones in two's complement. */
  predicate IsSignFill(x: int) {
    x == 0 || x == -1
  }

  /** A bitwise operation applied position by position. `x / 2` and `x % 2`
      are Euclidean in Dafny, which for the divisor 2 is exactly Python's
      floor division and modulus: the low bit and the arithmetic shift. */
  function Bitwise(op: BitOp, x: int, y: int): int
    decreases Abs(x) + Abs(y)
  {
    if IsSignFill(x) && IsSignFill(y) then
      if Apply(op, x == -1, y == -1) then -1 else 0
    else
      2 * Bitwise(op, x / 2, y / 2) + (if Apply(op, x % 2 == 1, y % 2 == 1) then 1 else 0)
  }

  /** Python's `x & y`. */
  function BitAnd(x: int, y: int): int {
    Bitwise(And, x, y)
  }

  /** Python's `x | y`. */
  function BitOr(x: int, y: int): int {
    Bitwise(Or, x, y)
  }

  /** Python's `x ^ y`. */
  function BitXor(x: int, y: int): int {
    Bitwise(Xor, x, y)
  }

  /** Python's `~x`. */
  function BitNot(x: int): int {
    -x - 1
  }

  function Pow2(n: nat): (r: nat)
    ensures r >= 1
  {
    if n == 0 then 1 else 2 * Pow2(n - 1)
  }

  /** Python's `x << n` for a non-negative count. */
  function ShiftLeft(x: int, n: nat): int {
    x * Pow2(n)
  }

  /** Python's `x >> n` for a non-negative count: floor division by 2^n,
      which Dafny's Euclidean division gives for a positive divisor. */
  function ShiftRight(x: int, n: nat): int {
    x / Pow2(n)
  }

  /** Python's `x // y` for `y != 0`: the quotient rounded toward negative
      infinity. */
  function FloorDiv(x: int, y: int): int
    requires y != 0
  {
    if y > 0 || x % y == 0 then x / y else x / y - 1
  }

  /** Python's `x % y` for `y != 0`, whose result takes the sign of the
      divisor, unlike Dafny's Euclidean `%`: it is what is left of x after
      the floor quotient's multiple of y. */
  function FloorMod(x: int, y: int): (r: int)
    requires y != 0
    ensures y > 0 ==> 0 <= r < y
    ensures y < 0 ==> y < r <= 0
    ensures x == FloorDiv(x, y) * y + r
  {
    var e := x % y;
    assert x == (x / y) * y + e;
    if y > 0 || e == 0 then e else e + y
  }

  /** `x >> n` rounds toward negative infinity: shifted back it is the
      largest multiple of 2^n not above x. */
  lemma ShiftRightFloors(x: int, n: nat)
    ensures ShiftLeft(ShiftRight(x, n), n) <= x < ShiftLeft(ShiftRight(x, n), n) + Pow2(n)
  {
    var d, q := Pow2(n), x / Pow2(n);
    assert x == q * d + x % d;
  }

  /** The lowest bit of x, `x & 1`, as its parity (see BitAndOne). */
  function LowBit(x: int): int {
    x % 2
  }

  /** The lowest bit: `x & 1` is the parity of x, negative x included. */
  lemma {:induction false} BitAndOne(x: int)
    ensures BitAnd(x, 1) == LowBit(x)
  {
    if IsSignFill(x) {
    } else {
      assert BitAnd(x, 1) == 2 * Bitwise(And, x / 2, 0) + (if x % 2 == 1 then 1 else 0);
      BitAndZero(x / 2);
    }
  }

  /** `x & 0 == 0`. */
  lemma {:induction false} BitAndZero(x: int)
    ensures Bitwise(And, x, 0) == 0
    decreases Abs(x)
  {
    if !IsSignFill(x) {
      BitAndZero(x / 2);
    }
  }

  /** `&` on two non-negative integers never exceeds either of them. */
  lemma {:induction false} BitAndBounded(x: int, y: int)
    requires 0 <= x && 0 <= y
    ensures 0 <= BitAnd(x, y) <= x
    ensures BitAnd(x, y) <= y
    decreases x + y
  {
    if !(IsSignFill(x) && IsSignFill(y)) {
      BitAndBounded(x / 2, y / 2);
    }
  }

  /** Each bitwise operation is symmetric in its operands. */
  lemma {:induction false} BitwiseCommutes(op: BitOp, x: int, y: int)
    ensures Bitwise(op, x, y) == Bitwise(op, y, x)
    decreases Abs(x) + Abs(y)
  {
    if !(IsSignFill(x) && IsSignFill(y)) {
      BitwiseCommutes(op, x / 2, y / 2);
    }
  }

  /** `x & x == x` and `x | x == x`: both are idempotent. */
  lemma {:induction false} BitwiseIdempotent(op: BitOp, x: int)
    requires op != Xor
    ensures Bitwise(op, x, x) == x
    decreases Abs(x)
  {
    if !IsSignFill(x) {
      BitwiseIdempotent(op, x / 2);
    }
  }

  /** `x ^ x == 0`. */
  lemma {:induction false} XorSelf(x: int)
    ensures BitXor(x, x) == 0
    decreases Abs(x)
  {
    if !IsSignFill(x) {
      XorSelf(x / 2);
    }
  }
}
