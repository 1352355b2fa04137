/**
 * Python's `^` and `|` on the non-negative integers the comparison works on
 * (string lengths and character ordinals). Python integers are unbounded, so
 * these are defined bit by bit on `nat` rather than on a fixed-width bit-vector.
 */
module Bitwise {

  /** `a ^ b`: zero exactly when the two operands are equal. */
  function Xor(a: nat, b: nat): (r: nat)
    ensures r == 0 <==> a == b
    decreases a + b
  {
    if a == 0 then b
    else if b == 0 then a
    else 2 * Xor(a / 2, b / 2) + (if a % 2 == b % 2 then 0 else 1)
  }

  /** `a | b`: zero exactly when both operands are zero, so a set bit is never cleared. */
  function Or(a: nat, b: nat): (r: nat)
    ensures r == 0 <==> a == 0 && b == 0
    decreases a + b
  {
    if a == 0 then b
    else if b == 0 then a
    else 2 * Or(a / 2, b / 2) + (if a % 2 == 1 || b % 2 == 1 then 1 else 0)
  }
}
