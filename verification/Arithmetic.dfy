/** What integers need beyond their operators. */
module Arithmetic {
  function Abs(x: int): nat {
    if x < 0 then -x else x
  }

  function Least(a: int, b: int): int {
    if a < b then a else b
  }
}
