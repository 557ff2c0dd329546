/** The functions tutorial: a block expression, a function returning a
    constant, and an addition on `i32`. */
module Functions {
  import opened Primitives

  /** `{ let y = 3; y + 1 }`: a block whose value is its last expression. */
  function BlockExpression(): (x: int)
    ensures x == 4
  {
    var y := 3;
    y + 1
  }

  /** `get_five() -> u8`: always 5. */
  function GetFive(): (r: U8)
    ensures r == 5
  {
    5
  }

  /** `my_addition(x: i32, y: i32) -> i32`. An `i32` sum outside the range
      panics, so callers keep it in range. */
  function MyAddition(x: I32, y: I32): (r: I32)
    requires I32_MIN <= x + y <= I32_MAX
    ensures r == x + y
  {
    x + y
  }

  /** The calls of the tutorial's `main`: `my_addition(1, 2)` is 3, and
      the binding, not the function, decides whether that result can be
      reassigned: the mutable one is set to 5 and the immutable one stays 3. */
  method FunctionsTour() returns (x: int, five: U8, result: I32, immutableResult: I32, mutableResult: I32)
    ensures x == 4 && five == 5
    ensures result == 3
    ensures immutableResult == 3 && mutableResult == 5
  {
    x := BlockExpression();
    five := GetFive();
    result := MyAddition(1, 2);
    immutableResult := MyAddition(1, 2);
    mutableResult := MyAddition(1, 2);
    mutableResult := 5;
  }
}
