# rust-starter tutorials, modelled in Dafny

The repository is a set of short Rust tutorial programs. Each walks through one
language topic: variables and integer overflow, slices, structures,
enumerations, control flow, functions and ownership. Around the printing there
is a small amount of deterministic logic. This project models that logic and
proves what the tutorials claim about it.

The modules follow the source files:

- `Primitives` (`primitives.dfy`): the shared vocabulary. It has `Option`, the
  ranges of `u8`, `u32`, `u64` and `i32` over the unbounded `int`, and strings
  as UTF-8 byte sequences (`Str`). Every string literal in the tutorials is
  ASCII, so a literal is written `Ascii("...")`.
- `Variables` (`variables.dfy`): the `wrapping`, `checked`, `overflowing` and
  `saturating` additions on `u8`. It also has range slicing of arrays and of
  strings, including Rust's panic when a string range cuts a UTF-8 character.
  `first_word` is an imperative scan over the bytes, proved against a reference
  definition.
- `Structures` (`structures.dfy`): `Rectangle` is a class, because its setters
  assign fields of `&mut self`. `User` is a value, with `build_user` and the
  struct-update syntax `..user`.
- `ControlFlow` (`control_flow.dfy`): the `if`/`else if` chain against the
  independent `if`s, and the `if` expression. Each loop is a method that
  returns the values it prints: `loop` with a result, the labelled nested loop
  `'counting_up`, the `while` countdown, and the `for` loops over an array and
  over `(1..4).rev()`. The literals that drive a loop are parameters.
  `ControlFlowTour` runs every loop with the tutorial's own literals.
- `Enumerations` (`enumerations.dfy`): `IpAddrKind`, `Message` with its empty
  `send`, and `Coin` with `values_in_cents`.
- `Ownership` (`ownership.dfy`): an owned `String` is an object whose bytes
  `push_str` replaces in place. The module covers `modify(&mut s)`, `clone`,
  and the functions that hand a string to their caller or give one back.
- `Functions` (`functions.dfy`): the block expression, `get_five` and
  `my_addition`.

Printing is the only I/O. The model keeps the values that get printed and
drops the printing itself.

Two facts about the source came out of the loop proofs:

- The labelled loop terminates only because `remaining` starts above 0. If it
  started at 0, the inner loop would leave before it ever compared
  `counter` with 3, and the outer loop would go on for ever. The count limit must
  also not be negative. `CountingUp` requires both conditions, and the
  tutorial's values (3 and 2) satisfy them.
- The loop with a result always runs its body at least once. For a bound
  below 1 it gives 1, and for any other bound it gives the bound itself.

## Model

| member | source | states |
|---|---|---|
| `Variables.WrappingAdd` | src/tuto/variables/main.rs:89-90 | the result is `(x + y) mod 256`: it goes back to 0 past 255 |
| `Variables.CheckedAdd` | src/tuto/variables/main.rs:91-94 | the result is `None` exactly when `x + y > 255`, and otherwise `Some(x + y)` |
| `Variables.OverflowingAdd` | src/tuto/variables/main.rs:95-99 | the result is the pair (sum mod 256, flag), and the flag is set exactly when the sum exceeds 255 |
| `Variables.SaturatingAdd` | src/tuto/variables/main.rs:100-101 | the result is the largest `u8` not above `x + y`: the sum itself, or 255 when the sum is larger |
| `Variables.OverflowHandlersAgree` | src/tuto/variables/main.rs:80-86 | the overflowing pair is (wrapped sum, checked failed); a checked sum equals the wrapped sum; the saturated sum is the checked sum with 255 as fallback and is bounded below by both operands |
| `Variables.MaxPlusOne` | src/tuto/variables/main.rs:78-101 | 255 + 1 gives 0 wrapped, `None` checked, `(0, true)` overflowing and 255 saturated |
| `Variables.Slice` | src/tuto/variables/main.rs:241-243 | `s[start..end]` exists exactly when `start <= end <= len`; it then has `end - start` elements, and element `k` is `s[start + k]` (end exclusive) |
| `Variables.StrSlice` | src/tuto/variables/main.rs:233-235 | a string range succeeds exactly when it is in bounds and both ends are UTF-8 character boundaries; it then agrees with the array slice |
| `Variables.SliceExamples` | src/tuto/variables/main.rs:233-243 | `[1,2,3,4,5][1..3] == [2,3]`; `"hello world"[..5] == "hello"` and `[6..] == "world"` |
| `Variables.FirstWordOfSpec` | src/tuto/variables/main.rs:270-278 | the reference first word is a prefix of the input (so no longer than it), holds no space, and is followed by a space unless it is the whole input |
| `Variables.FirstWordOfUnique` | src/tuto/variables/main.rs:270-278 | any prefix without a space that ends at a space or at the end of the input is the first word |
| `Variables.FirstWordOfWhole` | src/tuto/variables/main.rs:278 | the first word is the whole input if and only if the input holds no space |
| `Variables.FirstWordSliceIsBoundary` | src/tuto/variables/main.rs:273-278 | slicing at the first space, or taking the whole string, never panics, because a space is a one-byte character |
| `Variables.FirstWord` | src/tuto/variables/main.rs:270-279 | the byte scan returns a prefix with no space that ends just before the first space, or the whole input; it equals the reference first word |
| `Variables.FirstWordOfHelloWorld` | src/tuto/variables/main.rs:249-253 | the first word of `"hello world !"` is `"hello"` |
| `Variables.SliceTips` | src/tuto/variables/main.rs:249-253 | the full slice `&my_string[..]` is the whole string, and its first word is `"hello"` |
| `Structures.Rectangle.constructor` | src/tuto/structures/main.rs:45-48 | the struct literal holds the given height and width |
| `Structures.Rectangle.NewSquare` | src/tuto/structures/main.rs:112-117 | `new_square(size)` has width and height both equal to `size` |
| `Structures.Rectangle.AreaBorrow` | src/tuto/structures/main.rs:67-69 | the area is `height * width`, a `u32` when the product does not overflow |
| `Structures.Rectangle.AreaBorrowShort` | src/tuto/structures/main.rs:71-73 | the short form gives the same area as `area_borrow` |
| `Structures.Rectangle.AreaMove` | src/tuto/structures/main.rs:75-77 | taking the rectangle by value gives the same area as `area_borrow` |
| `Structures.Rectangle.AreaMoveShort` | src/tuto/structures/main.rs:79-81 | the short by-value form gives the same area as `area_borrow` |
| `Structures.Rectangle.Width` | src/tuto/structures/main.rs:86-93 | the getter always equals the `width` field, because both branches yield it for a `u32` |
| `Structures.Rectangle.SetWidth` | src/tuto/structures/main.rs:97-99 | sets `width` to the new value and leaves `height` unchanged |
| `Structures.Rectangle.SetHeight` | src/tuto/structures/main.rs:100-102 | sets `height` to the new value and leaves `width` unchanged |
| `Structures.Rectangle.SetHeightShort` | src/tuto/structures/main.rs:104-106 | the same as `set_height` |
| `Structures.SquareArea` | src/tuto/structures/main.rs:221-222 | a square of side `size` has area `size * size` |
| `Structures.RectangleTour` | src/tuto/structures/main.rs:190-222 | 2 x 3 has area 6 whether borrowed or moved, and width 2 by the getter; 4 x 3 has area 12, and after `set_height(1)` and `set_width(2)` it has area 2; `new_square(2)` has side 2 |
| `Structures.BuildUser` | src/tuto/structures/main.rs:227-236 | the built user is active, has signed in once, and carries the given username and email |
| `Structures.WithUsername` | src/tuto/structures/main.rs:155-163 | the struct update replaces only the username and keeps `active`, `email` and `sign_in_count` from the base |
| `Structures.RenameBuiltUser` | src/tuto/structures/main.rs:150-163 | renaming a built user is the same as building the user under the new name |
| `Structures.UserTour` | src/tuto/structures/main.rs:126-163 | the users of `main`: Sauron is inactive with 7 sign-ins, Frodo's email is changed to valinor, `user3` is the built `sam`, and `user3_bis` is `samwise` with `user3`'s other fields |
| `ControlFlow.FirstDivisor` | src/tuto/control_flow/main.rs:8-18 | the chain picks a divisor from 4, 3, 2 such that no earlier candidate divides `n`; it falls through to `else` exactly when none divides |
| `ControlFlow.DivisorsAnnounced` | src/tuto/control_flow/main.rs:20-29 | the independent `if`s fire exactly for the candidates that divide `n`, in the order 4, 3, 2 |
| `ControlFlow.ChainIsFirstAnnounced` | src/tuto/control_flow/main.rs:8-29 | the chain selects exactly the first divisor the independent `if`s announce, or the fallback when they announce none |
| `ControlFlow.SixIsDivisibleByThreeAndTwo` | src/tuto/control_flow/main.rs:8-29 | for `n = 6` the chain selects 3 (not 2); the independent `if`s fire for 3 and 2 and not for 4 |
| `ControlFlow.Ternary` | src/tuto/control_flow/main.rs:32 | the value is `"valid"` if and only if `n == 6`, and `"invalid"` otherwise |
| `ControlFlow.LoopWithResult` | src/tuto/control_flow/main.rs:49-59 | the loop breaks with its number of passes: the bound, or 1 when the bound is below 1 |
| `ControlFlow.CountingUp` | src/tuto/control_flow/main.rs:69-91 | the labelled loop prints counts 0 to `stop` and ends with `counter == stop`; `remaining` runs `start` down to 0 once per earlier pass, and the last pass prints only `start` before leaving the outer loop |
| `ControlFlow.CountingUpTrace` | src/tuto/control_flow/main.rs:69-90 | with the tutorial's 3 and 2, `remaining` prints 2, 1, 0 three times and then 2 |
| `ControlFlow.WhileCountdown` | src/tuto/control_flow/main.rs:97-101 | the `while` loop prints `start` down to 1 and ends with `count == 0` |
| `ControlFlow.CountdownTrace` | src/tuto/control_flow/main.rs:97-101 | a countdown from 3 prints 3, 2, 1 |
| `ControlFlow.ForEachElement` | src/tuto/control_flow/main.rs:110-114 | `for element in array` yields the array's elements in order |
| `ControlFlow.ForRangeRev` | src/tuto/control_flow/main.rs:117-119 | `(lo..hi).rev()` yields `hi - 1` down to `lo`, and nothing when the range is empty |
| `ControlFlow.ControlFlowTour` | src/tuto/control_flow/main.rs:49-120 | with the tutorial's literals: the result is 3; the labelled loop ends at 3; `while` and `(1..4).rev()` both print 3, 2, 1; the array loop prints 1, 2, 3 |
| `Enumerations.IpAddrKindVariants` | src/tuto/enumerations/main.rs:4-8 | `IpAddrKind` has exactly two variants, V4 and V6, and they are distinct |
| `Enumerations.Message.Send` | src/tuto/enumerations/main.rs:26-28 | `send` leaves the message as it was, for every variant |
| `Enumerations.SendHello` | src/tuto/enumerations/main.rs:55-56 | sending `Write("hello")` leaves a `Write` message with text `"hello"` |
| `Enumerations.ValuesInCents` | src/tuto/enumerations/main.rs:100-107 | the function is total over `Coin`, and its value is always one of 1, 5, 10, 25, so it fits in `u8` |
| `Enumerations.CoinValues` | src/tuto/enumerations/main.rs:102-105 | Penny is 1, Nickel 5, Dime 10 and Quarter 25 |
| `Enumerations.CentsFollowDeclarationOrder` | src/tuto/enumerations/main.rs:37-42 | values grow strictly with the declaration order, in both directions, so distinct coins have distinct values |
| `Ownership.OwnedString.From` | src/tuto/ownership/main.rs:44 | `String::from(s)` holds the bytes of `s` |
| `Ownership.OwnedString.PushStr` | src/tuto/ownership/main.rs:45 | `push_str(t)` makes the string its old bytes followed by `t` |
| `Ownership.OwnedString.Clone` | src/tuto/ownership/main.rs:88 | `clone` gives a fresh, distinct string with equal bytes, and the original is left unchanged |
| `Ownership.Modify` | src/tuto/ownership/main.rs:290-292 | the string becomes its old bytes followed by `", world !"`, so it is nine bytes longer |
| `Ownership.GetStringOwnership` | src/tuto/ownership/main.rs:268-271 | the function always hands the caller a new string `"yours"` |
| `Ownership.TakesAndGivesBackOwnership` | src/tuto/ownership/main.rs:276-278 | the function returns the very string it was given, unchanged |
| `Ownership.FromThenPushStr` | src/tuto/ownership/main.rs:43-47 | after `String::from("hello")` and `push_str(", world !")` the string is `"hello, world !"` and the literal is still `"hello"` |
| `Ownership.CloneHello` | src/tuto/ownership/main.rs:87-90 | the clone reads `"hello"` like the original, in a different buffer, and the original is still readable |
| `Ownership.ReturnValues` | src/tuto/ownership/main.rs:124-131 | the string received is `"yours"`, and the string given away and taken back is still `"mine"` |
| `Ownership.ModifyHello` | src/tuto/ownership/main.rs:168-170 | `modify` on `"hello"` produces `"hello, world !"` |
| `Functions.BlockExpression` | src/tuto/functions/main.rs:30-35 | the block `{ let y = 3; y + 1 }` evaluates to 4 |
| `Functions.GetFive` | src/tuto/functions/main.rs:69-74 | `get_five` always returns 5 |
| `Functions.MyAddition` | src/tuto/functions/main.rs:84-86 | `my_addition(x, y)` is `x + y` whenever the sum fits in `i32` |
| `Functions.FunctionsTour` | src/tuto/functions/main.rs:30-59 | the block is 4, `get_five` is 5, and `my_addition(1, 2)` is 3; the mutable binding can be reassigned to 5 while the immutable one stays 3 |

## Left out

- Printing (`println!`, `print!`) is console output. The loops return the
  values they print; the text of the messages is not modelled.
- The first `loop { println!("looped !"); break; }` (src/tuto/control_flow/main.rs:43-46)
  runs its body once and changes no state, so it is not modelled.
- Borrow-checker and move rules are compile-time checks, not run-time
  behaviour. This covers the invalidation of `s1` after `let s2 = s1`, one
  `&mut` at a time, no `&mut` to an immutable binding, `r1` invalidated by
  `area_move`, `user3` moved into `user3_bis`, and the non-compiling `dangle`.
- Stack, heap and read-only memory layout, and the pointer/length/capacity of
  `String`, are commentary with no behaviour.
- Floating-point values, `str::from_utf8`, and the `char`/emoji examples are
  left out. So are shadowing, constants, tuples, the unit value, the
  `[0; 10]` array, and the tuple and unit structs (`Color`, `Point`,
  `OtherPoint`, `SomeTrait`). These are compile-time typing and scoping
  matters, or library calls.
- The `Option` demonstration values in the enumerations tutorial and the empty
  vector section have no logic.
- `Structures.Rectangle.AreaBorrow`: the product is specified only when it
  fits in a `u32`. An overflowing product panics in a debug build and wraps in
  a release build; neither behaviour is modelled.
- `Functions.MyAddition`: specified only when the `i32` sum is in range. The
  overflow panic (debug) and the wrap-around (release) are not modelled.
- `ControlFlow.WhileCountdown`: a negative start would count down until `i32`
  overflows. That start is excluded rather than modelled.
- `ControlFlow.LoopWithResult`, `ControlFlow.CountingUp` and
  `ControlFlow.ForRangeRev` take the tutorial's literals as parameters. The
  `i32` overflow of `counter` for extreme bounds is not modelled.
