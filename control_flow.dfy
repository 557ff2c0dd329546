/** The control-flow tutorial: an `if`/`else if` chain against independent
    `if`s, the ternary-like `if` expression, and the loops (`loop` with a
    result, a labelled nested `loop`, a `while` countdown and `for` loops).
    Each loop's printed values are returned as the sequence it prints, and
    the literals that drive a loop are parameters, instantiated with the
    tutorial's own values by `ControlFlowTour`.

    `n % d == 0` means the same under Rust's truncating remainder and
    Dafny's Euclidean one, so the divisibility tests hold for negative `n`
    too. */
module ControlFlow {
  import opened Primitives

  // ------------------------------------------------------------------
  // if

  /** The candidate divisors, in the order the conditions try them. */
  const CANDIDATES: seq<int> := [4, 3, 2]

  /** The `if`/`else if` chain: the first of 4, 3, 2 that divides `n`, or
      `None` for the final `else`. */
  function FirstDivisor(n: int): (d: Option<int>)
    ensures d.Some? ==> d.value in CANDIDATES && n % d.value == 0
    ensures d.Some? ==> forall e :: e in CANDIDATES && e > d.value ==> n % e != 0
    ensures d.None? <==> forall e :: e in CANDIDATES ==> n % e != 0
  {
    if n % 4 == 0 then Some(4)
    else if n % 3 == 0 then Some(3)
    else if n % 2 == 0 then Some(2)
    else None
  }

  /** The three independent `if`s: every one of 4, 3, 2 that divides `n`
      fires, in that order. */
  function DivisorsAnnounced(n: int): (fired: seq<int>)
    ensures forall d :: d in fired <==> d in CANDIDATES && n % d == 0
    ensures forall i, j :: 0 <= i < j < |fired| ==> fired[i] > fired[j]
  {
    (if n % 4 == 0 then [4] else [])
    + (if n % 3 == 0 then [3] else [])
    + (if n % 2 == 0 then [2] else [])
  }

  /** The chain selects exactly the first of the divisors that the
      independent `if`s announce. */
  lemma ChainIsFirstAnnounced(n: int)
    ensures FirstDivisor(n) == if DivisorsAnnounced(n) == [] then None else Some(DivisorsAnnounced(n)[0])
  {
  }

  /** For the tutorial's `n = 6` the chain stops at 3, while the separate
      `if`s fire for 3 and for 2 and not for 4. */
  lemma SixIsDivisibleByThreeAndTwo()
    ensures FirstDivisor(6) == Some(3)
    ensures DivisorsAnnounced(6) == [3, 2]
  {
  }

  /** `if n == 6 { "valid" } else { "invalid" }`. */
  function Ternary(n: int): (x: Str)
    ensures x == Ascii("valid") <==> n == 6
    ensures x == Ascii("valid") || x == Ascii("invalid")
  {
    if n == 6 then Ascii("valid") else Ascii("invalid")
  }

  // ------------------------------------------------------------------
  // Sequences the loops print

  /** `[hi, hi - 1, ..., lo]`, empty when `hi < lo`. */
  function Down(hi: int, lo: int): (r: seq<int>)
    decreases hi - lo
    ensures |r| == if hi < lo then 0 else hi - lo + 1
    ensures forall k :: 0 <= k < |r| ==> r[k] == hi - k
  {
    if hi < lo then [] else [hi] + Down(hi - 1, lo)
  }

  /** A countdown extended by one more step. */
  lemma DownExtend(hi: int, lo: int)
    requires lo <= hi + 1
    ensures Down(hi, lo) + [lo - 1] == Down(hi, lo - 1)
  {
  }

  /** `n` copies of `s`, one after the other. */
  function Repeat(s: seq<int>, n: nat): (r: seq<int>)
    ensures |r| == n * |s|
  {
    if n == 0 then [] else Repeat(s, n - 1) + s
  }

  // ------------------------------------------------------------------
  // loop

  /** `let result = loop { counter += 1; if counter >= bound { break counter; } }`
      from `counter = 0`: the body runs at least once and the loop evaluates
      to its number of passes, which is `bound` when `bound >= 1`. */
  method LoopWithResult(bound: int) returns (result: int, passes: nat)
    ensures result == passes
    ensures result == if bound <= 1 then 1 else bound
  {
    var counter := 0;
    passes := 0;
    while true
      invariant passes == counter
      invariant 0 <= counter < if bound <= 1 then 1 else bound
      decreases bound - counter
    {
      passes := passes + 1;
      counter := counter + 1;
      if counter >= bound {
        result := counter;
        break;
      }
    }
  }

  /** The labelled loop `'counting_up`: each outer pass prints `counter`
      and sets `remaining := start`; the inner loop prints `remaining`,
      leaves when it is 0, leaves `'counting_up` when `counter == stop`, and
      otherwise counts down. The loop ends only if `stop >= 0` and
      `start > 0` (with `start == 0` the inner loop leaves before it can see
      `counter == stop`), and then with `counter == stop`, after `stop` full
      countdowns and one last `remaining = start`. */
  method CountingUp(stop: int, start: int) returns (counter: int, counts: seq<int>, remainings: seq<int>)
    requires stop >= 0 && start > 0
    ensures counter == stop
    ensures |counts| == stop + 1 && forall k :: 0 <= k < |counts| ==> counts[k] == k
    ensures remainings == Repeat(Down(start, 0), stop) + [start]
  {
    counter := 0;
    counts := [];
    remainings := [];
    label countingUp:
    while true
      invariant 0 <= counter <= stop
      invariant |counts| == counter && forall k :: 0 <= k < |counts| ==> counts[k] == k
      invariant remainings == Repeat(Down(start, 0), counter)
      decreases stop - counter
    {
      counts := counts + [counter];
      var remaining := start;
      ghost var done := remainings;
      while true
        invariant 0 <= remaining <= start
        invariant counter == stop ==> remaining == start
        invariant remainings == done + Down(start, remaining + 1)
        decreases remaining
      {
        DownExtend(start, remaining + 1);
        remainings := remainings + [remaining];
        if remaining == 0 {
          break;
        }
        if counter == stop {
          break countingUp;
        }
        remaining := remaining - 1;
      }
      counter := counter + 1;
    }
    assert Down(start, start + 1) == [];
  }

  // ------------------------------------------------------------------
  // while and for

  /** `while count != 0 { println!("{count}"); count -= 1; }` from
      `count = start`: it prints `start, ..., 1` and ends at 0. A negative
      start would count down until `i32` overflow, so it is excluded. */
  method WhileCountdown(start: int) returns (count: int, shown: seq<int>)
    requires start >= 0
    ensures count == 0
    ensures shown == Down(start, 1)
  {
    count := start;
    shown := [];
    while count != 0
      invariant 0 <= count <= start
      invariant shown == Down(start, count + 1)
    {
      DownExtend(start, count + 1);
      shown := shown + [count];
      count := count - 1;
    }
  }

  /** `for element in array`: the elements, in order. */
  method ForEachElement(a: array<int>) returns (shown: seq<int>)
    ensures shown == a[..]
  {
    shown := [];
    for i := 0 to a.Length
      invariant shown == a[..i]
    {
      shown := shown + [a[i]];
    }
  }

  /** `for element in (lo..hi).rev()`: `hi - 1` down to `lo`, nothing when
      the range is empty. */
  method ForRangeRev(lo: int, hi: int) returns (shown: seq<int>)
    ensures shown == Down(hi - 1, lo)
  {
    shown := [];
    var next := hi;
    while next > lo
      invariant next <= hi && (lo <= next || next == hi)
      invariant shown == Down(hi - 1, next)
    {
      next := next - 1;
      DownExtend(hi - 1, next + 1);
      shown := shown + [next];
    }
  }

  /** The values the tutorial's labelled loop prints for `remaining`. */
  lemma CountingUpTrace()
    ensures Repeat(Down(2, 0), 3) + [2] == [2, 1, 0, 2, 1, 0, 2, 1, 0, 2]
  {
    var d := Down(2, 0);
    assert d == [2, 1, 0] by {
      assert Down(-1, 0) == [];
      assert Down(0, 0) == [0];
      assert Down(1, 0) == [1, 0];
    }
    assert Repeat(d, 1) == Repeat(d, 0) + d == d;
    assert Repeat(d, 2) == Repeat(d, 1) + d == [2, 1, 0, 2, 1, 0];
    assert Repeat(d, 3) == Repeat(d, 2) + d;
  }

  /** The values the tutorial's countdowns print. */
  lemma CountdownTrace()
    ensures Down(3, 1) == [3, 2, 1]
  {
    assert Down(1, 1) == [1];
  }

  /** The tutorial's `main` with its own literals: the loop with a result
      gives 3, the labelled loop ends at 3 after printing 2, 1, 0 three
      times and a last 2, the `while` loop and `(1..4).rev()` both print
      3, 2, 1, and the `for` over `[1, 2, 3]` prints 1, 2, 3. */
  method ControlFlowTour() returns (result: int, endCount: int, remainings: seq<int>,
                                    liftoff: seq<int>, counted: seq<int>, countdown: seq<int>)
    ensures result == 3
    ensures endCount == 3
    ensures remainings == [2, 1, 0, 2, 1, 0, 2, 1, 0, 2]
    ensures liftoff == [3, 2, 1] && countdown == liftoff
    ensures counted == [1, 2, 3]
  {
    var passes;
    result, passes := LoopWithResult(3);
    var counts;
    endCount, counts, remainings := CountingUp(3, 2);
    CountingUpTrace();
    var count;
    count, liftoff := WhileCountdown(3);
    CountdownTrace();
    var arr := new int[3];
    arr[0], arr[1], arr[2] := 1, 2, 3;
    counted := ForEachElement(arr);
    assert arr[..] == [1, 2, 3];
    countdown := ForRangeRev(1, 4);
  }
}
