/** The variables tutorial: the overflow-handling additions on `u8`, range
    slicing of arrays and strings, and the `first_word` scan. */
module Variables {
  import opened Primitives

  // ------------------------------------------------------------------
  // Overflow handling on u8

  /** `u8::wrapping_add`: the sum goes back to 0 past the maximum value. */
  function WrappingAdd(x: U8, y: U8): (r: U8)
    ensures r == (x + y) % (U8_MAX + 1)
  {
    if x + y <= U8_MAX then x + y else x + y - (U8_MAX + 1)
  }

  /** `u8::checked_add`: `None` on overflow, the exact sum otherwise. */
  function CheckedAdd(x: U8, y: U8): (r: Option<U8>)
    ensures r.None? <==> x + y > U8_MAX
    ensures r.Some? ==> r.value == x + y
  {
    var sum := x + y;
    if sum <= U8_MAX then Some(sum) else None
  }

  /** `u8::overflowing_add`: the wrapped sum together with a flag that
      says whether the addition overflowed. */
  function OverflowingAdd(x: U8, y: U8): (r: (U8, bool))
    ensures r.1 <==> x + y > U8_MAX
    ensures r.0 == (x + y) % (U8_MAX + 1)
  {
    var sum := x + y;
    if sum > U8_MAX then (sum - (U8_MAX + 1), true) else (sum, false)
  }

  /** `u8::saturating_add`: the sum, capped at the maximum value. */
  function SaturatingAdd(x: U8, y: U8): (r: U8)
    ensures r <= x + y
    ensures r < x + y ==> r == U8_MAX
  {
    if x + y > U8_MAX then U8_MAX else x + y
  }

  /** The four ways of handling overflow are views of the same sum: the
      overflowing pair is the wrapped sum and the checked failure, and the
      saturated sum is the checked sum with the maximum as fallback. */
  lemma OverflowHandlersAgree(x: U8, y: U8)
    ensures OverflowingAdd(x, y) == (WrappingAdd(x, y), CheckedAdd(x, y).None?)
    ensures CheckedAdd(x, y).Some? ==> WrappingAdd(x, y) == CheckedAdd(x, y).value
    ensures SaturatingAdd(x, y) == if CheckedAdd(x, y).None? then U8_MAX else CheckedAdd(x, y).value
    ensures x <= SaturatingAdd(x, y) && y <= SaturatingAdd(x, y)
  {
  }

  /** The tutorial's `x = 255` plus one under each method. */
  lemma MaxPlusOne()
    ensures WrappingAdd(255, 1) == 0
    ensures CheckedAdd(255, 1) == None
    ensures OverflowingAdd(255, 1) == (0, true)
    ensures SaturatingAdd(255, 1) == 255
  {
  }

  // ------------------------------------------------------------------
  // Slices

  /** Indexing an array by the range `start..end`: the end is exclusive,
      and a range outside the array panics (`None`). */
  function Slice<T>(s: seq<T>, start: nat, end: nat): (r: Option<seq<T>>)
    ensures r.Some? <==> start <= end <= |s|
    ensures r.Some? ==> |r.value| == end - start
    ensures r.Some? ==> forall k :: 0 <= k < |r.value| ==> r.value[k] == s[start + k]
  {
    if start <= end <= |s| then Some(s[start..end]) else None
  }

  /** `str::is_char_boundary`: the start, the end, or a byte that is not a
      UTF-8 continuation byte (`0b10xx_xxxx`). */
  predicate IsCharBoundary(s: Str, i: nat) {
    i == 0 || i == |s| || (i < |s| && (s[i] < 0x80 || s[i] >= 0xc0))
  }

  /** Indexing a string by a byte range: it panics (`None`) when the range
      is outside the string or cuts a character in two. */
  function StrSlice(s: Str, start: nat, end: nat): (r: Option<Str>)
    ensures r.Some? <==> start <= end <= |s| && IsCharBoundary(s, start) && IsCharBoundary(s, end)
    ensures r.Some? ==> r == Slice(s, start, end)
  {
    if start <= end <= |s| && IsCharBoundary(s, start) && IsCharBoundary(s, end)
    then Some(s[start..end])
    else None
  }

  /** On ASCII text every index is a character boundary. */
  lemma AsciiBoundaries(s: string, i: nat)
    requires IsAscii(s) && i <= |s|
    ensures IsCharBoundary(Ascii(s), i)
  {
  }

  /** The slices of the tutorial: `[1, 2, 3, 4, 5][1..3]` is `[2, 3]`, and
      `"hello world"[..5]` and `[6..]` are `"hello"` and `"world"`. */
  lemma SliceExamples()
    ensures Slice([1, 2, 3, 4, 5], 1, 3) == Some([2, 3])
    ensures StrSlice(Ascii("hello world"), 0, 5) == Some(Ascii("hello"))
    ensures StrSlice(Ascii("hello world"), 6, 11) == Some(Ascii("world"))
  {
    assert [1, 2, 3, 4, 5][1..3] == [2, 3];
    var s := "hello world";
    AsciiBoundaries(s, 0);
    AsciiBoundaries(s, 5);
    AsciiBoundaries(s, 6);
    AsciiBoundaries(s, 11);
    AsciiSlice(s, 0, 5);
    AsciiSlice(s, 6, 11);
    assert s[0..5] == "hello";
    assert s[6..11] == "world";
  }

  // ------------------------------------------------------------------
  // first_word

  /** Reference definition: the bytes before the first space. */
  function FirstWordOf(s: Str): Str {
    if s == [] || s[0] == SPACE then [] else [s[0]] + FirstWordOf(s[1..])
  }

  /** The first word is a prefix of the string that holds no space and that
      ends where the string ends or where a space follows. */
  lemma {:induction false} FirstWordOfSpec(s: Str)
    ensures |FirstWordOf(s)| <= |s|
    ensures FirstWordOf(s) == s[..|FirstWordOf(s)|]
    ensures SPACE !in FirstWordOf(s)
    ensures |FirstWordOf(s)| < |s| ==> s[|FirstWordOf(s)|] == SPACE
  {
    if s != [] && s[0] != SPACE {
      FirstWordOfSpec(s[1..]);
      assert FirstWordOf(s) == [s[0]] + FirstWordOf(s[1..]);
      assert s == [s[0]] + s[1..];
    }
  }

  /** Those properties determine the first word: any prefix without a space
      that ends at a space or at the end is it. */
  lemma FirstWordOfUnique(s: Str, p: Str)
    requires |p| <= |s| && p == s[..|p|]
    requires SPACE !in p
    requires |p| < |s| ==> s[|p|] == SPACE
    ensures FirstWordOf(s) == p
  {
    FirstWordOfSpec(s);
  }

  /** The whole string comes back exactly when it holds no space. */
  lemma FirstWordOfWhole(s: Str)
    ensures FirstWordOf(s) == s <==> SPACE !in s
  {
    FirstWordOfSpec(s);
    if SPACE !in s {
      FirstWordOfUnique(s, s);
    }
  }

  /** `&rs[..i]` at the first space, or `&rs[..]`, never panics: a space
      is a one-byte character, so it starts a character. */
  lemma FirstWordSliceIsBoundary(s: Str)
    ensures StrSlice(s, 0, |FirstWordOf(s)|) == Some(FirstWordOf(s))
  {
    FirstWordOfSpec(s);
  }

  /** `first_word`: walks the bytes and returns the slice before the first
      space, or the whole slice if there is none. */
  method FirstWord(rs: Str) returns (w: Str)
    ensures |w| <= |rs| && w == rs[..|w|]
    ensures SPACE !in w
    ensures |w| < |rs| ==> rs[|w|] == SPACE
    ensures w == FirstWordOf(rs)
  {
    w := rs;
    for i := 0 to |rs|
      invariant forall j :: 0 <= j < i ==> rs[j] != SPACE
    {
      if rs[i] == SPACE {
        w := rs[..i];
        break;
      }
    }
    assert rs[..|rs|] == rs;
    FirstWordOfUnique(rs, w);
  }

  /** The first word of `"hello world !"` is `"hello"`. */
  lemma FirstWordOfHelloWorld()
    ensures FirstWordOf(Ascii("hello world !")) == Ascii("hello")
  {
    var s := "hello world !";
    AsciiSlice(s, 0, 5);
    assert s[0..5] == "hello";
    var p := Ascii("hello");
    assert SPACE !in p by {
      assert forall k :: 0 <= k < |p| ==> p[k] == "hello"[k] as int;
    }
    FirstWordOfUnique(Ascii(s), p);
  }

  /** The slice tips of the tutorial: the full slice of `"hello world !"`
      is the whole string, and its first word is `"hello"`. */
  method SliceTips() returns (mySlice: Str, firstWord: Str)
    ensures mySlice == Ascii("hello world !")
    ensures firstWord == Ascii("hello")
  {
    var myString := Ascii("hello world !");
    mySlice := myString[..];
    firstWord := FirstWord(mySlice);
    FirstWordOfHelloWorld();
  }
}
