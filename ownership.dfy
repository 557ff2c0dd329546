/** The ownership tutorial: an owned, growable `String`, appending to it
    in place (`push_str`, `modify`), cloning it, and functions that give
    a string to their caller or give one back. */
module Ownership {
  import opened Primitives

  /** A heap-allocated `String`: an object whose bytes `push_str` replaces
      in place. */
  class OwnedString {
    var bytes: Str

    /** `String::from(s)`: a new string holding a copy of `s`. */
    constructor From(s: Str)
      ensures bytes == s
    {
      bytes := s;
    }

    /** `push_str(t)`: appends `t`. */
    method PushStr(t: Str)
      modifies this
      ensures bytes == old(bytes) + t
    {
      bytes := bytes + t;
    }

    /** `clone()`: a distinct string with equal contents, leaving this one
        as it was. */
    method Clone() returns (c: OwnedString)
      ensures fresh(c) && c.bytes == bytes
    {
      c := new OwnedString.From(bytes);
    }
  }

  /** `modify(s: &mut String)`: appends `", world !"` to the string in
      place, so it grows by nine bytes. */
  method Modify(s: OwnedString)
    modifies s
    ensures s.bytes == old(s.bytes) + Ascii(", world !")
    ensures |s.bytes| == |old(s.bytes)| + 9
  {
    s.PushStr(Ascii(", world !"));
  }

  /** `get_string_ownership()`: a new string `"yours"` that moves to the
      caller. */
  method GetStringOwnership() returns (s: OwnedString)
    ensures fresh(s) && s.bytes == Ascii("yours")
  {
    s := new OwnedString.From(Ascii("yours"));
  }

  /** `takes_and_gives_back_ownership(a_string)`: the very string it was
      given, untouched. */
  method TakesAndGivesBackOwnership(aString: OwnedString) returns (r: OwnedString)
    ensures r == aString && r.bytes == aString.bytes
  {
    r := aString;
  }

  /** `String::from(immutable_str)` then `push_str(", world !")`: the new
      string is `"hello, world !"` while the literal it came from is still
      `"hello"`. */
  method FromThenPushStr() returns (s: Str, immutableStr: Str)
    ensures immutableStr == Ascii("hello")
    ensures s == Ascii("hello, world !")
  {
    immutableStr := Ascii("hello");
    var owned := new OwnedString.From(immutableStr);
    owned.PushStr(Ascii(", world !"));
    s := owned.bytes;
    AsciiConcat("hello", ", world !");
  }

  /** `let s2 = s1.clone();`: both strings read `"hello"`, in two distinct
      buffers, and `s1` is still usable. */
  method CloneHello() returns (s1: Str, s2: Str, sameBuffer: bool)
    ensures s1 == Ascii("hello") && s2 == s1
    ensures !sameBuffer
  {
    var owned1 := new OwnedString.From(Ascii("hello"));
    var owned2 := owned1.Clone();
    sameBuffer := owned1 == owned2;
    s1 := owned1.bytes;
    s2 := owned2.bytes;
  }

  /** The return values of the tutorial: the string received is `"yours"`
      and the string given and taken back is still `"mine"`. */
  method ReturnValues() returns (s1: Str, s2: Str)
    ensures s1 == Ascii("yours") && s2 == Ascii("mine")
  {
    var received := GetStringOwnership();
    s1 := received.bytes;
    var mine := new OwnedString.From(Ascii("mine"));
    var back := TakesAndGivesBackOwnership(mine);
    s2 := back.bytes;
  }

  /** `modify(&mut s)` on `"hello"` gives `"hello, world !"`. */
  method ModifyHello() returns (s: Str)
    ensures s == Ascii("hello, world !")
  {
    var owned := new OwnedString.From(Ascii("hello"));
    Modify(owned);
    s := owned.bytes;
    AsciiConcat("hello", ", world !");
  }
}
