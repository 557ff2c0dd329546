/** The enumerations tutorial: plain variants, variants carrying data with
    an (empty) method, and the `Coin` to cents `match`. */
module Enumerations {
  import opened Primitives

  /** `enum IpAddrKind { V4, V6 }`. */
  datatype IpAddrKind = V4 | V6

  /** The two variants are distinct and there is no other. */
  lemma IpAddrKindVariants(k: IpAddrKind)
    ensures V4 != V6
    ensures k == V4 || k == V6
  {
  }

  /** `enum Message`: a unit variant, a `String` variant, a struct variant
      and a tuple variant. */
  datatype Message =
    | Quit
    | Write(text: Str)
    | Move(x: I32, y: I32)
    | ChangeColor(r: I32, g: I32, b: I32)
  {
    /** `send(&self)` has an empty body: the message it is called on is
        what it was before, whatever the variant. */
    function Send(): (after: Message)
      ensures after == this
    {
      this
    }
  }

  /** `let m = Message::Write(String::from("hello")); m.send();` */
  method SendHello() returns (m: Message)
    ensures m.Write? && m.text == Ascii("hello")
  {
    m := Write(Ascii("hello"));
    m := m.Send();
  }

  /** `enum Coin`, in declaration order. */
  datatype Coin = Penny | Nickel | Dime | Quarter

  /** The position of a variant in the declaration of `Coin`. */
  function DeclarationIndex(coin: Coin): nat {
    match coin
    case Penny => 0
    case Nickel => 1
    case Dime => 2
    case Quarter => 3
  }

  /** `values_in_cents`: total over `Coin`, and always one of the four
      coin values, so it fits in a `u8`. */
  function ValuesInCents(coin: Coin): (cents: U8)
    ensures cents in {1, 5, 10, 25}
  {
    match coin
    case Penny => 1
    case Nickel => 5
    case Dime => 10
    case Quarter => 25
  }

  /** The value of each coin. */
  lemma CoinValues()
    ensures ValuesInCents(Penny) == 1
    ensures ValuesInCents(Nickel) == 5
    ensures ValuesInCents(Dime) == 10
    ensures ValuesInCents(Quarter) == 25
  {
  }

  /** Values grow strictly with the declaration order, so distinct coins
      have distinct values. */
  lemma CentsFollowDeclarationOrder(a: Coin, b: Coin)
    ensures DeclarationIndex(a) < DeclarationIndex(b) <==> ValuesInCents(a) < ValuesInCents(b)
    ensures ValuesInCents(a) == ValuesInCents(b) ==> a == b
  {
  }
}
