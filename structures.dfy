/** The structures tutorial: the `Rectangle` record with its methods and
    associated function, and the `User` record with its builder and the
    struct-update syntax. */
module Structures {
  import opened Primitives

  /** `Rectangle { height, width }`. Its setters update a field in place,
      so it is an object whose two fields the methods assign. */
  class Rectangle {
    var height: U32
    var width: U32

    /** The struct literal `Rectangle { height, width }`. */
    constructor (height: U32, width: U32)
      ensures this.height == height && this.width == width
    {
      this.height := height;
      this.width := width;
    }

    /** `Rectangle::new_square`: an associated function building a
        rectangle whose sides are both `size`. */
    constructor NewSquare(size: U32)
      ensures width == size && height == size
    {
      width := size;
      height := size;
    }

    /** Whether `height * width` fits in a `u32`; otherwise the product
        panics on overflow. */
    predicate AreaFits()
      reads this
    {
      height * width <= U32_MAX
    }

    /** `area_borrow(self: &Self)`. */
    function AreaBorrow(): (a: U32)
      reads this
      requires AreaFits()
      ensures a == height * width
    {
      height * width
    }

    /** `area_borrow_short(&self)`: the same method in the shorter syntax. */
    function AreaBorrowShort(): (a: U32)
      reads this
      requires AreaFits()
      ensures a == AreaBorrow()
    {
      height * width
    }

    /** `area_move(self: Self)`: the same product, taking the rectangle by
        value. */
    function AreaMove(): (a: U32)
      reads this
      requires AreaFits()
      ensures a == AreaBorrow()
    {
      height * width
    }

    /** `area_move_short(self)`. */
    function AreaMoveShort(): (a: U32)
      reads this
      requires AreaFits()
      ensures a == AreaBorrow()
    {
      height * width
    }

    /** The `width()` getter: both of its branches give the field, since a
        `u32` that is not positive is 0. */
    function Width(): (w: U32)
      reads this
      ensures w == width
    {
      if width > 0 then width else 0
    }

    /** `set_width(&mut self, new_width)`. */
    method SetWidth(newWidth: U32)
      modifies this
      ensures width == newWidth && height == old(height)
    {
      width := newWidth;
    }

    /** `set_height(self: &mut Self, new_height)`. */
    method SetHeight(newHeight: U32)
      modifies this
      ensures height == newHeight && width == old(width)
    {
      height := newHeight;
    }

    /** `set_height_short(&mut self, new_height)`: the same in the shorter
        syntax. */
    method SetHeightShort(newHeight: U32)
      modifies this
      ensures height == newHeight && width == old(width)
    {
      height := newHeight;
    }
  }

  /** The area is symmetric in the two sides, so a square of side `size`
      has area `size * size` whichever side is read first. */
  lemma SquareArea(r: Rectangle, size: U32)
    requires r.width == size && r.height == size
    requires size * size <= U32_MAX
    ensures r.AreaFits()
    ensures r.AreaBorrow() == size * size
  {
  }

  /** The rectangle part of the tutorial's `main`: `2 x 3` has area 6 by
      either method and width 2 by the getter; `4 x 3` has area 12, and
      after `set_height(1)` and `set_width(2)` its area is 2; then
      `new_square(2)` is `2 x 2`. */
  method RectangleTour() returns (borrowedArea: U32, movedArea: U32, getterWidth: U32,
                                  initialArea: U32, newArea: U32, squareSide: U32)
    ensures borrowedArea == 6 && movedArea == 6 && getterWidth == 2
    ensures initialArea == 12 && newArea == 2
    ensures squareSide == 2
  {
    var r1 := new Rectangle(3, 2);
    borrowedArea := r1.AreaBorrow();
    movedArea := r1.AreaMove();
    r1 := new Rectangle(3, 2);
    getterWidth := r1.Width();

    var r2 := new Rectangle(4, 3);
    initialArea := r2.AreaBorrow();
    r2.SetHeight(1);
    r2.SetWidth(2);
    newArea := r2.AreaBorrow();
    r2.SetHeight(1);
    r2.SetHeightShort(1);

    var square := new Rectangle.NewSquare(2);
    assert square.height == square.width;
    squareSide := square.height;
  }

  /** `struct User`. `main` reassigns a field of a mutable binding, which
      is a new value for the binding, so a user is a value. */
  datatype User = User(active: bool, username: Str, email: Str, signInCount: U64)

  /** `build_user`: an active user who has signed in once. */
  function BuildUser(username: Str, email: Str): (u: User)
    ensures u.active && u.signInCount == 1
    ensures u.username == username && u.email == email
  {
    User(active := true, username := username, email := email, signInCount := 1)
  }

  /** `User { username, ..base }`: every field but the username is copied
      from `base`. */
  function WithUsername(base: User, username: Str): (u: User)
    ensures u.username == username
    ensures u.active == base.active && u.email == base.email && u.signInCount == base.signInCount
  {
    base.(username := username)
  }

  /** Building a user and then renaming it is building a user with the new
      name: the update keeps the builder's defaults. */
  lemma RenameBuiltUser(username: Str, email: Str, newName: Str)
    ensures WithUsername(BuildUser(username, email), newName) == BuildUser(newName, email)
  {
  }

  /** The user part of the tutorial's `main`. */
  method UserTour() returns (user1: User, user2: User, user3: User, user3Bis: User)
    ensures !user1.active && user1.signInCount == 7
    ensures user2.email == Ascii("frodo.baggins@valinor.com") && user2.username == Ascii("frodo")
    ensures user3 == User(true, Ascii("sam"), Ascii("sam.gamegie@shire.com"), 1)
    ensures user3Bis == User(true, Ascii("samwise"), Ascii("sam.gamegie@shire.com"), 1)
  {
    user1 := User(false, Ascii("Sauron"), Ascii("sauron.eye@baraddur.com"), 7);
    user2 := User(true, Ascii("frodo"), Ascii("frodo.baggins@shire.com"), 1);
    user2 := user2.(email := Ascii("frodo.baggins@valinor.com"));
    user3 := BuildUser(Ascii("sam"), Ascii("sam.gamegie@shire.com"));
    user3Bis := WithUsername(user3, Ascii("samwise"));
  }
}
