/** A grid position with a "not found" flag.  The value is immutable: its
    fields are set once, when it is built, and only read afterwards. */
module Coordinates {

  /** The three-field value; the datatype's own destructors `x`, `y` and
      `notFound` are the read-only accessors. */
  datatype Coordinates = Coordinates(x: int, y: int, notFound: bool)

  /** The three-argument constructor: every field is stored as given. */
  function Of(ax: int, ay: int, aNotFound: bool): (c: Coordinates)
    ensures c.x == ax && c.y == ay && c.notFound == aNotFound
  {
    Coordinates(ax, ay, aNotFound)
  }

  /** The two-argument constructor: always a found position. */
  function At(ax: int, ay: int): (c: Coordinates)
    ensures c.x == ax && c.y == ay && !c.notFound
    ensures c == Of(ax, ay, false)
  {
    Coordinates(ax, ay, false)
  }

  /** Field-wise equality. */
  function Equals(a: Coordinates, b: Coordinates): (r: bool)
    ensures r <==> a == b
  {
    a.x == b.x && a.y == b.y && a.notFound == b.notFound
  }

  lemma EqualsIsReflexiveAndSymmetric(a: Coordinates, b: Coordinates)
    ensures Equals(a, a)
    ensures Equals(a, b) == Equals(b, a)
  {
  }

  /** A position that was not found never equals a found one, whatever
      their x and y; in particular not the found one at the same x and y. */
  lemma NotFoundNeverEqualsFound(a: Coordinates, b: Coordinates)
    requires a.notFound && !b.notFound
    ensures !Equals(a, b) && !Equals(b, a)
    ensures !Equals(Of(a.x, a.y, true), At(a.x, a.y))
  {
  }
}
