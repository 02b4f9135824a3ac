/** A cell of the maze: an immutable pair of (unbounded) integers with
    translation by a direction, subtraction, hashing and a textual form. */
module Coordinates {
  import opened Wrappers
  import Directions
  import Sequences

  datatype Coordinate = Coordinate(x: int, y: int)

  function Abs(n: int): nat
  {
    if n < 0 then -n else n
  }

  /** The neighbouring cell one step in direction d; the receiver is a value
      and is not altered. */
  function Move(c: Coordinate, d: Directions.Direction): (r: Coordinate)
    ensures Abs(r.x - c.x) + Abs(r.y - c.y) == 1
    ensures r.x - c.x == Directions.X(d) && r.y - c.y == Directions.Y(d)
  {
    Coordinate(c.x + Directions.X(d), c.y + Directions.Y(d))
  }

  /** Componentwise difference: the vector leading from b to a. */
  function Minus(a: Coordinate, b: Coordinate): (r: Coordinate)
    ensures b.x + r.x == a.x && b.y + r.y == a.y
  {
    Coordinate(a.x - b.x, a.y - b.y)
  }

  /** The differences worked out in CoordinateTest. */
  lemma MinusExamples()
    ensures Minus(Coordinate(3, 5), Coordinate(0, 0)) == Coordinate(3, 5)
    ensures Minus(Coordinate(0, 0), Coordinate(3, 5)) == Coordinate(-3, -5)
    ensures Minus(Coordinate(3, 5), Coordinate(-9, 12)) == Coordinate(12, -7)
    ensures Minus(Coordinate(-9, 12), Coordinate(3, 5)) == Coordinate(-12, 7)
  {
  }

  function Negate(c: Coordinate): Coordinate
  {
    Coordinate(-c.x, -c.y)
  }

  /** Java's hashCode, x + 31 * y (without the 32-bit wrap-around): once
      the column is known, the hash gives back the row. */
  function HashCode(c: Coordinate): (h: int)
    ensures (h - c.x) % 31 == 0 && (h - c.x) / 31 == c.y
  {
    c.x + 31 * c.y
  }

  /** Moving one way and then the opposite way returns to the start. */
  lemma MoveThenBack(c: Coordinate, d: Directions.Direction)
    ensures Move(Move(c, d), Directions.Opposite(d)) == c
    ensures Move(Move(c, d), Directions.Right(Directions.Right(d))) == c
  {
    Directions.VectorProperties(d, d);
  }

  /** The four neighbours of a cell are pairwise distinct. */
  lemma MoveInjective(c: Coordinate, d: Directions.Direction, e: Directions.Direction)
    ensures Move(c, d) == Move(c, e) <==> d == e
  {
    Directions.VectorProperties(d, e);
  }

  /** Subtracting the origin is the identity, and swapping the operands
      negates the difference. */
  lemma MinusProperties(a: Coordinate, b: Coordinate)
    ensures Minus(a, Coordinate(0, 0)) == a
    ensures Minus(Coordinate(0, 0), a) == Negate(a)
    ensures Minus(a, b) == Negate(Minus(b, a))
    ensures Minus(a, b) == Coordinate(0, 0) <==> a == b
  {
  }

  /** Equality is componentwise: it distinguishes swapped and negated pairs
      except where they coincide. */
  lemma EqualityProperties(x: int, y: int)
    ensures Coordinate(x, y) == Coordinate(y, x) <==> x == y
    ensures Coordinate(x, y) == Coordinate(-x, -y) <==> x == 0 && y == 0
    ensures Coordinate(x, y) != Coordinate(x + 1, y) && Coordinate(x, y) != Coordinate(x, y + 1)
  {
  }

  /** Swapping the components changes the hash unless they are equal;
      (3,5) and (5,3) therefore hash differently. */
  lemma HashCodeSwap(x: int, y: int)
    ensures HashCode(Coordinate(x, y)) == HashCode(Coordinate(y, x)) <==> x == y
    ensures HashCode(Coordinate(3, 5)) != HashCode(Coordinate(5, 3))
  {
  }

  /** Within any band of 31 adjacent columns the hash identifies the cell. */
  lemma HashCodeInjectiveOnBand(k: int, a: Coordinate, b: Coordinate)
    requires k <= a.x < k + 31 && k <= b.x < k + 31
    ensures HashCode(a) == HashCode(b) <==> a == b
  {
  }

  // ---------------------------------------------------------------------
  // Textual form "x,y", as Java's string concatenation of two ints.

  predicate IsDigit(ch: char)
  {
    '0' <= ch <= '9'
  }

  predicate AllDigits(s: string)
  {
    forall i :: 0 <= i < |s| ==> IsDigit(s[i])
  }

  function DigitChar(d: nat): (ch: char)
    requires d < 10
    ensures IsDigit(ch) && DigitValue(ch) == d
  {
    (48 + d) as char
  }

  function DigitValue(ch: char): nat
    requires IsDigit(ch)
  {
    ch as int - 48
  }

  /** Decimal value of a digit string, most significant digit first. */
  function ParseNat(s: string): nat
    requires AllDigits(s)
  {
    if |s| == 0 then 0 else 10 * ParseNat(s[..|s| - 1]) + DigitValue(s[|s| - 1])
  }

  /** Shortest decimal form of n: non-empty digits, no leading zero. */
  function NatToString(n: nat): (s: string)
    ensures |s| >= 1 && AllDigits(s)
    ensures |s| > 1 ==> s[0] != '0'
    ensures ParseNat(s) == n
  {
    if n < 10 then [DigitChar(n)]
    else
      var prefix := NatToString(n / 10);
      var s := prefix + [DigitChar(n % 10)];
      assert s[..|s| - 1] == prefix;
      s
  }

  /** Java's decimal form of an int: a minus sign before the digits of the
      magnitude when negative. */
  function IntToString(i: int): (s: string)
    ensures |s| >= 1
    ensures (s[0] == '-') == (i < 0)
    ensures var m := if i < 0 then s[1..] else s;
      |m| >= 1 && AllDigits(m) && (|m| > 1 ==> m[0] != '0')
    ensures ',' !in s
    ensures ParseInt(s) == Some(i)
  {
    if i < 0 then "-" + NatToString(-i) else NatToString(i)
  }

  /** Reads back an optional minus sign followed by at least one digit. */
  function ParseInt(s: string): Option<int>
  {
    if |s| >= 2 && s[0] == '-' && AllDigits(s[1..]) then
      var magnitude: int := ParseNat(s[1..]); Some(-magnitude)
    else if |s| >= 1 && s[0] != '-' && AllDigits(s) then Some(ParseNat(s))
    else None
  }

  /** The textual form "x,y", as in "3,5" and "-3,7": two numbers
      separated by a single comma. */
  function ToString(c: Coordinate): (s: string)
    ensures multiset(s)[','] == 1
  {
    CommaCount(IntToString(c.x), IntToString(c.y));
    IntToString(c.x) + "," + IntToString(c.y)
  }

  lemma CommaCount(sx: string, sy: string)
    requires ',' !in sx && ',' !in sy
    ensures multiset(sx + "," + sy)[','] == 1
  {
    assert multiset(sx + "," + sy) == multiset(sx) + multiset{','} + multiset(sy);
  }

  /** Reads a textual form "x,y" back, splitting at the first comma. */
  function Parse(s: string): Option<Coordinate>
  {
    match Sequences.IndexOf(s, ',')
    case None => None
    case Some(i) =>
      match (ParseInt(s[..i]), ParseInt(s[i + 1..]))
      case (Some(x), Some(y)) => Some(Coordinate(x, y))
      case _ => None
  }

  /** The textual form loses nothing: it parses back to the same cell, so
      distinct cells have distinct forms. */
  lemma ToStringRoundTrip(c: Coordinate)
    ensures Parse(ToString(c)) == Some(c)
  {
    var sx := IntToString(c.x);
    var s := ToString(c);
    assert s[..|sx|] == sx;
    assert s[|sx|] == ',';
    assert s[|sx| + 1..] == IntToString(c.y);
    assert Sequences.IndexOf(s, ',') == Some(|sx|);
  }

  lemma ToStringInjective(a: Coordinate, b: Coordinate)
    ensures ToString(a) == ToString(b) <==> a == b
  {
    ToStringRoundTrip(a);
    ToStringRoundTrip(b);
  }

  lemma PositiveExample()
    ensures ToString(Coordinate(3, 5)) == "3,5"
  {
  }

  lemma NegativeExample()
    ensures ToString(Coordinate(-3, 7)) == "-3,7"
  {
  }

  /** The two renderings CoordinateTest fixes. */
  lemma ToStringExamples()
    ensures ToString(Coordinate(3, 5)) == "3,5"
    ensures ToString(Coordinate(-3, 7)) == "-3,7"
  {
    PositiveExample();
    NegativeExample();
  }
}
