/** The four facings of the agent, in their declared cyclic order
    NORTH, EAST, SOUTH, WEST, each with a unit vector (y grows southwards). */
module Directions {

  datatype Direction = North | East | South | West

  /** The declared order of the enum constants, as Java's ordinal(). */
  function Ordinal(d: Direction): (i: nat)
    ensures i < 4
  {
    match d
    case North => 0
    case East => 1
    case South => 2
    case West => 3
  }

  /** The inverse of Ordinal, as Java's values()[i]. */
  function FromOrdinal(i: nat): (d: Direction)
    requires i < 4
    ensures Ordinal(d) == i
  {
    if i == 0 then North else if i == 1 then East else if i == 2 then South else West
  }

  /** All values in declaration order, as Java's values(). */
  function Values(): (vs: seq<Direction>)
    ensures |vs| == 4
    ensures forall i :: 0 <= i < 4 ==> Ordinal(vs[i]) == i
  {
    [North, East, South, West]
  }

  /** Horizontal component of the unit vector. */
  function X(d: Direction): int
  {
    match d
    case North => 0
    case East => 1
    case South => 0
    case West => -1
  }

  /** Vertical component of the unit vector (NORTH points to smaller y). */
  function Y(d: Direction): int
  {
    match d
    case North => -1
    case East => 0
    case South => 1
    case West => 0
  }

  /** The next value in the cycle: the ordinal plus one, wrapping to the first. */
  function Right(d: Direction): (r: Direction)
    ensures Ordinal(r) == (Ordinal(d) + 1) % 4
  {
    var i := Ordinal(d) + 1;
    FromOrdinal(if i == |Values()| then 0 else i)
  }

  /** The previous value in the cycle: the ordinal minus one, wrapping to the last. */
  function Left(d: Direction): (r: Direction)
    ensures Ordinal(r) == (Ordinal(d) + 3) % 4
  {
    var i := Ordinal(d);
    FromOrdinal((if i == 0 then |Values()| else i) - 1)
  }

  /** The direction facing the other way, reached by turning right twice. */
  function Opposite(d: Direction): Direction
  {
    Right(Right(d))
  }


  /** Right cycles NORTH, EAST, SOUTH, WEST and back to NORTH. */
  lemma RightCycle()
    ensures Right(North) == East && Right(East) == South
    ensures Right(South) == West && Right(West) == North
  {
  }

  /** Left cycles NORTH, WEST, SOUTH, EAST and back to NORTH. */
  lemma LeftCycle()
    ensures Left(North) == West && Left(West) == South
    ensures Left(South) == East && Left(East) == North
  {
  }

  /** Turning right and then left (or left and then right) is no turn at all. */
  lemma RightLeftInverse(d: Direction)
    ensures Left(Right(d)) == d
    ensures Right(Left(d)) == d
  {
  }

  /** Four turns in the same sense return to the starting facing,
      and no fewer do. */
  lemma FullTurn(d: Direction)
    ensures Right(Right(Right(Right(d)))) == d
    ensures Left(Left(Left(Left(d)))) == d
    ensures Right(d) != d && Right(Right(d)) != d && Right(Right(Right(d))) != d
  {
  }

  /** The unit vectors: NORTH=(0,-1), EAST=(1,0), SOUTH=(0,1), WEST=(-1,0). */
  lemma Vectors()
    ensures X(North) == 0 && Y(North) == -1
    ensures X(East) == 1 && Y(East) == 0
    ensures X(South) == 0 && Y(South) == 1
    ensures X(West) == -1 && Y(West) == 0
  {
  }

  /** Every vector has length one, distinct directions have distinct vectors,
      and the opposite direction has the negated vector. */
  lemma VectorProperties(d: Direction, e: Direction)
    ensures X(d) * X(d) + Y(d) * Y(d) == 1
    ensures X(Opposite(d)) == -X(d) && Y(Opposite(d)) == -Y(d)
    ensures (X(d), Y(d)) == (X(e), Y(e)) ==> d == e
  {
  }
}
