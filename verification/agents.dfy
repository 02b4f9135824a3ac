/** The per-episode state of the agent: where it is, which way it faces,
    whether it is alive, what became of its arrow, and whether it holds the
    gold.  Each setter of the Java class Agent returns an updated value here. */
module Agents {
  import opened Vocabulary
  import opened Coordinates
  import Directions

  datatype Agent = Agent(
    location: Coordinate,
    direction: Directions.Direction,
    state: AgentState,
    arrow: ArrowState,
    hasGold: bool)

  /** A new agent stands at home facing NORTH, active, with its arrow and
      without the gold. */
  function NewAgent(home: Coordinate): (a: Agent)
    ensures a.location == home && a.direction == Directions.North
    ensures a.state == Active && a.arrow == Unused && !a.hasGold
  {
    Agent(home, Directions.North, Active, Unused, false)
  }

  function SetState(a: Agent, s: AgentState): (r: Agent)
    ensures r.state == s
    ensures r.location == a.location && r.direction == a.direction && r.arrow == a.arrow && r.hasGold == a.hasGold
  {
    a.(state := s)
  }

  function SetLocation(a: Agent, c: Coordinate): (r: Agent)
    ensures r.location == c
    ensures r.direction == a.direction && r.state == a.state && r.arrow == a.arrow && r.hasGold == a.hasGold
  {
    a.(location := c)
  }

  function SetDirection(a: Agent, d: Directions.Direction): (r: Agent)
    ensures r.direction == d
    ensures r.location == a.location && r.state == a.state && r.arrow == a.arrow && r.hasGold == a.hasGold
  {
    a.(direction := d)
  }

  function SetHasGold(a: Agent, g: bool): (r: Agent)
    ensures r.hasGold == g
    ensures r.location == a.location && r.direction == a.direction && r.state == a.state && r.arrow == a.arrow
  {
    a.(hasGold := g)
  }

  /** Turning left rotates the facing one step anticlockwise and touches
      nothing else; a right turn undoes it. */
  function TurnLeft(a: Agent): (r: Agent)
    ensures Directions.Ordinal(r.direction) == (Directions.Ordinal(a.direction) + 3) % 4
    ensures TurnRight(r) == a
    ensures r.location == a.location && r.state == a.state && r.arrow == a.arrow && r.hasGold == a.hasGold
  {
    Directions.RightLeftInverse(a.direction);
    SetDirection(a, Directions.Left(a.direction))
  }

  /** Turning right rotates the facing one step clockwise and touches
      nothing else. */
  function TurnRight(a: Agent): (r: Agent)
    ensures Directions.Ordinal(r.direction) == (Directions.Ordinal(a.direction) + 1) % 4
    ensures r.location == a.location && r.state == a.state && r.arrow == a.arrow && r.hasGold == a.hasGold
  {
    SetDirection(a, Directions.Right(a.direction))
  }

  /** Records a missed shot: the arrow is spent and the wumpus not killed. */
  function SetHasMissed(a: Agent): (r: Agent)
    ensures !HaveArrow(r) && HaveNotKilledWumpus(r)
    ensures r.location == a.location && r.direction == a.direction && r.state == a.state && r.hasGold == a.hasGold
  {
    a.(arrow := Missed)
  }

  /** Records a hit: the arrow is spent and the wumpus killed. */
  function SetHasKilledWumpus(a: Agent): (r: Agent)
    ensures !HaveArrow(r) && HaveKilledWumpus(r)
    ensures r.location == a.location && r.direction == a.direction && r.state == a.state && r.hasGold == a.hasGold
  {
    a.(arrow := Hit)
  }

  /** The arrow is still carried. */
  predicate HaveArrow(a: Agent)
  {
    a.arrow == Unused
  }

  predicate HaveKilledWumpus(a: Agent)
  {
    a.arrow == Hit
  }

  predicate HaveNotKilledWumpus(a: Agent)
  {
    !HaveKilledWumpus(a)
  }

  /** The arrow queries partition the three arrow states: carrying the arrow
      excludes having killed the wumpus, and a spent arrow either hit or
      missed. */
  lemma ArrowQueries(a: Agent)
    ensures HaveArrow(a) <==> a.arrow == Unused
    ensures HaveKilledWumpus(a) <==> a.arrow == Hit
    ensures HaveNotKilledWumpus(a) <==> !HaveKilledWumpus(a)
    ensures HaveArrow(a) ==> HaveNotKilledWumpus(a)
    ensures !HaveArrow(a) ==> (HaveKilledWumpus(a) <==> a.arrow != Missed)
  {
  }
}
