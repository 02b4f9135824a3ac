/** The game state machine: a maze shared read-only for the episode, the
    agent, and the two flags recording whether the last action bumped into a
    wall or killed the wumpus.  Update applies one action; Perceives and
    GetPercepts derive what the agent senses. */
module Worlds {
  import opened Vocabulary
  import opened Coordinates
  import opened Agents
  import Directions
  import Mazes
  import opened Wrappers

  datatype World = World(maze: Mazes.Maze, agent: Agent, bumped: bool, scream: bool)

  /** The start of an episode: a new agent at the maze's home, no flags set. */
  function NewWorld(m: Mazes.Maze): (w: World)
    ensures w.maze == m && w.agent == NewAgent(m.home)
    ensures !w.bumped && !w.scream
  {
    World(m, NewAgent(m.home), false, false)
  }

  /** Starts the episode again on the same maze, forgetting everything the
      agent did. */
  function Reset(w: World): (r: World)
    ensures r == NewWorld(w.maze)
  {
    w.(agent := NewAgent(w.maze.home), bumped := false, scream := false)
  }

  // ---------------------------------------------------------------------
  // Queries

  /** The agent is dead or has escaped. */
  predicate IsFinished(w: World)
  {
    w.agent.state != Active
  }

  predicate IsHome(w: World, c: Coordinate)
  {
    w.maze.home == c
  }

  predicate IsAgentLocated(w: World, c: Coordinate)
  {
    w.agent.location == c
  }

  predicate HaveGold(w: World)
  {
    w.agent.hasGold
  }

  predicate HaveArrow(w: World)
  {
    Agents.HaveArrow(w.agent)
  }

  predicate IsWumpusKilled(w: World)
  {
    HaveKilledWumpus(w.agent)
  }

  predicate IsWumpusAlive(w: World)
  {
    !IsWumpusKilled(w)
  }

  predicate IsWall(w: World, c: Coordinate)
  {
    Mazes.IsWall(w.maze, c)
  }

  /** Gold not yet taken lies at c: once taken it is reported nowhere. */
  predicate IsGold(w: World, c: Coordinate)
  {
    !w.agent.hasGold && Mazes.IsGold(w.maze, c)
  }

  /** The wumpus is at c, dead or alive. */
  predicate IsWumpus(w: World, c: Coordinate)
  {
    Mazes.IsWumpus(w.maze, c)
  }

  predicate IsPit(w: World, c: Coordinate)
  {
    Mazes.IsPit(w.maze, c)
  }

  /** The cell directly in front of the agent. */
  function Ahead(w: World): Coordinate
  {
    Move(w.agent.location, w.agent.direction)
  }

  // ---------------------------------------------------------------------
  // Transition

  /** Why an action was refused. */
  datatype UpdateError =
    | AlreadyFinished(state: AgentState)  // the episode is over
    | NoGoldToTake                        // TAKE where there is no untaken gold
    | NoArrowToFire                       // FIRE with the arrow already spent
    | NotHome                             // CLIMB away from home

  /** The outcome of one action: the new world and the agent's state, or the
      refusal together with the world as it was left. */
  datatype UpdateResult =
    | Updated(world: World, state: AgentState)
    | Rejected(error: UpdateError, world: World)

  /** The world with both single-turn flags cleared. */
  function ClearFlags(w: World): World
  {
    w.(bumped := false, scream := false)
  }

  /** The agent would die on entering cell c. */
  predicate IsDeadly(w: World, c: Coordinate)
  {
    (IsWumpus(w, c) && IsWumpusAlive(w)) || IsPit(w, c)
  }

  /** Applies one action.

      A finished world refuses every action and is left untouched.  Otherwise
      both flags are cleared first, then the action is dispatched; the rules
      for each action are the lemmas below. */
  function Update(w: World, action: Action): (r: UpdateResult)
    ensures r.world.maze == w.maze
    ensures IsFinished(w) ==> r == Rejected(AlreadyFinished(w.agent.state), w)
    ensures r.Updated? ==> r.state == r.world.agent.state
  {
    if IsFinished(w) then Rejected(AlreadyFinished(w.agent.state), w)
    else
      var cleared := ClearFlags(w);
      var location := w.agent.location;
      var direction := w.agent.direction;
      match action
      case Forward =>
        var next := Move(location, direction);
        if IsWall(cleared, next) then
          var bumped := cleared.(bumped := true);
          Updated(bumped, bumped.agent.state)
        else
          var moved := SetLocation(w.agent, next);
          var agent :=
            if IsWumpus(cleared, next) && IsWumpusAlive(cleared) then SetState(moved, Dead)
            else if IsPit(cleared, next) then SetState(moved, Dead)
            else moved;
          Updated(cleared.(agent := agent), agent.state)
      case Right =>
        var agent := TurnRight(w.agent);
        Updated(cleared.(agent := agent), agent.state)
      case Left =>
        var agent := TurnLeft(w.agent);
        Updated(cleared.(agent := agent), agent.state)
      case Take =>
        if IsGold(cleared, location) then
          var agent := SetHasGold(w.agent, true);
          Updated(cleared.(agent := agent), agent.state)
        else Rejected(NoGoldToTake, cleared)
      case Fire =>
        if HaveArrow(cleared) then
          var target := Move(location, direction);
          if IsWumpus(cleared, target) then
            var agent := SetHasKilledWumpus(w.agent);
            Updated(cleared.(agent := agent, scream := true), agent.state)
          else
            var agent := SetHasMissed(w.agent);
            Updated(cleared.(agent := agent), agent.state)
        else Rejected(NoArrowToFire, cleared)
      case Climb =>
        if IsHome(cleared, location) then
          var agent := SetState(w.agent, Escaped);
          Updated(cleared.(agent := agent), agent.state)
        else Rejected(NotHome, cleared)
  }

  /** On an active world only TAKE, FIRE and CLIMB can be refused: TAKE
      without untaken gold here, FIRE without the arrow, CLIMB away from
      home.  A refusal comes after the flags were cleared, so it leaves the
      agent as it was and both flags false. */
  lemma UpdateRefusals(w: World, action: Action)
    requires !IsFinished(w)
    ensures var r := Update(w, action);
      && (r.Rejected? <==>
        || (action == Take && !IsGold(w, w.agent.location))
        || (action == Fire && !HaveArrow(w))
        || (action == Climb && !IsHome(w, w.agent.location)))
      && (r.Rejected? ==> r.world == ClearFlags(w))
  {
  }

  /** After an accepted action the bump flag says exactly that it was a
      FORWARD into a wall, and the scream flag exactly that it was a FIRE at
      the wumpus directly ahead. */
  lemma UpdateFlags(w: World, action: Action)
    requires Update(w, action).Updated?
    ensures var r := Update(w, action);
      && (r.world.bumped <==> action == Forward && IsWall(w, Ahead(w)))
      && (r.world.scream <==> action == Fire && IsWumpus(w, Ahead(w)))
  {
  }

  /** FORWARD never fails on an active world.  Into a wall the agent stays
      put; elsewhere it moves ahead and dies exactly on a pit or on the live
      wumpus.  Facing, arrow and gold are unchanged either way. */
  lemma UpdateForward(w: World)
    requires !IsFinished(w)
    ensures var r := Update(w, Forward);
      var a := r.world.agent;
      && r.Updated?
      && a.location == (if IsWall(w, Ahead(w)) then w.agent.location else Ahead(w))
      && (a.state == Dead <==> !IsWall(w, Ahead(w)) && IsDeadly(w, Ahead(w)))
      && a.state != Escaped
      && a.direction == w.agent.direction && a.arrow == w.agent.arrow && a.hasGold == w.agent.hasGold
  {
  }

  /** RIGHT and LEFT never fail on an active world and change only the
      facing. */
  lemma UpdateTurns(w: World)
    requires !IsFinished(w)
    ensures var r := Update(w, Right);
      && r.Updated? && r.state == Active && !r.world.bumped && !r.world.scream
      && r.world.agent == w.agent.(direction := Directions.Right(w.agent.direction))
    ensures var r := Update(w, Left);
      && r.Updated? && r.state == Active && !r.world.bumped && !r.world.scream
      && r.world.agent == w.agent.(direction := Directions.Left(w.agent.direction))
  {
  }

  /** An accepted TAKE happened on the untaken gold and only sets the gold
      flag; afterwards no cell reports gold and a second TAKE is refused. */
  lemma UpdateTake(w: World)
    requires Update(w, Take).Updated?
    ensures var r := Update(w, Take);
      && IsGold(w, w.agent.location) && r.state == Active
      && r.world.agent == w.agent.(hasGold := true) && HaveGold(r.world)
      && (forall c :: !IsGold(r.world, c))
      && Update(r.world, Take) == Rejected(NoGoldToTake, ClearFlags(r.world))
  {
  }

  /** An accepted FIRE only spends the arrow, as a hit exactly when the
      wumpus is directly ahead. */
  lemma UpdateFire(w: World)
    requires Update(w, Fire).Updated?
    ensures Update(w, Fire).world.agent == w.agent.(arrow := if IsWumpus(w, Ahead(w)) then Hit else Missed)
  {
  }

  /** An accepted CLIMB happened at home and only ends the episode as
      escaped, after which every action is refused. */
  lemma UpdateClimb(w: World, next: Action)
    requires Update(w, Climb).Updated?
    ensures var r := Update(w, Climb);
      && IsHome(w, w.agent.location) && r.state == Escaped
      && r.world.agent == w.agent.(state := Escaped)
      && Update(r.world, next) == Rejected(AlreadyFinished(Escaped), r.world)
  {
  }

  // ---------------------------------------------------------------------
  // Percepts

  /** A pit lies in one of the four cells next to c. */
  predicate PitAdjacent(w: World, c: Coordinate)
  {
    || IsPit(w, Move(c, Directions.North)) || IsPit(w, Move(c, Directions.East))
    || IsPit(w, Move(c, Directions.South)) || IsPit(w, Move(c, Directions.West))
  }

  /** The wumpus lies in one of the four cells next to c. */
  predicate WumpusAdjacent(w: World, c: Coordinate)
  {
    || IsWumpus(w, Move(c, Directions.North)) || IsWumpus(w, Move(c, Directions.East))
    || IsWumpus(w, Move(c, Directions.South)) || IsWumpus(w, Move(c, Directions.West))
  }

  /** The four named neighbours are the cells one step away in some
      direction. */
  lemma AdjacentInSomeDirection(w: World, c: Coordinate)
    ensures PitAdjacent(w, c) <==> exists d: Directions.Direction :: IsPit(w, Move(c, d))
    ensures WumpusAdjacent(w, c) <==> exists d: Directions.Direction :: IsWumpus(w, Move(c, d))
  {
  }

  /** What the agent senses, defined from the state alone: nothing once the
      episode is over; otherwise BUMP and SCREAM mirror the flags, GLITTER
      marks untaken gold here, STENCH the wumpus (dead or alive) here or in a
      neighbouring cell, and BREEZE a pit in a neighbouring cell. */
  predicate Perceives(w: World, p: Percept)
  {
    && !IsFinished(w)
    && match p
       case Bump => w.bumped
       case Scream => w.scream
       case Glitter => IsGold(w, w.agent.location)
       case Stench => IsWumpus(w, w.agent.location) || WumpusAdjacent(w, w.agent.location)
       case Breeze => PitAdjacent(w, w.agent.location)
  }

  /** Collects the percepts as World.getPercepts does: the flags, the current cell,
      then each of the four neighbours in declaration order. */
  method GetPercepts(w: World) returns (percepts: set<Percept>)
    ensures forall p :: p in percepts <==> Perceives(w, p)
    ensures IsFinished(w) ==> percepts == {}
  {
    if IsFinished(w) {
      return {};
    }
    var location := w.agent.location;
    percepts :=
      (if w.bumped then {Bump} else {}) +
      (if w.scream then {Scream} else {}) +
      (if IsGold(w, location) then {Glitter} else {}) +
      (if IsWumpus(w, location) then {Stench} else {});
    var values := Directions.Values();
    var i := 0;
    while i < |values|
      invariant 0 <= i <= |values|
      invariant Bump in percepts <==> w.bumped
      invariant Scream in percepts <==> w.scream
      invariant Glitter in percepts <==> IsGold(w, location)
      invariant Breeze in percepts <==> exists k :: 0 <= k < i && IsPit(w, Move(location, values[k]))
      invariant Stench in percepts <==>
        IsWumpus(w, location) || exists k :: 0 <= k < i && IsWumpus(w, Move(location, values[k]))
    {
      var adjacent := Move(location, values[i]);
      if IsPit(w, adjacent) {
        percepts := percepts + {Breeze};
      }
      if IsWumpus(w, adjacent) {
        percepts := percepts + {Stench};
      }
      i := i + 1;
    }
    ListedNeighbours(w, location, values);
  }

  /** Scanning the four directions in declaration order visits exactly the
      four named neighbours. */
  lemma ListedNeighbours(w: World, c: Coordinate, values: seq<Directions.Direction>)
    requires values == Directions.Values()
    ensures PitAdjacent(w, c) <==> exists k :: 0 <= k < |values| && IsPit(w, Move(c, values[k]))
    ensures WumpusAdjacent(w, c) <==> exists k :: 0 <= k < |values| && IsWumpus(w, Move(c, values[k]))
  {
    assert values[0] == Directions.North && values[1] == Directions.East;
    assert values[2] == Directions.South && values[3] == Directions.West;
  }

  /** A finished episode perceives nothing. */
  lemma NoPerceptsWhenFinished(w: World, p: Percept)
    requires IsFinished(w)
    ensures !Perceives(w, p)
  {
  }

  /** STENCH does not depend on whether the wumpus is alive: killing it
      leaves the stench where it was. */
  lemma StenchIgnoresLiveness(w: World, arrow: ArrowState)
    ensures Perceives(w, Stench) <==> Perceives(w.(agent := w.agent.(arrow := arrow)), Stench)
  {
  }

  /** BREEZE comes from the neighbours only: a pit under the agent alone
      gives none, while a pit in any neighbouring cell does. */
  lemma BreezeFromNeighboursOnly(w: World, d: Directions.Direction)
    requires !IsFinished(w)
    ensures w.maze.pits == {w.agent.location} ==> !Perceives(w, Breeze)
    ensures IsPit(w, Move(w.agent.location, d)) ==> Perceives(w, Breeze)
  {
    AdjacentInSomeDirection(w, w.agent.location);
  }

  /** GLITTER marks untaken gold under the agent, and disappears once the
      gold is taken. */
  lemma GlitterIffUntakenGoldHere(w: World)
    requires !IsFinished(w)
    ensures Perceives(w, Glitter) <==> !HaveGold(w) && w.maze.gold == Some(w.agent.location)
  {
  }

  /** Walking into a wall leaves the agent where it was, still active, and
      the next percepts contain BUMP. */
  lemma BumpIntoWall(w: World)
    requires !IsFinished(w) && IsWall(w, Ahead(w))
    ensures var r := Update(w, Forward);
      && r.Updated? && r.state == Active
      && r.world.agent == w.agent
      && Perceives(r.world, Bump)
  {
  }

  /** Entering a cell that is not a wall always relocates the agent; it
      dies there exactly on a pit or on the live wumpus, so the cell of a
      killed wumpus is safe. */
  lemma ForwardIntoCell(w: World)
    requires !IsFinished(w) && !IsWall(w, Ahead(w))
    ensures var r := Update(w, Forward);
      && r.Updated? && IsAgentLocated(r.world, Ahead(w))
      && (r.state == Dead <==> IsPit(w, Ahead(w)) || (IsWumpus(w, Ahead(w)) && IsWumpusAlive(w)))
      && (IsWumpusKilled(w) && !IsPit(w, Ahead(w)) ==> r.state == Active)
  {
  }

  /** A shot with the arrow hits exactly when the wumpus is in the cell
      directly ahead; a hit is heard as SCREAM in the next percepts. */
  lemma FireOutcome(w: World)
    requires !IsFinished(w) && HaveArrow(w)
    ensures var r := Update(w, Fire);
      && r.Updated? && !HaveArrow(r.world)
      && (IsWumpusKilled(r.world) <==> IsWumpus(w, Ahead(w)))
      && (Perceives(r.world, Scream) <==> IsWumpus(w, Ahead(w)))
  {
  }

  /** CLIMB succeeds exactly at home, gold or no gold, and ends the episode. */
  lemma ClimbOutcome(w: World)
    requires !IsFinished(w)
    ensures var r := Update(w, Climb);
      && (r.Updated? <==> IsHome(w, w.agent.location))
      && (r.Updated? ==> r.state == Escaped && IsFinished(r.world) && HaveGold(r.world) == HaveGold(w))
  {
  }
}
