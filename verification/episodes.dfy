/** Sequences of actions applied to a world, as a driver applies them turn
    by turn, stopping at the first refused action (World.update throws).  The
    properties here relate several updates: what an episode can never undo,
    and the invariant every reachable world keeps. */
module Episodes {
  import opened Vocabulary
  import opened Coordinates
  import opened Worlds
  import Directions
  import Mazes

  /** Applies the actions in order; the result of the last one, or the first
      refusal together with the world it left. */
  function Run(w: World, actions: seq<Action>): (r: UpdateResult)
    ensures r.world.maze == w.maze
    ensures r.Updated? ==> r.state == r.world.agent.state
    decreases |actions|
  {
    if |actions| == 0 then Updated(w, w.agent.state)
    else
      match Update(w, actions[0])
      case Rejected(e, after) => Rejected(e, after)
      case Updated(after, _) => Run(after, actions[1..])
  }

  /** Running one more action continues from wherever the run stopped. */
  lemma {:induction false} RunAppend(w: World, actions: seq<Action>, a: Action)
    ensures Run(w, actions + [a]) ==
      match Run(w, actions)
      case Rejected(e, after) => Rejected(e, after)
      case Updated(after, _) => Update(after, a)
    decreases |actions|
  {
    if |actions| == 0 {
      assert actions + [a] == [a];
      assert [a][1..] == [];
    } else {
      assert (actions + [a])[0] == actions[0];
      assert (actions + [a])[1..] == actions[1..] + [a];
      match Update(w, actions[0])
      case Rejected(_, _) =>
      case Updated(after, _) => RunAppend(after, actions[1..], a);
    }
  }

  /** A finished episode refuses the next action and stays exactly as it was. */
  lemma FinishedIsFinal(w: World, actions: seq<Action>)
    requires IsFinished(w) && |actions| > 0
    ensures Run(w, actions) == Rejected(AlreadyFinished(w.agent.state), w)
  {
  }

  /** Nothing an episode does can be undone: the gold once taken stays
      taken, a spent arrow stays spent, a killed wumpus stays dead, and a
      finished agent stays in its final state. */
  lemma {:induction false} RunMonotone(w: World, actions: seq<Action>)
    ensures var after := Run(w, actions).world;
      && (HaveGold(w) ==> HaveGold(after))
      && (!HaveArrow(w) ==> !HaveArrow(after))
      && (IsWumpusKilled(w) ==> IsWumpusKilled(after))
      && (IsFinished(w) ==> after.agent == w.agent)
    decreases |actions|
  {
    if |actions| > 0 {
      match Update(w, actions[0])
      case Rejected(_, _) =>
      case Updated(next, _) => RunMonotone(next, actions[1..]);
    }
  }

  /** Gold can be taken only once: after a successful TAKE no cell reports
      gold any more, whatever follows, and a later TAKE is refused. */
  lemma TakeOnce(w: World, actions: seq<Action>, c: Coordinate)
    requires Update(w, Take).Updated?
    ensures var taken := Update(w, Take).world;
      && HaveGold(taken)
      && !IsGold(Run(taken, actions).world, c)
      && Run(taken, actions + [Take]).Rejected?
  {
    var taken := Update(w, Take).world;
    RunMonotone(taken, actions);
    RunAppend(taken, actions, Take);
  }

  /** The arrow can be fired only once: any later FIRE is refused, whether
      the first shot hit or missed. */
  lemma FireOnce(w: World, actions: seq<Action>)
    requires Update(w, Fire).Updated?
    ensures var fired := Update(w, Fire).world;
      && !HaveArrow(fired)
      && Run(fired, actions + [Fire]).Rejected?
  {
    var fired := Update(w, Fire).world;
    RunMonotone(fired, actions);
    RunAppend(fired, actions, Fire);
  }

  /** Running actions never touches the maze, so resetting afterwards gives
      back the world the episode started from. */
  lemma ResetForgets(m: Mazes.Maze, actions: seq<Action>)
    ensures Reset(Run(NewWorld(m), actions).world) == NewWorld(m)
  {
  }

  /** A run follows a trace of worlds when each action, applied to one
      world of the trace, is accepted and yields the next. */
  lemma {:induction false} RunTrace(worlds: seq<World>, actions: seq<Action>)
    requires |worlds| == |actions| + 1
    requires forall i :: 0 <= i < |actions| ==>
      Update(worlds[i], actions[i]) == Updated(worlds[i + 1], worlds[i + 1].agent.state)
    ensures Run(worlds[0], actions) == Updated(worlds[|actions|], worlds[|actions|].agent.state)
    decreases |actions|
  {
    if |actions| > 0 {
      assert Update(worlds[0], actions[0]) == Updated(worlds[1], worlds[1].agent.state);
      RunTrace(worlds[1..], actions[1..]);
    }
  }

  // ---------------------------------------------------------------------
  // The invariant of reachable worlds

  /** What holds in every world an episode can reach from a home that is not
      a wall: the agent never stands in a wall; it holds gold only if the
      maze has gold and has hit only an existing wumpus; it escaped only from
      home and died only on a pit or on the live wumpus; the bump flag means
      the agent faces a wall, and the scream flag that it faces the wumpus
      it just killed. */
  predicate Consistent(w: World)
  {
    && !IsWall(w, w.agent.location)
    && (w.agent.hasGold ==> w.maze.gold.Some?)
    && (w.agent.arrow == Hit ==> w.maze.wumpus.Some?)
    && (w.agent.state == Escaped ==> IsHome(w, w.agent.location))
    && (w.agent.state == Dead ==> IsDeadly(w, w.agent.location))
    && (w.bumped ==> w.agent.state == Active && IsWall(w, Ahead(w)))
    && (w.scream ==> w.agent.arrow == Hit && IsWumpus(w, Ahead(w)))
  }

  /** A new episode is consistent exactly when its home is not a wall. */
  lemma NewWorldConsistent(m: Mazes.Maze)
    ensures Consistent(NewWorld(m)) <==> !Mazes.IsWall(m, m.home)
  {
  }

  /** One update keeps the invariant. */
  lemma UpdateConsistent(w: World, a: Action)
    requires Consistent(w)
    ensures Consistent(Update(w, a).world)
  {
  }

  /** Every run keeps the invariant. */
  lemma {:induction false} RunConsistent(w: World, actions: seq<Action>)
    requires Consistent(w)
    ensures Consistent(Run(w, actions).world)
    decreases |actions|
  {
    if |actions| > 0 {
      UpdateConsistent(w, actions[0]);
      match Update(w, actions[0])
      case Rejected(_, _) =>
      case Updated(next, _) => RunConsistent(next, actions[1..]);
    }
  }

  /** Every episode on a generated maze keeps the invariant, for every pair
      of shuffles and every action sequence. */
  lemma RandomEpisodeConsistent(first: seq<Coordinate>, second: seq<Coordinate>, actions: seq<Action>)
    requires Mazes.IsShuffle(first) && Mazes.IsShuffle(second)
    ensures Consistent(Run(NewWorld(Mazes.BuildRandom(first, second)), actions).world)
  {
    var m := Mazes.BuildRandom(first, second);
    Mazes.BuildRandomWallApart(first, second);
    Mazes.BuildRandomInGrid(first, second);
    NewWorldConsistent(m);
    RunConsistent(NewWorld(m), actions);
  }
}
