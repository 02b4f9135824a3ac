/** The action sequences of the end-to-end tests, replayed on the tests'
    mazes: every action is accepted, each step but the last leaves the agent
    active, and the last leaves it escaped; the percepts along the way are
    those the agent decides on.  Every maze is stated once as a value, with a
    lemma that the builder produces it; each step is a lemma of its own, and
    the replay of the whole sequence follows from the steps.  One further
    lemma takes a different path through the last maze: walking onto the
    live wumpus kills the agent, and the action after that is refused. */
module Scenarios {
  import opened Wrappers
  import opened Vocabulary
  import opened Coordinates
  import opened Agents
  import opened Worlds
  import opened Episodes
  import Mazes
  import Directions

  const Origin := Coordinate(0, 0)
  const NorthOfHome := Coordinate(0, -1)

  /** The world on maze m with the agent as given and the flags as given. */
  function At(m: Mazes.Maze, c: Coordinate, d: Directions.Direction, s: AgentState,
              arrow: ArrowState, gold: bool, bumped: bool, scream: bool): World
  {
    World(m, Agent(c, d, s, arrow, gold), bumped, scream)
  }

  // ---- Home (0,0) holding the gold -------------------------------------------

  const HomeContainsGold := Mazes.Maze(Origin, Some(Origin), None, {}, {})

  lemma HomeContainsGoldBuilt()
    ensures var b := Mazes.WithGold(Mazes.WithHome(Mazes.EmptyBuilder, Origin), Origin);
      Mazes.Build(b).Success? && Mazes.Build(b).value == HomeContainsGold
  {
  }

  /** The TAKE of step 1. */
  lemma HomeContainsGoldStep1()
    ensures Update(NewWorld(HomeContainsGold), Take) ==
      Updated(At(HomeContainsGold, Origin, Directions.North, Active, Unused, true, false, false), Active)
  {
  }

  /** The CLIMB of step 2. */
  lemma HomeContainsGoldStep2()
    ensures Update(At(HomeContainsGold, Origin, Directions.North, Active, Unused, true, false, false), Climb) ==
      Updated(At(HomeContainsGold, Origin, Directions.North, Escaped, Unused, true, false, false), Escaped)
  {
  }

  /** TAKE then CLIMB carries the gold out. */
  lemma HomeContainsGoldAfter2()
    ensures Run(NewWorld(HomeContainsGold), [Take, Climb]) ==
      Updated(At(HomeContainsGold, Origin, Directions.North, Escaped, Unused, true, false, false), Escaped)
  {
    HomeContainsGoldStep1();
    HomeContainsGoldStep2();
  }

  /** GLITTER and nothing else at home; nothing at all once the gold is
      taken. */
  lemma HomeContainsGoldPerceptsAt0(p: Percept)
    ensures Perceives(NewWorld(HomeContainsGold), p) <==> p == Glitter
  {
  }

  lemma HomeContainsGoldPerceptsAt1(p: Percept)
    ensures !Perceives(At(HomeContainsGold, Origin, Directions.North, Active, Unused, true, false, false), p)
  {
  }

  // ---- Home walled in on all four sides --------------------------------------

  const HomeSurroundedByWalls := Mazes.Maze(Origin, None, None, {},
    {Coordinate(1, 0), Coordinate(-1, 0), Coordinate(0, 1), Coordinate(0, -1)})

  lemma HomeSurroundedByWallsBuilt()
    ensures var b := Mazes.AddWall(Mazes.AddWall(Mazes.AddWall(Mazes.AddWall(
        Mazes.WithHome(Mazes.EmptyBuilder, Origin), Coordinate(1, 0)), Coordinate(-1, 0)),
        Coordinate(0, 1)), Coordinate(0, -1));
      Mazes.Build(b).Success? && Mazes.Build(b).value == HomeSurroundedByWalls
  {
  }

  /** The FORWARD of step 1. */
  lemma HomeSurroundedByWallsStep1()
    ensures Update(NewWorld(HomeSurroundedByWalls), Forward) ==
      Updated(At(HomeSurroundedByWalls, Origin, Directions.North, Active, Unused, false, true, false), Active)
  {
  }

  /** The LEFT of step 2. */
  lemma HomeSurroundedByWallsStep2()
    ensures Update(At(HomeSurroundedByWalls, Origin, Directions.North, Active, Unused, false, true, false), Left) ==
      Updated(At(HomeSurroundedByWalls, Origin, Directions.West, Active, Unused, false, false, false), Active)
  {
  }

  /** The FORWARD of step 3. */
  lemma HomeSurroundedByWallsStep3()
    ensures Update(At(HomeSurroundedByWalls, Origin, Directions.West, Active, Unused, false, false, false), Forward) ==
      Updated(At(HomeSurroundedByWalls, Origin, Directions.West, Active, Unused, false, true, false), Active)
  {
  }

  /** The LEFT of step 4. */
  lemma HomeSurroundedByWallsStep4()
    ensures Update(At(HomeSurroundedByWalls, Origin, Directions.West, Active, Unused, false, true, false), Left) ==
      Updated(At(HomeSurroundedByWalls, Origin, Directions.South, Active, Unused, false, false, false), Active)
  {
  }

  /** The FORWARD of step 5. */
  lemma HomeSurroundedByWallsStep5()
    ensures Update(At(HomeSurroundedByWalls, Origin, Directions.South, Active, Unused, false, false, false), Forward) ==
      Updated(At(HomeSurroundedByWalls, Origin, Directions.South, Active, Unused, false, true, false), Active)
  {
  }

  /** The LEFT of step 6. */
  lemma HomeSurroundedByWallsStep6()
    ensures Update(At(HomeSurroundedByWalls, Origin, Directions.South, Active, Unused, false, true, false), Left) ==
      Updated(At(HomeSurroundedByWalls, Origin, Directions.East, Active, Unused, false, false, false), Active)
  {
  }

  /** The FORWARD of step 7. */
  lemma HomeSurroundedByWallsStep7()
    ensures Update(At(HomeSurroundedByWalls, Origin, Directions.East, Active, Unused, false, false, false), Forward) ==
      Updated(At(HomeSurroundedByWalls, Origin, Directions.East, Active, Unused, false, true, false), Active)
  {
  }

  /** The CLIMB of step 8. */
  lemma HomeSurroundedByWallsStep8()
    ensures Update(At(HomeSurroundedByWalls, Origin, Directions.East, Active, Unused, false, true, false), Climb) ==
      Updated(At(HomeSurroundedByWalls, Origin, Directions.East, Escaped, Unused, false, false, false), Escaped)
  {
  }

  /** Each FORWARD bumps and the agent stays put, each LEFT clears the flag;
      then CLIMB. */
  lemma HomeSurroundedByWallsAfter8()
    ensures Run(NewWorld(HomeSurroundedByWalls), [Forward, Left, Forward, Left, Forward, Left, Forward, Climb]) ==
      Updated(At(HomeSurroundedByWalls, Origin, Directions.East, Escaped, Unused, false, false, false), Escaped)
  {
    HomeSurroundedByWallsStep1();
    HomeSurroundedByWallsStep2();
    HomeSurroundedByWallsStep3();
    HomeSurroundedByWallsStep4();
    HomeSurroundedByWallsStep5();
    HomeSurroundedByWallsStep6();
    HomeSurroundedByWallsStep7();
    HomeSurroundedByWallsStep8();
  }

  /** Nothing at home, BUMP alone after walking into a wall, and nothing again
      once the agent turns. */
  lemma HomeSurroundedByWallsPerceptsAt0(p: Percept)
    ensures !Perceives(NewWorld(HomeSurroundedByWalls), p)
  {
  }

  lemma HomeSurroundedByWallsPerceptsAt1(p: Percept)
    ensures Perceives(At(HomeSurroundedByWalls, Origin, Directions.North, Active, Unused, false, true, false), p) <==> p == Bump
  {
  }

  lemma HomeSurroundedByWallsPerceptsAt2(p: Percept)
    ensures !Perceives(At(HomeSurroundedByWalls, Origin, Directions.West, Active, Unused, false, false, false), p)
  {
  }

  // ---- A pit east of home ----------------------------------------------------

  const HomeNextToPit := Mazes.Maze(Origin, None, None, {Coordinate(1, 0)}, {})

  lemma HomeNextToPitBuilt()
    ensures var b := Mazes.AddPit(Mazes.WithHome(Mazes.EmptyBuilder, Origin), Coordinate(1, 0));
      Mazes.Build(b).Success? && Mazes.Build(b).value == HomeNextToPit
  {
  }

  /** The CLIMB of step 1. */
  lemma HomeNextToPitStep1()
    ensures Update(NewWorld(HomeNextToPit), Climb) ==
      Updated(At(HomeNextToPit, Origin, Directions.North, Escaped, Unused, false, false, false), Escaped)
  {
  }

  /** CLIMB succeeds at once. */
  lemma HomeNextToPitAfter1()
    ensures Run(NewWorld(HomeNextToPit), [Climb]) ==
      Updated(At(HomeNextToPit, Origin, Directions.North, Escaped, Unused, false, false, false), Escaped)
  {
    HomeNextToPitStep1();
  }

  /** BREEZE and nothing else at home; nothing once escaped. */
  lemma HomeNextToPitPerceptsAt0(p: Percept)
    ensures Perceives(NewWorld(HomeNextToPit), p) <==> p == Breeze
  {
  }

  lemma HomeNextToPitPerceptsAt1(p: Percept)
    ensures !Perceives(At(HomeNextToPit, Origin, Directions.North, Escaped, Unused, false, false, false), p)
  {
  }

  // ---- The wumpus east of home, the gold north of it -------------------------

  const HomeNextToWumpus := Mazes.Maze(Origin, Some(NorthOfHome), Some(Coordinate(1, 0)), {}, {})

  lemma HomeNextToWumpusBuilt()
    ensures var b := Mazes.WithGold(Mazes.WithWumpus(Mazes.WithHome(Mazes.EmptyBuilder, Origin),
        Coordinate(1, 0)), NorthOfHome);
      Mazes.Build(b).Success? && Mazes.Build(b).value == HomeNextToWumpus
  {
  }

  /** The FIRE of step 1. */
  lemma HomeNextToWumpusStep1()
    ensures Update(NewWorld(HomeNextToWumpus), Fire) ==
      Updated(At(HomeNextToWumpus, Origin, Directions.North, Active, Missed, false, false, false), Active)
  {
  }

  /** The FORWARD of step 2. */
  lemma HomeNextToWumpusStep2()
    ensures Update(At(HomeNextToWumpus, Origin, Directions.North, Active, Missed, false, false, false), Forward) ==
      Updated(At(HomeNextToWumpus, NorthOfHome, Directions.North, Active, Missed, false, false, false), Active)
  {
  }

  /** The TAKE of step 3. */
  lemma HomeNextToWumpusStep3()
    ensures Update(At(HomeNextToWumpus, NorthOfHome, Directions.North, Active, Missed, false, false, false), Take) ==
      Updated(At(HomeNextToWumpus, NorthOfHome, Directions.North, Active, Missed, true, false, false), Active)
  {
  }

  /** The RIGHT of step 4. */
  lemma HomeNextToWumpusStep4()
    ensures Update(At(HomeNextToWumpus, NorthOfHome, Directions.North, Active, Missed, true, false, false), Right) ==
      Updated(At(HomeNextToWumpus, NorthOfHome, Directions.East, Active, Missed, true, false, false), Active)
  {
  }

  /** The RIGHT of step 5. */
  lemma HomeNextToWumpusStep5()
    ensures Update(At(HomeNextToWumpus, NorthOfHome, Directions.East, Active, Missed, true, false, false), Right) ==
      Updated(At(HomeNextToWumpus, NorthOfHome, Directions.South, Active, Missed, true, false, false), Active)
  {
  }

  /** The FORWARD of step 6. */
  lemma HomeNextToWumpusStep6()
    ensures Update(At(HomeNextToWumpus, NorthOfHome, Directions.South, Active, Missed, true, false, false), Forward) ==
      Updated(At(HomeNextToWumpus, Origin, Directions.South, Active, Missed, true, false, false), Active)
  {
  }

  /** The CLIMB of step 7. */
  lemma HomeNextToWumpusStep7()
    ensures Update(At(HomeNextToWumpus, Origin, Directions.South, Active, Missed, true, false, false), Climb) ==
      Updated(At(HomeNextToWumpus, Origin, Directions.South, Escaped, Missed, true, false, false), Escaped)
  {
  }

  /** The shot north misses, and the agent fetches the gold and returns with
      it. */
  lemma HomeNextToWumpusAfter7()
    ensures Run(NewWorld(HomeNextToWumpus), [Fire, Forward, Take, Right, Right, Forward, Climb]) ==
      Updated(At(HomeNextToWumpus, Origin, Directions.South, Escaped, Missed, true, false, false), Escaped)
  {
    HomeNextToWumpusStep1();
    HomeNextToWumpusStep2();
    HomeNextToWumpusStep3();
    HomeNextToWumpusStep4();
    HomeNextToWumpusStep5();
    HomeNextToWumpusStep6();
    HomeNextToWumpusStep7();
  }

  /** STENCH alone at home, and still no SCREAM after the missed shot; GLITTER
      alone at the gold, out of the wumpus's reach. */
  lemma HomeNextToWumpusPerceptsAt0(p: Percept)
    ensures Perceives(NewWorld(HomeNextToWumpus), p) <==> p == Stench
  {
  }

  lemma HomeNextToWumpusPerceptsAt1(p: Percept)
    ensures Perceives(At(HomeNextToWumpus, Origin, Directions.North, Active, Missed, false, false, false), p) <==> p == Stench
  {
  }

  lemma HomeNextToWumpusPerceptsAt2(p: Percept)
    ensures Perceives(At(HomeNextToWumpus, NorthOfHome, Directions.North, Active, Missed, false, false, false), p) <==> p == Glitter
  {
    assert !WumpusAdjacent(At(HomeNextToWumpus, NorthOfHome, Directions.North, Active, Missed, false, false, false), NorthOfHome);
  }

  // ---- A pit west and the wumpus east of home --------------------------------

  const HomeNextToPitAndWumpus := Mazes.Maze(Origin, None, Some(Coordinate(1, 0)), {Coordinate(-1, 0)}, {})

  lemma HomeNextToPitAndWumpusBuilt()
    ensures var b := Mazes.WithWumpus(Mazes.AddPit(Mazes.WithHome(Mazes.EmptyBuilder, Origin),
        Coordinate(-1, 0)), Coordinate(1, 0));
      Mazes.Build(b).Success? && Mazes.Build(b).value == HomeNextToPitAndWumpus
  {
  }

  /** The FIRE of step 1. */
  lemma HomeNextToPitAndWumpusStep1()
    ensures Update(NewWorld(HomeNextToPitAndWumpus), Fire) ==
      Updated(At(HomeNextToPitAndWumpus, Origin, Directions.North, Active, Missed, false, false, false), Active)
  {
  }

  /** The CLIMB of step 2. */
  lemma HomeNextToPitAndWumpusStep2()
    ensures Update(At(HomeNextToPitAndWumpus, Origin, Directions.North, Active, Missed, false, false, false), Climb) ==
      Updated(At(HomeNextToPitAndWumpus, Origin, Directions.North, Escaped, Missed, false, false, false), Escaped)
  {
  }

  /** FIRE (north, a miss), then CLIMB. */
  lemma HomeNextToPitAndWumpusAfter2()
    ensures Run(NewWorld(HomeNextToPitAndWumpus), [Fire, Climb]) ==
      Updated(At(HomeNextToPitAndWumpus, Origin, Directions.North, Escaped, Missed, false, false, false), Escaped)
  {
    HomeNextToPitAndWumpusStep1();
    HomeNextToPitAndWumpusStep2();
  }

  /** Both BREEZE and STENCH at home, and nothing else, before and after the
      missed shot. */
  lemma HomeNextToPitAndWumpusPerceptsAt0(p: Percept)
    ensures Perceives(NewWorld(HomeNextToPitAndWumpus), p) <==> p == Breeze || p == Stench
  {
  }

  lemma HomeNextToPitAndWumpusPerceptsAt1(p: Percept)
    ensures Perceives(At(HomeNextToPitAndWumpus, Origin, Directions.North, Active, Missed, false, false, false), p) <==> p == Breeze || p == Stench
  {
  }

  // ---- The wumpus and the gold north of home ---------------------------------

  const HomeFacingWumpus := Mazes.Maze(Origin, Some(NorthOfHome), Some(NorthOfHome), {}, {})

  lemma HomeFacingWumpusBuilt()
    ensures var b := Mazes.WithGold(Mazes.WithWumpus(Mazes.WithHome(Mazes.EmptyBuilder, Origin),
        NorthOfHome), NorthOfHome);
      Mazes.Build(b).Success? && Mazes.Build(b).value == HomeFacingWumpus
  {
  }

  /** The FIRE of step 1. */
  lemma HomeFacingWumpusStep1()
    ensures Update(NewWorld(HomeFacingWumpus), Fire) ==
      Updated(At(HomeFacingWumpus, Origin, Directions.North, Active, Hit, false, false, true), Active)
  {
  }

  /** The FORWARD of step 2. */
  lemma HomeFacingWumpusStep2()
    ensures Update(At(HomeFacingWumpus, Origin, Directions.North, Active, Hit, false, false, true), Forward) ==
      Updated(At(HomeFacingWumpus, NorthOfHome, Directions.North, Active, Hit, false, false, false), Active)
  {
  }

  /** The TAKE of step 3. */
  lemma HomeFacingWumpusStep3()
    ensures Update(At(HomeFacingWumpus, NorthOfHome, Directions.North, Active, Hit, false, false, false), Take) ==
      Updated(At(HomeFacingWumpus, NorthOfHome, Directions.North, Active, Hit, true, false, false), Active)
  {
  }

  /** The RIGHT of step 4. */
  lemma HomeFacingWumpusStep4()
    ensures Update(At(HomeFacingWumpus, NorthOfHome, Directions.North, Active, Hit, true, false, false), Right) ==
      Updated(At(HomeFacingWumpus, NorthOfHome, Directions.East, Active, Hit, true, false, false), Active)
  {
  }

  /** The RIGHT of step 5. */
  lemma HomeFacingWumpusStep5()
    ensures Update(At(HomeFacingWumpus, NorthOfHome, Directions.East, Active, Hit, true, false, false), Right) ==
      Updated(At(HomeFacingWumpus, NorthOfHome, Directions.South, Active, Hit, true, false, false), Active)
  {
  }

  /** The FORWARD of step 6. */
  lemma HomeFacingWumpusStep6()
    ensures Update(At(HomeFacingWumpus, NorthOfHome, Directions.South, Active, Hit, true, false, false), Forward) ==
      Updated(At(HomeFacingWumpus, Origin, Directions.South, Active, Hit, true, false, false), Active)
  {
  }

  /** The CLIMB of step 7. */
  lemma HomeFacingWumpusStep7()
    ensures Update(At(HomeFacingWumpus, Origin, Directions.South, Active, Hit, true, false, false), Climb) ==
      Updated(At(HomeFacingWumpus, Origin, Directions.South, Escaped, Hit, true, false, false), Escaped)
  {
  }

  /** The shot kills the wumpus; its cell is then safe to enter, and the gold
      is taken there and carried home. */
  lemma HomeFacingWumpusAfter7()
    ensures Run(NewWorld(HomeFacingWumpus), [Fire, Forward, Take, Right, Right, Forward, Climb]) ==
      Updated(At(HomeFacingWumpus, Origin, Directions.South, Escaped, Hit, true, false, false), Escaped)
  {
    HomeFacingWumpusStep1();
    HomeFacingWumpusStep2();
    HomeFacingWumpusStep3();
    HomeFacingWumpusStep4();
    HomeFacingWumpusStep5();
    HomeFacingWumpusStep6();
    HomeFacingWumpusStep7();
  }

  /** STENCH alone at home; SCREAM as well right after the hit;
      GLITTER and a lingering STENCH in the dead wumpus's cell. */
  lemma HomeFacingWumpusPerceptsAt0(p: Percept)
    ensures Perceives(NewWorld(HomeFacingWumpus), p) <==> p == Stench
  {
  }

  lemma HomeFacingWumpusPerceptsAt1(p: Percept)
    ensures Perceives(At(HomeFacingWumpus, Origin, Directions.North, Active, Hit, false, false, true), p) <==> p == Stench || p == Scream
  {
  }

  lemma HomeFacingWumpusPerceptsAt2(p: Percept)
    ensures Perceives(At(HomeFacingWumpus, NorthOfHome, Directions.North, Active, Hit, false, false, false), p) <==> p == Stench || p == Glitter
  {
  }

  // ---- The wumpus and the gold north of home, a pit west ---------------------

  const HomeNextToPitAndFacingWumpus := Mazes.Maze(Origin, Some(NorthOfHome), Some(NorthOfHome), {Coordinate(-1, 0)}, {})

  lemma HomeNextToPitAndFacingWumpusBuilt()
    ensures var b := Mazes.AddPit(Mazes.WithGold(Mazes.WithWumpus(Mazes.WithHome(Mazes.EmptyBuilder, Origin),
        NorthOfHome), NorthOfHome), Coordinate(-1, 0));
      Mazes.Build(b).Success? && Mazes.Build(b).value == HomeNextToPitAndFacingWumpus
  {
  }

  /** The FIRE of step 1. */
  lemma HomeNextToPitAndFacingWumpusStep1()
    ensures Update(NewWorld(HomeNextToPitAndFacingWumpus), Fire) ==
      Updated(At(HomeNextToPitAndFacingWumpus, Origin, Directions.North, Active, Hit, false, false, true), Active)
  {
  }

  /** The FORWARD of step 2. */
  lemma HomeNextToPitAndFacingWumpusStep2()
    ensures Update(At(HomeNextToPitAndFacingWumpus, Origin, Directions.North, Active, Hit, false, false, true), Forward) ==
      Updated(At(HomeNextToPitAndFacingWumpus, NorthOfHome, Directions.North, Active, Hit, false, false, false), Active)
  {
  }

  /** The TAKE of step 3. */
  lemma HomeNextToPitAndFacingWumpusStep3()
    ensures Update(At(HomeNextToPitAndFacingWumpus, NorthOfHome, Directions.North, Active, Hit, false, false, false), Take) ==
      Updated(At(HomeNextToPitAndFacingWumpus, NorthOfHome, Directions.North, Active, Hit, true, false, false), Active)
  {
  }

  /** The RIGHT of step 4. */
  lemma HomeNextToPitAndFacingWumpusStep4()
    ensures Update(At(HomeNextToPitAndFacingWumpus, NorthOfHome, Directions.North, Active, Hit, true, false, false), Right) ==
      Updated(At(HomeNextToPitAndFacingWumpus, NorthOfHome, Directions.East, Active, Hit, true, false, false), Active)
  {
  }

  /** The RIGHT of step 5. */
  lemma HomeNextToPitAndFacingWumpusStep5()
    ensures Update(At(HomeNextToPitAndFacingWumpus, NorthOfHome, Directions.East, Active, Hit, true, false, false), Right) ==
      Updated(At(HomeNextToPitAndFacingWumpus, NorthOfHome, Directions.South, Active, Hit, true, false, false), Active)
  {
  }

  /** The FORWARD of step 6. */
  lemma HomeNextToPitAndFacingWumpusStep6()
    ensures Update(At(HomeNextToPitAndFacingWumpus, NorthOfHome, Directions.South, Active, Hit, true, false, false), Forward) ==
      Updated(At(HomeNextToPitAndFacingWumpus, Origin, Directions.South, Active, Hit, true, false, false), Active)
  {
  }

  /** The CLIMB of step 7. */
  lemma HomeNextToPitAndFacingWumpusStep7()
    ensures Update(At(HomeNextToPitAndFacingWumpus, Origin, Directions.South, Active, Hit, true, false, false), Climb) ==
      Updated(At(HomeNextToPitAndFacingWumpus, Origin, Directions.South, Escaped, Hit, true, false, false), Escaped)
  {
  }

  /** The shot kills the wumpus; its cell is then safe to enter, and the gold
      is taken there and carried home. */
  lemma HomeNextToPitAndFacingWumpusAfter7()
    ensures Run(NewWorld(HomeNextToPitAndFacingWumpus), [Fire, Forward, Take, Right, Right, Forward, Climb]) ==
      Updated(At(HomeNextToPitAndFacingWumpus, Origin, Directions.South, Escaped, Hit, true, false, false), Escaped)
  {
    HomeNextToPitAndFacingWumpusStep1();
    HomeNextToPitAndFacingWumpusStep2();
    HomeNextToPitAndFacingWumpusStep3();
    HomeNextToPitAndFacingWumpusStep4();
    HomeNextToPitAndFacingWumpusStep5();
    HomeNextToPitAndFacingWumpusStep6();
    HomeNextToPitAndFacingWumpusStep7();
  }

  /** STENCH and BREEZE at home; SCREAM as well right after the hit;
      GLITTER and a lingering STENCH in the dead wumpus's cell. */
  lemma HomeNextToPitAndFacingWumpusPerceptsAt0(p: Percept)
    ensures Perceives(NewWorld(HomeNextToPitAndFacingWumpus), p) <==> p == Stench || p == Breeze
  {
  }

  lemma HomeNextToPitAndFacingWumpusPerceptsAt1(p: Percept)
    ensures Perceives(At(HomeNextToPitAndFacingWumpus, Origin, Directions.North, Active, Hit, false, false, true), p) <==> p == Stench || p == Breeze || p == Scream
  {
  }

  lemma HomeNextToPitAndFacingWumpusPerceptsAt2(p: Percept)
    ensures Perceives(At(HomeNextToPitAndFacingWumpus, NorthOfHome, Directions.North, Active, Hit, false, false, false), p) <==> p == Stench || p == Glitter
  {
    assert !PitAdjacent(At(HomeNextToPitAndFacingWumpus, NorthOfHome, Directions.North, Active, Hit, false, false, false), NorthOfHome);
  }

  /** Walking north without shooting is fatal, and nothing further is
      accepted. */
  lemma HomeNextToPitAndFacingWumpusEaten()
    ensures Run(NewWorld(HomeNextToPitAndFacingWumpus), [Forward]) ==
      Updated(At(HomeNextToPitAndFacingWumpus, NorthOfHome, Directions.North, Dead, Unused, false, false, false), Dead)
    ensures Run(NewWorld(HomeNextToPitAndFacingWumpus), [Forward, Climb]) ==
      Rejected(AlreadyFinished(Dead), At(HomeNextToPitAndFacingWumpus, NorthOfHome, Directions.North, Dead, Unused, false, false, false))
  {
    assert Update(NewWorld(HomeNextToPitAndFacingWumpus), Forward) ==
      Updated(At(HomeNextToPitAndFacingWumpus, NorthOfHome, Directions.North, Dead, Unused, false, false, false), Dead);
  }
}
