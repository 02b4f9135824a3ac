# Wumpus world: the game rules

This project models the rules of the game in `org.projog.wumpus.model`.

- **The maze.** A layout has a mandatory home, optional gold, an optional wumpus, and sets of pits and walls. It is put together by a builder, or generated at random on a 4x4 grid framed by walls.
- **The agent.** It has a location and a facing, is active, dead or escaped, holds an unused, missed or hit arrow, and may carry the gold.
- **The world.** It owns one maze and one agent, plus two one-turn flags: "bumped into a wall" and "heard a scream".
- **Actions.** `World.update` applies the six actions FORWARD, RIGHT, LEFT, FIRE, TAKE and CLIMB.
- **Percepts.** `World.getPercepts` reports BREEZE, STENCH, GLITTER, SCREAM and BUMP.

Everything is immutable here. Each built maze is a snapshot of its builder; in the Java code a built maze still shares the builder's pit and wall sets (see `Mazes.Build` under "## Left out").

- The Java setters return an updated value.
- `update` returns `Updated(world, state)` or `Rejected(error, world)` instead of throwing.
  - A finished world is refused and left untouched.
  - TAKE, FIRE and CLIMB are refused when illegal. In that case the world comes back with its flags cleared, because the Java code clears them before it throws.
- `Episodes.Run` applies a sequence of actions. It stops at the first refusal, as a driver would stop at the exception.
- `Collections.shuffle` becomes an input: `BuildRandom` takes the two shuffled lists. `Mazes.ShuffleIsPermutation` proves that the admissible inputs are exactly the reorderings of the grid list, so every outcome of the generator is covered.

Modules follow the source classes:

| module | models |
|---|---|
| `Directions` | `Direction` |
| `Coordinates` | `Coordinate` |
| `Agents` | `Agent` |
| `Mazes` | `Maze` and `MazeBuilder` |
| `Worlds` | `World` |
| `Vocabulary` | `Action`, `Percept`, `AgentState`, `ArrowState` |
| `Wrappers` | `Option` and `Result` |
| `Sequences` | the few `java.util.List` operations the generator uses |
| `Episodes` | action sequences and the invariant of reachable worlds |
| `Scenarios` | the end-to-end tests replayed |

The scenarios are the seven short end-to-end tests. Each one is replayed on the test's maze.

- Every step is a `...StepN` lemma, which states one `Update`.
- The `...AfterN` lemma for the whole sequence is proved from the steps.
- The step lemmas are proof helpers, so they have no row of their own.

The test that places the wumpus at (1,0) calls that cell "west of agent". With the `Direction` vectors it is east of home, and the model says so.

## Model

| member | source | states |
|---|---|---|
| `Directions.Ordinal` | src/main/java/org/projog/wumpus/model/Direction.java:5-8 | Each constant's position in the declared order NORTH, EAST, SOUTH, WEST is below four. |
| `Directions.FromOrdinal` | src/main/java/org/projog/wumpus/model/Direction.java:5-8 | Indexing the values by a position below four gives the constant at that position (inverse of `Ordinal`). |
| `Directions.Values` | src/main/java/org/projog/wumpus/model/Direction.java:5-8 | The value list has four entries, the i-th having ordinal i. |
| `Directions.Right` | src/main/java/org/projog/wumpus/model/Direction.java:18-23 | A right turn yields the direction whose ordinal is one more, wrapping from the last back to the first. |
| `Directions.Left` | src/main/java/org/projog/wumpus/model/Direction.java:25-30 | A left turn yields the direction whose ordinal is one less, wrapping from the first to the last. |
| `Directions.RightCycle` | src/test/java/org/projog/wumpus/model/DirectionTest.java:9-14 | Right turns go NORTH, EAST, SOUTH, WEST and back to NORTH. |
| `Directions.LeftCycle` | src/test/java/org/projog/wumpus/model/DirectionTest.java:17-22 | Left turns go NORTH, WEST, SOUTH, EAST and back to NORTH. |
| `Directions.RightLeftInverse` | src/main/java/org/projog/wumpus/model/Direction.java:18-30 | A right turn and a left turn undo each other, in either order. |
| `Directions.FullTurn` | src/main/java/org/projog/wumpus/model/Direction.java:18-30 | Four turns in the same sense return to the start, and one, two or three right turns do not. |
| `Directions.Vectors` | src/main/java/org/projog/wumpus/model/Direction.java:5-8 | The unit vectors are NORTH (0,-1), EAST (1,0), SOUTH (0,1) and WEST (-1,0), as `getX`/`getY` return them. |
| `Directions.VectorProperties` | src/main/java/org/projog/wumpus/model/Direction.java:32-38 | Every vector has length one, distinct directions have distinct vectors, and the opposite direction has the negated vector. |
| `Coordinates.Move` | src/main/java/org/projog/wumpus/model/Coordinate.java:13-15 | The moved cell is exactly the direction's vector away from the start, hence at distance one. |
| `Coordinates.Minus` | src/main/java/org/projog/wumpus/model/Coordinate.java:17-19 | The difference is the vector that leads from the second cell to the first. |
| `Coordinates.MinusExamples` | src/test/java/org/projog/wumpus/model/CoordinateTest.java:28-42 | The test's differences: (3,5)-(0,0)=(3,5), (0,0)-(3,5)=(-3,-5), (3,5)-(-9,12)=(12,-7), (-9,12)-(3,5)=(-12,7). |
| `Coordinates.MoveThenBack` | src/test/java/org/projog/wumpus/model/CoordinateTest.java:10-25 | Moving one way and then the opposite way (two right turns) returns to the start. |
| `Coordinates.MoveInjective` | src/main/java/org/projog/wumpus/model/Coordinate.java:13-15 | The four neighbours of a cell are pairwise distinct. |
| `Coordinates.MinusProperties` | src/main/java/org/projog/wumpus/model/Coordinate.java:17-19 | Subtracting the origin changes nothing, swapping the operands negates the difference, and the difference is zero exactly for equal cells. |
| `Coordinates.EqualityProperties` | src/test/java/org/projog/wumpus/model/CoordinateTest.java:45-59 | Equality is componentwise: a cell differs from its swap unless x = y, from its negation unless it is the origin, and from its neighbours. |
| `Coordinates.HashCodeSwap` | src/test/java/org/projog/wumpus/model/CoordinateTest.java:62-70 | x + 31y changes when the components are swapped unless they are equal, so (3,5) and (5,3) hash differently. |
| `Coordinates.HashCode` | src/main/java/org/projog/wumpus/model/Coordinate.java:37-39 | The hash is x + 31y: given the column, it gives back the row, so cells in the same column have different hashes. |
| `Coordinates.HashCodeInjectiveOnBand` | src/main/java/org/projog/wumpus/model/Coordinate.java:37-39 | Within any 31 adjacent columns k to k + 30, the hash identifies the cell. |
| `Coordinates.NatToString` | src/main/java/org/projog/wumpus/model/Coordinate.java:22-24 | A natural number's decimal form is non-empty digits without a leading zero, and reads back to the number. |
| `Coordinates.IntToString` | src/main/java/org/projog/wumpus/model/Coordinate.java:22-24 | An int's decimal form starts with a minus sign exactly when the int is negative. The rest is non-empty digits without a leading zero, so there is no "07" and no "-0". It has no comma and reads back to the int. |
| `Coordinates.ToString` | src/main/java/org/projog/wumpus/model/Coordinate.java:22-24 | The text "x,y" has exactly one comma, the one between the two numbers. |
| `Coordinates.ToStringRoundTrip` | src/main/java/org/projog/wumpus/model/Coordinate.java:22-24 | The text "x,y" parses back to the same cell. |
| `Coordinates.ToStringInjective` | src/main/java/org/projog/wumpus/model/Coordinate.java:22-34 | Two cells have the same text exactly when they are equal. |
| `Coordinates.ToStringExamples` | src/test/java/org/projog/wumpus/model/CoordinateTest.java:73-76 | (3,5) prints as "3,5" and (-3,7) as "-3,7". |
| `Agents.NewAgent` | src/main/java/org/projog/wumpus/model/Agent.java:5-13 | A new agent stands at home facing NORTH, active, with its arrow unused and no gold. |
| `Agents.SetState` | src/main/java/org/projog/wumpus/model/Agent.java:19-21 | The state becomes the given one and the other four fields are kept. |
| `Agents.SetLocation` | src/main/java/org/projog/wumpus/model/Agent.java:27-29 | The location becomes the given cell and the other four fields are kept. |
| `Agents.SetDirection` | src/main/java/org/projog/wumpus/model/Agent.java:35-37 | The facing becomes the given direction and the other four fields are kept. |
| `Agents.SetHasGold` | src/main/java/org/projog/wumpus/model/Agent.java:43-45 | The gold flag becomes the given value and the other four fields are kept. |
| `Agents.TurnLeft` | src/main/java/org/projog/wumpus/model/Agent.java:47-49 | The facing moves one step anticlockwise, a right turn restores the agent, and nothing else changes. |
| `Agents.TurnRight` | src/main/java/org/projog/wumpus/model/Agent.java:51-53 | The facing moves one step clockwise and nothing else changes. |
| `Agents.SetHasMissed` | src/main/java/org/projog/wumpus/model/Agent.java:55-57 | Afterwards the arrow is gone and the wumpus is not killed; the other fields are kept. |
| `Agents.SetHasKilledWumpus` | src/main/java/org/projog/wumpus/model/Agent.java:59-61 | Afterwards the arrow is gone and the wumpus is killed; the other fields are kept. |
| `Agents.ArrowQueries` | src/main/java/org/projog/wumpus/model/Agent.java:63-73 | The three arrow queries partition the arrow states: carrying the arrow excludes a kill, and a spent arrow either hit or missed. |
| `Mazes.SingleGoldAndWumpus` | src/main/java/org/projog/wumpus/model/Maze.java:31-37 | Gold and wumpus are each reported at one cell at most, at none when absent, and at their own cell when present. |
| `Mazes.WithHome` | src/main/java/org/projog/wumpus/model/Maze.java:91-98 | The builder's home becomes the cell and nothing else changes. |
| `Mazes.WithGold` | src/main/java/org/projog/wumpus/model/Maze.java:100-107 | The builder's gold becomes the cell and nothing else changes. |
| `Mazes.WithWumpus` | src/main/java/org/projog/wumpus/model/Maze.java:109-116 | The builder's wumpus becomes the cell and nothing else changes. |
| `Mazes.AddPit` | src/main/java/org/projog/wumpus/model/Maze.java:118-125 | The pits become the old pits plus the cell, and nothing else changes. |
| `Mazes.AddWall` | src/main/java/org/projog/wumpus/model/Maze.java:127-134 | The walls become the old walls plus the cell, and nothing else changes. |
| `Mazes.LastWriteWins` | src/main/java/org/projog/wumpus/model/Maze.java:95-116 | Setting home, gold or wumpus twice keeps only the second value. |
| `Mazes.AddsAccumulate` | src/main/java/org/projog/wumpus/model/Maze.java:122-134 | Adding pits or walls is order-insensitive and idempotent, as adding to a set is. |
| `Mazes.Build` | src/main/java/org/projog/wumpus/model/Maze.java:19-45 | Building fails exactly when no home was set. Otherwise the maze reports home, gold, wumpus, pits and walls exactly as the builder held them. |
| `Mazes.AllComponentsOneCell` | src/test/java/org/projog/wumpus/model/MazeTest.java:95-112 | All five components may be put in one cell, and each is then reported there. |
| `Mazes.ComponentsApart` | src/test/java/org/projog/wumpus/model/MazeTest.java:115-165 | Each component is reported exactly at the cell it was given. |
| `Mazes.RowWalls` | src/main/java/org/projog/wumpus/model/Maze.java:138-141 | The first loop adds exactly the cells just above and just below the rectangle, for the columns from x to maxX. |
| `Mazes.ColumnWalls` | src/main/java/org/projog/wumpus/model/Maze.java:142-145 | The second loop adds exactly the cells just left and just right of the rectangle, for the rows from y to maxY. |
| `Mazes.Boundary` | src/main/java/org/projog/wumpus/model/Maze.java:137-146 | The walls gain exactly the frame around the rectangle, and nothing else changes. |
| `Mazes.FrameOutside` | src/main/java/org/projog/wumpus/model/Maze.java:137-146 | Every frame cell lies outside the rectangle and off its four diagonal corners. |
| `Mazes.GridFrame` | src/test/java/org/projog/wumpus/model/MazeTest.java:46-62 | Around the 4x4 grid the frame is exactly the sixteen cells the test lists. |
| `Mazes.FourByFourExample` | src/test/java/org/projog/wumpus/model/MazeTest.java:168-205 | In the test's 4x4 maze, home is (1,0), gold (3,2), wumpus (0,2), and the pits (3,1) and (2,3); the walls are (0,3) and the frame. |
| `Mazes.GridCells` | src/main/java/org/projog/wumpus/model/Maze.java:57-62 | The generator's list of grid cells is itself an admissible shuffle: sixteen distinct grid cells. |
| `Mazes.GridCellsDistinct` | src/main/java/org/projog/wumpus/model/Maze.java:57-62 | The column-by-column enumeration of the grid has no repeats and stays in the grid. |
| `Mazes.GridMembership` | src/main/java/org/projog/wumpus/model/Maze.java:57-62 | A cell is in the list exactly when it is in the grid. |
| `Mazes.ShuffleIsPermutation` | src/main/java/org/projog/wumpus/model/Maze.java:67-70 | A list is an admissible shuffle exactly when it is a reordering of the grid list, in both directions. |
| `Mazes.Find` | src/test/java/org/projog/wumpus/model/MazeTest.java:80-92 | The search returns exactly the grid cells that satisfy the test. |
| `Sequences.IndexOf` | src/main/java/org/projog/wumpus/model/Maze.java:73 | None when the element is absent; otherwise the position of its first occurrence. |
| `Sequences.RemoveAt` | src/main/java/org/projog/wumpus/model/Maze.java:71-79 | Removing position i shortens the list by one and shifts the later elements down. |
| `Sequences.RemoveAtMultiset` | src/main/java/org/projog/wumpus/model/Maze.java:71-79 | What remains after removing a position, plus the removed element, is the original multiset. |
| `Sequences.RemoveAtDistinct` | src/main/java/org/projog/wumpus/model/Maze.java:71-79 | From a list without repeats, removing a position removes that element altogether. |
| `Sequences.RemoveFirst` | src/main/java/org/projog/wumpus/model/Maze.java:73 | Removing an absent element changes nothing. Removing a present one cuts the list at the first occurrence (the position `IndexOf` finds) and keeps the other elements in order, so exactly one occurrence goes; from a list without repeats the element goes altogether. |
| `Sequences.RemoveFirstAtFirstOccurrence` | src/main/java/org/projog/wumpus/model/Maze.java:73 | Wherever x first appears, removal yields the elements before that position followed by those after it. |
| `Sequences.RemoveFirstSubset` | src/main/java/org/projog/wumpus/model/Maze.java:73 | Removal introduces no new elements. |
| `Mazes.DrawnCells` | src/main/java/org/projog/wumpus/model/Maze.java:70-79 | Home, wumpus, the two pits and the extra wall are five distinct grid cells, and the three last ones are not the gold. |
| `Mazes.BuildRandom` | src/main/java/org/projog/wumpus/model/Maze.java:52-82 | Gold is the first cell of the first shuffle; home and wumpus are the first two of the second. The pits and the extra wall are the next three cells once the gold is removed, and the other walls are the frame. |
| `Mazes.BuildRandomCounts` | src/test/java/org/projog/wumpus/model/MazeTest.java:26-30 | Inside the grid there is exactly one gold, one wumpus, two pits and one wall, for every pair of shuffles. |
| `Mazes.BuildRandomPitsApart` | src/test/java/org/projog/wumpus/model/MazeTest.java:32-44 | The wumpus is never at home, and no pit shares a cell with home, gold or wumpus. |
| `Mazes.BuildRandomPitsOpen` | src/test/java/org/projog/wumpus/model/MazeTest.java:32-36 | No pit is a wall, neither the extra wall nor a frame cell. |
| `Mazes.BuildRandomWallApart` | src/test/java/org/projog/wumpus/model/MazeTest.java:38-41 | A wall inside the grid is never home, gold or wumpus. |
| `Mazes.BuildRandomInGrid` | src/main/java/org/projog/wumpus/model/Maze.java:55-79 | Every component lies in the grid, and outside the grid the walls are exactly the frame. |
| `Mazes.GoldMayShareHome` | src/main/java/org/projog/wumpus/model/Maze.java:64-72 | Some pair of shuffles puts the gold at home. |
| `Mazes.SwapFrontShuffle` | src/main/java/org/projog/wumpus/model/Maze.java:67-70 | Exchanging the first two cells of a shuffle gives another shuffle. |
| `Mazes.GoldMayShareWumpus` | src/main/java/org/projog/wumpus/model/Maze.java:64-72 | Some pair of shuffles puts the gold in the wumpus's cell. |
| `Mazes.ShufflesMatter` | src/test/java/org/projog/wumpus/model/MazeTest.java:65-78 | Two pairs of shuffles can yield different mazes, so the outcome is not fixed. |
| `Worlds.NewWorld` | src/main/java/org/projog/wumpus/model/World.java:26-29 | A new world has the given maze, a new agent at its home, and both flags false. |
| `Worlds.Reset` | src/main/java/org/projog/wumpus/model/World.java:31-35 | Resetting gives exactly the world a new episode on the same maze starts from. |
| `Worlds.Update` | src/main/java/org/projog/wumpus/model/World.java:44-108 | The maze is never changed. A finished world refuses with its own state and is left as it was. An accepted action reports the agent's new state. |
| `Worlds.UpdateRefusals` | src/main/java/org/projog/wumpus/model/World.java:76-102 | On an active world an action is refused exactly when it is TAKE without untaken gold here, FIRE without the arrow, or CLIMB away from home. A refusal leaves the agent as it was with both flags cleared. |
| `Worlds.UpdateFlags` | src/main/java/org/projog/wumpus/model/World.java:49-95 | After an accepted action, "bumped" holds exactly for a FORWARD into a wall, and "scream" exactly for a FIRE at the wumpus directly ahead. |
| `Worlds.UpdateForward` | src/main/java/org/projog/wumpus/model/World.java:55-69 | FORWARD is always accepted. Into a wall the agent stays put; otherwise it moves ahead and dies exactly on a pit or on the live wumpus. It never escapes, and facing, arrow and gold are kept. |
| `Worlds.UpdateTurns` | src/main/java/org/projog/wumpus/model/World.java:70-75 | RIGHT and LEFT are always accepted on an active world and change only the facing; the flags end false. |
| `Worlds.UpdateTake` | src/main/java/org/projog/wumpus/model/World.java:76-82 | An accepted TAKE happened on untaken gold and only sets the gold flag. Afterwards no cell reports gold, and a second TAKE is refused. |
| `Worlds.UpdateFire` | src/main/java/org/projog/wumpus/model/World.java:83-95 | An accepted FIRE changes only the arrow: a hit exactly when the wumpus is directly ahead, a miss otherwise. |
| `Worlds.UpdateClimb` | src/main/java/org/projog/wumpus/model/World.java:96-102 | An accepted CLIMB happened at home and only marks the agent escaped. Every later action is refused. |
| `Worlds.AdjacentInSomeDirection` | src/main/java/org/projog/wumpus/model/World.java:137-145 | "A pit (the wumpus) next to c" means one step away from c in some direction. |
| `Worlds.GetPercepts` | src/main/java/org/projog/wumpus/model/World.java:118-147 | A percept is returned exactly when it holds in the world, and nothing is returned once the episode is over. It holds as follows: BUMP and SCREAM mirror the flags; GLITTER is untaken gold here; STENCH is the wumpus here or next door; BREEZE is a pit next door. |
| `Worlds.ListedNeighbours` | src/main/java/org/projog/wumpus/model/World.java:137-145 | Scanning the directions in declaration order visits exactly the four neighbours. |
| `Worlds.NoPerceptsWhenFinished` | src/main/java/org/projog/wumpus/model/World.java:119-121 | A dead or escaped agent perceives nothing. |
| `Worlds.StenchIgnoresLiveness` | src/main/java/org/projog/wumpus/model/World.java:134-144 | STENCH does not depend on the arrow, so killing the wumpus does not remove it. |
| `Worlds.BreezeFromNeighboursOnly` | src/main/java/org/projog/wumpus/model/World.java:137-141 | A pit under the agent alone gives no BREEZE; a pit in any neighbouring cell does. |
| `Worlds.GlitterIffUntakenGoldHere` | src/main/java/org/projog/wumpus/model/World.java:131-133 | GLITTER holds exactly when the maze's gold is here and has not been taken. |
| `Worlds.BumpIntoWall` | src/main/java/org/projog/wumpus/model/World.java:55-58 | Walking into a wall leaves the agent unchanged and active, and the next percepts include BUMP. |
| `Worlds.ForwardIntoCell` | src/main/java/org/projog/wumpus/model/World.java:59-68 | Entering a cell that is not a wall relocates the agent; it dies exactly on a pit or on the live wumpus, so a killed wumpus's cell is safe. |
| `Worlds.FireOutcome` | src/main/java/org/projog/wumpus/model/World.java:83-91 | With the arrow, FIRE is accepted and spends it; the wumpus is killed, and SCREAM heard, exactly when it is directly ahead. |
| `Worlds.ClimbOutcome` | src/main/java/org/projog/wumpus/model/World.java:96-102 | CLIMB is accepted exactly at home, with or without gold; it ends the episode as escaped and keeps the gold flag. |
| `Episodes.Run` | src/test/java/org/projog/wumpus/WumpusWorldTest.java:232-246 | Applying actions one by one never changes the maze, and an accepted run reports the agent's final state. |
| `Episodes.RunAppend` | src/test/java/org/projog/wumpus/WumpusWorldTest.java:237-245 | One more action continues from where the run stopped: a refusal stays put, otherwise the action is applied to the final world. |
| `Episodes.RunTrace` | src/test/java/org/projog/wumpus/WumpusWorldTest.java:237-245 | A run in which each action is accepted and leads to the next world of a trace ends at the trace's last world. |
| `Episodes.FinishedIsFinal` | src/main/java/org/projog/wumpus/model/World.java:45-47 | A finished world refuses any further action and stays exactly as it was. |
| `Episodes.RunMonotone` | src/main/java/org/projog/wumpus/model/World.java:44-108 | No run undoes taken gold, a spent arrow or a killed wumpus, and a finished agent never changes. |
| `Episodes.TakeOnce` | src/main/java/org/projog/wumpus/model/World.java:76-82 | After a successful TAKE no cell reports gold whatever follows, and any later TAKE is refused. |
| `Episodes.FireOnce` | src/main/java/org/projog/wumpus/model/World.java:83-95 | After a successful FIRE, hit or miss, any later FIRE is refused. |
| `Episodes.ResetForgets` | src/main/java/org/projog/wumpus/model/World.java:31-35 | Resetting after any run gives back the world the episode started from. |
| `Episodes.NewWorldConsistent` | src/main/java/org/projog/wumpus/model/World.java:26-29 | A new world satisfies the reachable-world invariant exactly when its home is not a wall. |
| `Episodes.UpdateConsistent` | src/main/java/org/projog/wumpus/model/World.java:44-108 | Every update preserves the invariant. The agent is never in a wall; gold and a hit imply they exist; escape happens only at home and death only on a pit or the live wumpus; the flags match what is ahead. |
| `Episodes.RunConsistent` | src/main/java/org/projog/wumpus/model/World.java:44-108 | Every run preserves the invariant. |
| `Episodes.RandomEpisodeConsistent` | src/main/java/org/projog/wumpus/model/Maze.java:52-82 | Every episode on a generated maze satisfies the invariant, for every pair of shuffles and every action sequence. |
| `Scenarios.HomeContainsGoldBuilt` | src/test/java/org/projog/wumpus/WumpusWorldTest.java:25-27 | The builder calls of the test produce the scenario's maze. |
| `Scenarios.HomeContainsGoldAfter2` | src/test/java/org/projog/wumpus/WumpusWorldTest.java:24-30 | TAKE, CLIMB is accepted throughout and ends escaped with the gold. |
| `Scenarios.HomeContainsGoldPerceptsAt0` | src/test/java/org/projog/wumpus/WumpusWorldTest.java:24-30 | At the start the agent perceives GLITTER and nothing else. |
| `Scenarios.HomeContainsGoldPerceptsAt1` | src/test/java/org/projog/wumpus/WumpusWorldTest.java:24-30 | After TAKE the agent perceives nothing. |
| `Scenarios.HomeSurroundedByWallsBuilt` | src/test/java/org/projog/wumpus/WumpusWorldTest.java:34-36 | The builder calls of the test produce the walled-in maze. |
| `Scenarios.HomeSurroundedByWallsAfter8` | src/test/java/org/projog/wumpus/WumpusWorldTest.java:33-39 | The eight actions FORWARD, LEFT, FORWARD, LEFT, FORWARD, LEFT, FORWARD, CLIMB are accepted; the agent never leaves home and ends escaped. |
| `Scenarios.HomeSurroundedByWallsPerceptsAt0` | src/test/java/org/projog/wumpus/WumpusWorldTest.java:33-39 | At the start the agent perceives nothing. |
| `Scenarios.HomeSurroundedByWallsPerceptsAt1` | src/test/java/org/projog/wumpus/WumpusWorldTest.java:33-39 | After the first FORWARD it perceives BUMP alone. |
| `Scenarios.HomeSurroundedByWallsPerceptsAt2` | src/test/java/org/projog/wumpus/WumpusWorldTest.java:33-39 | After turning it perceives nothing again. |
| `Scenarios.HomeNextToPitBuilt` | src/test/java/org/projog/wumpus/WumpusWorldTest.java:43-45 | The builder calls of the test produce the maze with a pit east of home. |
| `Scenarios.HomeNextToPitAfter1` | src/test/java/org/projog/wumpus/WumpusWorldTest.java:42-48 | CLIMB is accepted at once and ends escaped. |
| `Scenarios.HomeNextToPitPerceptsAt0` | src/test/java/org/projog/wumpus/WumpusWorldTest.java:42-48 | At the start the agent perceives BREEZE alone. |
| `Scenarios.HomeNextToPitPerceptsAt1` | src/test/java/org/projog/wumpus/WumpusWorldTest.java:42-48 | Once escaped it perceives nothing. |
| `Scenarios.HomeNextToWumpusBuilt` | src/test/java/org/projog/wumpus/WumpusWorldTest.java:53-56 | The builder calls of the test produce the maze with the wumpus east and the gold north. |
| `Scenarios.HomeNextToWumpusAfter7` | src/test/java/org/projog/wumpus/WumpusWorldTest.java:50-59 | FIRE, FORWARD, TAKE, RIGHT, RIGHT, FORWARD, CLIMB is accepted: the shot misses, and the agent fetches the gold and escapes with it. |
| `Scenarios.HomeNextToWumpusPerceptsAt0` | src/test/java/org/projog/wumpus/WumpusWorldTest.java:50-59 | At the start the agent perceives STENCH alone. |
| `Scenarios.HomeNextToWumpusPerceptsAt1` | src/test/java/org/projog/wumpus/WumpusWorldTest.java:50-59 | After the missed shot it still perceives STENCH alone, without SCREAM. |
| `Scenarios.HomeNextToWumpusPerceptsAt2` | src/test/java/org/projog/wumpus/WumpusWorldTest.java:50-59 | At the gold it perceives GLITTER alone. |
| `Scenarios.HomeNextToPitAndWumpusBuilt` | src/test/java/org/projog/wumpus/WumpusWorldTest.java:64-67 | The builder calls of the test produce the maze with a pit west and the wumpus east. |
| `Scenarios.HomeNextToPitAndWumpusAfter2` | src/test/java/org/projog/wumpus/WumpusWorldTest.java:61-70 | FIRE, CLIMB is accepted: the shot north misses and the agent escapes. |
| `Scenarios.HomeNextToPitAndWumpusPerceptsAt0` | src/test/java/org/projog/wumpus/WumpusWorldTest.java:61-70 | At the start the agent perceives BREEZE and STENCH and nothing else. |
| `Scenarios.HomeNextToPitAndWumpusPerceptsAt1` | src/test/java/org/projog/wumpus/WumpusWorldTest.java:61-70 | After the missed shot it perceives the same two. |
| `Scenarios.HomeFacingWumpusBuilt` | src/test/java/org/projog/wumpus/WumpusWorldTest.java:74-77 | The builder calls of the test produce the maze with wumpus and gold north of home. |
| `Scenarios.HomeFacingWumpusAfter7` | src/test/java/org/projog/wumpus/WumpusWorldTest.java:72-80 | FIRE, FORWARD, TAKE, RIGHT, RIGHT, FORWARD, CLIMB is accepted: the shot kills the wumpus, its cell is then safe, and the gold is carried home. |
| `Scenarios.HomeFacingWumpusPerceptsAt0` | src/test/java/org/projog/wumpus/WumpusWorldTest.java:72-80 | At the start the agent perceives STENCH alone. |
| `Scenarios.HomeFacingWumpusPerceptsAt1` | src/test/java/org/projog/wumpus/WumpusWorldTest.java:72-80 | Right after the hit it perceives STENCH and SCREAM. |
| `Scenarios.HomeFacingWumpusPerceptsAt2` | src/test/java/org/projog/wumpus/WumpusWorldTest.java:72-80 | In the dead wumpus's cell it perceives GLITTER and the lingering STENCH. |
| `Scenarios.HomeNextToPitAndFacingWumpusBuilt` | src/test/java/org/projog/wumpus/WumpusWorldTest.java:84-88 | The builder calls of the test produce the maze with wumpus and gold north and a pit west. |
| `Scenarios.HomeNextToPitAndFacingWumpusAfter7` | src/test/java/org/projog/wumpus/WumpusWorldTest.java:82-91 | The same seven actions are accepted, with the same outcome, despite the pit. |
| `Scenarios.HomeNextToPitAndFacingWumpusPerceptsAt0` | src/test/java/org/projog/wumpus/WumpusWorldTest.java:82-91 | At the start the agent perceives STENCH and BREEZE and nothing else. |
| `Scenarios.HomeNextToPitAndFacingWumpusPerceptsAt1` | src/test/java/org/projog/wumpus/WumpusWorldTest.java:82-91 | Right after the hit it perceives STENCH, BREEZE and SCREAM. |
| `Scenarios.HomeNextToPitAndFacingWumpusPerceptsAt2` | src/test/java/org/projog/wumpus/WumpusWorldTest.java:82-91 | In the dead wumpus's cell it perceives STENCH and GLITTER. |
| `Scenarios.HomeNextToPitAndFacingWumpusEaten` | src/main/java/org/projog/wumpus/model/World.java:61-63 | Walking north without shooting, the agent is eaten, and the next action is refused. |

## Left out

- The `view` package, the game controllers and the Prolog reasoning engine are not part of this model. They choose the actions; here the actions are inputs.
- `WumpusWorld.main` and the no-argument `World()` constructor are left out. The constructor only combines `Maze.buildRandom` with `World(Maze)`, and both of those are modelled.
- `Maze.toString` is left out. It prints Java `HashSet`s, whose iteration order depends on hashing and is not part of the game rules. `Coordinate.toString` is modelled.
- The plain getters (`getHome`, `getAgentLocation`, `getAgentDirection`, `getState` and the like) are left out. They are field accesses in the model.
- The `default` branch of the `update` switch is left out. `Action` is a closed datatype, so that branch cannot be reached.
- The `requireNonNull` checks on the builder's pit and wall sets are left out. Those sets are never null; the null home is modelled as `Build`'s failure.
- `Collections.shuffle` is not modelled as randomness. `Mazes.BuildRandom` takes its two outcomes as parameters, restricted to sixteen distinct grid cells. `Mazes.ShuffleIsPermutation` shows that these are exactly the reorderings of the grid list.
- The long end-to-end tests (`no_wumpus` through `take_gold_after_killing_wumpus_located_in_same_square_as_gold`, 30 to 70 actions each on framed mazes) are not replayed step by step. `random_maze` is not replayed either, since it depends on the random generator. Only the general properties apply to these runs: `Episodes.RunConsistent`, `Episodes.FinishedIsFinal` and `Episodes.RunMonotone` hold for every action sequence. Their step-by-step outcomes (ACTIVE after each action, ESCAPED at the end) are not proved.
- `Coordinates.Move`: Java `int` arithmetic wraps around at 2^31, and the model uses unbounded integers. Near the extremes of `int`, a Java move would wrap; the model does not.
- `Coordinates.Minus`: the same unbounded-integer simplification; Java's subtraction can wrap.
- `Coordinates.HashCodeSwap`: stated for unbounded integers. With 32-bit wrap-around, x + 31y can coincide with y + 31x for some far-apart components.
- `Coordinates.HashCode`: stated for unbounded integers. With Java's 32-bit wrap-around, the row is not always recovered from the hash and the column.
- `Coordinates.HashCodeInjectiveOnBand`: stated for unbounded integers, without the 32-bit wrap-around of `hashCode`.
- `Mazes.Boundary`: stated for unbounded integers. In Java, `minX - 1`, `maxX + 1`, `minY - 1` and `maxY + 1` wrap around at the ends of `int`, so the frame cells can land on the far side of the range. With `maxX` or `maxY` equal to `Integer.MAX_VALUE`, the loops at Maze.java:138 and :142 never end. The model always adds the unwrapped frame and always ends.
- `Mazes.RowWalls`: ends for every input, while Java's loop at Maze.java:138 never ends when `maxX` is `Integer.MAX_VALUE`. The rows `minY - 1` and `maxY + 1` are not wrapped.
- `Mazes.ColumnWalls`: ends for every input, while Java's loop at Maze.java:142 never ends when `maxY` is `Integer.MAX_VALUE`. The columns `minX - 1` and `maxX + 1` are not wrapped.
- `Mazes.Build`: the model copies the builder's pits and walls into the maze. Java's `Maze` keeps references to the builder's own sets (Maze.java:23-24, fields at 85-86). So a `pit`, `wall` or `boundary` call on the same builder after `build()` also changes the maze already built, contrary to the "immutable" class comment at Maze.java:11. The model describes the intended snapshot and does not reproduce this aliasing. `buildRandom` creates the maze as its last step (Maze.java:81), so the aliasing cannot show there.
