/** The enumerations exchanged between the world and whatever drives it.
    They carry no behaviour of their own. */
module Vocabulary {

  /** An action the agent can perform. */
  datatype Action =
    | Forward  // move one cell in the facing direction
    | Right    // turn to the right
    | Left     // turn to the left
    | Fire     // fire the arrow
    | Take     // take the gold
    | Climb    // climb out of the maze

  /** An input the agent perceives at a given moment. */
  datatype Percept =
    | Breeze   // next to a pit
    | Stench   // next to (or on) the wumpus
    | Glitter  // on the untaken gold
    | Scream   // the last action killed the wumpus
    | Bump     // the last action walked into a wall

  /** Life status of the agent; DEAD and ESCAPED are terminal. */
  datatype AgentState = Active | Dead | Escaped

  /** Status of the single arrow. */
  datatype ArrowState = Unused | Missed | Hit
}
