/** The values that pass through the core without being inspected by it: the robot state, the
    control action, the observation, and the world and controller diagnostics. */
module Types {
  type State(!new)
  type Action(!new)
  type Obs(!new)
  type WorldInfo(!new)
  type MpcInfo(!new)

  /** One recorded timestep of a trajectory sample: state, label action and observation. */
  datatype Step = Step(x: State, u: Action, o: Obs)
}
