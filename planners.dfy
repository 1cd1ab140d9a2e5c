/** The planner kinds the constructor of the DAgger driver admits (its `assert` on
    `planner_type`), as a closed variant with the configuration name of each. */
module Planners {
  import opened Wrappers

  datatype Planner = Primitives | Cem | Ilqr | Randomwalk | Randomcontrolset | Teleop | Straight | Lattice
  {
    function Name(): string
    {
      match this
      case Primitives => "primitives"
      case Cem => "cem"
      case Ilqr => "ilqr"
      case Randomwalk => "randomwalk"
      case Randomcontrolset => "randomcontrolset"
      case Teleop => "teleop"
      case Straight => "straight"
      case Lattice => "lattice"
    }

    /** Only pure random exploration skips adding data and training. */
    predicate Trains() { this != Randomwalk }
  }

  datatype ConfigError = UnknownPlanner(name: string) | WorldNotRandomized

  const PlannerNames: seq<string> :=
    ["primitives", "cem", "ilqr", "randomwalk", "randomcontrolset", "teleop", "straight", "lattice"]

  /** The constructor's check: the configured name must be one of the eight. */
  function CheckPlannerType(name: string): (r: Result<Planner, ConfigError>)
    ensures r.Ok? <==> name in PlannerNames
    ensures r.Ok? ==> r.value.Name() == name
    ensures r.Err? ==> r == Err(UnknownPlanner(name))
  {
    if name == "primitives" then Ok(Primitives)
    else if name == "cem" then Ok(Cem)
    else if name == "ilqr" then Ok(Ilqr)
    else if name == "randomwalk" then Ok(Randomwalk)
    else if name == "randomcontrolset" then Ok(Randomcontrolset)
    else if name == "teleop" then Ok(Teleop)
    else if name == "straight" then Ok(Straight)
    else if name == "lattice" then Ok(Lattice)
    else Err(UnknownPlanner(name))
  }

  /** Every planner's configuration name is accepted and gives that planner back. */
  lemma PlannerNameRoundTrip(p: Planner)
    ensures CheckPlannerType(p.Name()) == Ok(p)
  {
  }
}
