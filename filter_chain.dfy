/** The stages of a filter chain, the per-policy adjustor state, and the
    chain itself as far as the adjustor context drives it. */
module Filters {
  import opened Policy

  /** One stage of a filter chain. `Trigger` stands for the trigger filter
      built by the trigger interpreter, whose inside is not modelled. */
  datatype Filter =
    | TargetGroupCheck(targetGroup: TargetGroup)
    | Trigger(description: string)
    | ConstraintCheck(constraint: Constraint)
    | Adjust(policy: ScalingPolicy)

  /** Mutable per-policy bookkeeping for cooldown decisions. */
  class AdjustorState {
    var numberOfScalesInCooldown: nat
    var coolDownEnd: real
    var latestAdjustmentAtSimulationTime: real

    /** True of a state object that still holds a new state's values. */
    predicate IsInitial()
      reads this
    {
      numberOfScalesInCooldown == 0 && coolDownEnd == 0.0 && latestAdjustmentAtSimulationTime == 0.0
    }

    constructor ()
      ensures numberOfScalesInCooldown == 0
      ensures coolDownEnd == 0.0 && latestAdjustmentAtSimulationTime == 0.0
    {
      numberOfScalesInCooldown := 0;
      coolDownEnd := 0.0;
      latestAdjustmentAtSimulationTime := 0.0;
    }
  }

  /** An ordered chain of filters over one state object. What the filters
      decide for an event is supplied to `Next` as its outcome. */
  class FilterChain {
    /** The state object handed over when the chain was built. */
    const state: AdjustorState
    var filters: seq<Filter>
    var latestResult: Option<FilterResult>

    constructor (state: AdjustorState)
      ensures this.state == state
      ensures filters == [] && latestResult == None
    {
      this.state := state;
      filters := [];
      latestResult := None;
    }

    /** Appends a stage at the end of the chain. */
    method Add(f: Filter)
      modifies this
      ensures filters == old(filters) + [f]
      ensures latestResult == old(latestResult)
    {
      filters := filters + [f];
    }

    /** Runs `event` through the chain; `outcome` is what its filters decide.
        The result is recorded as the chain's latest result. The filters may
        change the chain's state object in any way. */
    method Next(event: Event, outcome: FilterResult)
      modifies this, state
      ensures latestResult == Some(outcome)
      ensures filters == old(filters)
    {
      latestResult := Some(outcome);
    }
  }
}
