/** The per-policy adjustor context: it assembles the filter chain of one
    scaling policy, rolls its state reference back when the chain disregards
    an event, publishes the chain's result, and is identified by the policy's
    id. */
module Adjustment {
  import opened Policy
  import opened Filters
  import ObjectsHash

  /** What an event subscription is built from: the kind of event it listens
      to. */
  datatype SubscriberBuilder = SubscriberBuilder(eventKind: string)

  /** A built subscription: the builder's event kind and the handler that
      receives its events. */
  datatype Subscriber<H> = Subscriber(eventKind: string, handler: H)

  /** One constraint filter per constraint, in the given order. */
  function ConstraintFilters(constraints: seq<Constraint>): (r: seq<Filter>)
    ensures |r| == |constraints|
    ensures forall i :: 0 <= i < |r| ==> r[i] == ConstraintCheck(constraints[i])
  {
    if constraints == [] then []
    else ConstraintFilters(constraints[..|constraints| - 1])
         + [ConstraintCheck(constraints[|constraints| - 1])]
  }

  /** The chain assembled for `policy` around the given trigger filter. */
  function ChainFor(policy: ScalingPolicy, triggerChecker: Filter): (r: seq<Filter>)
    ensures |r| == 3 + |policy.policyConstraints|
    ensures r[0] == TargetGroupCheck(policy.targetGroup)
    ensures r[1] == triggerChecker
    ensures forall i :: 0 <= i < |policy.policyConstraints| ==>
              r[2 + i] == ConstraintCheck(policy.policyConstraints[i])
    ensures r[|r| - 1] == Adjust(policy)
  {
    [TargetGroupCheck(policy.targetGroup), triggerChecker]
    + ConstraintFilters(policy.policyConstraints)
    + [Adjust(policy)]
  }

  /** Apart from the trigger filter, every constraint stage of the chain comes
      from the policy's own constraints: the target group's constraints are
      not added. */
  lemma ChainHasOnlyPolicyConstraints(policy: ScalingPolicy, triggerChecker: Filter, c: Constraint)
    requires c !in policy.policyConstraints
    ensures forall i :: 0 <= i < |ChainFor(policy, triggerChecker)| && i != 1 ==>
              ChainFor(policy, triggerChecker)[i] != ConstraintCheck(c)
  {
    var r := ChainFor(policy, triggerChecker);
    forall i | 0 <= i < |r| && i != 1
      ensures r[i] != ConstraintCheck(c)
    {
      if 2 <= i < |r| - 1 {
        assert r[i] == ConstraintCheck(policy.policyConstraints[i - 2]);
      }
    }
  }

  /** The built handlers: one per builder, in order, each with `publisher`
      as its handler. */
  function BuildHandlers<H>(builders: seq<SubscriberBuilder>, publisher: H): (r: seq<Subscriber<H>>)
    ensures |r| == |builders|
    ensures forall i :: 0 <= i < |r| ==>
              r[i].eventKind == builders[i].eventKind && r[i].handler == publisher
  {
    if builders == [] then []
    else [Subscriber(builders[0].eventKind, publisher)] + BuildHandlers(builders[1..], publisher)
  }

  /** What the publisher returns for the chain's latest result: the payload
      of a success, nothing otherwise. */
  function Publish(latest: Option<FilterResult>): (r: Option<Event>)
    ensures r.Some? <==> latest.Some? && latest.value.Success?
    ensures r.Some? ==> r.value == latest.value.nextEvent
  {
    match latest
    case Some(Success(e)) => Some(e)
    case _ => None
  }

  class AdjustorContext {
    const scalingPolicy: ScalingPolicy
    const filterChain: FilterChain
    const previousState: AdjustorState
    var state: AdjustorState
    var associatedHandlers: seq<Subscriber<PublishResultingEventFilter>>

    /** The trigger filter the context was built with. */
    ghost const triggerChecker: Filter
    /** Whether a disregard has re-pointed `state` at `previousState`. */
    ghost var rolledBack: bool

    ghost predicate Valid()
      reads this, filterChain, previousState
    {
      && filterChain.filters == ChainFor(scalingPolicy, triggerChecker)
      && filterChain.state != previousState
      && previousState.IsInitial()
      && state == (if rolledBack then previousState else filterChain.state)
      && (forall i :: 0 <= i < |associatedHandlers| ==> associatedHandlers[i].handler.context == this)
      && (forall i, j :: 0 <= i < j < |associatedHandlers| ==>
            associatedHandlers[i].handler == associatedHandlers[j].handler)
    }

    constructor (policy: ScalingPolicy, triggerChecker: Filter, builders: seq<SubscriberBuilder>)
      ensures Valid() && !rolledBack
      ensures scalingPolicy == policy && this.triggerChecker == triggerChecker
      ensures fresh(filterChain) && fresh(state) && fresh(previousState)
      ensures filterChain.state == state && filterChain.latestResult == None
      ensures state.numberOfScalesInCooldown == 0 && state.coolDownEnd == 0.0
      ensures state.latestAdjustmentAtSimulationTime == 0.0
      ensures previousState.numberOfScalesInCooldown == 0 && previousState.coolDownEnd == 0.0
      ensures previousState.latestAdjustmentAtSimulationTime == 0.0
      ensures |associatedHandlers| == |builders|
      ensures forall i :: 0 <= i < |builders| ==>
                associatedHandlers[i].eventKind == builders[i].eventKind
                && fresh(associatedHandlers[i].handler)
    {
      scalingPolicy := policy;
      this.triggerChecker := triggerChecker;
      var initial := new AdjustorState();
      state := initial;
      previousState := new AdjustorState();
      filterChain := new FilterChain(initial);
      rolledBack := false;
      associatedHandlers := [];
      new;
      assert state.IsInitial() && previousState.IsInitial();
      InitializeFilterChain(triggerChecker);
      assert state.IsInitial() && previousState.IsInitial();
      var publisher := new PublishResultingEventFilter(this);
      var handlers := BuildHandlers(builders, publisher);
      assert forall i :: 0 <= i < |handlers| ==> handlers[i].handler == publisher;
      associatedHandlers := handlers;
    }

    /** Appends the target-group check, the trigger filter, one filter per
        policy constraint and the adjustor to the chain. */
    method InitializeFilterChain(triggerChecker: Filter)
      modifies filterChain
      ensures filterChain.filters == old(filterChain.filters) + ChainFor(scalingPolicy, triggerChecker)
      ensures filterChain.latestResult == old(filterChain.latestResult)
    {
      ghost var before := filterChain.filters;
      filterChain.Add(TargetGroupCheck(scalingPolicy.targetGroup));
      filterChain.Add(triggerChecker);
      ghost var head := [TargetGroupCheck(scalingPolicy.targetGroup), triggerChecker];
      assert filterChain.filters == before + head;
      var constraints := scalingPolicy.policyConstraints;
      for i := 0 to |constraints|
        invariant filterChain.filters == before + (head + ConstraintFilters(constraints[..i]))
        invariant filterChain.latestResult == old(filterChain.latestResult)
      {
        ghost var done := head + ConstraintFilters(constraints[..i]);
        assert constraints[..i + 1][..i] == constraints[..i];
        assert done + [ConstraintCheck(constraints[i])] == head + ConstraintFilters(constraints[..i + 1]);
        filterChain.Add(ConstraintCheck(constraints[i]));
        assert filterChain.filters == before + (done + [ConstraintCheck(constraints[i])]);
      }
      assert constraints[..|constraints|] == constraints;
      ghost var body := head + ConstraintFilters(constraints);
      filterChain.Add(Adjust(scalingPolicy));
      assert filterChain.filters == before + (body + [Adjust(scalingPolicy)]);
    }

    /** The disregard callback: `state` is re-pointed at `previousState`;
        neither state object nor the chain is touched. */
    method DoOnDisregard(reason: string)
      requires Valid()
      modifies this
      ensures Valid() && rolledBack
      ensures state == previousState
      ensures state != filterChain.state
      ensures state.numberOfScalesInCooldown == 0 && state.coolDownEnd == 0.0
      ensures state.latestAdjustmentAtSimulationTime == 0.0
      ensures associatedHandlers == old(associatedHandlers)
      ensures unchanged(previousState) && unchanged(old(state)) && unchanged(filterChain)
    {
      state := previousState;
      rolledBack := true;
    }

    /** `filterChain.next(event)` together with the disregard callback the
        chain was built with. */
    method RunChain(event: Event, outcome: FilterResult)
      requires Valid()
      modifies this, filterChain, filterChain.state
      ensures Valid()
      ensures unchanged(previousState)
      ensures filterChain.latestResult == Some(outcome)
      ensures rolledBack == (old(rolledBack) || outcome.Disregard?)
      ensures state == if outcome.Disregard? then previousState else old(state)
      ensures outcome.Disregard? ==>
                state.numberOfScalesInCooldown == 0 && state.coolDownEnd == 0.0
                && state.latestAdjustmentAtSimulationTime == 0.0
      ensures associatedHandlers == old(associatedHandlers)
    {
      filterChain.Next(event, outcome);
      if outcome.Disregard? {
        DoOnDisregard(outcome.reason);
      }
    }

    /** Java's `hashCode`: `Objects.hash` of the policy id. */
    function HashCode(): (r: int)
      ensures ObjectsHash.IsInt32(r)
      ensures r == ObjectsHash.Wrap32(31 + ObjectsHash.Polynomial(scalingPolicy.id))
    {
      ObjectsHash.HashOfId(scalingPolicy.id)
    }

    /** Java's `equals`: the same object, or another context whose policy has
        the same id. */
    predicate Equals(other: object?)
      ensures other is AdjustorContext ==>
                (Equals(other) <==> (other as AdjustorContext).scalingPolicy.id == scalingPolicy.id)
      ensures !(other is AdjustorContext) ==> !Equals(other)
    {
      this == other
      || (other is AdjustorContext && (other as AdjustorContext).scalingPolicy.id == scalingPolicy.id)
    }
  }

  /** Equality is reflexive, symmetric and transitive, and anything that is
      not a context is never equal to one. */
  lemma EqualsIsEquivalence(a: AdjustorContext, b: object?, c: AdjustorContext)
    ensures a.Equals(a)
    ensures b is AdjustorContext ==> (a.Equals(b) <==> (b as AdjustorContext).Equals(a))
    ensures b is AdjustorContext && a.Equals(b) && (b as AdjustorContext).Equals(c) ==> a.Equals(c)
    ensures !(b is AdjustorContext) ==> !a.Equals(b)
  {
  }

  /** Equal contexts have equal hash codes. */
  lemma EqualContextsHashEqually(a: AdjustorContext, b: AdjustorContext)
    requires a.Equals(b)
    ensures a.HashCode() == b.HashCode()
  {
  }

  /** The event handler shared by all of a context's subscriptions. */
  class PublishResultingEventFilter {
    const context: AdjustorContext

    constructor (context: AdjustorContext)
      ensures this.context == context
    {
      this.context := context;
    }

    /** Runs the chain on `event` (its filters deciding `outcome`) and returns
        the success payload, or nothing when the chain disregarded. */
    method AcceptEvent(event: Event, outcome: FilterResult) returns (r: Option<Event>)
      requires context.Valid()
      modifies context, context.filterChain, context.filterChain.state
      ensures context.Valid()
      ensures context.filterChain.latestResult == Some(outcome)
      ensures unchanged(context.previousState)
      ensures r.Some? <==> outcome.Success?
      ensures outcome.Success? ==> r == Some(outcome.nextEvent)
      ensures context.state == if outcome.Disregard? then context.previousState else old(context.state)
      ensures outcome.Disregard? ==>
                context.state.numberOfScalesInCooldown == 0 && context.state.coolDownEnd == 0.0
                && context.state.latestAdjustmentAtSimulationTime == 0.0
      ensures context.rolledBack == (old(context.rolledBack) || outcome.Disregard?)
      ensures context.associatedHandlers == old(context.associatedHandlers)
    {
      context.RunChain(event, outcome);
      r := Publish(context.filterChain.latestResult);
    }
  }
}
