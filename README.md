# SPD adjustor context and target-group membership

A Dafny model of two pieces of Slingshot's elasticity-policy evaluation:

- the per-policy **adjustor context** (`SPDAdjustorContext`), which assembles a
  scaling policy's filter chain (target-group check, trigger filter, one filter
  per policy constraint, adjustor), rolls its state reference back when the
  chain disregards an event, publishes the payload of a successful chain run,
  and is identified by its policy's id;
- **target-group membership** (`TargetGroupUtils.isContainerInElasticInfrastructure`):
  a resource container lies in an elastic infrastructure iff some container of
  that infrastructure's resource environment has the same id.

Files:

- `policy.dfy` (module `Policy`): policies, target groups, constraints, events
  and `FilterResult = Success(nextEvent) | Disregard(reason)` as plain values.
- `filter_chain.dfy` (module `Filters`): the closed `Filter` datatype, the
  mutable `AdjustorState` class and a `FilterChain` class holding its filters,
  the state object it was built with, and its latest result.
- `adjustor_context.dfy` (module `Adjustment`): the `AdjustorContext` class,
  the shared `PublishResultingEventFilter` handler, and the functions and
  lemmas that state the chain's shape, the handler list, the publishing choice
  and identity.
- `objects_hash.dfy` (module `ObjectsHash`): Java's `Objects.hash` and
  `String.hashCode` with 32-bit wrap-around, proved equal to the documented
  polynomial wrapped once.
- `target_group_utils.dfy` (module `TargetGroupUtils`): membership by id.

The rollback is modelled with object references, as the code writes it. The
chain receives the context's original state object when it is built. A
disregard re-points only the context's `state` field at `previousState`, and
`previousState` is never reassigned (a `const` here). `AdjustorContext.Valid`
records the consequence: a ghost flag `rolledBack` says whether a disregard
has happened, and `state` is the chain's own object before the first
disregard and `previousState` from then on. After a rollback the chain still
holds the original object, which is no longer the context's `state`
(`DoOnDisregard` ensures this).

`FilterChain.next` and `getLatestResult` are outside `SPDAdjustorContext`.
`FilterChain.Next` takes the outcome its filters reach as a parameter and
records it as the latest result; the filters may change the chain's state object in any way, while `previousState`, a different object, stays unchanged through a chain run. The chain invokes the context's disregard
callback during `next`. Dafny cannot hand `this` to the chain before the
context is fully built, so `AdjustorContext.RunChain` runs `Next` and then
makes that callback call itself when the outcome is a `Disregard`.

## Model

| member | source | states |
|---|---|---|
| Adjustment.AdjustorContext.constructor | org.palladiosimulator.analyzer.slingshot.behavior.spd/src/org/palladiosimulator/analyzer/slingshot/behavior/spd/interpreter/entities/SPDAdjustorContext.java:30-46 | the chain is exactly `ChainFor(policy, trigger)` over the fresh state object that `state` also refers to; `previousState` is a distinct fresh object; both state objects hold a new state's zero counters; there is one handler per builder, with the builder's event kind, all sharing one fresh publisher bound to this context |
| Adjustment.AdjustorContext.InitializeFilterChain | org.palladiosimulator.analyzer.slingshot.behavior.spd/src/org/palladiosimulator/analyzer/slingshot/behavior/spd/interpreter/entities/SPDAdjustorContext.java:58-68 | appends, stage by stage, exactly `ChainFor(policy, trigger)` after the stages the chain already holds (none, when called from the constructor); the latest result is untouched |
| Adjustment.ChainFor | org.palladiosimulator.analyzer.slingshot.behavior.spd/src/org/palladiosimulator/analyzer/slingshot/behavior/spd/interpreter/entities/SPDAdjustorContext.java:49-68 | the chain has 3 + (number of policy constraints) stages: first the target-group check on the policy's target group, second exactly the given trigger filter, then one constraint filter per policy constraint in declaration order, last the adjustor for this policy |
| Adjustment.ConstraintFilters | org.palladiosimulator.analyzer.slingshot.behavior.spd/src/org/palladiosimulator/analyzer/slingshot/behavior/spd/interpreter/entities/SPDAdjustorContext.java:63-65 | one constraint filter per constraint, at the same position |
| Adjustment.ChainHasOnlyPolicyConstraints | org.palladiosimulator.analyzer.slingshot.behavior.spd/src/org/palladiosimulator/analyzer/slingshot/behavior/spd/interpreter/entities/SPDAdjustorContext.java:63-65 | outside the trigger position, no stage checks a constraint that is not one of the policy's own; target-group constraints are not added |
| Adjustment.BuildHandlers | org.palladiosimulator.analyzer.slingshot.behavior.spd/src/org/palladiosimulator/analyzer/slingshot/behavior/spd/interpreter/entities/SPDAdjustorContext.java:39-45 | one built handler per builder, in the same order, each keeping its builder's event kind and all using the same publisher |
| Adjustment.AdjustorContext.DoOnDisregard | org.palladiosimulator.analyzer.slingshot.behavior.spd/src/org/palladiosimulator/analyzer/slingshot/behavior/spd/interpreter/entities/SPDAdjustorContext.java:83-86 | afterwards `state` refers to `previousState`, which is unchanged and still holds a new state's zero counters, the previously referenced state object and the chain are unchanged, and the chain's state object is no longer the context's `state` |
| Adjustment.AdjustorContext.RunChain | org.palladiosimulator.analyzer.slingshot.behavior.spd/src/org/palladiosimulator/analyzer/slingshot/behavior/spd/interpreter/entities/SPDAdjustorContext.java:35 | running the chain records the outcome as its latest result; a `Disregard` re-points `state` at `previousState`, whose counters are a new state's zeros, a `Success` leaves `state` as it was; `previousState` is unchanged even though the filters may change the chain's state object |
| Adjustment.Publish | org.palladiosimulator.analyzer.slingshot.behavior.spd/src/org/palladiosimulator/analyzer/slingshot/behavior/spd/interpreter/entities/SPDAdjustorContext.java:112-121 | a result is present iff the latest chain result is a `Success`, and then it is that success's `nextEvent`; an absent or `Disregard` result gives nothing |
| Adjustment.PublishResultingEventFilter.AcceptEvent | org.palladiosimulator.analyzer.slingshot.behavior.spd/src/org/palladiosimulator/analyzer/slingshot/behavior/spd/interpreter/entities/SPDAdjustorContext.java:110-122 | returns the payload iff the chain's outcome for the event is a `Success`; the chain's latest result is that outcome; `state` is rolled back to `previousState`, holding a new state's zero counters, on a `Disregard` and kept on a `Success`; `previousState` is unchanged; the context's invariant is kept |
| Adjustment.AdjustorContext.HashCode | org.palladiosimulator.analyzer.slingshot.behavior.spd/src/org/palladiosimulator/analyzer/slingshot/behavior/spd/interpreter/entities/SPDAdjustorContext.java:88-91 | the hash is a 32-bit value equal to `31 + String.hashCode(id)` wrapped to Java `int`, a function of the policy id alone |
| Adjustment.AdjustorContext.Equals | org.palladiosimulator.analyzer.slingshot.behavior.spd/src/org/palladiosimulator/analyzer/slingshot/behavior/spd/interpreter/entities/SPDAdjustorContext.java:93-102 | another context is equal iff its policy's id is this context's policy's id; anything that is not a context (including `null`) is never equal |
| Adjustment.PublishResultingEventFilter.constructor | org.palladiosimulator.analyzer.slingshot.behavior.spd/src/org/palladiosimulator/analyzer/slingshot/behavior/spd/interpreter/entities/SPDAdjustorContext.java:39 | the publisher is bound to the context that creates it |
| Adjustment.EqualsIsEquivalence | org.palladiosimulator.analyzer.slingshot.behavior.spd/src/org/palladiosimulator/analyzer/slingshot/behavior/spd/interpreter/entities/SPDAdjustorContext.java:93-102 | equality is reflexive, symmetric and transitive between contexts, and a context never equals anything that is not a context |
| Adjustment.EqualContextsHashEqually | org.palladiosimulator.analyzer.slingshot.behavior.spd/src/org/palladiosimulator/analyzer/slingshot/behavior/spd/interpreter/entities/SPDAdjustorContext.java:88-102 | equal contexts have equal hash codes |
| ObjectsHash.HashOfId | org.palladiosimulator.analyzer.slingshot.behavior.spd/src/org/palladiosimulator/analyzer/slingshot/behavior/spd/interpreter/entities/SPDAdjustorContext.java:90 | `Objects.hash(id)` is a Java `int` equal to `31 + id`'s polynomial hash, wrapped once |
| ObjectsHash.StringHashIsPolynomial | org.palladiosimulator.analyzer.slingshot.behavior.spd/src/org/palladiosimulator/analyzer/slingshot/behavior/spd/interpreter/entities/SPDAdjustorContext.java:90 | the step-by-step wrapped `String.hashCode` equals the polynomial `s[0]*31^(n-1) + ... + s[n-1]` wrapped to 32 bits |
| Filters.FilterChain.constructor | org.palladiosimulator.analyzer.slingshot.behavior.spd/src/org/palladiosimulator/analyzer/slingshot/behavior/spd/interpreter/entities/SPDAdjustorContext.java:35 | the chain keeps the very state object it is given, starts with no filters and no latest result |
| Filters.FilterChain.Add | org.palladiosimulator.analyzer.slingshot.behavior.spd/src/org/palladiosimulator/analyzer/slingshot/behavior/spd/interpreter/entities/SPDAdjustorContext.java:59-67 | appends one stage at the end and changes nothing else |
| Filters.FilterChain.Next | org.palladiosimulator.analyzer.slingshot.behavior.spd/src/org/palladiosimulator/analyzer/slingshot/behavior/spd/interpreter/entities/SPDAdjustorContext.java:111-112 | the outcome of running an event becomes the latest result; the stages are unchanged; the chain's state object may be changed by the filters |
| Filters.AdjustorState.constructor | org.palladiosimulator.analyzer.slingshot.behavior.spd/src/org/palladiosimulator/analyzer/slingshot/behavior/spd/interpreter/entities/SPDAdjustorContext.java:27-28 | a new state object starts with zero counters |
| TargetGroupUtils.IsContainerInElasticInfrastructure | org.palladiosimulator.analyzer.slingshot.behavior.spd/src/org/palladiosimulator/analyzer/slingshot/behavior/spd/interpreter/utils/TargetGroupUtils.java:8-13 | true iff some container of the target group's environment has the same id as the given container |
| TargetGroupUtils.AnyHasId | org.palladiosimulator.analyzer.slingshot.behavior.spd/src/org/palladiosimulator/analyzer/slingshot/behavior/spd/interpreter/utils/TargetGroupUtils.java:11-12 | `anyMatch` over the containers is true iff some container has the id |
| TargetGroupUtils.EmptyEnvironmentHasNoMember | org.palladiosimulator.analyzer.slingshot.behavior.spd/src/org/palladiosimulator/analyzer/slingshot/behavior/spd/interpreter/utils/TargetGroupUtils.java:9-12 | an environment without containers gives false |
| TargetGroupUtils.OnlyIdsMatter | org.palladiosimulator.analyzer.slingshot.behavior.spd/src/org/palladiosimulator/analyzer/slingshot/behavior/spd/interpreter/utils/TargetGroupUtils.java:12 | two containers with equal ids get the same answer for the same target group |
| TargetGroupUtils.ListedContainerIsMember | org.palladiosimulator.analyzer.slingshot.behavior.spd/src/org/palladiosimulator/analyzer/slingshot/behavior/spd/interpreter/utils/TargetGroupUtils.java:11-12 | a container listed in the environment gives true |
| TargetGroupUtils.AppendKeepsMembership | org.palladiosimulator.analyzer.slingshot.behavior.spd/src/org/palladiosimulator/analyzer/slingshot/behavior/spd/interpreter/utils/TargetGroupUtils.java:9-12 | appending a container to the environment never turns true into false |

## Left out

- Logging through `LOGGER` (`SPDAdjustorContext.java:85`, `:116`) is dropped.
- The getters `getFilterChain`, `getScalingPolicy` and `getAssociatedHandlers` are plain field reads; the model's fields are read directly.
- `FilterChain`, `TargetGroupChecker`, `TriggerChecker`, `AbstractConstraintFilter` and `Adjustor` are not part of this model: filters are tags, and what the chain's filters decide for an event is a parameter of `FilterChain.Next`. A chain run may change the chain's state object arbitrarily (the adjustor's bookkeeping on a success is among those changes); the model does not say how.
- `SPDAdjustorState` is not modelled; its three fields (scale count in cooldown, cooldown end, latest adjustment time) and their zero start values are assumed; only those values and which object each reference points to are stated.
- Two error paths are not modelled. Building a constraint filter (`SPDAdjustorContext.java:64`) may throw for a constraint kind the factory does not support, so the Java constructor can fail; here `Constraint` carries no kind and the constructor always completes. `acceptEvent` is declared `throws Exception` (`:110`) and passes on whatever a chain run raises; here a chain run always yields an outcome and `AcceptEvent` always returns.
- The event-driver types `Subscriber`, `Subscriber.Builder`, `EventHandler` and `Result` are reduced to an event kind, a handler reference and an `Option`.
- Policy, target-group and container ids are non-null strings; Java's handling of `null` ids in `Objects.equals` and `Objects.hash` is not modelled; neither is the `NullPointerException` that a `null` id on one of the environment's containers raises in `rc.getId().equals(...)` (a `null` id on the queried container only makes `equals` return false).
- Adjustment.AdjustorContext.HashCode: characters are Unicode scalar values, while Java's `String.hashCode` runs over UTF-16 code units; the two agree for characters of the Basic Multilingual Plane only.
- The dependency-injection module (`SPDInterpreterModule.java`) and the model provider (`SPDModelProvider.java`) are wiring around libraries, not evaluation logic.
- Concurrency: the context is driven by one event at a time, as the event driver does.
