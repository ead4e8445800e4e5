/** The scaling-policy object graph the adjustor context consumes, reduced to
    plain records of ids and sequences, plus the event and result values that
    travel through a filter chain. */
module Policy {

  /** A value that may be absent (the event driver's empty result). */
  datatype Option<T> = None | Some(value: T)

  /** A policy or target constraint; its kind and parameters only matter to
      the constraint filters, which are not part of this model. */
  datatype Constraint = Constraint(id: string)

  /** The group of resources a policy manages, with the constraints attached
      to the group itself. */
  datatype TargetGroup = TargetGroup(id: string, targetConstraints: seq<Constraint>)

  /** A scaling policy: its identity, its target group and its own
      constraints in declaration order. */
  datatype ScalingPolicy = ScalingPolicy(
    id: string,
    targetGroup: TargetGroup,
    policyConstraints: seq<Constraint>)

  /** A simulation event, identified by its kind and an id. */
  datatype Event = Event(kind: string, id: string)

  /** The outcome of running an event through a filter chain. */
  datatype FilterResult = Success(nextEvent: Event) | Disregard(reason: string)
}
