/** Membership of a resource container in an elastic-infrastructure target
    group, decided by container id. */
module TargetGroupUtils {

  /** A resource container, known by its id. */
  datatype ResourceContainer = ResourceContainer(id: string)

  /** A resource environment: the containers it holds, in order. */
  datatype ResourceEnvironment = ResourceEnvironment(containers: seq<ResourceContainer>)

  /** An elastic-infrastructure target group and the environment it scales. */
  datatype ElasticInfrastructure = ElasticInfrastructure(environment: ResourceEnvironment)

  /** `anyMatch` over the containers: does any of them carry `id`? */
  function AnyHasId(containers: seq<ResourceContainer>, id: string): (r: bool)
    ensures r <==> exists i :: 0 <= i < |containers| && containers[i].id == id
  {
    if containers == [] then false
    else containers[0].id == id || AnyHasId(containers[1..], id)
  }

  /** True iff some container of the target group's environment has the
      given container's id. */
  function IsContainerInElasticInfrastructure(container: ResourceContainer, targetGroup: ElasticInfrastructure): (r: bool)
    ensures r <==> exists i :: 0 <= i < |targetGroup.environment.containers|
                              && targetGroup.environment.containers[i].id == container.id
  {
    AnyHasId(targetGroup.environment.containers, container.id)
  }

  /** An environment without containers contains no container. */
  lemma EmptyEnvironmentHasNoMember(container: ResourceContainer, targetGroup: ElasticInfrastructure)
    requires targetGroup.environment.containers == []
    ensures !IsContainerInElasticInfrastructure(container, targetGroup)
  {
  }

  /** Only ids matter: containers with equal ids get the same answer. */
  lemma OnlyIdsMatter(a: ResourceContainer, b: ResourceContainer, targetGroup: ElasticInfrastructure)
    requires a.id == b.id
    ensures IsContainerInElasticInfrastructure(a, targetGroup) == IsContainerInElasticInfrastructure(b, targetGroup)
  {
  }

  /** A container listed in the environment is in the target group. */
  lemma ListedContainerIsMember(container: ResourceContainer, targetGroup: ElasticInfrastructure)
    requires container in targetGroup.environment.containers
    ensures IsContainerInElasticInfrastructure(container, targetGroup)
  {
    var cs := targetGroup.environment.containers;
    var i :| 0 <= i < |cs| && cs[i] == container;
    assert cs[i].id == container.id;
  }

  /** Appending a container to the environment never turns membership into
      non-membership. */
  lemma AppendKeepsMembership(container: ResourceContainer, targetGroup: ElasticInfrastructure, added: ResourceContainer)
    requires IsContainerInElasticInfrastructure(container, targetGroup)
    ensures IsContainerInElasticInfrastructure(container,
              ElasticInfrastructure(ResourceEnvironment(targetGroup.environment.containers + [added])))
  {
    var cs := targetGroup.environment.containers;
    var i :| 0 <= i < |cs| && cs[i].id == container.id;
    assert (cs + [added])[i].id == container.id;
  }
}
