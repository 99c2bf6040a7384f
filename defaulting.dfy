/**
 * Limit defaulting for the Downward API: every container of a pod gets a
 * CPU and a memory limit. A container limit that is given (present and
 * non-zero) is kept; otherwise, when pod-level resources are enabled and the
 * pod-level limit is given, that is used; otherwise the node's allocatable
 * value is used. Pod-level limits are passed through untouched.
 */
module Defaulting {
  import opened Wrappers
  import opened Resources

  /** The resource names whose container limits are defaulted, in order. */
  const DOWNWARD_API_RESOURCES: seq<ResourceName> := [CPU, Memory]

  /**
   * Reference rule for one resource of one container: the entry the
   * defaulted container holds for `r`. When no level supplies a value the
   * container's own entry (absent or zero) is left as it was.
   */
  function ResolvedLimit(
    containerLimits: Option<ResourceList>,
    podLimits: Option<ResourceList>,
    podLevelResourcesEnabled: bool,
    allocatable: ResourceList,
    r: ResourceName): Option<nat>
  {
    if IsSet(containerLimits, r) then Lookup(containerLimits, r)
    else if podLevelResourcesEnabled && IsSet(podLimits, r) then Lookup(podLimits, r)
    else if r in allocatable then Some(allocatable[r])
    else Lookup(containerLimits, r)
  }

  /** `ceiling` with the pod-level limit for `r` put in its place when that limit is given. */
  function OverrideIfSet(ceiling: ResourceList, podLimits: Option<ResourceList>, r: ResourceName): ResourceList {
    if IsSet(podLimits, r) then ceiling[r := QuantityOf(podLimits, r)] else ceiling
  }

  /**
   * The values an unspecified container limit falls back to: the node's
   * allocatable resources, overridden by the given pod-level limits when
   * pod-level resources are enabled.
   */
  function FallbackLimits(podLimits: Option<ResourceList>, podLevelResourcesEnabled: bool, allocatable: ResourceList)
    : ResourceList
  {
    if podLevelResourcesEnabled then
      OverrideIfSet(OverrideIfSet(allocatable, podLimits, CPU), podLimits, Memory)
    else
      allocatable
  }

  /** Each fallback entry is the given pod-level limit when that applies, else the allocatable entry. */
  lemma FallbackLimitsAt(podLimits: Option<ResourceList>, podLevelResourcesEnabled: bool, allocatable: ResourceList, r: ResourceName)
    ensures Lookup(Some(FallbackLimits(podLimits, podLevelResourcesEnabled, allocatable)), r) ==
      if podLevelResourcesEnabled && IsSet(podLimits, r) then Lookup(podLimits, r)
      else Lookup(Some(allocatable), r)
  {
    match r
    case CPU =>
    case Memory =>
  }

  /**
   * Fills, for each name in `names` in turn, an entry of `limits` that is
   * missing or zero with the fallback value, when there is one.
   */
  function FillUnset(limits: ResourceList, fallback: ResourceList, names: seq<ResourceName>): ResourceList
    decreases |names|
  {
    if names == [] then limits
    else
      var r := names[0];
      var filled := if (r !in limits || limits[r] == 0) && r in fallback then limits[r := fallback[r]] else limits;
      FillUnset(filled, fallback, names[1..])
  }

  /** What FillUnset leaves in each entry. */
  lemma {:induction false} FillUnsetAt(limits: ResourceList, fallback: ResourceList, names: seq<ResourceName>, r: ResourceName)
    ensures Lookup(Some(FillUnset(limits, fallback, names)), r) ==
      if r in names && !IsSet(Some(limits), r) && r in fallback then Some(fallback[r])
      else Lookup(Some(limits), r)
    decreases |names|
  {
    if names != [] {
      var s := names[0];
      var filled := if (s !in limits || limits[s] == 0) && s in fallback then limits[s := fallback[s]] else limits;
      FillUnsetAt(filled, fallback, names[1..], r);
      assert r in names <==> r == s || r in names[1..];
    }
  }

  /** The container with its limits map created if nil and its unspecified limits filled. */
  function DefaultContainer(c: Container, fallback: ResourceList): Container {
    var limits := if c.resources.limits.Some? then c.resources.limits.value else map[];
    c.(resources := c.resources.(limits := Some(FillUnset(limits, fallback, DOWNWARD_API_RESOURCES))))
  }

  /** Each container of `cs` defaulted against the same fallback. */
  function DefaultContainers(cs: seq<Container>, fallback: ResourceList): (out: seq<Container>)
    ensures |out| == |cs|
    ensures forall i :: 0 <= i < |cs| ==> out[i] == DefaultContainer(cs[i], fallback)
    decreases |cs|
  {
    if cs == [] then [] else [DefaultContainer(cs[0], fallback)] + DefaultContainers(cs[1..], fallback)
  }

  /**
   * A copy of `pod` whose container limits are defaulted for the Downward
   * API, given the node's allocatable resources and whether pod-level
   * resources are enabled.
   */
  function DefaultPodLimits(pod: Pod, allocatable: ResourceList, podLevelResourcesEnabled: bool): (out: Pod)
    ensures out.resources == pod.resources
    ensures |out.containers| == |pod.containers|
  {
    var fallback := FallbackLimits(PodLevelLimits(pod), podLevelResourcesEnabled, allocatable);
    pod.(containers := DefaultContainers(pod.containers, fallback))
  }
}
