/**
 * What the defaulting rule guarantees: the defaulted pod agrees, entry by
 * entry, with the three-level precedence of ResolvedLimit, and from that
 * follow the kept, inherited and fallback cases, pass-through of pod-level
 * limits, independence of CPU and memory, completeness and idempotence.
 */
module DefaultingProperties {
  import opened Wrappers
  import opened Resources
  import opened Defaulting

  /** A defaulted container holds a limits map whose every entry follows ResolvedLimit. */
  lemma DefaultContainerResolves(
    c: Container, podLimits: Option<ResourceList>, podLevelResourcesEnabled: bool,
    allocatable: ResourceList, r: ResourceName)
    ensures LimitsOf(DefaultContainer(c, FallbackLimits(podLimits, podLevelResourcesEnabled, allocatable))).Some?
    ensures Lookup(LimitsOf(DefaultContainer(c, FallbackLimits(podLimits, podLevelResourcesEnabled, allocatable))), r)
         == ResolvedLimit(LimitsOf(c), podLimits, podLevelResourcesEnabled, allocatable, r)
  {
    var fallback := FallbackLimits(podLimits, podLevelResourcesEnabled, allocatable);
    var limits := if LimitsOf(c).Some? then LimitsOf(c).value else map[];
    assert r in DOWNWARD_API_RESOURCES by {
      match r
      case CPU => assert DOWNWARD_API_RESOURCES[0] == CPU;
      case Memory => assert DOWNWARD_API_RESOURCES[1] == Memory;
    }
    FillUnsetAt(limits, fallback, DOWNWARD_API_RESOURCES, r);
    FallbackLimitsAt(podLimits, podLevelResourcesEnabled, allocatable, r);
  }

  /**
   * The defaulted copy of container `i`: same name, same requests, a limits
   * map present, and each entry as ResolvedLimit says, with the pod's own
   * pod-level limits as the middle level.
   */
  lemma DefaultPodLimitsResolves(
    pod: Pod, allocatable: ResourceList, podLevelResourcesEnabled: bool, i: nat, r: ResourceName)
    requires i < |pod.containers|
    ensures i < |DefaultPodLimits(pod, allocatable, podLevelResourcesEnabled).containers|
    ensures DefaultPodLimits(pod, allocatable, podLevelResourcesEnabled).containers[i].name == pod.containers[i].name
    ensures DefaultPodLimits(pod, allocatable, podLevelResourcesEnabled).containers[i].resources.requests
         == pod.containers[i].resources.requests
    ensures LimitsOf(DefaultPodLimits(pod, allocatable, podLevelResourcesEnabled).containers[i]).Some?
    ensures Lookup(LimitsOf(DefaultPodLimits(pod, allocatable, podLevelResourcesEnabled).containers[i]), r)
         == ResolvedLimit(LimitsOf(pod.containers[i]), PodLevelLimits(pod), podLevelResourcesEnabled, allocatable, r)
  {
    DefaultContainerResolves(pod.containers[i], PodLevelLimits(pod), podLevelResourcesEnabled, allocatable, r);
  }

  /** A given (non-zero) container limit is kept, whatever the pod-level limits and the flag. */
  lemma ContainerLimitKept(pod: Pod, allocatable: ResourceList, podLevelResourcesEnabled: bool, i: nat, r: ResourceName)
    requires i < |pod.containers|
    requires IsSet(LimitsOf(pod.containers[i]), r)
    ensures i < |DefaultPodLimits(pod, allocatable, podLevelResourcesEnabled).containers|
    ensures Lookup(LimitsOf(DefaultPodLimits(pod, allocatable, podLevelResourcesEnabled).containers[i]), r)
         == Lookup(LimitsOf(pod.containers[i]), r)
  {
    DefaultPodLimitsResolves(pod, allocatable, podLevelResourcesEnabled, i, r);
  }

  /**
   * An unspecified container limit takes the node's allocatable value when
   * no pod-level limit applies: the flag is off, or the pod-level limit is
   * missing or zero.
   */
  lemma AllocatableFallback(pod: Pod, allocatable: ResourceList, podLevelResourcesEnabled: bool, i: nat, r: ResourceName)
    requires i < |pod.containers|
    requires !IsSet(LimitsOf(pod.containers[i]), r)
    requires !podLevelResourcesEnabled || !IsSet(PodLevelLimits(pod), r)
    requires r in allocatable
    ensures i < |DefaultPodLimits(pod, allocatable, podLevelResourcesEnabled).containers|
    ensures Lookup(LimitsOf(DefaultPodLimits(pod, allocatable, podLevelResourcesEnabled).containers[i]), r)
         == Some(allocatable[r])
  {
    DefaultPodLimitsResolves(pod, allocatable, podLevelResourcesEnabled, i, r);
  }

  /** With the flag on, an unspecified container limit inherits a given pod-level limit. */
  lemma PodLevelLimitInherited(pod: Pod, allocatable: ResourceList, i: nat, r: ResourceName)
    requires i < |pod.containers|
    requires !IsSet(LimitsOf(pod.containers[i]), r)
    requires IsSet(PodLevelLimits(pod), r)
    ensures i < |DefaultPodLimits(pod, allocatable, true).containers|
    ensures Lookup(LimitsOf(DefaultPodLimits(pod, allocatable, true).containers[i]), r) == Lookup(PodLevelLimits(pod), r)
    ensures QuantityOf(LimitsOf(DefaultPodLimits(pod, allocatable, true).containers[i]), r) != 0
  {
    DefaultPodLimitsResolves(pod, allocatable, true, i, r);
  }

  /**
   * With the flag off, pod-level limits have no influence: each entry is the
   * container's given limit, else the allocatable value, else left as it was.
   */
  lemma FlagOffIgnoresPodLevel(pod: Pod, allocatable: ResourceList, i: nat, r: ResourceName)
    requires i < |pod.containers|
    ensures i < |DefaultPodLimits(pod, allocatable, false).containers|
    ensures Lookup(LimitsOf(DefaultPodLimits(pod, allocatable, false).containers[i]), r)
         == if IsSet(LimitsOf(pod.containers[i]), r) then Lookup(LimitsOf(pod.containers[i]), r)
            else if r in allocatable then Some(allocatable[r])
            else Lookup(LimitsOf(pod.containers[i]), r)
  {
    DefaultPodLimitsResolves(pod, allocatable, false, i, r);
  }

  /**
   * The entry for `r` depends only on the inputs' entries for `r`: two pods
   * whose container `i` and pod-level limits agree on `r`, defaulted against
   * two nodes whose allocatable entries agree on `r`, get the same defaulted
   * entry for `r`, whatever their other entries hold.
   */
  lemma ResourcesIndependent(
    pod1: Pod, pod2: Pod, allocatable1: ResourceList, allocatable2: ResourceList,
    podLevelResourcesEnabled: bool, i: nat, r: ResourceName)
    requires i < |pod1.containers| && i < |pod2.containers|
    requires Lookup(LimitsOf(pod1.containers[i]), r) == Lookup(LimitsOf(pod2.containers[i]), r)
    requires Lookup(PodLevelLimits(pod1), r) == Lookup(PodLevelLimits(pod2), r)
    requires Lookup(Some(allocatable1), r) == Lookup(Some(allocatable2), r)
    ensures i < |DefaultPodLimits(pod1, allocatable1, podLevelResourcesEnabled).containers|
    ensures i < |DefaultPodLimits(pod2, allocatable2, podLevelResourcesEnabled).containers|
    ensures Lookup(LimitsOf(DefaultPodLimits(pod1, allocatable1, podLevelResourcesEnabled).containers[i]), r)
         == Lookup(LimitsOf(DefaultPodLimits(pod2, allocatable2, podLevelResourcesEnabled).containers[i]), r)
  {
    DefaultPodLimitsResolves(pod1, allocatable1, podLevelResourcesEnabled, i, r);
    DefaultPodLimitsResolves(pod2, allocatable2, podLevelResourcesEnabled, i, r);
  }

  /**
   * When the node reports both resources, every defaulted container, even
   * one that had no limits map, holds a limits map with exactly the CPU and
   * memory keys.
   */
  lemma DefaultedLimitsComplete(pod: Pod, allocatable: ResourceList, podLevelResourcesEnabled: bool, i: nat)
    requires i < |pod.containers|
    requires CPU in allocatable && Memory in allocatable
    ensures i < |DefaultPodLimits(pod, allocatable, podLevelResourcesEnabled).containers|
    ensures LimitsOf(DefaultPodLimits(pod, allocatable, podLevelResourcesEnabled).containers[i]).Some?
    ensures LimitsOf(DefaultPodLimits(pod, allocatable, podLevelResourcesEnabled).containers[i]).value.Keys == {CPU, Memory}
  {
    DefaultPodLimitsResolves(pod, allocatable, podLevelResourcesEnabled, i, CPU);
    DefaultPodLimitsResolves(pod, allocatable, podLevelResourcesEnabled, i, Memory);
    var keys := LimitsOf(DefaultPodLimits(pod, allocatable, podLevelResourcesEnabled).containers[i]).value.Keys;
    forall r ensures r in keys <==> r in {CPU, Memory} {
      match r
      case CPU =>
      case Memory =>
    }
  }

  /** A container whose CPU and memory limits are both given comes out identical to its input. */
  lemma FullySpecifiedContainerUnchanged(pod: Pod, allocatable: ResourceList, podLevelResourcesEnabled: bool, i: nat)
    requires i < |pod.containers|
    requires IsSet(LimitsOf(pod.containers[i]), CPU) && IsSet(LimitsOf(pod.containers[i]), Memory)
    ensures i < |DefaultPodLimits(pod, allocatable, podLevelResourcesEnabled).containers|
    ensures DefaultPodLimits(pod, allocatable, podLevelResourcesEnabled).containers[i] == pod.containers[i]
  {
    var c := pod.containers[i];
    var out := DefaultPodLimits(pod, allocatable, podLevelResourcesEnabled).containers[i];
    forall r ensures Lookup(LimitsOf(out), r) == Lookup(LimitsOf(c), r) {
      DefaultPodLimitsResolves(pod, allocatable, podLevelResourcesEnabled, i, r);
      match r
      case CPU =>
      case Memory =>
    }
    ListsEqual(LimitsOf(out).value, LimitsOf(c).value);
  }

  /** Defaulting an already defaulted pod (same node, same flag) changes nothing. */
  lemma DefaultPodLimitsIdempotent(pod: Pod, allocatable: ResourceList, podLevelResourcesEnabled: bool)
    ensures DefaultPodLimits(DefaultPodLimits(pod, allocatable, podLevelResourcesEnabled), allocatable, podLevelResourcesEnabled)
         == DefaultPodLimits(pod, allocatable, podLevelResourcesEnabled)
  {
    var once := DefaultPodLimits(pod, allocatable, podLevelResourcesEnabled);
    var twice := DefaultPodLimits(once, allocatable, podLevelResourcesEnabled);
    forall i | 0 <= i < |once.containers| ensures twice.containers[i] == once.containers[i] {
      forall r ensures Lookup(LimitsOf(twice.containers[i]), r) == Lookup(LimitsOf(once.containers[i]), r) {
        DefaultPodLimitsResolves(pod, allocatable, podLevelResourcesEnabled, i, r);
        DefaultPodLimitsResolves(once, allocatable, podLevelResourcesEnabled, i, r);
      }
      DefaultPodLimitsResolves(once, allocatable, podLevelResourcesEnabled, i, CPU);
      DefaultPodLimitsResolves(pod, allocatable, podLevelResourcesEnabled, i, CPU);
      ListsEqual(LimitsOf(twice.containers[i]).value, LimitsOf(once.containers[i]).value);
    }
  }

  /**
   * ResolvedLimit determines the defaulted pod completely: a pod that keeps
   * the input's pod-level resources, container names and requests, and
   * whose every container holds a limits map agreeing with ResolvedLimit,
   * is the defaulted pod.
   */
  lemma DefaultPodLimitsDetermined(pod: Pod, allocatable: ResourceList, podLevelResourcesEnabled: bool, expected: Pod)
    requires expected.resources == pod.resources
    requires |expected.containers| == |pod.containers|
    requires forall i :: 0 <= i < |pod.containers| ==>
      && expected.containers[i].name == pod.containers[i].name
      && expected.containers[i].resources.requests == pod.containers[i].resources.requests
      && LimitsOf(expected.containers[i]).Some?
    requires forall i, r :: 0 <= i < |pod.containers| ==>
      Lookup(LimitsOf(expected.containers[i]), r)
        == ResolvedLimit(LimitsOf(pod.containers[i]), PodLevelLimits(pod), podLevelResourcesEnabled, allocatable, r)
    ensures DefaultPodLimits(pod, allocatable, podLevelResourcesEnabled) == expected
  {
    var out := DefaultPodLimits(pod, allocatable, podLevelResourcesEnabled);
    forall i | 0 <= i < |pod.containers| ensures out.containers[i] == expected.containers[i] {
      forall r ensures Lookup(LimitsOf(out.containers[i]), r) == Lookup(LimitsOf(expected.containers[i]), r) {
        DefaultPodLimitsResolves(pod, allocatable, podLevelResourcesEnabled, i, r);
      }
      DefaultPodLimitsResolves(pod, allocatable, podLevelResourcesEnabled, i, CPU);
      ListsEqual(LimitsOf(out.containers[i]).value, LimitsOf(expected.containers[i]).value);
    }
  }
}
