/**
 * The cases of the defaulting test, one lemma each, on a node whose
 * allocatable resources are 6 CPUs and 4Gi of memory.
 */
module DefaultingTable {
  import opened Wrappers
  import opened Resources
  import opened Defaulting
  import opened TestPods

  import opened DefaultingProperties

  const NODE_ALLOCATABLE: ResourceList := map[CPU := 6 * CORE, Memory := 4 * GI]

  /**
   * A one-container case holds when the expected pod differs from the input
   * at most in the container's limits, and those agree with ResolvedLimit
   * for CPU and for memory.
   */
  lemma CaseHolds(pod: Pod, podLevelResourcesEnabled: bool, expected: Pod)
    requires |pod.containers| == 1 && |expected.containers| == 1
    requires expected.resources == pod.resources
    requires expected.containers[0].name == pod.containers[0].name
    requires expected.containers[0].resources.requests == pod.containers[0].resources.requests
    requires LimitsOf(expected.containers[0]).Some?
    requires Lookup(LimitsOf(expected.containers[0]), CPU)
          == ResolvedLimit(LimitsOf(pod.containers[0]), PodLevelLimits(pod), podLevelResourcesEnabled, NODE_ALLOCATABLE, CPU)
    requires Lookup(LimitsOf(expected.containers[0]), Memory)
          == ResolvedLimit(LimitsOf(pod.containers[0]), PodLevelLimits(pod), podLevelResourcesEnabled, NODE_ALLOCATABLE, Memory)
    ensures DefaultPodLimits(pod, NODE_ALLOCATABLE, podLevelResourcesEnabled) == expected
  {
    forall i, r | 0 <= i < |pod.containers|
      ensures Lookup(LimitsOf(expected.containers[i]), r)
           == ResolvedLimit(LimitsOf(pod.containers[i]), PodLevelLimits(pod), podLevelResourcesEnabled, NODE_ALLOCATABLE, r)
    {
      match r
      case CPU =>
      case Memory =>
    }
    DefaultPodLimitsDetermined(pod, NODE_ALLOCATABLE, podLevelResourcesEnabled, expected);
  }

  /** Zero CPU and memory limits take the allocatable values. */
  lemma ZeroLimitsTakeAllocatable()
    ensures DefaultPodLimits(SingleContainerPod(Some(0), Some(0)), NODE_ALLOCATABLE, false)
         == SingleContainerPod(Some(6 * CORE), Some(4 * GI))
  {
    CaseHolds(SingleContainerPod(Some(0), Some(0)), false, SingleContainerPod(Some(6 * CORE), Some(4 * GI)));
  }

  /** A given CPU limit is kept while zero memory takes the allocatable value. */
  lemma CpuKeptMemoryDefaulted()
    ensures DefaultPodLimits(SingleContainerPod(Some(CORE), Some(0)), NODE_ALLOCATABLE, false)
         == SingleContainerPod(Some(CORE), Some(4 * GI))
  {
    CaseHolds(SingleContainerPod(Some(CORE), Some(0)), false, SingleContainerPod(Some(CORE), Some(4 * GI)));
  }

  /** A container without a limits map gets one holding both allocatable values. */
  lemma MissingLimitsTakeAllocatable()
    ensures DefaultPodLimits(SingleContainerPod(None, None), NODE_ALLOCATABLE, false)
         == SingleContainerPod(Some(6 * CORE), Some(4 * GI))
  {
    CaseHolds(SingleContainerPod(None, None), false, SingleContainerPod(Some(6 * CORE), Some(4 * GI)));
  }

  /** A given memory limit is kept while zero CPU takes the allocatable value. */
  lemma MemoryKeptCpuDefaulted()
    ensures DefaultPodLimits(SingleContainerPod(Some(0), Some(MI)), NODE_ALLOCATABLE, false)
         == SingleContainerPod(Some(6 * CORE), Some(MI))
  {
    CaseHolds(SingleContainerPod(Some(0), Some(MI)), false, SingleContainerPod(Some(6 * CORE), Some(MI)));
  }

  /** Pod-level memory is inherited; zero pod-level CPU falls through to allocatable. */
  lemma PodLevelMemoryInherited()
    ensures DefaultPodLimits(PodWithPodLevelResources(Some(0), Some(MI), Some(0), Some(0)), NODE_ALLOCATABLE, true)
         == PodWithPodLevelResources(Some(0), Some(MI), Some(6 * CORE), Some(MI))
  {
    CaseHolds(PodWithPodLevelResources(Some(0), Some(MI), Some(0), Some(0)), true, PodWithPodLevelResources(Some(0), Some(MI), Some(6 * CORE), Some(MI)));
  }

  /** Pod-level CPU is inherited; zero pod-level memory falls through to allocatable. */
  lemma PodLevelCpuInherited()
    ensures DefaultPodLimits(PodWithPodLevelResources(Some(CORE), Some(0), Some(0), Some(0)), NODE_ALLOCATABLE, true)
         == PodWithPodLevelResources(Some(CORE), Some(0), Some(CORE), Some(4 * GI))
  {
    CaseHolds(PodWithPodLevelResources(Some(CORE), Some(0), Some(0), Some(0)), true, PodWithPodLevelResources(Some(CORE), Some(0), Some(CORE), Some(4 * GI)));
  }

  /** A container without limits inherits both pod-level limits. */
  lemma PodLevelLimitsFullyInherited()
    ensures DefaultPodLimits(PodWithPodLevelResources(Some(CORE), Some(MI), None, None), NODE_ALLOCATABLE, true)
         == PodWithPodLevelResources(Some(CORE), Some(MI), Some(CORE), Some(MI))
  {
    CaseHolds(PodWithPodLevelResources(Some(CORE), Some(MI), None, None), true, PodWithPodLevelResources(Some(CORE), Some(MI), Some(CORE), Some(MI)));
  }

  /** A given container memory limit beats a larger pod-level one; CPU is inherited. */
  lemma ContainerMemoryBeatsPodLevel()
    ensures DefaultPodLimits(PodWithPodLevelResources(Some(CORE), Some(5 * MI), Some(0), Some(MI)), NODE_ALLOCATABLE, true)
         == PodWithPodLevelResources(Some(CORE), Some(5 * MI), Some(CORE), Some(MI))
  {
    CaseHolds(PodWithPodLevelResources(Some(CORE), Some(5 * MI), Some(0), Some(MI)), true, PodWithPodLevelResources(Some(CORE), Some(5 * MI), Some(CORE), Some(MI)));
  }

  /** A fully specified container is left as it is. */
  lemma FullySpecifiedPodKept()
    ensures DefaultPodLimits(PodWithPodLevelResources(Some(CORE), Some(5 * MI), Some(CORE), Some(MI)), NODE_ALLOCATABLE, true)
         == PodWithPodLevelResources(Some(CORE), Some(5 * MI), Some(CORE), Some(MI))
  {
    CaseHolds(PodWithPodLevelResources(Some(CORE), Some(5 * MI), Some(CORE), Some(MI)), true, PodWithPodLevelResources(Some(CORE), Some(5 * MI), Some(CORE), Some(MI)));
  }
}
