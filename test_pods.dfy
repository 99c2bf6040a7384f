/**
 * The pod builders of the defaulting test. Each limit argument is the
 * quantity written in the test, or None for the empty string, which leaves
 * the entry out.
 */
module TestPods {
  import opened Wrappers
  import opened Resources

  /**
   * The limits list built from two optional quantities: nil when both are
   * missing, otherwise a list holding exactly the given entries.
   */
  function LimitsFrom(cpu: Option<nat>, memory: Option<nat>): (limits: Option<ResourceList>)
    ensures limits.Some? <==> cpu.Some? || memory.Some?
    ensures Lookup(limits, CPU) == cpu && Lookup(limits, Memory) == memory
  {
    if cpu.None? && memory.None? then None
    else
      Some((if cpu.Some? then map[CPU := cpu.value] else map[])
         + (if memory.Some? then map[Memory := memory.value] else map[]))
  }

  /** A pod with one container named "foo" carrying the given limits and no requests. */
  function SingleContainerPod(cpu: Option<nat>, memory: Option<nat>): Pod {
    Pod([Container("foo", ResourceRequirements(LimitsFrom(cpu, memory), None))], None)
  }

  /** SingleContainerPod with pod-level resources holding the given pod-level limits. */
  function PodWithPodLevelResources(
    podCpu: Option<nat>, podMemory: Option<nat>, cpu: Option<nat>, memory: Option<nat>): Pod
  {
    SingleContainerPod(cpu, memory).(resources := Some(ResourceRequirements(LimitsFrom(podCpu, podMemory), None)))
  }

  /** Allocates a limits map only when some entry is given, then inserts the given entries one by one. */
  method BuildLimits(cpu: Option<nat>, memory: Option<nat>) returns (limits: Option<ResourceList>)
    ensures limits.Some? <==> cpu.Some? || memory.Some?
    ensures Lookup(limits, CPU) == cpu && Lookup(limits, Memory) == memory
    ensures limits == LimitsFrom(cpu, memory)
  {
    limits := None;
    if cpu.Some? || memory.Some? {
      limits := Some(map[]);
    }
    if cpu.Some? {
      limits := Some(limits.value[CPU := cpu.value]);
    }
    if memory.Some? {
      limits := Some(limits.value[Memory := memory.value]);
    }
    ListsEqualOrNil(limits, LimitsFrom(cpu, memory));
  }

  /** Two possibly nil lists that agree on nil-ness and on every entry are equal. */
  lemma ListsEqualOrNil(a: Option<ResourceList>, b: Option<ResourceList>)
    requires a.Some? <==> b.Some?
    requires Lookup(a, CPU) == Lookup(b, CPU) && Lookup(a, Memory) == Lookup(b, Memory)
    ensures a == b
  {
    if a.Some? {
      forall r ensures Lookup(a, r) == Lookup(b, r) {
        match r
        case CPU =>
        case Memory =>
      }
      ListsEqual(a.value, b.value);
    }
  }

  /**
   * The test's getPod: one container named "foo" whose limits map exists
   * exactly when some limit is given and holds exactly the given entries;
   * no requests and no pod-level resources.
   */
  method GetPod(cpu: Option<nat>, memory: Option<nat>) returns (pod: Pod)
    ensures |pod.containers| == 1 && pod.containers[0].name == "foo"
    ensures pod.containers[0].resources.requests.None?
    ensures LimitsOf(pod.containers[0]).Some? <==> cpu.Some? || memory.Some?
    ensures Lookup(LimitsOf(pod.containers[0]), CPU) == cpu && Lookup(LimitsOf(pod.containers[0]), Memory) == memory
    ensures pod.resources.None?
    ensures pod == SingleContainerPod(cpu, memory)
  {
    var limits := BuildLimits(cpu, memory);
    var resources := ResourceRequirements(limits, None);
    pod := Pod([Container("foo", resources)], None);
  }

  /**
   * The test's getPodWithPodLevelResources: the pod of GetPod for the
   * container limits, with pod-level resources always present, whose limits
   * map exists exactly when some pod-level limit is given and holds exactly
   * the given entries.
   */
  method GetPodWithPodLevelResources(
    podCpu: Option<nat>, podMemory: Option<nat>, cpu: Option<nat>, memory: Option<nat>) returns (pod: Pod)
    ensures |pod.containers| == 1 && pod.containers[0].name == "foo"
    ensures Lookup(LimitsOf(pod.containers[0]), CPU) == cpu && Lookup(LimitsOf(pod.containers[0]), Memory) == memory
    ensures pod.resources.Some? && pod.resources.value.requests.None?
    ensures PodLevelLimits(pod).Some? <==> podCpu.Some? || podMemory.Some?
    ensures Lookup(PodLevelLimits(pod), CPU) == podCpu && Lookup(PodLevelLimits(pod), Memory) == podMemory
    ensures pod == PodWithPodLevelResources(podCpu, podMemory, cpu, memory)
  {
    pod := GetPod(cpu, memory);
    var limits := BuildLimits(podCpu, podMemory);
    var resources := ResourceRequirements(limits, None);
    pod := pod.(resources := Some(resources));
  }
}
