/**
 * The slice of the Kubernetes core API that limit defaulting reads and
 * writes: resource lists, resource requirements, containers and pods.
 * Quantities are natural numbers in base units: millicores for CPU, bytes
 * for memory.
 */
module Resources {
  import opened Wrappers

  /** The resources whose limits the Downward API exposes. */
  datatype ResourceName = CPU | Memory

  /** A resource list; a missing key is an unspecified quantity. */
  type ResourceList = map<ResourceName, nat>

  /** One CPU core, in millicores. */
  const CORE: nat := 1000
  /** One mebibyte (the "Mi" suffix), in bytes. */
  const MI: nat := 1048576
  /** One gibibyte (the "Gi" suffix), in bytes. */
  const GI: nat := 1073741824

  /** Limits and requests; either list may be nil. */
  datatype ResourceRequirements = ResourceRequirements(
    limits: Option<ResourceList>,
    requests: Option<ResourceList>)

  datatype Container = Container(name: string, resources: ResourceRequirements)

  /** A pod: its containers, in order, and its optional pod-level resources. */
  datatype Pod = Pod(containers: seq<Container>, resources: Option<ResourceRequirements>)

  /** The entry for `r` in a possibly nil resource list. */
  function Lookup(list: Option<ResourceList>, r: ResourceName): Option<nat> {
    if list.Some? && r in list.value then Some(list.value[r]) else None
  }

  /** The quantity for `r`, reading a missing entry (or a nil list) as zero. */
  function QuantityOf(list: Option<ResourceList>, r: ResourceName): nat {
    match Lookup(list, r)
    case Some(q) => q
    case None => 0
  }

  /** A limit counts as given only when it is present and non-zero. */
  predicate IsSet(list: Option<ResourceList>, r: ResourceName) {
    QuantityOf(list, r) != 0
  }

  /** The container limits of `c`, possibly nil. */
  function LimitsOf(c: Container): Option<ResourceList> {
    c.resources.limits
  }

  /** The pod-level limits of `pod`: nil when the pod has no pod-level resources. */
  function PodLevelLimits(pod: Pod): Option<ResourceList> {
    if pod.resources.Some? then pod.resources.value.limits else None
  }

  /** Two resource lists with the same entry for every name are equal. */
  lemma ListsEqual(a: ResourceList, b: ResourceList)
    requires forall r :: Lookup(Some(a), r) == Lookup(Some(b), r)
    ensures a == b
  {
    forall r
      ensures r in a <==> r in b
      ensures r in a ==> a[r] == b[r]
    {
      assert Lookup(Some(a), r) == Lookup(Some(b), r);
    }
  }
}
