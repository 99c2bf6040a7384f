# Kubelet limit defaulting for the Downward API

When a container reads its own CPU or memory limit through the Downward API,
kubelet must produce a value even if the container declared none. Kubelet's
`defaultPodLimitsForDownwardAPI` returns a copy of the pod in which every
container's CPU and memory limit is resolved in this order:

1. a container limit that is present and non-zero is kept;
2. otherwise, when the PodLevelResources feature is enabled and the pod-level
   limit for that resource is non-zero, the pod-level limit is used;
3. otherwise the node's allocatable value is used.

Pod-level limits themselves pass through unchanged. A zero limit and a
missing limit are treated alike.

The model follows the rule pinned down by the table of
`TestPodResourceLimitsDefaulting` in pkg/kubelet/kubelet_resources_test.go,
and models the test's pod builders `getPod` and
`getPodWithPodLevelResources`; the body of `defaultPodLimitsForDownwardAPI`
(pkg/kubelet/kubelet_resources.go) is not modelled.

Files and modules:

- `wrappers.dfy` (`Wrappers`): `Option`, standing for Go's nil maps and pointers.
- `resources.dfy` (`Resources`): resource names (CPU, memory), resource lists
  as `map<ResourceName, nat>`, requirements, containers, pods. Quantities are
  naturals in base units: millicores for CPU, bytes for memory (`CORE`, `MI`,
  `GI`).
- `defaulting.dfy` (`Defaulting`): the rule. `ResolvedLimit` is the
  three-level precedence for one resource of one container, written
  independently of the computation. `DefaultPodLimits` computes the defaulted
  pod in two stages: `FallbackLimits` (allocatable, overridden by non-zero
  pod-level limits when the flag is on), then `FillUnset`, a fold over
  `[CPU, Memory]` that fills each missing or zero container entry.
- `defaulting_properties.dfy` (`DefaultingProperties`): the computation agrees
  with `ResolvedLimit` entry by entry, and the properties that follow.
- `test_pods.dfy` (`TestPods`): the test's pod builders, as methods that fill
  a limits map step by step, proved equal to the functions the table uses.
  A builder argument is `None` for the empty string and `Some(q)` for a
  parsed quantity.
- `defaulting_table.dfy` (`DefaultingTable`): the nine test cases, one lemma
  each, on a node with 6 CPUs and 4Gi of memory allocatable.

The feature flag is an explicit `bool` parameter; the node's allocatable
resources are an explicit `ResourceList` parameter.

## Model

| member | source | states |
|---|---|---|
| `Defaulting.FallbackLimitsAt` | pkg/kubelet/kubelet_resources_test.go:72-91 | the value an unspecified container limit falls back to is the pod-level limit when the flag is on and that limit is non-zero, else the node's allocatable entry |
| `Defaulting.FillUnsetAt` | pkg/kubelet/kubelet_resources_test.go:56-71 | filling over a list of names replaces an entry exactly when its name is listed, the entry is missing or zero, and a fallback value exists; every other entry is untouched |
| `Defaulting.DefaultContainers` | pkg/kubelet/kubelet_resources_test.go:120-127 | every container of the pod is defaulted, in order, against the same fallback; the count is unchanged (the test's pods have the single container built here; several containers is the model's generalisation) |
| `Defaulting.DefaultPodLimits` | pkg/kubelet/kubelet_resources_test.go:73-95 | the pod-level resources of the output equal those of the input, zeros included, and the number of containers is unchanged |
| `DefaultingProperties.DefaultContainerResolves` | pkg/kubelet/kubelet_resources_test.go:56-96 | a defaulted container has a limits map, and each entry equals the three-level precedence of `ResolvedLimit` |
| `DefaultingProperties.DefaultPodLimitsResolves` | pkg/kubelet/kubelet_resources_test.go:99-106 | each container of the defaulted pod keeps its name and requests, has a limits map, and each entry follows `ResolvedLimit` with the pod's own pod-level limits |
| `DefaultingProperties.DefaultPodLimitsDetermined` | pkg/kubelet/kubelet_resources_test.go:101-104 | any pod that differs from the input only by container limits agreeing with `ResolvedLimit` is exactly the defaulted pod, so the precedence rule determines the output completely |
| `DefaultingProperties.ContainerLimitKept` | pkg/kubelet/kubelet_resources_test.go:60-95 | a non-zero container limit is kept whatever the flag and the pod-level limit, including a different non-zero pod-level limit |
| `DefaultingProperties.AllocatableFallback` | pkg/kubelet/kubelet_resources_test.go:43-80 | a missing or zero container limit becomes the allocatable value when the flag is off or the pod-level limit is missing or zero |
| `DefaultingProperties.PodLevelLimitInherited` | pkg/kubelet/kubelet_resources_test.go:72-91 | with the flag on, a missing or zero container limit takes the non-zero pod-level limit, so the result is non-zero |
| `DefaultingProperties.FlagOffIgnoresPodLevel` | pkg/kubelet/kubelet_resources_test.go:56-71 | with the flag off, each entry is the container's non-zero limit, else the allocatable value, else the container's own entry; pod-level limits play no part |
| `DefaultingProperties.ResourcesIndependent` | pkg/kubelet/kubelet_resources_test.go:60-85 | the defaulted entry for one resource depends only on the container, pod-level and node allocatable entries for that resource, so CPU and memory are resolved independently |
| `DefaultingProperties.DefaultedLimitsComplete` | pkg/kubelet/kubelet_resources_test.go:64-66 | when the node reports both resources, every defaulted container, even one without a limits map, holds a map with exactly the CPU and memory keys |
| `DefaultingProperties.FullySpecifiedContainerUnchanged` | pkg/kubelet/kubelet_resources_test.go:92-95 | a container with non-zero CPU and memory limits comes out identical to its input |
| `DefaultingProperties.DefaultPodLimitsIdempotent` | pkg/kubelet/kubelet_resources_test.go:92-95 | defaulting an already defaulted pod with the same node and flag changes nothing |
| `TestPods.LimitsFrom` | pkg/kubelet/kubelet_resources_test.go:110-119 | the limits list is nil exactly when both arguments are empty, and each key is present, with the given quantity, exactly when its argument is given |
| `TestPods.BuildLimits` | pkg/kubelet/kubelet_resources_test.go:134-143 | allocating the map only when some argument is given and then inserting the given entries yields exactly the list of `LimitsFrom` |
| `TestPods.GetPod` | pkg/kubelet/kubelet_resources_test.go:109-130 | the pod has one container named "foo", no requests, no pod-level resources, and a limits map present iff some limit is given, holding exactly the given entries |
| `TestPods.GetPodWithPodLevelResources` | pkg/kubelet/kubelet_resources_test.go:132-146 | the container is that of `GetPod`; pod-level resources are always set, their limits nil iff both pod-level arguments are empty, holding exactly the given entries |
| `DefaultingTable.ZeroLimitsTakeAllocatable` | pkg/kubelet/kubelet_resources_test.go:56-59 | zero CPU and memory limits become 6 CPUs and 4Gi |
| `DefaultingTable.CpuKeptMemoryDefaulted` | pkg/kubelet/kubelet_resources_test.go:60-63 | CPU 1 is kept, zero memory becomes 4Gi |
| `DefaultingTable.MissingLimitsTakeAllocatable` | pkg/kubelet/kubelet_resources_test.go:64-67 | a container without limits gets 6 CPUs and 4Gi |
| `DefaultingTable.MemoryKeptCpuDefaulted` | pkg/kubelet/kubelet_resources_test.go:68-71 | memory 1Mi is kept, zero CPU becomes 6 |
| `DefaultingTable.PodLevelMemoryInherited` | pkg/kubelet/kubelet_resources_test.go:72-76 | with the flag on, pod-level memory 1Mi is inherited and zero pod-level CPU falls through to 6; pod-level limits unchanged |
| `DefaultingTable.PodLevelCpuInherited` | pkg/kubelet/kubelet_resources_test.go:77-81 | with the flag on, pod-level CPU 1 is inherited and zero pod-level memory falls through to 4Gi; pod-level limits unchanged |
| `DefaultingTable.PodLevelLimitsFullyInherited` | pkg/kubelet/kubelet_resources_test.go:82-86 | a container without limits inherits pod-level CPU 1 and memory 1Mi |
| `DefaultingTable.ContainerMemoryBeatsPodLevel` | pkg/kubelet/kubelet_resources_test.go:87-91 | container memory 1Mi is kept over pod-level 5Mi, zero CPU inherits pod-level 1 |
| `DefaultingTable.FullySpecifiedPodKept` | pkg/kubelet/kubelet_resources_test.go:92-96 | a container with CPU 1 and memory 1Mi is left as it is under pod-level 1 and 5Mi |

## Left out

- The node lookup (`newTestKubelet`, `testNodeLister`, lines 34-50) and its node-not-found error: the allocatable resources are a parameter, so the model's defaulting is total and has no error result; the test's "no error" check (line 102) corresponds to that totality.
- The second return value of `defaultPodLimitsForDownwardAPI` (a single defaulted container) and its container argument, which the test passes as nil (line 101).
- The global feature-gate mutation (line 100): the flag is an explicit parameter.
- `resource.MustParse` and the decimal `Quantity` type: quantities are naturals in base units, and a builder argument is `None` for the empty string.
- `apiequality.Semantic.DeepEqual` (line 103): structural equality of Dafny values is used. Go's semantic equality treats a nil map and an empty map as equal; the model distinguishes them.
- Resource names other than CPU and memory, and pod fields other than containers and pod-level resources (metadata, claims and so on).
- Pointers and aliasing: pods are values; `getPodWithPodLevelResources` assigning `Spec.Resources` through a pointer (line 144) is a functional update of a fresh value.
- FlagOffIgnoresPodLevel: no case of the test has pod-level limits with the flag off; that pod-level limits are ignored then is the model's definition, not test evidence.
- When the node's allocatable resources lack a resource and no pod-level limit applies (the flag is off, or the pod-level limit is missing or zero), the model leaves the container's entry as it was (a missing entry stays missing, a zero stays zero), while a nil limits map still becomes a map; with the flag on, a non-zero pod-level limit is still used. The test does not cover this case.
- A limit explicitly set to zero cannot be told apart from a missing one: both are defaulted, as the test requires (lines 56-58 and 64-66).
