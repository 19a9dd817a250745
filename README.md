# Memory-bandwidth control core of katalyst-core, modelled in Dafny

katalyst-core's node agent shares cross-core memory bandwidth (MB) among the QoS tiers of the pods on a machine. This project models the sequential core of that control plane and proves properties of the model:

- **Malachite** holds the counter math of the metrics provisioner:
  - rates from cumulative MBM byte counters;
  - clamping of implausible counter jumps;
  - sysfs cpulist membership;
  - the lookup of a previous L3 sample;
  - the per-CCD bandwidth ceiling of a CPU platform;
  - per-NUMA aggregation of per-L3 rates.

  The Go implementations of these are not part of this model. Each function is modelled on the behaviour its table test pins, and each table row is proved: as a lemma, or, for `findOldL3Cache`, as the ensures of a method that calls `FindOldL3Cache` on the three rows.
- **Monitor** is the per-interval snapshot of a QoS control group (its CCD set and per-CCD bandwidth) and the domain-wide total over all groups.
- **Tasks** covers the CCDs a task runs on, sorted and de-duplicated, and the resctrl control-group, monitoring-group and cgroup cpuset paths of a task.
- **MBDomain** holds the fixed capacities of a sharing domain.
- **QoSPolicy** is the top-most plan of the high-priority-detected policy:
  - every (group, CCD) pair gets the per-NUMA reservation;
  - the exception is the lightest `shared_N` pool, which drops to a reduced lounge ceiling while a heavier shared pool is present.
- **PodAdmit** is the admission rule for dedicated-cores pods:
  - hinted NUMA nodes that are not in use are preempted in the domain manager, one call per node, in hint order;
  - the controller is then asked once to re-plan.
- **ResctrlHint** is the memory plugin's hinter:
  - it resolves a pod's cpuset pool from its annotations;
  - it maps the pool to a `shared-NN` subgroup;
  - it stamps the closid and need-mon-groups annotations into the memory entry of the allocation response, in place.
- **Common** and **Text** hold shared vocabulary:
  - `Option`/`Result`;
  - Go `uint64`;
  - an order-independent map sum;
  - decimal parsing and formatting, `strings.Split` and `path.Join`.

How each kind of code is modelled:

- Code that mutates state is imperative Dafny:
  - the loops of `newMBQoSGroup`, `SumMB`, `GetCCDs`, `findOldL3Cache`, `aggregateNUMABytesPS` and `Allocate` are `while`/`for` loops with invariants;
  - `GetCCDs` sorts an `array` in place;
  - the domain manager, the controller and the allocation response are classes whose methods state their whole new state.
- Each loop over a Go map visits the keys in an arbitrary order (`Pick`), and its result is proved against an order-free specification function.
- Pure code is functions, with lemmas about them.

External inputs become parameters:

- `json.Unmarshal`, as an `Unmarshaller` whose parsed values are shorter than the input;
- `GetQoSLevel`;
- `GetNumaNodesInUse`;
- `NewQoS`;
- `qosLevelToCgroupv1GroupFolder`;
- `annoQoSLevelToShortQoSLevel`;
- the `resctrlconsts` values, as a `ResctrlLayout`;
- the default maximum bandwidth `MaxMBGBps`;
- the reduced lounge ceiling.

## Model

| member | source | states |
|---|---|---|
| Malachite.CalcBytesPerSec | pkg/metaserver/agent/metric/provisioner/malachite/provisioner_test.go:614-636 | The result is 0 when the interval is 0, the previous sample is 0 or the counter went backwards. Otherwise it is the truncated quotient: `r*interval <= current-previous < (r+1)*interval`. |
| Malachite.CalcBytesPerSecAtMostDelta | pkg/metaserver/agent/metric/provisioner/malachite/provisioner_test.go:623-626 | The rate never exceeds the counter delta and is 0 without a positive delta, so there is no division by zero and no negative rate. |
| Malachite.CalcBytesPerSecTable | pkg/metaserver/agent/metric/provisioner/malachite/provisioner_test.go:623-626 | The four table rows: (200,100,10) gives 10 and each guard row gives 0. |
| Malachite.ClampMBMDelta | pkg/metaserver/agent/metric/provisioner/malachite/provisioner_test.go:638-661 | A jump above `maxDiff` is replaced by `oldValue+maxStep` (uint64 wrap). A counter that grew by at most `maxDiff`, or went backwards, passes through. |
| Malachite.ClampMBMDeltaBoundsJump | pkg/metaserver/agent/metric/provisioner/malachite/provisioner_test.go:649-651 | Every reported value is within `maxDiff` of the previous counter or is the clamped step. |
| Malachite.ClampMBMDeltaIdempotent | pkg/metaserver/agent/metric/provisioner/malachite/provisioner_test.go:649-651 | Clamping a clamped value again changes nothing. |
| Malachite.ClampMBMDeltaTable | pkg/metaserver/agent/metric/provisioner/malachite/provisioner_test.go:640-651 | The three table rows with maxDiff 100 and maxStep 50: 150, 150 and 90. |
| Malachite.AnyItemMatches | pkg/metaserver/agent/metric/provisioner/malachite/provisioner_test.go:447-501 | A cpulist matches exactly when some item matches: a single number equal to the CPU, or an inclusive range containing it. |
| Malachite.CpuInList | pkg/metaserver/agent/metric/provisioner/malachite/provisioner_test.go:447-501 | The result is true iff some comma-separated item of the list matches the CPU. A list without a comma is a single item. |
| Malachite.CpuInListSingle | pkg/metaserver/agent/metric/provisioner/malachite/provisioner_test.go:455-466 | The list "N" contains a CPU iff the CPU is N. |
| Malachite.CpuInListRange | pkg/metaserver/agent/metric/provisioner/malachite/provisioner_test.go:467-478 | The list "A-B" contains a CPU iff A <= CPU <= B. |
| Malachite.CpuInListEmpty | pkg/metaserver/agent/metric/provisioner/malachite/provisioner_test.go:479-484 | The empty list contains no CPU. |
| Malachite.CpuInListMalformedRange | pkg/metaserver/agent/metric/provisioner/malachite/provisioner_test.go:485-490 | A range whose upper bound is not a number matches no CPU (false, without an error). |
| Malachite.CpuInListTableSingle | pkg/metaserver/agent/metric/provisioner/malachite/provisioner_test.go:455-466 | Rows (2,"2") gives true and (3,"2") gives false. |
| Malachite.CpuInListTableRange | pkg/metaserver/agent/metric/provisioner/malachite/provisioner_test.go:467-478 | Rows (4,"2-5") gives true and (6,"2-5") gives false. |
| Malachite.CpuInListTableMalformed | pkg/metaserver/agent/metric/provisioner/malachite/provisioner_test.go:479-490 | Rows (0,"") and (2,"1-b") both give false. |
| Malachite.FindOldL3Cache | pkg/metaserver/agent/metric/provisioner/malachite/provisioner_test.go:584-612 | The result is the first entry with the id (each earlier entry has another id). It is none when there is no monitor or no entry has the id. |
| Malachite.FindOldL3CacheTable | pkg/metaserver/agent/metric/provisioner/malachite/provisioner_test.go:590-602 | With entries 1, 2, 3: id 2 is found at index 1 and id 99 is not found. A nil monitor gives none. |
| Malachite.MaxBandwidth | pkg/metaserver/agent/metric/provisioner/malachite/provisioner_test.go:663-731 | For Zen4/Zen3/Zen2/Rapids/Lake the result is socket bandwidth ÷ CCD count, truncated. For an empty or unknown code name it is the default. |
| Malachite.MaxBandwidthPositive | pkg/metaserver/agent/metric/provisioner/malachite/provisioner_test.go:665-679 | Under a positive default the ceiling is always positive. |
| Malachite.MaxBandwidthTable | pkg/metaserver/agent/metric/provisioner/malachite/provisioner_test.go:686-721 | The seven table rows, with their computed quotients. |
| Malachite.AggregateNUMABytesPS | pkg/metaserver/agent/metric/provisioner/malachite/provisioner_test.go:733-775 | Exactly the NUMA nodes owning some L3 cache get an entry. Each entry is the sum over that node's caches of total bytes, plus victim bytes on Milan and local bytes on Genoa, whatever the visiting order. |
| Malachite.AggregationExampleTotals | pkg/metaserver/agent/metric/provisioner/malachite/provisioner_test.go:735-762 | The test's totals: 30/30 plain, 36/36 Milan, 45/45 Genoa. |
| Common.MapSumRemove | pkg/agent/qrm-plugins/mb/monitor/mb_qos_group.go:53-55 | Any key may be summed first, so a sum over a Go map's values does not depend on visiting order. |
| Monitor.NewMBQoSGroup | pkg/agent/qrm-plugins/mb/monitor/mb_qos_group.go:37-48 | The measurements are stored unchanged and the CCD set is exactly their key set (empty for an empty map), so the group is consistent (line 33). |
| Monitor.SumCCDMB | pkg/agent/qrm-plugins/mb/monitor/mb_qos_group.go:54 | The per-group total is the sum of the per-CCD values. |
| Monitor.SumMB | pkg/agent/qrm-plugins/mb/monitor/mb_qos_group.go:50-57 | The result is the sum over groups of each group's per-CCD sum, and 0 for no groups. |
| Monitor.SumMBNonNegative | pkg/agent/qrm-plugins/mb/monitor/mb_qos_group.go:50-57 | With non-negative measurements the domain-wide total is non-negative. |
| Tasks.GetID | pkg/agent/qrm-plugins/mb/task/task.go:46-48 | A task's id is its pod UID. |
| Tasks.CCDOf | pkg/agent/qrm-plugins/mb/task/task.go:71 | A CPU missing from the CPU→CCD map reads as CCD 0. |
| Tasks.GetCCDs | pkg/agent/qrm-plugins/mb/task/task.go:68-82 | The result is strictly ascending and its elements are exactly the CCDs of the task's CPUs. Its length is the number of distinct CCDs, and no CPUs give an empty result. |
| Tasks.CollectCCDs | pkg/agent/qrm-plugins/mb/task/task.go:69-72 | The set loop collects exactly the CCDs of the CPUs. |
| Tasks.SliceOfSet | pkg/agent/qrm-plugins/mb/task/task.go:74-79 | The copy loop gives a fresh slice of the set's size holding each element once. |
| Tasks.SortInPlace | pkg/agent/qrm-plugins/mb/task/task.go:80 | The slice ends sorted and is a permutation of what it held. |
| Tasks.SortedDistinctIsStrict | pkg/agent/qrm-plugins/mb/task/task.go:74-81 | A sorted slice without repeats is strictly ascending. |
| Tasks.GetResctrlCtrlGroupFolder | pkg/agent/qrm-plugins/mb/task/task.go:50-52 | The result always succeeds. The path lies under the resctrl root and ends with the QoS group name. For a clean root (non-empty, no trailing slash) and a non-empty group it is exactly root + "/" + group. |
| Tasks.GetResctrlCtrlGroup | pkg/agent/qrm-plugins/mb/task/task.go:54-56 | A task's control group is the folder of its own QoS group. |
| Tasks.GetResctrlMonGroup | pkg/agent/qrm-plugins/mb/task/task.go:58-66 | The result always succeeds and ends with the task folder built from the pod UID. For clean root, group and mon-group root and a non-empty task folder it is exactly root/group/monRoot/taskFolder, that is, the control group's path followed by /monRoot/taskFolder. |
| Tasks.MonGroupUnderCtrlGroup | pkg/agent/qrm-plugins/mb/task/task.go:58-66 | A task's monitoring group path extends its control group path. |
| Tasks.MonGroupsDistinct | pkg/agent/qrm-plugins/mb/task/task.go:64-65 | Pods with different UIDs in the same QoS group get different monitoring groups. |
| Tasks.GetCgroupCPUSetPath | pkg/agent/qrm-plugins/mb/task/task.go:84-92 | A `NewQoS` error is returned unchanged with no path. Otherwise the path is under `/sys/fs/cgroup/cpuset/kubepods/`, with the level's folder (if any) and then the pod UID. |
| Text.JoinPath | pkg/agent/qrm-plugins/mb/task/task.go:51 | `path.Join` of two clean segments keeps the first as a prefix and the second as a suffix, with exactly one slash between them. |
| Text.JoinPathInjective | pkg/agent/qrm-plugins/mb/task/task.go:65 | On a fixed base, different non-empty tails give different paths. |
| Text.Pad2 | pkg/agent/qrm-plugins/memory/dynamicpolicy/rectrl_hinter.go:36 | `%02d` gives at least two digits, which parse back to the number. A leading zero appears only as the padding of a single digit, so the width is exactly that of `%02d`. |
| MBDomain.MaxMBPerCCDValue | pkg/agent/qrm-plugins/mb/controller/mbdomain/consts.go:24 | 2048/8*1000 under integer arithmetic is 256 000. |
| MBDomain.BudgetsOrdered | pkg/agent/qrm-plugins/mb/controller/mbdomain/consts.go:20-23 | LoungeMB < ReservedPerNuma < MaxMBDedicatedPerNuma < DomainTotalMB. |
| QoSPolicy.SharedWeight | pkg/agent/qrm-plugins/mb/controller/policy/qospolicy/qos_mb_policy_test.go:53-78 | A group has a weight exactly when it is named `shared_` followed by digits. |
| QoSPolicy.TopMostPlan | pkg/agent/qrm-plugins/mb/controller/policy/qospolicy/qos_mb_policy_test.go:44-90 | The plan has exactly the input groups as keys and each entry exactly that group's CCDs. Each ceiling is the lounge value for the lounge tier and ReservedPerNuma otherwise. |
| QoSPolicy.ProtectedGroupsReserved | pkg/agent/qrm-plugins/mb/controller/policy/qospolicy/qos_mb_policy_test.go:87 | Groups that are not shared pools (such as system) always get ReservedPerNuma. |
| QoSPolicy.HeavierPoolsReserved | pkg/agent/qrm-plugins/mb/controller/policy/qospolicy/qos_mb_policy_test.go:86 | A shared pool with a lighter pool beside it keeps ReservedPerNuma. |
| QoSPolicy.NoContentionAllReserved | pkg/agent/qrm-plugins/mb/controller/policy/qospolicy/qos_mb_policy_test.go:45-64 | Without shared pools of different weights, every ceiling is ReservedPerNuma. |
| QoSPolicy.LoungeReduced | pkg/agent/qrm-plugins/mb/controller/policy/qospolicy/qos_mb_policy_test.go:88 | With a heavier pool present, the lightest pool gets the lounge ceiling on every CCD. |
| QoSPolicy.UsageIndependent | pkg/agent/qrm-plugins/mb/controller/policy/qospolicy/qos_mb_policy_test.go:51-87 | Measured bandwidth plays no part: the same groups and CCDs give the same plan. |
| QoSPolicy.ScenarioNoHigherPool | pkg/agent/qrm-plugins/mb/controller/policy/qospolicy/qos_mb_policy_test.go:44-64 | The first scenario's plan is exactly the expected map, with 25 000 everywhere. |
| QoSPolicy.ScenarioSharedFiftyPresent | pkg/agent/qrm-plugins/mb/controller/policy/qospolicy/qos_mb_policy_test.go:65-90 | The second scenario's plan is exactly the expected map, with shared_30 at 10 000. |
| QoSPolicy.SystemCeilingIgnoresUsage | pkg/agent/qrm-plugins/mb/controller/policy/qospolicy/qos_mb_policy_test.go:51-87 | system gets 25 000 whether it measured 100 or 20 000. |
| PodAdmit.DomainManager.PreemptNodes | pkg/agent/qrm-plugins/mb/podadmit/admitter.go:109 | The nodes join the preempted set (preempting twice is a no-op), and the call is logged. |
| PodAdmit.Controller.ReqToAdjustMB | pkg/agent/qrm-plugins/mb/podadmit/admitter.go:115 | One more re-plan request. |
| PodAdmit.NodesToPreempt | pkg/agent/qrm-plugins/mb/podadmit/admitter.go:104-110 | The nodes to preempt are exactly the hinted nodes not in use. |
| PodAdmit.NodesToPreemptNoneInUse | pkg/agent/qrm-plugins/mb/podadmit/admitter.go:105-110 | With nothing in use, all hinted nodes are preempted in hint order. |
| PodAdmit.NodesToPreemptAllInUse | pkg/agent/qrm-plugins/mb/podadmit/admitter.go:105-108 | With every hinted node in use, nothing is preempted. |
| PodAdmit.Admitter.PreemptFreeNodes | pkg/agent/qrm-plugins/mb/podadmit/admitter.go:103-110 | The loop makes one single-node preempt call per hinted node not in use, in hint order, and the preempted set grows by exactly those nodes. |
| PodAdmit.Admitter.RemovePod | pkg/agent/qrm-plugins/mb/podadmit/admitter.go:83-85 | RemovePod always succeeds with an empty response. |
| PodAdmit.Admitter.Allocate | pkg/agent/qrm-plugins/mb/podadmit/admitter.go:87-132 | See the Allocate cases below the table. |
| ResctrlHint.IdentifyCPUSetPool | pkg/agent/qrm-plugins/memory/dynamicpolicy/rectrl_hinter.go:49-66 | The flattened key wins. A missing key or an unparsable composite value gives "". |
| ResctrlHint.CompositeAgreesWithFlattened | pkg/agent/qrm-plugins/memory/dynamicpolicy/rectrl_hinter.go:54-65 | The composite form names the same pool as the flattened form it encodes. |
| ResctrlHint.GetSharedSubgroup | pkg/agent/qrm-plugins/memory/dynamicpolicy/rectrl_hinter.go:68-75 | A negative value gives "shared". Otherwise the result is "shared-" followed by at least two digits that parse back to the value, with a leading zero only when exactly two digits follow (`%02d`). |
| ResctrlHint.GetSharedSubgroupInjective | pkg/agent/qrm-plugins/memory/dynamicpolicy/rectrl_hinter.go:68-75 | Distinct non-negative values name distinct subgroups, none of them "shared". |
| ResctrlHint.GetSharedSubgroupExamples | pkg/agent/qrm-plugins/memory/dynamicpolicy/rectrl_hinter.go:36-37 | 30 gives "shared-30", 5 gives "shared-05" and -1 gives "shared". |
| ResctrlHint.GetSharedSubgroupByPool | pkg/agent/qrm-plugins/memory/dynamicpolicy/rectrl_hinter.go:77-82 | A configured pool uses its mapped value, and any other pool uses the default subgroup. |
| ResctrlHint.NewResctrlHinter | pkg/agent/qrm-plugins/memory/dynamicpolicy/rectrl_hinter.go:141-151 | The enabling set is the policy's enabled closids, or empty without an option or policy. |
| ResctrlHint.EnsureToGetMemAllocInfo | pkg/agent/qrm-plugins/memory/dynamicpolicy/rectrl_hinter.go:84-95 | The memory entry and its annotations map are created only when missing. Existing annotations and every other entry are untouched. |
| ResctrlHint.InjectRespAnnotationSharedGroup | pkg/agent/qrm-plugins/memory/dynamicpolicy/rectrl_hinter.go:97-100 | The memory annotations gain the closid key and keep all other keys. A memory entry created here is a new object, so every other entry is untouched. |
| ResctrlHint.InjectRespAnnotationPodMonGroup | pkg/agent/qrm-plugins/memory/dynamicpolicy/rectrl_hinter.go:102-115 | need-mon-groups="false" is added iff the enabling set is non-empty and lacks the group, in a new memory entry when there was none. Otherwise nothing changes. |
| ResctrlHint.HintResourceAllocation | pkg/agent/qrm-plugins/memory/dynamicpolicy/rectrl_hinter.go:117-139 | See the HintResourceAllocation cases below the table. |
| ResctrlHint.HintDisabledStampsNothing | pkg/agent/qrm-plugins/memory/dynamicpolicy/rectrl_hinter.go:118-120 | A nil or disabled option stamps nothing. |
| ResctrlHint.UnknownLevelStampsNothing | pkg/agent/qrm-plugins/memory/dynamicpolicy/rectrl_hinter.go:122-126 | A QoS level without a short name stamps nothing. |
| ResctrlHint.HintKeysCharacterized | pkg/agent/qrm-plugins/memory/dynamicpolicy/rectrl_hinter.go:128-136 | See the HintKeysCharacterized properties below the table. |
| ResctrlHint.OtherAnnotationsPreserved | pkg/agent/qrm-plugins/memory/dynamicpolicy/rectrl_hinter_test.go:100-111 | Other annotations such as test-key keep their values. |
| ResctrlHint.BatchPoolIsShared30 | pkg/agent/qrm-plugins/memory/dynamicpolicy/rectrl_hinter_test.go:81-96 | The composite annotation resolves to pool "batch", which maps to "shared-30". |
| ResctrlHint.HintExampleNoPodMonGroup | pkg/agent/qrm-plugins/memory/dynamicpolicy/rectrl_hinter_test.go:78-113 | With enabling set {dedicated, shared-50}, the result is test-key plus closid shared-30 plus need-mon-groups "false". |
| ResctrlHint.HintExampleWithPodMonGroup | pkg/agent/qrm-plugins/memory/dynamicpolicy/rectrl_hinter_test.go:114-148 | With enabling set {dedicated, shared-30}, the result is test-key plus closid shared-30 only. |
| ResctrlHint.HintExamplesUnchanged | pkg/agent/qrm-plugins/memory/dynamicpolicy/rectrl_hinter_test.go:46-77 | A nil option, or a disabled one, stamps nothing. |

`PodAdmit.Admitter.Allocate` has four cases:
1. A `GetQoSLevel` error is returned first, with no effect.
2. A sidecar, a non-dedicated pod or a pod with no hint succeeds with no effect.
3. An empty hint fails with "hint is empty", with no effect.
4. Otherwise the method succeeds. It makes one `PreemptNodes([n])` call per free hinted node, in hint order, and then exactly one re-plan request.

`ResctrlHint.HintResourceAllocation` has two cases:
1. When `HintKeys` is empty, nothing changes.
2. Otherwise the memory entry (created as a new object if missing) holds its old annotations plus `HintKeys`, and every other entry is untouched.

`ResctrlHint.HintKeysCharacterized` states these properties of `HintKeys`:
- Only the closid and need-mon keys are ever stamped.
- The closid key is stamped iff the pod is shared_cores, and it holds the pool's subgroup.
- need-mon "false" is stamped iff the enabling set is non-empty and lacks the pod's group.

## Left out

- The CPI tests and `setContainerMbmTotalMetric`: they need float rates, a timestamped metric store and time arithmetic.
- `getNumaIDByL3CacheID`, `setupFakeSysfs`, `getCgroupPaths` and the metric-store plumbing of the provisioner: they need file-system reads and runtime patching.
- The Go bodies of the six provisioner functions are not part of this model. Each function is modelled on what its table test fixes.
- Malachite.CalcBytesPerSec: a zero interval gives 0, as the test table fixes. A previous rate cannot be kept, because the function has no previous rate among its arguments.
- Malachite.ClampMBMDelta: a delta exactly equal to `maxDiff` passes through; no test row pins that boundary.
- Malachite.CpuInList: items are split at commas only; whitespace around an item is not modelled, because no test row pins it.
- Malachite.MaxBandwidth: only the bandwidth result of `getNumaAndMaxBandwidth` is modelled, because the test discards the NUMA result. `MaxMBGBps` is a parameter, because its value is not part of this model.
- Malachite.AggregateNUMABytesPS: only the per-node total rate is modelled, not the whole per-node record. Sums are unbounded, so uint64 overflow in the sums is not modelled. The mapping from a CPU code string to `CPUArch` is not part of this model.
- Malachite.MaxBandwidth: a CPU code name is mapped to its platform by exact string equality. That is an assumption, because the Go lookup from code name to platform is not part of this model and no test row pins names beyond those in the table.
- Malachite.FindOldL3Cache: the index of the found entry stands for the Go pointer into the slice.
- Tasks: the `resctrlconsts` values are the `ResctrlLayout` parameter, and the task-folder template is assumed to hold one `%s`.
- Tasks: `path.Join` is modelled for clean segments only (non-empty, no trailing slash). Neither `..` elimination nor removal of the slash left after an empty last element is modelled. Collapsing repeated slashes and dropping `.` elements are not modelled either: `JoinPath("a", "/x")` is `"a//x"`, where `path.Join` gives `"a/x"`.
- Tasks: the `pid`, `spids`, `NumaNode` and `nodeCCDs` fields take part in no modelled operation.
- Tasks.SortInPlace: an insertion sort stands for `sort.IntSlice.Sort`. The sorted result is the same; the algorithm is not.
- Tasks.GetCgroupCPUSetPath: `NewQoS` and `qosLevelToCgroupv1GroupFolder` are parameters, and a level missing from the folder map reads as "". When both the level's folder and the pod UID are empty, the trailing slash that `path.Join` would clean is not removed.
- Monitor: a QoS group is an immutable value, so the measurement map `newMBQoSGroup` keeps by reference is not shared with the caller, and a nil group pointer in the map `SumMB` ranges over (a Go panic) is not modelled.
- Monitor.SumCCDMB: `util.SumCCDMB` is not part of this model, so it is modelled as the sum of the map's values. Go `int` overflow is not modelled.
- QoSPolicy.TopMostPlan: only the top-most evaluation is modelled, because no non-top-most behaviour is visible. `totalMB` is dropped, because it has no visible effect. The reduced ceiling of the lightest pool is the parameter `reducedCeilingMB` (not the domain constant `MBDomain.LoungeMB`), because its general law is not visible; the second scenario shows 10 000.
- The implementation of `BuildHiPrioDetectedQoSMBPolicy().GetPlan` is not part of this model. The plan is the rule the two test scenarios fix.
- PodAdmit: the gRPC surface is not modelled. That covers `Name`, `ResourceName`, `Start`, `Stop`, `GetTopologyAwareResources`, `GetTopologyAwareAllocatableResources`, `GetResourcePluginOptions` and `NewPodAdmitService`, which are protocol boilerplate returning constant responses.
- PodAdmit: the internals of `PreemptNodes`, `ReqToAdjustMB`, `GetQoSLevel` and `GetNumaNodesInUse` are not part of this model. The domain manager and controller are abstract state, and the two lookups are parameters.
- PodAdmit: the conversion of a uint64 hint node with `int(node)` is not modelled (nodes are naturals). Concurrency and the coalescing of re-plan requests are left out.
- ResctrlHint: `json.Unmarshal` and `annoQoSLevelToShortQoSLevel` are parameters. A nil allocation result or nil allocation map, on which the Go code would panic, is not modelled.
- Logging (`general.InfofV`, `general.Errorf`) is left out everywhere.
