/**
 * The resctrl hinter of the memory plugin: when a pod is admitted it stamps
 * annotations into the memory entry of the allocation response, naming the
 * resctrl control group ("closid") a shared-cores pod belongs to and
 * switching off per-pod monitoring groups where the policy does not want them.
 */
module ResctrlHint {
  import opened Common
  import opened Text
  import opened Tasks

  type Annotations = map<string, string>

  /** "shared-%02d", the name of a numbered shared subgroup, and the plain shared group. */
  const SharedSubgroupPrefix: string := "shared-"
  const SharedGroup: string := "shared"

  /** The flattened cpuset-pool key and the composite CPU-enhancement key of a pod's annotations. */
  const CPUSetPoolKey: string := "cpuset_pool"
  const CPUEnhancementKey: string := "katalyst.kubewharf.io/cpu_enhancement"

  /** The annotations stamped into the response. */
  const ClosIDKey: string := "rdt.resources.beta.kubernetes.io/pod"
  const NeedMonGroupsKey: string := "rdt.resources.beta.kubernetes.io/need-mon-groups"

  /** The resource name of the memory entry. */
  const MemoryKey: string := "memory"

  const SharedCores: QoSLevel := "shared_cores"

  /**
   * Every value a parse produces is shorter than the text it was parsed
   * from, as holds for a JSON object of strings.
   */
  ghost predicate ParsesShorter(f: string -> Option<Annotations>) {
    forall s :: f(s).Some? ==> forall k :: k in f(s).value ==> |f(s).value[k]| < |s|
  }

  /** `json.Unmarshal` into a `map[string]string`: the parsed map, or None on error. */
  type Unmarshaller = f: string -> Option<Annotations> | ParsesShorter(f)
    witness (s: string) => None

  /** The length of the composite value, which shrinks with each nested parse. */
  function EnhancementSize(anno: Annotations): nat {
    if CPUEnhancementKey in anno then |anno[CPUEnhancementKey]| + 1 else 0
  }

  /**
   * identifyCPUSetPool: the flattened key wins; otherwise the composite value
   * is parsed and searched the same way; a missing key or a value that does
   * not parse gives "".
   */
  function IdentifyCPUSetPool(anno: Annotations, unmarshal: Unmarshaller): (pool: string)
    ensures CPUSetPoolKey in anno ==> pool == anno[CPUSetPoolKey]
    ensures CPUSetPoolKey !in anno && CPUEnhancementKey !in anno ==> pool == ""
    ensures CPUSetPoolKey !in anno && CPUEnhancementKey in anno && unmarshal(anno[CPUEnhancementKey]).None? ==>
      pool == ""
    decreases EnhancementSize(anno)
  {
    if CPUSetPoolKey in anno then anno[CPUSetPoolKey]
    else if CPUEnhancementKey !in anno then ""
    else
      match unmarshal(anno[CPUEnhancementKey])
      case None => ""
      case Some(flattened) =>
        assert EnhancementSize(flattened) < EnhancementSize(anno);
        IdentifyCPUSetPool(flattened, unmarshal)
  }

  /** The composite form names the same pool as the flattened form it encodes. */
  lemma CompositeAgreesWithFlattened(unmarshal: Unmarshaller, composite: string, pool: string, rest: Annotations)
    requires unmarshal(composite) == Some(map[CPUSetPoolKey := pool])
    requires CPUSetPoolKey !in rest
    ensures IdentifyCPUSetPool(rest[CPUEnhancementKey := composite], unmarshal)
         == IdentifyCPUSetPool(map[CPUSetPoolKey := pool], unmarshal)
         == pool
  {
  }

  /**
   * getSharedSubgroup: a negative value selects the plain "shared" group,
   * any other value the "shared-" group numbered with at least two digits,
   * zero-padded only up to two.
   */
  function GetSharedSubgroup(val: int): (group: string)
    ensures val < 0 ==> group == SharedGroup
    ensures val >= 0 ==>
      |group| >= |SharedSubgroupPrefix| + 2 && group[..|SharedSubgroupPrefix|] == SharedSubgroupPrefix &&
      ParseNat(group[|SharedSubgroupPrefix|..]) == Some(val)
    ensures val >= 0 && group[|SharedSubgroupPrefix|] == '0' ==> |group| == |SharedSubgroupPrefix| + 2
  {
    if val < 0 then SharedGroup
    else
      var digits := Pad2(val);
      assert (SharedSubgroupPrefix + digits)[|SharedSubgroupPrefix|..] == digits;
      assert (SharedSubgroupPrefix + digits)[|SharedSubgroupPrefix|] == digits[0];
      SharedSubgroupPrefix + digits
  }

  /** Distinct non-negative subgroup numbers name distinct groups, none of them "shared". */
  lemma GetSharedSubgroupInjective(a: int, b: int)
    requires a >= 0 && b >= 0
    ensures GetSharedSubgroup(a) != SharedGroup
    ensures GetSharedSubgroup(a) == GetSharedSubgroup(b) ==> a == b
  {
  }

  lemma GetSharedSubgroupExamples()
    ensures GetSharedSubgroup(30) == "shared-30"
    ensures GetSharedSubgroup(5) == "shared-05"
    ensures GetSharedSubgroup(-1) == "shared"
  {
    assert NatToString(30) == NatToString(3) + ['0'];
  }

  datatype MonGroupsPolicy = MonGroupsPolicy(enabledClosIDs: seq<string>)

  datatype ResctrlOptions = ResctrlOptions(
    enableResctrlHint: bool,
    cpusetPoolToSharedSubgroup: map<string, int>,
    defaultSharedSubgroup: int,
    monGroupsPolicy: Option<MonGroupsPolicy>)

  /** The hinter: its options, if any, and the closids whose pods keep per-pod monitoring groups. */
  datatype ResctrlHinter = ResctrlHinter(option: Option<ResctrlOptions>, closidEnablingGroups: set<string>)

  /** newResctrlHinter: the enabling set comes from the mon-groups policy, or is empty. */
  function NewResctrlHinter(option: Option<ResctrlOptions>): (h: ResctrlHinter)
    ensures h.option == option
    ensures option.Some? && option.value.monGroupsPolicy.Some? ==>
      forall g :: g in h.closidEnablingGroups <==> g in option.value.monGroupsPolicy.value.enabledClosIDs
    ensures option.None? || option.value.monGroupsPolicy.None? ==> h.closidEnablingGroups == {}
  {
    if option.Some? && option.value.monGroupsPolicy.Some? then
      ResctrlHinter(option, set g | g in option.value.monGroupsPolicy.value.enabledClosIDs)
    else ResctrlHinter(option, {})
  }

  /** getSharedSubgroupByPool: the pool's configured subgroup, or the default one. */
  function GetSharedSubgroupByPool(option: ResctrlOptions, pool: string): (group: string)
    ensures pool in option.cpusetPoolToSharedSubgroup ==>
      group == GetSharedSubgroup(option.cpusetPoolToSharedSubgroup[pool])
    ensures pool !in option.cpusetPoolToSharedSubgroup ==> group == GetSharedSubgroup(option.defaultSharedSubgroup)
  {
    if pool in option.cpusetPoolToSharedSubgroup then GetSharedSubgroup(option.cpusetPoolToSharedSubgroup[pool])
    else GetSharedSubgroup(option.defaultSharedSubgroup)
  }

  /** What the allocation response carries per resource: optional annotations (a nil map is None). */
  class ResourceAllocationInfo {
    var annotations: Option<Annotations>

    constructor (annotations: Option<Annotations>)
      ensures this.annotations == annotations
    {
      this.annotations := annotations;
    }
  }

  /** The allocation result: one entry per resource name. */
  class ResourceAllocation {
    var resourceAllocation: map<string, ResourceAllocationInfo>

    constructor (resourceAllocation: map<string, ResourceAllocationInfo>)
      ensures this.resourceAllocation == resourceAllocation
    {
      this.resourceAllocation := resourceAllocation;
    }
  }

  /** The memory entry's annotations, None when the entry or its map is missing. */
  ghost function MemAnnotations(ra: ResourceAllocation): Option<Annotations>
    reads ra, ra.resourceAllocation.Values
  {
    if MemoryKey in ra.resourceAllocation then ra.resourceAllocation[MemoryKey].annotations else None
  }

  /** A missing annotations map reads as an empty one. */
  function OrEmpty(anno: Option<Annotations>): Annotations {
    if anno.Some? then anno.value else map[]
  }

  /**
   * ensureToGetMemAllocInfo: the memory entry, created when missing, with an
   * annotations map, created when missing; existing annotations are kept.
   */
  method EnsureToGetMemAllocInfo(ra: ResourceAllocation) returns (info: ResourceAllocationInfo)
    modifies ra, ra.resourceAllocation.Values
    ensures MemoryKey in ra.resourceAllocation && ra.resourceAllocation[MemoryKey] == info
    ensures MemoryKey in old(ra.resourceAllocation) ==>
      info == old(ra.resourceAllocation[MemoryKey]) && ra.resourceAllocation == old(ra.resourceAllocation)
    ensures MemoryKey !in old(ra.resourceAllocation) ==>
      fresh(info) && ra.resourceAllocation == old(ra.resourceAllocation)[MemoryKey := info]
    ensures info.annotations == Some(OrEmpty(old(MemAnnotations(ra))))
    ensures forall o :: o in old(ra.resourceAllocation.Values) && o != info ==> o.annotations == old(o.annotations)
    ensures forall o :: o in ra.resourceAllocation.Values ==> o in old(ra.resourceAllocation.Values) || fresh(o)
  {
    if MemoryKey !in ra.resourceAllocation {
      var created := new ResourceAllocationInfo(None);
      ra.resourceAllocation := ra.resourceAllocation[MemoryKey := created];
    }
    info := ra.resourceAllocation[MemoryKey];
    if info.annotations.None? {
      info.annotations := Some(map[]);
    }
  }

  /** injectRespAnnotationSharedGroup: sets the closid annotation of the memory entry. */
  method InjectRespAnnotationSharedGroup(ra: ResourceAllocation, group: string)
    modifies ra, ra.resourceAllocation.Values
    ensures MemoryKey in ra.resourceAllocation
    ensures forall k :: k in old(ra.resourceAllocation) ==>
      k in ra.resourceAllocation && ra.resourceAllocation[k] == old(ra.resourceAllocation[k])
    ensures ra.resourceAllocation.Keys == old(ra.resourceAllocation.Keys) + {MemoryKey}
    ensures MemAnnotations(ra) == Some(OrEmpty(old(MemAnnotations(ra)))[ClosIDKey := group])
    ensures MemoryKey !in old(ra.resourceAllocation) ==> fresh(ra.resourceAllocation[MemoryKey])
    ensures forall o :: o in old(ra.resourceAllocation.Values) && o != ra.resourceAllocation[MemoryKey] ==>
      o.annotations == old(o.annotations)
    ensures forall o :: o in ra.resourceAllocation.Values ==> o in old(ra.resourceAllocation.Values) || fresh(o)
  {
    var info := EnsureToGetMemAllocInfo(ra);
    info.annotations := Some(info.annotations.value[ClosIDKey := group]);
  }

  /** Whether a pod of `group` has per-pod monitoring groups switched off. */
  predicate NoPodMonGroups(enablingGroups: set<string>, group: string) {
    |enablingGroups| != 0 && group !in enablingGroups
  }

  /**
   * injectRespAnnotationPodMonGroup: with a non-empty enabling set that does
   * not list the group, marks the memory entry as needing no pod mon groups;
   * otherwise changes nothing.
   */
  method InjectRespAnnotationPodMonGroup(ra: ResourceAllocation, enablingGroups: set<string>, group: string)
    modifies ra, ra.resourceAllocation.Values
    ensures !NoPodMonGroups(enablingGroups, group) ==>
      ra.resourceAllocation == old(ra.resourceAllocation) &&
      forall o :: o in old(ra.resourceAllocation.Values) ==> o.annotations == old(o.annotations)
    ensures NoPodMonGroups(enablingGroups, group) ==>
      MemoryKey in ra.resourceAllocation &&
      ra.resourceAllocation.Keys == old(ra.resourceAllocation.Keys) + {MemoryKey} &&
      (forall k :: k in old(ra.resourceAllocation) ==>
        ra.resourceAllocation[k] == old(ra.resourceAllocation[k])) &&
      MemAnnotations(ra) == Some(OrEmpty(old(MemAnnotations(ra)))[NeedMonGroupsKey := "false"]) &&
      (MemoryKey !in old(ra.resourceAllocation) ==> fresh(ra.resourceAllocation[MemoryKey])) &&
      forall o :: o in old(ra.resourceAllocation.Values) && o != ra.resourceAllocation[MemoryKey] ==>
        o.annotations == old(o.annotations)
  {
    if |enablingGroups| == 0 || group in enablingGroups {
      return;
    }
    var info := EnsureToGetMemAllocInfo(ra);
    info.annotations := Some(info.annotations.value[NeedMonGroupsKey := "false"]);
  }

  /** A pod's metadata as the hinter sees it. */
  datatype AllocationMeta = AllocationMeta(qosLevel: QoSLevel, annotations: Annotations)

  /**
   * The annotations HintResourceAllocation stamps into the memory entry;
   * empty when the hint is disabled or the QoS level has no short name.
   * `shortQoS` maps a QoS level to its short name ("shared_cores" to "shared").
   */
  function HintKeys(h: ResctrlHinter, shortQoS: map<QoSLevel, string>, meta: AllocationMeta,
                    unmarshal: Unmarshaller): Annotations
  {
    if h.option.None? || !h.option.value.enableResctrlHint || meta.qosLevel !in shortQoS then map[]
    else
      var group := ResolvedGroup(h.option.value, shortQoS, meta, unmarshal);
      var closid: Annotations := if meta.qosLevel == SharedCores then map[ClosIDKey := group] else map[];
      if NoPodMonGroups(h.closidEnablingGroups, group) then closid[NeedMonGroupsKey := "false"] else closid
  }

  /** The group a pod is hinted into: its shared subgroup, or its short QoS name. */
  function ResolvedGroup(option: ResctrlOptions, shortQoS: map<QoSLevel, string>, meta: AllocationMeta,
                         unmarshal: Unmarshaller): string
    requires meta.qosLevel in shortQoS
  {
    if meta.qosLevel == SharedCores then GetSharedSubgroupByPool(option, IdentifyCPUSetPool(meta.annotations, unmarshal))
    else shortQoS[meta.qosLevel]
  }

  /**
   * HintResourceAllocation: stamps HintKeys into the memory entry, creating
   * the entry and its map only when something is stamped; with nothing to
   * stamp the allocation is left as it was.
   */
  method HintResourceAllocation(h: ResctrlHinter, shortQoS: map<QoSLevel, string>, meta: AllocationMeta,
                                unmarshal: Unmarshaller, ra: ResourceAllocation)
    modifies ra, ra.resourceAllocation.Values
    ensures HintKeys(h, shortQoS, meta, unmarshal) == map[] ==>
      ra.resourceAllocation == old(ra.resourceAllocation) &&
      forall o :: o in old(ra.resourceAllocation.Values) ==> o.annotations == old(o.annotations)
    ensures HintKeys(h, shortQoS, meta, unmarshal) != map[] ==>
      MemoryKey in ra.resourceAllocation &&
      ra.resourceAllocation.Keys == old(ra.resourceAllocation.Keys) + {MemoryKey} &&
      (forall k :: k in old(ra.resourceAllocation) ==>
        ra.resourceAllocation[k] == old(ra.resourceAllocation[k])) &&
      MemAnnotations(ra) == Some(OrEmpty(old(MemAnnotations(ra))) + HintKeys(h, shortQoS, meta, unmarshal)) &&
      (MemoryKey !in old(ra.resourceAllocation) ==> fresh(ra.resourceAllocation[MemoryKey])) &&
      forall o :: o in old(ra.resourceAllocation.Values) && o != ra.resourceAllocation[MemoryKey] ==>
        o.annotations == old(o.annotations)
  {
    if h.option.None? || !h.option.value.enableResctrlHint {
      return;
    }
    if meta.qosLevel !in shortQoS {
      return;
    }
    StampedAnnotations(h, shortQoS, meta, unmarshal, OrEmpty(MemAnnotations(ra)));
    var podShortQoS := shortQoS[meta.qosLevel];
    if meta.qosLevel == SharedCores {
      var cpusetPool := IdentifyCPUSetPool(meta.annotations, unmarshal);
      podShortQoS := GetSharedSubgroupByPool(h.option.value, cpusetPool);
      InjectRespAnnotationSharedGroup(ra, podShortQoS);
    }
    InjectRespAnnotationPodMonGroup(ra, h.closidEnablingGroups, podShortQoS);
  }

  /**
   * Stamping the closid (for a shared-cores pod) and then need-mon (when
   * called for) onto `before` gives `before` plus HintKeys.
   */
  lemma StampedAnnotations(h: ResctrlHinter, shortQoS: map<QoSLevel, string>, meta: AllocationMeta,
                           unmarshal: Unmarshaller, before: Annotations)
    requires h.option.Some? && h.option.value.enableResctrlHint && meta.qosLevel in shortQoS
    ensures var group := ResolvedGroup(h.option.value, shortQoS, meta, unmarshal);
      var closid := if meta.qosLevel == SharedCores then before[ClosIDKey := group] else before;
      (if NoPodMonGroups(h.closidEnablingGroups, group) then closid[NeedMonGroupsKey := "false"] else closid)
        == before + HintKeys(h, shortQoS, meta, unmarshal)
    ensures meta.qosLevel == SharedCores ==> HintKeys(h, shortQoS, meta, unmarshal) != map[]
    ensures NoPodMonGroups(h.closidEnablingGroups, ResolvedGroup(h.option.value, shortQoS, meta, unmarshal)) ==>
      HintKeys(h, shortQoS, meta, unmarshal) != map[]
  {
    var keys := HintKeys(h, shortQoS, meta, unmarshal);
    var group := ResolvedGroup(h.option.value, shortQoS, meta, unmarshal);
    if meta.qosLevel == SharedCores {
      assert ClosIDKey in keys;
    }
    if NoPodMonGroups(h.closidEnablingGroups, group) {
      assert NeedMonGroupsKey in keys;
    }
  }

  /** A nil or disabled option stamps nothing. */
  lemma HintDisabledStampsNothing(h: ResctrlHinter, shortQoS: map<QoSLevel, string>, meta: AllocationMeta,
                                  unmarshal: Unmarshaller)
    requires h.option.None? || !h.option.value.enableResctrlHint
    ensures HintKeys(h, shortQoS, meta, unmarshal) == map[]
  {
  }

  /** A QoS level without a short name stamps nothing. */
  lemma UnknownLevelStampsNothing(h: ResctrlHinter, shortQoS: map<QoSLevel, string>, meta: AllocationMeta,
                                  unmarshal: Unmarshaller)
    requires meta.qosLevel !in shortQoS
    ensures HintKeys(h, shortQoS, meta, unmarshal) == map[]
  {
  }

  /**
   * With the hint enabled and a known level: only the closid and need-mon
   * keys are stamped; the closid key exactly for shared-cores pods, holding
   * the pool's subgroup; need-mon = "false" exactly when the enabling set is
   * non-empty and lacks the pod's group.
   */
  lemma HintKeysCharacterized(h: ResctrlHinter, shortQoS: map<QoSLevel, string>, meta: AllocationMeta,
                              unmarshal: Unmarshaller)
    requires h.option.Some? && h.option.value.enableResctrlHint && meta.qosLevel in shortQoS
    ensures var keys := HintKeys(h, shortQoS, meta, unmarshal);
      var group := ResolvedGroup(h.option.value, shortQoS, meta, unmarshal);
      keys.Keys <= {ClosIDKey, NeedMonGroupsKey} &&
      (ClosIDKey in keys <==> meta.qosLevel == SharedCores) &&
      (ClosIDKey in keys ==>
        keys[ClosIDKey] == GetSharedSubgroupByPool(h.option.value, IdentifyCPUSetPool(meta.annotations, unmarshal))) &&
      (NeedMonGroupsKey in keys <==> NoPodMonGroups(h.closidEnablingGroups, group)) &&
      (NeedMonGroupsKey in keys ==> keys[NeedMonGroupsKey] == "false")
  {
  }

  /** Annotations other than the two stamped keys, such as "test-key", keep their values. */
  lemma OtherAnnotationsPreserved(before: Annotations, h: ResctrlHinter, shortQoS: map<QoSLevel, string>,
                                  meta: AllocationMeta, unmarshal: Unmarshaller, k: string)
    requires k in before && k != ClosIDKey && k != NeedMonGroupsKey
    ensures k in before + HintKeys(h, shortQoS, meta, unmarshal)
    ensures (before + HintKeys(h, shortQoS, meta, unmarshal))[k] == before[k]
  {
    if h.option.Some? && h.option.value.enableResctrlHint && meta.qosLevel in shortQoS {
      HintKeysCharacterized(h, shortQoS, meta, unmarshal);
    }
  }

  /** The composite annotation of the examples, naming the "batch" pool. */
  const BatchEnhancement: string := "{\"cpuset_pool\":\"batch\"}"

  function BatchPod(): AllocationMeta {
    AllocationMeta(SharedCores, map[CPUEnhancementKey := BatchEnhancement])
  }

  function BatchOptions(enabledClosIDs: seq<string>): ResctrlOptions {
    ResctrlOptions(true, map["batch" := 30], 0, Some(MonGroupsPolicy(enabledClosIDs)))
  }

  /** The response every example starts from: a memory entry holding "test-key". */
  function TestAnnotations(): Annotations {
    map["test-key" := "test-value"]
  }

  lemma BatchPoolIsShared30(unmarshal: Unmarshaller, enabledClosIDs: seq<string>)
    requires unmarshal(BatchEnhancement) == Some(map[CPUSetPoolKey := "batch"])
    ensures IdentifyCPUSetPool(BatchPod().annotations, unmarshal) == "batch"
    ensures GetSharedSubgroupByPool(BatchOptions(enabledClosIDs), "batch") == "shared-30"
  {
    CompositeAgreesWithFlattened(unmarshal, BatchEnhancement, "batch", map[]);
    assert map[][CPUEnhancementKey := BatchEnhancement] == BatchPod().annotations;
    GetSharedSubgroupExamples();
  }

  /** A batch pod whose subgroup shared-30 is not among the enabled closids: closid plus need-mon "false". */
  lemma HintExampleNoPodMonGroup(unmarshal: Unmarshaller, shortQoS: map<QoSLevel, string>)
    requires unmarshal(BatchEnhancement) == Some(map[CPUSetPoolKey := "batch"])
    requires SharedCores in shortQoS
    ensures var h := NewResctrlHinter(Some(BatchOptions(["dedicated", "shared-50"])));
      TestAnnotations() + HintKeys(h, shortQoS, BatchPod(), unmarshal)
      == map["test-key" := "test-value", ClosIDKey := "shared-30", NeedMonGroupsKey := "false"]
  {
    var h := NewResctrlHinter(Some(BatchOptions(["dedicated", "shared-50"])));
    BatchPoolIsShared30(unmarshal, ["dedicated", "shared-50"]);
    assert h.closidEnablingGroups == {"dedicated", "shared-50"};
    assert "shared-30" != "shared-50";
    assert NoPodMonGroups(h.closidEnablingGroups, "shared-30");
  }

  /** A batch pod whose subgroup shared-30 is enabled: the closid only. */
  lemma HintExampleWithPodMonGroup(unmarshal: Unmarshaller, shortQoS: map<QoSLevel, string>)
    requires unmarshal(BatchEnhancement) == Some(map[CPUSetPoolKey := "batch"])
    requires SharedCores in shortQoS
    ensures var h := NewResctrlHinter(Some(BatchOptions(["dedicated", "shared-30"])));
      TestAnnotations() + HintKeys(h, shortQoS, BatchPod(), unmarshal)
      == map["test-key" := "test-value", ClosIDKey := "shared-30"]
  {
    var h := NewResctrlHinter(Some(BatchOptions(["dedicated", "shared-30"])));
    BatchPoolIsShared30(unmarshal, ["dedicated", "shared-30"]);
    assert h.closidEnablingGroups == {"dedicated", "shared-30"};
    assert !NoPodMonGroups(h.closidEnablingGroups, "shared-30");
  }

  /** No option, or the hint switched off: the response keeps only "test-key". */
  lemma HintExamplesUnchanged(unmarshal: Unmarshaller, shortQoS: map<QoSLevel, string>)
    ensures HintKeys(NewResctrlHinter(None), shortQoS, AllocationMeta(SharedCores, map[]), unmarshal) == map[]
    ensures var disabled := ResctrlOptions(false, map["batch" := 30], 50, None);
      HintKeys(NewResctrlHinter(Some(disabled)), shortQoS, BatchPod(), unmarshal) == map[]
  {
  }
}
