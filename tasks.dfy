/**
 * A task is one pod's set of processes placed in a QoS control group. This
 * module gives the CCDs a task runs on and the resctrl and cgroup paths that
 * belong to it.
 */
module Tasks {
  import opened Common
  import opened Text

  /** A QoS control group's name, such as "system", "dedicated" or "shared_30". */
  type QoSGroup = string

  /** A Kubernetes QoS level, such as "dedicated_cores" or "shared_cores". */
  type QoSLevel = string

  /**
   * Task: `podUID` includes the "pod" prefix; `cpus` are the CPUs the task
   * may run on and `cpuCCD` the CCD each CPU belongs to. The pid and NUMA
   * fields of the Go struct take part in none of the operations modelled.
   */
  datatype Task = Task(qosGroup: QoSGroup, podUID: string, cpus: seq<int>, cpuCCD: map<int, int>)

  /**
   * The resctrl constants: the file-system root, the monitoring sub-folder
   * of a control group and the task-folder template, whose single `%s`
   * is preceded by `taskFolderPrefix` and followed by `taskFolderSuffix`.
   */
  datatype ResctrlLayout = ResctrlLayout(
    fsRoot: string, subGroupMonRoot: string, taskFolderPrefix: string, taskFolderSuffix: string)

  /** GetID: a task is identified by its pod's UID. */
  function GetID(t: Task): (id: string)
    ensures id == t.podUID
  {
    t.podUID
  }

  /** `t.cpuCCD[cpu]` in Go: a CPU missing from the map reads as CCD 0. */
  function CCDOf(t: Task, cpu: int): (ccd: int)
    ensures cpu !in t.cpuCCD ==> ccd == 0
    ensures cpu in t.cpuCCD ==> ccd == t.cpuCCD[cpu]
  {
    if cpu in t.cpuCCD then t.cpuCCD[cpu] else 0
  }

  /** The CCDs the task's CPUs lie on. */
  ghost function CCDSet(t: Task): set<int> {
    set i | 0 <= i < |t.cpus| :: CCDOf(t, t.cpus[i])
  }

  predicate Sorted(s: seq<int>) {
    forall k, l :: 0 <= k < l < |s| ==> s[k] <= s[l]
  }

  predicate StrictlyAscending(s: seq<int>) {
    forall k, l :: 0 <= k < l < |s| ==> s[k] < s[l]
  }

  /** `sort.IntSlice.Sort`: sorts the array in place, keeping its elements. */
  method SortInPlace(a: array<int>)
    modifies a
    ensures Sorted(a[..])
    ensures multiset(a[..]) == multiset(old(a[..]))
  {
    if a.Length <= 1 {
      return;
    }
    for i := 1 to a.Length
      invariant Sorted(a[..i])
      invariant multiset(a[..]) == multiset(old(a[..]))
    {
      InsertLast(a, i);
    }
    assert a[..a.Length] == a[..];
  }

  /** One insertion-sort step: moves `a[i]` down into the sorted prefix `a[..i]`. */
  method InsertLast(a: array<int>, i: int)
    requires 0 < i < a.Length
    requires Sorted(a[..i])
    modifies a
    ensures Sorted(a[..i + 1])
    ensures multiset(a[..]) == multiset(old(a[..]))
  {
    var j := i;
    while j > 0 && a[j - 1] > a[j]
      invariant 0 <= j <= i
      invariant forall k, l :: 0 <= k < l <= i && k != j && l != j ==> a[k] <= a[l]
      invariant forall l :: j < l <= i ==> a[j] <= a[l]
      invariant multiset(a[..]) == multiset(old(a[..]))
      decreases j
    {
      Swap(a, j - 1, j);
      j := j - 1;
    }
  }

  /** Exchanges two elements of the array, keeping its multiset of elements. */
  method Swap(a: array<int>, i: int, j: int)
    requires 0 <= i < a.Length && 0 <= j < a.Length
    modifies a
    ensures a[..] == old(a[..])[i := old(a[j])][j := old(a[i])]
    ensures multiset(a[..]) == multiset(old(a[..]))
  {
    a[i], a[j] := a[j], a[i];
  }

  /** Two positions holding the same value make that value occur twice. */
  lemma {:induction false} EqualPairCount(s: seq<int>, k: int, l: int)
    requires 0 <= k < l < |s| && s[k] == s[l]
    ensures multiset(s)[s[k]] >= 2
  {
    assert s == s[..l] + s[l..];
    assert s[k] in s[..l];
    assert s[l] in s[l..];
    assert multiset(s) == multiset(s[..l]) + multiset(s[l..]);
  }

  /** A sorted sequence without repeated elements is strictly ascending. */
  lemma SortedDistinctIsStrict(s: seq<int>)
    requires Sorted(s)
    requires forall x :: multiset(s)[x] <= 1
    ensures StrictlyAscending(s)
  {
    forall k, l | 0 <= k < l < |s| ensures s[k] < s[l] {
      if s[k] == s[l] {
        EqualPairCount(s, k, l);
        assert false;
      }
    }
  }

  /**
   * GetCCDs: the distinct CCDs of the task's CPUs in ascending order. CPUs
   * are inserted into a set, the set is copied into a slice and the slice
   * is sorted in place.
   */
  method GetCCDs(t: Task) returns (r: seq<int>)
    ensures StrictlyAscending(r)
    ensures forall x :: x in r <==> x in CCDSet(t)
    ensures |r| == |CCDSet(t)|
    ensures |t.cpus| == 0 ==> r == []
  {
    var ccds := CollectCCDs(t);
    var result := SliceOfSet(ccds);
    SortInPlace(result);
    r := result[..];
    SortedDistinctIsStrict(r);
    forall x ensures x in r <==> x in ccds {
      assert x in r <==> x in multiset(r);
    }
  }

  /** The first loop of GetCCDs: inserts each CPU's CCD into a set. */
  method CollectCCDs(t: Task) returns (ccds: set<int>)
    ensures ccds == CCDSet(t)
  {
    ccds := {};
    for i := 0 to |t.cpus|
      invariant ccds == set j | 0 <= j < i :: CCDOf(t, t.cpus[j])
    {
      ccds := ccds + {CCDOf(t, t.cpus[i])};
    }
  }

  /** The second loop of GetCCDs: copies a set into a fresh slice of its size. */
  method SliceOfSet(ccds: set<int>) returns (result: array<int>)
    ensures fresh(result)
    ensures result.Length == |ccds|
    ensures multiset(result[..]) == multiset(ccds)
  {
    result := new int[|ccds|];
    var rest := ccds;
    var i := 0;
    while rest != {}
      invariant rest <= ccds
      invariant i + |rest| == |ccds|
      invariant multiset(result[..i]) == multiset(ccds - rest)
      decreases |rest|
    {
      var ccd := Pick(rest);
      assert ccds - (rest - {ccd}) == (ccds - rest) + {ccd};
      result[i] := ccd;
      assert result[..i + 1] == result[..i] + [ccd];
      rest := rest - {ccd};
      i := i + 1;
    }
    assert result[..] == result[..i];
    assert ccds - rest == ccds;
  }

  /** GetResctrlCtrlGroupFolder: the control group of a QoS group, under the resctrl root. */
  function GetResctrlCtrlGroupFolder(layout: ResctrlLayout, qos: QoSGroup): (r: Result<string>)
    ensures r.Ok?
    ensures layout.fsRoot != "" && qos != "" ==>
      |r.value| > |layout.fsRoot| && r.value[..|layout.fsRoot|] == layout.fsRoot
    ensures qos != "" ==> |r.value| >= |qos| && r.value[|r.value| - |qos|..] == qos
    ensures Clean(layout.fsRoot) && qos != "" ==> r.value == layout.fsRoot + "/" + qos
  {
    Ok(JoinPath(layout.fsRoot, qos))
  }

  /** GetResctrlCtrlGroup: a task lives in its own QoS group's control group. */
  function GetResctrlCtrlGroup(layout: ResctrlLayout, t: Task): (r: Result<string>)
    ensures r == GetResctrlCtrlGroupFolder(layout, t.qosGroup)
  {
    GetResctrlCtrlGroupFolder(layout, t.qosGroup)
  }

  /** The task-folder template filled in with a pod UID. */
  function TaskFolder(layout: ResctrlLayout, podUID: string): string {
    layout.taskFolderPrefix + podUID + layout.taskFolderSuffix
  }

  /**
   * GetResctrlMonGroup: the task's monitoring group is its task folder in the
   * monitoring sub-folder of its control group; the control group's error,
   * which is always nil, would be passed on.
   */
  function GetResctrlMonGroup(layout: ResctrlLayout, t: Task): (r: Result<string>)
    ensures r.Ok?
    ensures TaskFolder(layout, t.podUID) != "" ==>
      var folder := TaskFolder(layout, t.podUID);
      |r.value| >= |folder| && r.value[|r.value| - |folder|..] == folder
    ensures Clean(layout.fsRoot) && Clean(t.qosGroup) && Clean(layout.subGroupMonRoot) &&
            TaskFolder(layout, t.podUID) != "" ==>
      r.value == GetResctrlCtrlGroup(layout, t).value + "/" + layout.subGroupMonRoot + "/" +
                 TaskFolder(layout, t.podUID) &&
      r.value == layout.fsRoot + "/" + t.qosGroup + "/" + layout.subGroupMonRoot + "/" +
                 TaskFolder(layout, t.podUID)
  {
    match GetResctrlCtrlGroup(layout, t)
    case Err(e) => Err(e)
    case Ok(ctrl) => Ok(JoinPath(JoinPath(ctrl, layout.subGroupMonRoot), TaskFolder(layout, t.podUID)))
  }

  /** A task's monitoring group lies inside its control group. */
  lemma MonGroupUnderCtrlGroup(layout: ResctrlLayout, t: Task)
    requires layout.fsRoot != "" && t.qosGroup != "" && layout.subGroupMonRoot != ""
    ensures var ctrl := GetResctrlCtrlGroup(layout, t).value;
      var mon := GetResctrlMonGroup(layout, t).value;
      |mon| > |ctrl| && mon[..|ctrl|] == ctrl
  {
    var ctrl := GetResctrlCtrlGroup(layout, t).value;
    var monRoot := JoinPath(ctrl, layout.subGroupMonRoot);
    var mon := GetResctrlMonGroup(layout, t).value;
    assert monRoot[..|ctrl|] == ctrl;
    if TaskFolder(layout, t.podUID) != "" {
      assert mon[..|monRoot|] == monRoot;
      assert mon[..|ctrl|] == monRoot[..|ctrl|];
    }
  }

  /** Two pods with different UIDs in the same QoS group never share a monitoring group. */
  lemma MonGroupsDistinct(layout: ResctrlLayout, t1: Task, t2: Task)
    requires layout.fsRoot != "" && layout.subGroupMonRoot != ""
    requires t1.qosGroup == t2.qosGroup && t1.qosGroup != ""
    requires t1.podUID != "" && t2.podUID != ""
    requires GetResctrlMonGroup(layout, t1) == GetResctrlMonGroup(layout, t2)
    ensures t1.podUID == t2.podUID
  {
    var monRoot := JoinPath(GetResctrlCtrlGroup(layout, t1).value, layout.subGroupMonRoot);
    assert monRoot != "";
    var f1, f2 := TaskFolder(layout, t1.podUID), TaskFolder(layout, t2.podUID);
    JoinPathInjective(monRoot, f1, f2);
    var p, q := layout.taskFolderPrefix, layout.taskFolderSuffix;
    assert |t1.podUID| == |t2.podUID|;
    assert t1.podUID == f1[|p|..|f1| - |q|];
    assert t2.podUID == f2[|p|..|f2| - |q|];
  }

  /** The cgroup v1 cpuset hierarchy all pods live under. */
  const CgroupCPUSetRoot: string := "/sys/fs/cgroup/cpuset/kubepods/"

  /** `qosLevelToCgroupv1GroupFolder[level]`: a missing level reads as "". */
  function GroupFolder(folders: map<QoSLevel, string>, level: QoSLevel): string {
    if level in folders then folders[level] else ""
  }

  /**
   * getCgroupCPUSetPath: the pod's cpuset cgroup under the folder of its QoS
   * level. `newQoS` resolves the QoS group to its level, or fails, in which
   * case its error is returned and no path.
   */
  function GetCgroupCPUSetPath(podUID: string, qosGroup: QoSGroup,
                               newQoS: QoSGroup -> Result<QoSLevel>,
                               folders: map<QoSLevel, string>): (r: Result<string>)
    ensures newQoS(qosGroup).Err? ==> r == Err(newQoS(qosGroup).error)
    ensures newQoS(qosGroup).Ok? ==>
      (r.Ok? && |r.value| >= |CgroupCPUSetRoot| && r.value[..|CgroupCPUSetRoot|] == CgroupCPUSetRoot)
    ensures newQoS(qosGroup).Ok? && podUID != "" ==>
      var folder := GroupFolder(folders, newQoS(qosGroup).value);
      (folder == "" ==> r.value == CgroupCPUSetRoot + podUID) &&
      (folder != "" && folder[|folder| - 1] != '/' ==> r.value == CgroupCPUSetRoot + folder + "/" + podUID)
  {
    assert CgroupCPUSetRoot[|CgroupCPUSetRoot| - 1] == '/';
    var qos := newQoS(qosGroup);
    if qos.Err? then Err(qos.error)
    else Ok(JoinPath(JoinPath(CgroupCPUSetRoot, GroupFolder(folders, qos.value)), podUID))
  }
}
