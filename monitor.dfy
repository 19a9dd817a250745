/**
 * The monitor's per-interval view of one QoS control group: the CCDs it has
 * tasks on and the bandwidth measured on each of them, and the domain-wide
 * total over all groups.
 */
module Monitor {
  import opened Common
  import opened Tasks

  /**
   * MBQoSGroup: `ccds` is the set of CCDs the group has tasks on, `ccdMB` the
   * bandwidth measured per CCD; the two are meant to agree (see Consistent).
   */
  datatype MBQoSGroup = MBQoSGroup(ccds: set<int>, ccdMB: map<int, int>)

  /** The CCD set is exactly the set of CCDs with a measurement. */
  ghost predicate Consistent(g: MBQoSGroup) {
    g.ccds == g.ccdMB.Keys
  }

  /**
   * newMBQoSGroup: keeps the measurements as given and derives the CCD set
   * from their keys, one key per loop turn, so the result is consistent.
   */
  method NewMBQoSGroup(ccdMB: map<int, int>) returns (g: MBQoSGroup)
    ensures g.ccdMB == ccdMB
    ensures g.ccds == ccdMB.Keys
    ensures Consistent(g)
  {
    var ccds: set<int> := {};
    var rest := ccdMB.Keys;
    while rest != {}
      invariant ccds + rest == ccdMB.Keys
      decreases |rest|
    {
      var ccd := Pick(rest);
      ccds := ccds + {ccd};
      rest := rest - {ccd};
    }
    g := MBQoSGroup(ccds, ccdMB);
  }

  /** The sum of a group's per-CCD bandwidth, visiting the CCDs in any order. */
  method SumCCDMB(ccdMB: map<int, int>) returns (sum: int)
    ensures sum == MapSum(ccdMB)
  {
    sum := 0;
    var rest := ccdMB;
    while rest != map[]
      invariant sum + MapSum(rest) == MapSum(ccdMB)
      decreases |rest|
    {
      var ccd := Pick(rest.Keys);
      MapSumRemove(rest, ccd);
      MapRemoveSize(rest, ccd);
      sum := sum + rest[ccd];
      rest := rest - {ccd};
    }
    MapSumEmpty(rest);
  }

  /** Each group's total bandwidth. */
  ghost function GroupTotals(groups: map<QoSGroup, MBQoSGroup>): map<QoSGroup, int> {
    map q | q in groups :: MapSum(groups[q].ccdMB)
  }

  /**
   * SumMB: the bandwidth consumed by all groups together, the sum over groups
   * of each group's per-CCD sum, whatever order the groups are visited in.
   */
  method SumMB(groups: map<QoSGroup, MBQoSGroup>) returns (sum: int)
    ensures sum == MapSum(GroupTotals(groups))
    ensures |groups| == 0 ==> sum == 0
  {
    ghost var totals := GroupTotals(groups);
    sum := 0;
    var rest := groups.Keys;
    assert Restrict(totals, rest) == totals;
    while rest != {}
      invariant rest <= groups.Keys
      invariant sum + MapSum(Restrict(totals, rest)) == MapSum(totals)
      decreases |rest|
    {
      var q := Pick(rest);
      var groupSum := SumCCDMB(groups[q].ccdMB);
      RestrictRemove(totals, rest, q);
      sum := sum + groupSum;
      rest := rest - {q};
    }
    MapSumEmpty(Restrict(totals, rest));
    if |groups| == 0 {
      MapSumEmpty(totals);
    }
  }

  /** With non-negative measurements the domain-wide total is non-negative. */
  lemma SumMBNonNegative(groups: map<QoSGroup, MBQoSGroup>)
    requires forall q :: q in groups ==> forall c :: c in groups[q].ccdMB ==> groups[q].ccdMB[c] >= 0
    ensures MapSum(GroupTotals(groups)) >= 0
  {
    forall q | q in GroupTotals(groups) ensures GroupTotals(groups)[q] >= 0 {
      assert q in groups;
      var m := groups[q].ccdMB;
      assert forall c :: c in m ==> m[c] >= 0;
      MapSumNonNegative(m);
    }
    MapSumNonNegative(GroupTotals(groups));
  }
}
