/**
 * The high-priority-detected QoS MB policy, evaluated at the top of a
 * sharing domain. Every (group, CCD) pair of the snapshot gets a ceiling;
 * the lowest-weight shared pool drops to a reduced "lounge" ceiling while a
 * shared pool of higher weight is present, every other pair gets the
 * per-NUMA reservation.
 */
module QoSPolicy {
  import opened Common
  import opened Text
  import opened Tasks
  import opened Monitor
  import opened MBDomain

  /** A plan: the MBps ceiling of each QoS group on each of its CCDs. */
  type Plan = map<QoSGroup, map<int, int>>

  const SharedPrefix: string := "shared_"

  /** The weight N of a shared pool "shared_N"; None for every other group. */
  function SharedWeight(q: QoSGroup): (w: Option<nat>)
    ensures w.Some? <==> |q| > |SharedPrefix| && q[..|SharedPrefix|] == SharedPrefix &&
                         AllDigits(q[|SharedPrefix|..])
  {
    if |q| > |SharedPrefix| && q[..|SharedPrefix|] == SharedPrefix then ParseNat(q[|SharedPrefix|..])
    else None
  }

  /** Some shared pool of the snapshot weighs more than `w`. */
  predicate HigherPoolPresent(groups: map<QoSGroup, MBQoSGroup>, w: nat) {
    exists q :: q in groups && SharedWeight(q).Some? && SharedWeight(q).value > w
  }

  /** No shared pool of the snapshot weighs less than `w`. */
  predicate LowestPool(groups: map<QoSGroup, MBQoSGroup>, w: nat) {
    forall q :: q in groups && SharedWeight(q).Some? ==> SharedWeight(q).value >= w
  }

  /** `q` is the lounge tier: the lightest shared pool, with a heavier one present. */
  predicate IsLounge(groups: map<QoSGroup, MBQoSGroup>, q: QoSGroup) {
    SharedWeight(q).Some? && LowestPool(groups, SharedWeight(q).value) &&
    HigherPoolPresent(groups, SharedWeight(q).value)
  }

  /** The per-CCD ceiling of group `q`. */
  function Ceiling(groups: map<QoSGroup, MBQoSGroup>, q: QoSGroup, reducedCeilingMB: int): int {
    if IsLounge(groups, q) then reducedCeilingMB else ReservedPerNuma
  }

  /**
   * The top-most plan: a fresh map with exactly the snapshot's groups, each
   * with exactly its own CCDs, and the group's ceiling on each of them.
   * `reducedCeilingMB` is the reduced ceiling of the lightest pool (not MBDomain.LoungeMB); its general law is not modelled.
   */
  function TopMostPlan(groups: map<QoSGroup, MBQoSGroup>, reducedCeilingMB: int): (plan: Plan)
    ensures plan.Keys == groups.Keys
    ensures forall q :: q in plan ==> plan[q].Keys == groups[q].ccds
    ensures forall q, c :: q in plan && c in plan[q] ==>
      plan[q][c] == (if IsLounge(groups, q) then reducedCeilingMB else ReservedPerNuma)
  {
    map q | q in groups :: map c | c in groups[q].ccds :: Ceiling(groups, q, reducedCeilingMB)
  }

  /** Groups other than shared pools (system, dedicated, ...) always get the reservation. */
  lemma ProtectedGroupsReserved(groups: map<QoSGroup, MBQoSGroup>, reducedCeilingMB: int, q: QoSGroup, c: int)
    requires q in groups && c in groups[q].ccds
    requires SharedWeight(q).None?
    ensures TopMostPlan(groups, reducedCeilingMB)[q][c] == ReservedPerNuma
  {
  }

  /** Only the lightest shared pool can be reduced: a pool with a lighter one beside it is not. */
  lemma HeavierPoolsReserved(groups: map<QoSGroup, MBQoSGroup>, reducedCeilingMB: int,
                             q: QoSGroup, lighter: QoSGroup, c: int)
    requires q in groups && c in groups[q].ccds && lighter in groups
    requires SharedWeight(q).Some? && SharedWeight(lighter).Some?
    requires SharedWeight(lighter).value < SharedWeight(q).value
    ensures TopMostPlan(groups, reducedCeilingMB)[q][c] == ReservedPerNuma
  {
    assert !LowestPool(groups, SharedWeight(q).value);
  }

  /** With no two shared pools of different weight, every ceiling is the reservation. */
  lemma NoContentionAllReserved(groups: map<QoSGroup, MBQoSGroup>, reducedCeilingMB: int)
    requires forall q1, q2 :: q1 in groups && q2 in groups && SharedWeight(q1).Some? && SharedWeight(q2).Some? ==>
      SharedWeight(q1).value == SharedWeight(q2).value
    ensures forall q, c :: q in groups && c in groups[q].ccds ==> TopMostPlan(groups, reducedCeilingMB)[q][c] == ReservedPerNuma
  {
    forall q | q in groups ensures !IsLounge(groups, q) {
    }
  }

  /** The lightest shared pool, with a heavier one present, gets the lounge ceiling on every CCD. */
  lemma LoungeReduced(groups: map<QoSGroup, MBQoSGroup>, reducedCeilingMB: int, q: QoSGroup, heavier: QoSGroup, c: int)
    requires q in groups && c in groups[q].ccds && heavier in groups
    requires SharedWeight(q).Some? && SharedWeight(heavier).Some?
    requires SharedWeight(q).value < SharedWeight(heavier).value
    requires LowestPool(groups, SharedWeight(q).value)
    ensures TopMostPlan(groups, reducedCeilingMB)[q][c] == reducedCeilingMB
  {
  }

  /** Measured bandwidth plays no part: snapshots with the same groups and CCDs give the same plan. */
  lemma UsageIndependent(g1: map<QoSGroup, MBQoSGroup>, g2: map<QoSGroup, MBQoSGroup>, reducedCeilingMB: int)
    requires g1.Keys == g2.Keys
    requires forall q :: q in g1 ==> g1[q].ccds == g2[q].ccds
    ensures TopMostPlan(g1, reducedCeilingMB) == TopMostPlan(g2, reducedCeilingMB)
  {
    forall q | q in g1 ensures IsLounge(g1, q) == IsLounge(g2, q) {
      assert LowestPool(g1, 0) == LowestPool(g2, 0);
    }
  }

  /** The reduced ceiling the shared_50 / shared_30 scenario shows. */
  const ObservedLoungeMB: int := 10_000

  function Group(ccdMB: map<int, int>): MBQoSGroup {
    MBQoSGroup(ccdMB.Keys, ccdMB)
  }

  lemma SharedWeightExamples()
    ensures SharedWeight("shared_30") == Some(30)
    ensures SharedWeight("shared_50") == Some(50)
    ensures SharedWeight("system") == None
  {
    assert "shared_30"[..|SharedPrefix|] == SharedPrefix;
    assert "shared_30"[|SharedPrefix|..] == "30";
    DigitsValueTwo("30");
    assert "shared_50"[..|SharedPrefix|] == SharedPrefix;
    assert "shared_50"[|SharedPrefix|..] == "50";
    DigitsValueTwo("50");
  }

  /** The snapshot of the first scenario: system on CCD 1, shared_30 on CCDs 2 and 3. */
  function ScenarioOneGroups(): map<QoSGroup, MBQoSGroup> {
    map["system" := Group(map[1 := 100]), "shared_30" := Group(map[2 := 100, 3 := 100])]
  }

  /** The snapshot of the second scenario, which adds shared_50 on CCDs 1, 4, 5 and 6. */
  function ScenarioTwoGroups(): map<QoSGroup, MBQoSGroup> {
    map["shared_50" := Group(map[1 := 20_000, 4 := 20_000, 5 := 20_000, 6 := 20_000]),
        "system" := Group(map[1 := 20_000]),
        "shared_30" := Group(map[2 := 100, 3 := 100])]
  }

  /** The groups of the first scenario and the CCDs each one occupies. */
  lemma ScenarioOneShape()
    ensures ScenarioOneGroups().Keys == {"system", "shared_30"}
    ensures ScenarioOneGroups()["system"].ccds == {1}
    ensures ScenarioOneGroups()["shared_30"].ccds == {2, 3}
  {
  }

  /** The groups of the second scenario and the CCDs each one occupies. */
  lemma ScenarioTwoShape()
    ensures ScenarioTwoGroups().Keys == {"shared_50", "system", "shared_30"}
    ensures ScenarioTwoGroups()["shared_50"].ccds == {1, 4, 5, 6}
    ensures ScenarioTwoGroups()["system"].ccds == {1}
    ensures ScenarioTwoGroups()["shared_30"].ccds == {2, 3}
  {
  }

  /** Only shared_30 is the lounge tier of the second scenario, and no group of the first. */
  lemma ScenarioLounges()
    ensures !IsLounge(ScenarioOneGroups(), "system") && !IsLounge(ScenarioOneGroups(), "shared_30")
    ensures IsLounge(ScenarioTwoGroups(), "shared_30")
    ensures !IsLounge(ScenarioTwoGroups(), "shared_50") && !IsLounge(ScenarioTwoGroups(), "system")
  {
    SharedWeightExamples();
    ScenarioOneShape();
    ScenarioTwoShape();
    var g1, g2 := ScenarioOneGroups(), ScenarioTwoGroups();
    assert !HigherPoolPresent(g1, 30);
    assert "shared_50" in g2;
    assert HigherPoolPresent(g2, 30);
    assert LowestPool(g2, 30);
    assert !LowestPool(g2, 50);
  }

  /** The ceiling of each group of the two scenarios. */
  lemma ScenarioCeilings()
    ensures Ceiling(ScenarioOneGroups(), "system", ObservedLoungeMB) == 25_000
    ensures Ceiling(ScenarioOneGroups(), "shared_30", ObservedLoungeMB) == 25_000
    ensures Ceiling(ScenarioTwoGroups(), "shared_50", ObservedLoungeMB) == 25_000
    ensures Ceiling(ScenarioTwoGroups(), "system", ObservedLoungeMB) == 25_000
    ensures Ceiling(ScenarioTwoGroups(), "shared_30", ObservedLoungeMB) == 10_000
  {
    ScenarioLounges();
  }

  /** A group's entry holds exactly its CCDs, each with the group's ceiling. */
  lemma PlanEntry(groups: map<QoSGroup, MBQoSGroup>, reducedCeilingMB: int, q: QoSGroup, ccds: set<int>, ceiling: int)
    requires q in groups && groups[q].ccds == ccds && Ceiling(groups, q, reducedCeilingMB) == ceiling
    ensures TopMostPlan(groups, reducedCeilingMB)[q].Keys == ccds
    ensures forall c :: c in ccds ==> TopMostPlan(groups, reducedCeilingMB)[q][c] == ceiling
  {
  }

  /** The first scenario: system and shared_30 only, every ceiling 25 000. */
  lemma ScenarioNoHigherPool()
    ensures TopMostPlan(ScenarioOneGroups(), ObservedLoungeMB)
         == map["system" := map[1 := 25_000], "shared_30" := map[2 := 25_000, 3 := 25_000]]
  {
    ScenarioOneShape();
    ScenarioCeilings();
    PlanEntry(ScenarioOneGroups(), ObservedLoungeMB, "system", {1}, 25_000);
    PlanEntry(ScenarioOneGroups(), ObservedLoungeMB, "shared_30", {2, 3}, 25_000);
    var plan := TopMostPlan(ScenarioOneGroups(), ObservedLoungeMB);
    assert plan["system"] == map[1 := 25_000];
    assert plan["shared_30"] == map[2 := 25_000, 3 := 25_000];
  }

  lemma ScenarioTwoShared50()
    ensures TopMostPlan(ScenarioTwoGroups(), ObservedLoungeMB)["shared_50"]
         == map[1 := 25_000, 4 := 25_000, 5 := 25_000, 6 := 25_000]
  {
    ScenarioTwoShape();
    ScenarioCeilings();
    PlanEntry(ScenarioTwoGroups(), ObservedLoungeMB, "shared_50", {1, 4, 5, 6}, 25_000);
  }

  lemma ScenarioTwoSystem()
    ensures TopMostPlan(ScenarioTwoGroups(), ObservedLoungeMB)["system"] == map[1 := 25_000]
  {
    ScenarioTwoShape();
    ScenarioCeilings();
    PlanEntry(ScenarioTwoGroups(), ObservedLoungeMB, "system", {1}, 25_000);
  }

  lemma ScenarioTwoShared30()
    ensures TopMostPlan(ScenarioTwoGroups(), ObservedLoungeMB)["shared_30"] == map[2 := 10_000, 3 := 10_000]
  {
    ScenarioTwoShape();
    ScenarioCeilings();
    PlanEntry(ScenarioTwoGroups(), ObservedLoungeMB, "shared_30", {2, 3}, 10_000);
  }

  /** The second scenario: shared_50 present, so shared_30 drops to 10 000. */
  lemma ScenarioSharedFiftyPresent()
    ensures TopMostPlan(ScenarioTwoGroups(), ObservedLoungeMB)
         == map["shared_50" := map[1 := 25_000, 4 := 25_000, 5 := 25_000, 6 := 25_000],
                "system" := map[1 := 25_000],
                "shared_30" := map[2 := 10_000, 3 := 10_000]]
  {
    ScenarioTwoShape();
    ScenarioTwoShared50();
    ScenarioTwoSystem();
    ScenarioTwoShared30();
  }

  /** Measured usage does not matter: system's 100 and 20 000 both leave it at 25 000. */
  lemma SystemCeilingIgnoresUsage()
    ensures TopMostPlan(ScenarioOneGroups(), ObservedLoungeMB)["system"][1] == 25_000
    ensures TopMostPlan(ScenarioTwoGroups(), ObservedLoungeMB)["system"][1] == 25_000
  {
    ScenarioOneShape();
    ScenarioTwoShape();
    ScenarioCeilings();
  }
}
