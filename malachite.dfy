/**
 * Counter math of the malachite metrics provisioner: turning cumulative
 * memory-bandwidth-monitoring (MBM) byte counters into rates, clamping
 * implausible counter jumps, sysfs cpulist membership, the lookup of a
 * previous L3 sample, the per-CCD bandwidth ceiling of a platform, and the
 * per-NUMA aggregation of per-L3 rates. All counters are Go `uint64`.
 */
module Malachite {
  import opened Common
  import opened Text

  // ---------------------------------------------------------------------------
  // calcBytesPerSec

  /**
   * The per-second rate of a cumulative byte counter between two samples.
   * There is no rate, reported as 0, when the interval is 0, when there is no
   * previous sample (previous is 0) or when the counter went backwards (reset);
   * otherwise the delta is divided by the interval, truncating.
   */
  function CalcBytesPerSec(current: U64, previous: U64, interval: U64): (r: U64)
    ensures interval == 0 || previous == 0 || current < previous ==> r == 0
    ensures interval > 0 && previous > 0 && current >= previous ==>
      r * interval <= current - previous < (r + 1) * interval
  {
    if interval == 0 || previous == 0 || current < previous then 0
    else
      var q := (current - previous) / interval;
      DivBounds(current - previous, interval, q);
      q
  }

  /**
   * Truncating division brackets the dividend between two multiples of the
   * divisor, and never exceeds the dividend.
   */
  lemma DivBounds(a: nat, b: nat, q: nat)
    requires b > 0 && q == a / b
    ensures q * b <= a < (q + 1) * b
    ensures q <= a
  {
    assert a == b * q + a % b;
    assert b * q == q * b;
    assert (q + 1) * b == q * b + b;
    AtMostMultiple(q, b);
  }

  lemma AtMostMultiple(a: nat, b: nat)
    requires b >= 1
    ensures a <= a * b
  {
    assert a * b == a * (b - 1) + a;
  }

  /** The rate never exceeds the counter delta, and is zero without a positive delta. */
  lemma CalcBytesPerSecAtMostDelta(current: U64, previous: U64, interval: U64)
    ensures current >= previous ==> CalcBytesPerSec(current, previous, interval) <= current - previous
    ensures current <= previous ==> CalcBytesPerSec(current, previous, interval) == 0
  {
    var r := CalcBytesPerSec(current, previous, interval);
    if interval > 0 && previous > 0 && current >= previous {
      AtMostMultiple(r, interval);
    }
  }

  /** The rows of the table test of calcBytesPerSec. */
  lemma CalcBytesPerSecTable()
    ensures CalcBytesPerSec(200, 100, 10) == 10
    ensures CalcBytesPerSec(200, 100, 0) == 0
    ensures CalcBytesPerSec(200, 0, 10) == 0
    ensures CalcBytesPerSec(50, 100, 10) == 0
  {
  }

  // ---------------------------------------------------------------------------
  // clampMBMDelta

  /**
   * Guards a new counter value against an implausible jump: when the counter
   * grew by more than `maxDiff` since `previous`, the value reported is the
   * old value advanced by `maxStep` (a `uint64` sum); a counter that did not
   * grow, or grew by at most `maxDiff`, passes through unchanged.
   */
  function ClampMBMDelta(current: U64, previous: U64, oldValue: U64, maxDiff: U64, maxStep: U64): (r: U64)
    ensures current < previous ==> r == current
    ensures current >= previous && current - previous <= maxDiff ==> r == current
    ensures current >= previous && current - previous > maxDiff ==> r == AddU64(oldValue, maxStep)
  {
    if current >= previous && current - previous > maxDiff then AddU64(oldValue, maxStep)
    else current
  }

  /**
   * No implausible spike gets through: whatever is reported is either within
   * `maxDiff` of the previous counter value or the clamped value itself.
   */
  lemma ClampMBMDeltaBoundsJump(current: U64, previous: U64, oldValue: U64, maxDiff: U64, maxStep: U64)
    ensures var r := ClampMBMDelta(current, previous, oldValue, maxDiff, maxStep);
      r <= previous + maxDiff || r == AddU64(oldValue, maxStep)
  {
  }

  /** Clamping an already clamped value changes nothing. */
  lemma ClampMBMDeltaIdempotent(current: U64, previous: U64, oldValue: U64, maxDiff: U64, maxStep: U64)
    ensures var r := ClampMBMDelta(current, previous, oldValue, maxDiff, maxStep);
      ClampMBMDelta(r, previous, oldValue, maxDiff, maxStep) == r
  {
  }

  /** The rows of the table test of clampMBMDelta (maxDiff 100, maxStep 50). */
  lemma ClampMBMDeltaTable()
    ensures ClampMBMDelta(150, 100, 100, 100, 50) == 150
    ensures ClampMBMDelta(250, 100, 100, 100, 50) == 150
    ensures ClampMBMDelta(90, 100, 100, 100, 50) == 90
  {
  }

  // ---------------------------------------------------------------------------
  // cpuInList

  /**
   * One item of a sysfs cpulist: either a single CPU number `N` or an
   * inclusive range `A-B`. An item whose numbers do not parse matches nothing.
   */
  function ItemMatches(cpu: int, item: string): bool {
    var dash := IndexOf(item, '-');
    if dash.Some? then
      var lo := ParseNat(item[..dash.value]);
      var hi := ParseNat(item[dash.value + 1..]);
      lo.Some? && hi.Some? && lo.value <= cpu <= hi.value
    else
      var n := ParseNat(item);
      n.Some? && n.value == cpu
  }

  function AnyItemMatches(cpu: int, items: seq<string>): (r: bool)
    ensures r <==> exists i :: 0 <= i < |items| && ItemMatches(cpu, items[i])
    decreases |items|
  {
    if |items| == 0 then false
    else ItemMatches(cpu, items[0]) || AnyItemMatches(cpu, items[1..])
  }

  /**
   * cpuInList: whether `cpu` is listed by one of the comma-separated items of
   * `cpuList`; a list without a comma is a single item.
   */
  function CpuInList(cpu: int, cpuList: string): (r: bool)
    ensures r <==> exists item :: item in Split(cpuList, ',') && ItemMatches(cpu, item)
    ensures ',' !in cpuList ==> (r <==> ItemMatches(cpu, cpuList))
  {
    var items := Split(cpuList, ',');
    assert ',' !in cpuList ==> items == [cpuList] by {
      if ',' !in cpuList { SplitWithoutSep(cpuList, ','); }
    }
    assert forall item :: item in items <==> exists i :: 0 <= i < |items| && items[i] == item;
    AnyItemMatches(cpu, items)
  }

  lemma DigitsHaveNo(s: string, c: char)
    requires AllDigits(s) && !IsDigit(c)
    ensures c !in s
  {
  }

  /** A list naming one CPU contains exactly that CPU. */
  lemma CpuInListSingle(cpu: int, n: nat)
    ensures CpuInList(cpu, NatToString(n)) <==> cpu == n
  {
    var s := NatToString(n);
    DigitsHaveNo(s, ',');
    DigitsHaveNo(s, '-');
    ParseNatToString(n);
  }

  /** The item `lo-hi`: its first dash follows `lo`, and `hi` comes after it. */
  lemma RangeItem(lo: string, hi: string)
    requires '-' !in lo && ',' !in lo && ',' !in hi
    ensures var s := lo + "-" + hi;
      ',' !in s && IndexOf(s, '-') == Some(|lo|) && s[..|lo|] == lo && s[|lo| + 1..] == hi
  {
    var s := lo + "-" + hi;
    forall i | 0 <= i < |s| ensures s[i] != ',' {
      if i < |lo| { assert s[i] == lo[i]; }
      else if i > |lo| { assert s[i] == hi[i - |lo| - 1]; }
    }
    assert s[|lo|] == '-';
    assert s[..|lo|] == lo;
  }

  /** A list holding one range `a-b` contains exactly the CPUs from a to b inclusive. */
  lemma CpuInListRange(cpu: int, a: nat, b: nat)
    ensures CpuInList(cpu, NatToString(a) + "-" + NatToString(b)) <==> a <= cpu <= b
  {
    var sa, sb := NatToString(a), NatToString(b);
    DigitsHaveNo(sa, ',');
    DigitsHaveNo(sb, ',');
    DigitsHaveNo(sa, '-');
    RangeItem(sa, sb);
    ParseNatToString(a);
    ParseNatToString(b);
  }

  /** A malformed range (an upper bound that is not a number) matches no CPU, and is not an error. */
  lemma CpuInListMalformedRange(cpu: int, lo: string, hi: string)
    requires '-' !in lo && ',' !in lo && ',' !in hi
    requires ParseNat(hi).None?
    ensures !CpuInList(cpu, lo + "-" + hi)
  {
    RangeItem(lo, hi);
  }

  /** An empty list contains no CPU. */
  lemma CpuInListEmpty(cpu: int)
    ensures !CpuInList(cpu, "")
  {
    assert Split("", ',') == [""];
  }

  /** The single-CPU rows of the table test of cpuInList. */
  lemma CpuInListTableSingle()
    ensures CpuInList(2, "2")
    ensures !CpuInList(3, "2")
  {
    assert NatToString(2) == "2";
    CpuInListSingle(2, 2);
    CpuInListSingle(3, 2);
  }

  /** The range rows of the table test of cpuInList. */
  lemma CpuInListTableRange()
    ensures CpuInList(4, "2-5")
    ensures !CpuInList(6, "2-5")
  {
    assert "2-5" == NatToString(2) + "-" + NatToString(5);
    CpuInListRange(4, 2, 5);
    CpuInListRange(6, 2, 5);
  }

  /** The empty and malformed rows of the table test of cpuInList. */
  lemma CpuInListTableMalformed()
    ensures !CpuInList(0, "")
    ensures !CpuInList(2, "1-b")
  {
    CpuInListEmpty(0);
    assert "1-b" == "1" + "-" + "b";
    CpuInListMalformedRange(2, "1", "b");
  }

  // ---------------------------------------------------------------------------
  // findOldL3Cache

  /** The per-L3 entry of an MBM sample; only its cache id is consulted here. */
  datatype L3Mon = L3Mon(id: int)

  /** One MBM sample: the entries of all L3 caches. */
  datatype L3Monitor = L3Monitor(l3Mon: seq<L3Mon>)

  /**
   * findOldL3Cache: the entry with cache id `id` in the previous sample, found
   * by a linear scan; its index stands for the pointer into the slice. There
   * is none when there is no previous sample or no entry carries the id.
   */
  method FindOldL3Cache(oldL3Mon: Option<L3Monitor>, id: int) returns (found: Option<nat>)
    ensures oldL3Mon.None? ==> found.None?
    ensures found.Some? ==>
      && oldL3Mon.Some?
      && found.value < |oldL3Mon.value.l3Mon|
      && oldL3Mon.value.l3Mon[found.value].id == id
      && forall j :: 0 <= j < found.value ==> oldL3Mon.value.l3Mon[j].id != id
    ensures found.None? && oldL3Mon.Some? ==>
      forall j :: 0 <= j < |oldL3Mon.value.l3Mon| ==> oldL3Mon.value.l3Mon[j].id != id
  {
    if oldL3Mon.None? {
      return None;
    }
    var mons := oldL3Mon.value.l3Mon;
    var i := 0;
    while i < |mons|
      invariant 0 <= i <= |mons|
      invariant forall j :: 0 <= j < i ==> mons[j].id != id
    {
      if mons[i].id == id {
        return Some(i);
      }
      i := i + 1;
    }
    return None;
  }

  /**
   * The rows of the table test of findOldL3Cache: id 2 is found at index 1 of
   * the sample with ids 1, 2 and 3; id 99 is not found; no sample, no entry.
   */
  method FindOldL3CacheTable() returns (found: Option<nat>, notFound: Option<nat>, nilInput: Option<nat>)
    ensures found == Some(1)
    ensures notFound == None
    ensures nilInput == None
  {
    var l3Mon := L3Monitor([L3Mon(1), L3Mon(2), L3Mon(3)]);
    found := FindOldL3Cache(Some(l3Mon), 2);
    notFound := FindOldL3Cache(Some(l3Mon), 99);
    nilInput := FindOldL3Cache(None, 1);
    assert l3Mon.l3Mon[1].id == 2;
  }

  // ---------------------------------------------------------------------------
  // getNumaAndMaxBandwidth

  /** The platforms of the bandwidth table; every other code name is unknown. */
  datatype Platform = Genoa | Milan | Rome | Rapids | Lake | UnknownPlatform

  function PlatformOf(cpuCodeName: string): Platform {
    if cpuCodeName == "Zen4" then Genoa
    else if cpuCodeName == "Zen3" then Milan
    else if cpuCodeName == "Zen2" then Rome
    else if cpuCodeName == "Rapids" then Rapids
    else if cpuCodeName == "Lake" then Lake
    else UnknownPlatform
  }

  /** CCDs per socket. */
  function CCDCount(p: Platform): nat {
    match p
    case Genoa => 12
    case Milan => 8
    case Rome => 8
    case Rapids => 1
    case Lake => 1
    case UnknownPlatform => 1
  }

  /**
   * Practical socket bandwidth in bytes/sec: the vendor's logical maximum
   * derated to 70%. An unknown platform has no entry.
   */
  function SocketBandwidth(p: Platform): U64 {
    match p
    case Genoa => 322_000_000_000
    case Milan => 142_000_000_000
    case Rome => 142_000_000_000
    case Rapids => 215_000_000_000
    case Lake => 98_000_000_000
    case UnknownPlatform => 0
  }

  /**
   * The maximum bandwidth getNumaAndMaxBandwidth gives for a CPU code name:
   * socket bandwidth shared out evenly (truncating) over the socket's CCDs,
   * or the global default `maxMBDefault` for an empty or unknown code name.
   */
  function MaxBandwidth(cpuCodeName: string, maxMBDefault: U64): (r: U64)
    ensures PlatformOf(cpuCodeName) == UnknownPlatform ==> r == maxMBDefault
    ensures PlatformOf(cpuCodeName) != UnknownPlatform ==>
      var p := PlatformOf(cpuCodeName);
      r * CCDCount(p) <= SocketBandwidth(p) < (r + 1) * CCDCount(p)
  {
    var p := PlatformOf(cpuCodeName);
    if p == UnknownPlatform then maxMBDefault else SocketBandwidth(p) / CCDCount(p)
  }

  /** The ceiling is never zero as long as the default is not: it is safe as a divisor. */
  lemma MaxBandwidthPositive(cpuCodeName: string, maxMBDefault: U64)
    requires maxMBDefault > 0
    ensures MaxBandwidth(cpuCodeName, maxMBDefault) > 0
  {
  }

  /** The rows of the table test of getNumaAndMaxBandwidth. */
  lemma MaxBandwidthTable(maxMBDefault: U64)
    ensures MaxBandwidth("", maxMBDefault) == maxMBDefault
    ensures MaxBandwidth("Zen4", maxMBDefault) == 26_833_333_333
    ensures MaxBandwidth("Zen3", maxMBDefault) == 17_750_000_000
    ensures MaxBandwidth("Zen2", maxMBDefault) == 17_750_000_000
    ensures MaxBandwidth("Rapids", maxMBDefault) == 215_000_000_000
    ensures MaxBandwidth("Lake", maxMBDefault) == 98_000_000_000
    ensures MaxBandwidth("UnknownCPU", maxMBDefault) == maxMBDefault
  {
  }

  // ---------------------------------------------------------------------------
  // aggregateNUMABytesPS

  /** Rates of one L3 cache, in bytes/sec, and the NUMA node it belongs to. */
  datatype L3CacheBytesPS = L3CacheBytesPS(
    numaID: int,
    mbmTotalBytesPS: U64,
    mbmLocalBytesPS: U64,
    mbmVictimBytesPS: U64,
    mbmMaxBytesPS: U64)

  /** The CPU architectures whose counters need an extra term. */
  datatype CPUArch = AMDMilanArch | AMDGenoaArch | OtherArch

  /**
   * What one L3 cache adds to its NUMA node's total: its total bytes, plus
   * its victim bytes on Milan, plus its local bytes on Genoa.
   */
  function NUMAContribution(e: L3CacheBytesPS, arch: CPUArch): nat {
    match arch
    case AMDMilanArch => e.mbmTotalBytesPS + e.mbmVictimBytesPS
    case AMDGenoaArch => e.mbmTotalBytesPS + e.mbmLocalBytesPS
    case OtherArch => e.mbmTotalBytesPS
  }

  /** The NUMA nodes that some L3 cache belongs to. */
  ghost function NUMAIDs(l3BytesPS: map<int, L3CacheBytesPS>): set<int> {
    set k | k in l3BytesPS :: l3BytesPS[k].numaID
  }

  /** The contributions of the L3 caches of NUMA node `numa`, keyed by L3 id. */
  ghost function Contributions(l3BytesPS: map<int, L3CacheBytesPS>, arch: CPUArch, numa: int): map<int, int> {
    map k | k in l3BytesPS && l3BytesPS[k].numaID == numa :: NUMAContribution(l3BytesPS[k], arch)
  }

  /** The total bandwidth of NUMA node `numa`: the sum over its L3 caches. */
  ghost function NUMATotal(l3BytesPS: map<int, L3CacheBytesPS>, arch: CPUArch, numa: int): int {
    MapSum(Contributions(l3BytesPS, arch, numa))
  }

  /** Adding one L3 cache adds its contribution to its own node only. */
  lemma NUMATotalInsert(m: map<int, L3CacheBytesPS>, k: int, e: L3CacheBytesPS, arch: CPUArch, numa: int)
    requires k !in m
    ensures NUMATotal(m[k := e], arch, numa) ==
      NUMATotal(m, arch, numa) + (if e.numaID == numa then NUMAContribution(e, arch) else 0)
  {
    var before, after := Contributions(m, arch, numa), Contributions(m[k := e], arch, numa);
    if e.numaID == numa {
      var extended := before[k := NUMAContribution(e, arch)];
      forall j ensures j in after <==> j in extended {
      }
      assert after == extended;
      MapSumInsert(before, k, NUMAContribution(e, arch));
    } else {
      forall j ensures j in after <==> j in before {
      }
      assert after == before;
    }
  }

  /** A node no L3 cache belongs to has total 0. */
  lemma NUMATotalAbsent(m: map<int, L3CacheBytesPS>, arch: CPUArch, numa: int)
    requires numa !in NUMAIDs(m)
    ensures NUMATotal(m, arch, numa) == 0
  {
    forall k | k in m ensures m[k].numaID != numa {
      assert m[k].numaID in NUMAIDs(m);
    }
    assert Contributions(m, arch, numa) == map[];
  }

  lemma NUMAIDsInsert(m: map<int, L3CacheBytesPS>, k: int, e: L3CacheBytesPS)
    requires k !in m
    ensures NUMAIDs(m[k := e]) == NUMAIDs(m) + {e.numaID}
  {
    forall n | n in NUMAIDs(m[k := e]) ensures n in NUMAIDs(m) + {e.numaID} {
      var j :| j in m[k := e] && m[k := e][j].numaID == n;
      if j != k {
        assert m[j].numaID in NUMAIDs(m);
      }
    }
    forall n | n in NUMAIDs(m) ensures n in NUMAIDs(m[k := e]) {
      var j :| j in m && m[j].numaID == n;
      assert m[k := e][j].numaID in NUMAIDs(m[k := e]);
    }
    assert m[k := e][k].numaID in NUMAIDs(m[k := e]);
  }

  /** The L3 caches a visit of `l3BytesPS` has processed while `rest` remains. */
  ghost function Processed(l3BytesPS: map<int, L3CacheBytesPS>, rest: set<int>): map<int, L3CacheBytesPS> {
    map k | k in l3BytesPS && k !in rest :: l3BytesPS[k]
  }

  lemma ProcessedStep(l3BytesPS: map<int, L3CacheBytesPS>, rest: set<int>, k: int)
    requires k in rest && k in l3BytesPS
    ensures k !in Processed(l3BytesPS, rest)
    ensures Processed(l3BytesPS, rest - {k}) == Processed(l3BytesPS, rest)[k := l3BytesPS[k]]
  {
  }

  /** `result` holds the per-NUMA totals of the L3 caches in `done`. */
  ghost predicate AggregatedSoFar(result: map<int, int>, done: map<int, L3CacheBytesPS>, arch: CPUArch) {
    && result.Keys == NUMAIDs(done)
    && forall n :: n in result ==> result[n] == NUMATotal(done, arch, n)
  }

  /** The total of one node after folding in one more L3 cache. */
  lemma AggregateStepAt(result: map<int, int>, done: map<int, L3CacheBytesPS>, k: int, e: L3CacheBytesPS, arch: CPUArch, n: int)
    requires k !in done
    requires AggregatedSoFar(result, done, arch)
    requires n in result || n == e.numaID
    ensures var result' := result[e.numaID := (if e.numaID in result then result[e.numaID] else 0) + NUMAContribution(e, arch)];
      result'[n] == NUMATotal(done[k := e], arch, n)
  {
    NUMATotalInsert(done, k, e, arch, n);
    if n !in result {
      NUMATotalAbsent(done, arch, n);
    }
  }

  /** The totals after folding in the contribution of one more L3 cache `e`. */
  function FoldL3(result: map<int, int>, e: L3CacheBytesPS, arch: CPUArch): map<int, int> {
    result[e.numaID := (if e.numaID in result then result[e.numaID] else 0) + NUMAContribution(e, arch)]
  }

  /** Folding one more L3 cache into the totals keeps them the totals. */
  lemma AggregateStep(result: map<int, int>, done: map<int, L3CacheBytesPS>, k: int, e: L3CacheBytesPS, arch: CPUArch)
    requires k !in done
    requires AggregatedSoFar(result, done, arch)
    ensures AggregatedSoFar(FoldL3(result, e, arch), done[k := e], arch)
  {
    var result' := FoldL3(result, e, arch);
    NUMAIDsInsert(done, k, e);
    assert result'.Keys == result.Keys + {e.numaID};
    forall n | n in result' ensures result'[n] == NUMATotal(done[k := e], arch, n) {
      assert n in result || n == e.numaID;
      AggregateStepAt(result, done, k, e, arch, n);
    }
  }

  /** One iteration of the aggregation loop keeps its invariant. */
  lemma AggregateLoopStep(l3BytesPS: map<int, L3CacheBytesPS>, rest: set<int>, result: map<int, int>, k: int, arch: CPUArch)
    requires k in rest && rest <= l3BytesPS.Keys
    requires AggregatedSoFar(result, Processed(l3BytesPS, rest), arch)
    ensures AggregatedSoFar(FoldL3(result, l3BytesPS[k], arch), Processed(l3BytesPS, rest - {k}), arch)
  {
    ProcessedStep(l3BytesPS, rest, k);
    AggregateStep(result, Processed(l3BytesPS, rest), k, l3BytesPS[k], arch);
  }

  /**
   * aggregateNUMABytesPS: the per-NUMA totals, one entry for each node some
   * L3 cache belongs to, whatever order the map of L3 caches is visited in.
   */
  method AggregateNUMABytesPS(l3BytesPS: map<int, L3CacheBytesPS>, arch: CPUArch) returns (result: map<int, int>)
    ensures result.Keys == NUMAIDs(l3BytesPS)
    ensures forall n :: n in result ==> result[n] == NUMATotal(l3BytesPS, arch, n)
  {
    result := map[];
    var rest := l3BytesPS.Keys;
    assert NUMAIDs(map[]) == {};
    while rest != {}
      invariant rest <= l3BytesPS.Keys
      invariant AggregatedSoFar(result, Processed(l3BytesPS, rest), arch)
      decreases |rest|
    {
      var k := Pick(rest);
      AggregateLoopStep(l3BytesPS, rest, result, k, arch);
      result := FoldL3(result, l3BytesPS[k], arch);
      rest := rest - {k};
    }
    assert Processed(l3BytesPS, rest) == l3BytesPS;
  }

  /** The three L3 caches of the aggregation test: two on node 0, one on node 1. */
  function AggregationExample(): map<int, L3CacheBytesPS> {
    map[
      1 := L3CacheBytesPS(0, 10, 5, 2, 100),
      2 := L3CacheBytesPS(0, 20, 10, 4, 100),
      3 := L3CacheBytesPS(1, 30, 15, 6, 100)]
  }

  /** The expectations of the aggregation test, for each architecture. */
  lemma AggregationExampleTotals()
    ensures NUMATotal(AggregationExample(), OtherArch, 0) == 30
    ensures NUMATotal(AggregationExample(), OtherArch, 1) == 30
    ensures NUMATotal(AggregationExample(), AMDMilanArch, 0) == 30 + 2 + 4
    ensures NUMATotal(AggregationExample(), AMDMilanArch, 1) == 30 + 6
    ensures NUMATotal(AggregationExample(), AMDGenoaArch, 0) == 30 + 5 + 10
    ensures NUMATotal(AggregationExample(), AMDGenoaArch, 1) == 30 + 15
  {
    var ex := AggregationExample();
    var m1 := map[1 := ex[1]];
    var m2 := m1[2 := ex[2]];
    assert ex == m2[3 := ex[3]];
    forall arch: CPUArch, n: int | n == 0 || n == 1
      ensures NUMATotal(ex, arch, n) ==
        (if n == 0 then NUMAContribution(ex[1], arch) + NUMAContribution(ex[2], arch)
         else NUMAContribution(ex[3], arch))
    {
      NUMATotalAbsent(map[], arch, n);
      NUMATotalInsert(map[], 1, ex[1], arch, n);
      assert map[][1 := ex[1]] == m1;
      NUMATotalInsert(m1, 2, ex[2], arch, n);
      NUMATotalInsert(m2, 3, ex[3], arch, n);
    }
  }
}
