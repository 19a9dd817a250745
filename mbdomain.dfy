/**
 * Fixed capacities of a memory-bandwidth sharing domain, in MBps. These are
 * compile-time constants of the controller; the policy engine reads them.
 */
module MBDomain {

  /** 120 GBps shared by all CCDs of one sharing domain. */
  const DomainTotalMB: int := 120_000

  /** 25 GBps reserved per NUMA node for a dedicated pod. */
  const ReservedPerNuma: int := 25_000

  /** A socket pod confined to one NUMA node gets at most 60 GBps. */
  const MaxMBDedicatedPerNuma: int := 60_000

  /** 6 GBps of lounge zone earmarked for the dedicated QoS. */
  const LoungeMB: int := 6_000

  /** The largest MB value the AMD schemata file accepts, in Go integer arithmetic. */
  const MaxMBPerCCD: int := 2048 / 8 * 1_000

  lemma MaxMBPerCCDValue()
    ensures MaxMBPerCCD == 256_000
  {
  }

  /** Lounge < reservation < dedicated cap < domain budget. */
  lemma BudgetsOrdered()
    ensures LoungeMB < ReservedPerNuma < MaxMBDedicatedPerNuma < DomainTotalMB
  {
  }
}
