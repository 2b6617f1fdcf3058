/**
 * The threshold evaluator: a metric value against a (critical, warning) pair,
 * with strictly-greater comparisons on both thresholds, and the two
 * calibrated instances the scripts use (cluster utilization and iSCSI
 * sessions).
 */
module Thresholds {
  import opened Nagios

  /**
   * range_check / rangeCheck. The parameter order is the source's:
   * critical threshold, warning threshold, value.
   */
  function RangeCheck(critical: real, warning: real, value: real): (status: ExitCode)
    ensures status == CRITICAL <==> value > critical
    ensures status == WARNING <==> value <= critical && value > warning
    ensures status == OK <==> value <= critical && value <= warning
    ensures status in {OK, WARNING, CRITICAL}
  {
    if value > critical then CRITICAL
    else if value > warning then WARNING
    else OK
  }

  /** A value exactly at the critical threshold is never CRITICAL. */
  lemma CriticalBoundaryIsExclusive(critical: real, warning: real)
    ensures RangeCheck(critical, warning, critical) == (if critical > warning then WARNING else OK)
  {
  }

  /** A larger value never yields a lower severity, whatever the two thresholds are. */
  lemma RangeCheckMonotone(critical: real, warning: real, v1: real, v2: real)
    requires v1 <= v2
    ensures RangeCheck(critical, warning, v1) <= RangeCheck(critical, warning, v2)
  {
  }

  /** Cluster utilization percentage check: warning above 80, critical above 90. */
  function UtilizationCheck(utilization: real): (status: ExitCode)
    ensures status == CRITICAL <==> utilization > 90.0
    ensures status == WARNING <==> 80.0 < utilization <= 90.0
    ensures status == OK <==> utilization <= 80.0
  {
    RangeCheck(90.0, 80.0, utilization)
  }

  /** The session ceiling: 1000 sessions per ensemble member. */
  function MaxSessions(ensembleCount: nat): nat
  {
    ensembleCount * 1000
  }

  /** The session warning level, 90% of the ceiling (an exact real here). */
  function WarnSessions(ensembleCount: nat): (warn: real)
    ensures 10.0 * warn == 9.0 * (MaxSessions(ensembleCount) as real)
    ensures 0.0 <= warn <= MaxSessions(ensembleCount) as real
    ensures ensembleCount > 0 ==> warn < MaxSessions(ensembleCount) as real
  {
    (MaxSessions(ensembleCount) as real) * 0.9
  }

  /**
   * The iSCSI session check, stated in integers: CRITICAL above the ceiling,
   * WARNING above 90% of it (10n > 9 max), OK otherwise.
   */
  function SessionCheck(numSessions: nat, ensembleCount: nat): (status: ExitCode)
    ensures status == CRITICAL <==> numSessions > 1000 * ensembleCount
    ensures status == WARNING <==> 9000 * ensembleCount < 10 * numSessions <= 10000 * ensembleCount
    ensures status == OK <==> 10 * numSessions <= 9000 * ensembleCount
  {
    RangeCheck(MaxSessions(ensembleCount) as real, WarnSessions(ensembleCount), numSessions as real)
  }

  /**
   * The ceiling is the most sessions that are not CRITICAL, and (with at
   * least one member) 90% of it is the most sessions that are OK.
   */
  lemma SessionLevels(ensembleCount: nat)
    ensures SessionCheck(MaxSessions(ensembleCount), ensembleCount) != CRITICAL
    ensures SessionCheck(MaxSessions(ensembleCount) + 1, ensembleCount) == CRITICAL
    ensures SessionCheck(900 * ensembleCount, ensembleCount) == OK
    ensures ensembleCount > 0 ==> SessionCheck(900 * ensembleCount + 1, ensembleCount) == WARNING
  {
  }

  /** With one ensemble member: 950 and 1000 warn, 1001 is critical, 900 is OK. */
  lemma SessionCheckOneMember()
    ensures SessionCheck(950, 1) == WARNING
    ensures SessionCheck(1000, 1) == WARNING
    ensures SessionCheck(1001, 1) == CRITICAL
    ensures SessionCheck(900, 1) == OK
  {
  }

  /** With no ensemble member counted every session is over the ceiling. */
  lemma SessionCheckNoMembers(numSessions: nat)
    ensures SessionCheck(numSessions, 0) == if numSessions == 0 then OK else CRITICAL
  {
  }
}
