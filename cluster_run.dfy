/**
 * A cluster-wide run of either script (the element script's main body and
 * the HTTP script's "mvip" mode): the enabled checks are evaluated in a
 * fixed order (disk activity, utilization, iSCSI sessions) and each is
 * folded into the exit status, which starts at OK, by add_note.
 */
module ClusterRun {
  import opened Nagios
  import opened Thresholds
  import opened Aggregation
  import opened Decimal
  import opened DiskActivity

  /** Which checks are enabled (checkDiskUse, checkUtilization, checkSessions). */
  datatype Config = Config(checkDiskUse: bool, checkUtilization: bool, checkSessions: bool)

  /** The configuration both scripts ship with: disk activity off, utilization and sessions on. */
  const ShippedConfig := Config(false, true, true)

  /**
   * The metrics a run takes from the cluster: cumulative byte counters, the
   * utilization percentage with the text it was reported as, the number of
   * iSCSI sessions and the number of ensemble members.
   */
  datatype Metrics = Metrics(
    readBytes: nat,
    writeBytes: nat,
    utilization: real,
    utilizationText: string,
    numSessions: nat,
    ensembleCount: nat)

  /** What a cluster run reports: the exit status and the displayed check values. */
  datatype ClusterReport = ClusterReport(exitStatus: ExitCode, diskUse: string, clusterUse: string, sessions: string)

  /** The session-counting loop: one per listed session. */
  method CountSessions<S>(sessions: seq<S>) returns (n: nat)
    ensures n == |sessions|
  {
    n := 0;
    for i := 0 to |sessions|
      invariant n == i
    {
      n := n + 1;
    }
  }

  /** The scratch file that holds a cluster's previous activity key. */
  function ScratchFileName(ip: string): (name: string)
    ensures |name| == |ip| + 17
    ensures name[..13] == "/tmp/cluster-" && name[13..|name| - 4] == ip && name[|name| - 4..] == ".txt"
  {
    "/tmp/cluster-" + ip + ".txt"
  }

  /** Different cluster addresses never share a scratch file. */
  lemma ScratchFileNameInjective(ip1: string, ip2: string)
    requires ScratchFileName(ip1) == ScratchFileName(ip2)
    ensures ip1 == ip2
  {
    var n1, n2 := ScratchFileName(ip1), ScratchFileName(ip2);
    assert ip1 == n1[13..|n1| - 4] == n2[13..|n2| - 4] == ip2;
  }

  function DiskCheck(activity: Activity): CheckResult
  {
    CheckResult(activity.status, activity.diskUse)
  }

  function UtilizationResult(m: Metrics): CheckResult
  {
    CheckResult(UtilizationCheck(m.utilization), m.utilizationText)
  }

  function SessionResult(m: Metrics): CheckResult
  {
    CheckResult(SessionCheck(m.numSessions, m.ensembleCount), DecimalString(m.numSessions))
  }

  /** The checks a run evaluates, in the order the scripts evaluate them. */
  function EnabledChecks(config: Config, m: Metrics, activity: Activity): (checks: seq<CheckResult>)
    ensures |checks| <= 3
  {
    DiskPart(config, activity) + UtilizationPart(config, m) + SessionPart(config, m)
  }

  function DiskPart(config: Config, activity: Activity): seq<CheckResult>
  {
    if config.checkDiskUse then [DiskCheck(activity)] else []
  }

  function UtilizationPart(config: Config, m: Metrics): seq<CheckResult>
  {
    if config.checkUtilization then [UtilizationResult(m)] else []
  }

  function SessionPart(config: Config, m: Metrics): seq<CheckResult>
  {
    if config.checkSessions then [SessionResult(m)] else []
  }

  /**
   * The cluster run: the exit status is the add_note fold over the enabled
   * checks, each enabled check's value is displayed marked when it is not
   * OK, and the scratch file is overwritten with the activity key exactly
   * when the disk check is enabled.
   */
  method RunClusterChecks(store: ActivityStore, ip: string, config: Config, m: Metrics)
    returns (report: ClusterReport)
    modifies store
    ensures var activity := CheckActivity(Previous(old(store.files), ScratchFileName(ip)),
                                          ActivityKey(m.readBytes, m.writeBytes));
            && report.exitStatus == Aggregate(EnabledChecks(config, m, activity)).status
            && report.diskUse == (if config.checkDiskUse then Annotated(DiskCheck(activity)) else "n/a")
    ensures report.clusterUse == if config.checkUtilization then Annotated(UtilizationResult(m)) else m.utilizationText
    ensures report.sessions == if config.checkSessions then Annotated(SessionResult(m)) else DecimalString(m.numSessions)
    ensures store.files == if config.checkDiskUse
                           then old(store.files)[ScratchFileName(ip) := ActivityKey(m.readBytes, m.writeBytes)]
                           else old(store.files)
  {
    ghost var activity := CheckActivity(Previous(store.files, ScratchFileName(ip)),
                                        ActivityKey(m.readBytes, m.writeBytes));
    var exitStatus: ExitCode := OK;
    var testResult: ExitCode;

    var diskUse: string;
    if config.checkDiskUse {
      var fileName := ScratchFileName(ip);
      var newUse := ActivityKey(m.readBytes, m.writeBytes);
      diskUse, testResult := store.ReadWriteCheck(fileName, newUse);
      var noted := AddNote(testResult, exitStatus, diskUse);
      exitStatus, diskUse := noted.0, noted.1;
    } else {
      diskUse := "n/a";
    }
    ghost var prefix := DiskPart(config, activity);
    OptionalStep([], prefix, config.checkDiskUse, DiskCheck(activity));

    var clusterUse := m.utilizationText;
    if config.checkUtilization {
      testResult := RangeCheck(90.0, 80.0, m.utilization);
      var noted := AddNote(testResult, exitStatus, clusterUse);
      exitStatus, clusterUse := noted.0, noted.1;
    }
    OptionalStep(prefix, UtilizationPart(config, m), config.checkUtilization, UtilizationResult(m));
    prefix := prefix + UtilizationPart(config, m);

    var maxSessions := MaxSessions(m.ensembleCount);
    var warnSessions := WarnSessions(m.ensembleCount);
    var sessions := DecimalString(m.numSessions);
    if config.checkSessions {
      testResult := RangeCheck(maxSessions as real, warnSessions, m.numSessions as real);
      var noted := AddNote(testResult, exitStatus, sessions);
      exitStatus, sessions := noted.0, noted.1;
    }
    OptionalStep(prefix, SessionPart(config, m), config.checkSessions, SessionResult(m));

    report := ClusterReport(exitStatus, diskUse, clusterUse, sessions);
  }

  /**
   * Helper: a check that is evaluated only when enabled is one more add_note
   * step on the status so far when it is enabled, and no step otherwise.
   */
  lemma OptionalStep(prefix: seq<CheckResult>, part: seq<CheckResult>, enabled: bool, c: CheckResult)
    requires part == if enabled then [c] else []
    ensures Aggregate(prefix + part).status ==
              if enabled then AddNote(c.severity, Aggregate(prefix).status, c.value).0 else Aggregate(prefix).status
  {
    if enabled {
      AggregateStep(prefix, c);
    } else {
      assert prefix + part == prefix;
    }
  }

  /**
   * The run's exit status is the worst severity among the enabled checks:
   * no lower than any of them, and equal to one of them unless it is OK.
   */
  lemma RunStatusIsWorstEnabled(config: Config, m: Metrics, activity: Activity)
    ensures var s := Aggregate(EnabledChecks(config, m, activity)).status;
            && (config.checkDiskUse ==> activity.status <= s)
            && (config.checkUtilization ==> UtilizationCheck(m.utilization) <= s)
            && (config.checkSessions ==> SessionCheck(m.numSessions, m.ensembleCount) <= s)
            && (s == OK
                || (config.checkDiskUse && s == activity.status)
                || (config.checkUtilization && s == UtilizationCheck(m.utilization))
                || (config.checkSessions && s == SessionCheck(m.numSessions, m.ensembleCount)))
  {
    WorstOfThree(config.checkDiskUse, DiskCheck(activity),
                 config.checkUtilization, UtilizationResult(m),
                 config.checkSessions, SessionResult(m));
  }

  /** Helper: the fold over three optional checks is the worst of those present. */
  lemma WorstOfThree(bd: bool, d: CheckResult, bu: bool, u: CheckResult, bv: bool, v: CheckResult)
    ensures var s := Aggregate((if bd then [d] else []) + (if bu then [u] else []) + (if bv then [v] else [])).status;
            && (bd ==> d.severity <= s)
            && (bu ==> u.severity <= s)
            && (bv ==> v.severity <= s)
            && (s == OK || (bd && s == d.severity) || (bu && s == u.severity) || (bv && s == v.severity))
  {
    var checks := (if bd then [d] else []) + (if bu then [u] else []) + (if bv then [v] else []);
    AggregateIsWorst(checks);
    var s := Aggregate(checks).status;
    if bd {
      assert checks[0] == d;
    }
    if bu {
      assert checks[if bd then 1 else 0] == u;
    }
    if bv {
      assert checks[|checks| - 1] == v;
    }
    if s != OK {
      var i :| 0 <= i < |checks| && checks[i].severity == s;
      assert checks[i] in {d, u, v};
    }
  }

  /** A run never ends DEPENDENT, so its exit state always has a label. */
  lemma RunStatusHasLabel(config: Config, m: Metrics, activity: Activity)
    requires activity.status != DEPENDENT
    ensures ExitLabel(Aggregate(EnabledChecks(config, m, activity)).status).Some?
  {
    RunStatusIsWorstEnabled(config, m, activity);
  }

  /** Without the disk check a run is never UNKNOWN: only the threshold checks contribute. */
  lemma NoDiskCheckNeverUnknown(config: Config, m: Metrics, activity: Activity)
    requires !config.checkDiskUse
    ensures Aggregate(EnabledChecks(config, m, activity)).status in {OK, WARNING, CRITICAL}
  {
    RunStatusIsWorstEnabled(config, m, activity);
  }

  /**
   * Utilization 85 with sessions below 90% of the ceiling ends WARNING (exit
   * code 1, "*Warning"); utilization 95 ends CRITICAL (exit code 2).
   */
  lemma UtilizationScenarios(m: Metrics, activity: Activity)
    requires 10 * m.numSessions <= 9000 * m.ensembleCount
    ensures m.utilization == 85.0 ==>
              Aggregate(EnabledChecks(ShippedConfig, m, activity)).status == WARNING
              && ExitLabel(WARNING) == Some("*Warning")
    ensures m.utilization == 95.0 ==>
              Aggregate(EnabledChecks(ShippedConfig, m, activity)).status == CRITICAL
  {
    RunStatusIsWorstEnabled(ShippedConfig, m, activity);
  }
}
