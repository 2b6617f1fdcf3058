/**
 * The parts of the HTTP script that decide before or instead of the cluster
 * run: command-line validation and the single-node mode, whose exit status
 * is assigned outright rather than folded with add_note.
 */
module HttpScript {
  import opened Nagios

  /** Either the script goes on with a value, or it prints its usage text and exits UNKNOWN. */
  datatype Invocation<T> = Proceed(value: T) | UsageExit(error: string)

  /**
   * printUsage ends the process with exit code UNKNOWN; a run that proceeds
   * has no exit code yet.
   */
  function UsageExitStatus<T>(r: Invocation<T>): Option<ExitCode>
  {
    if r.UsageExit? then Some(UNKNOWN) else None
  }

  /** The positional arguments: (IP|HOSTNAME) PORT USERNAME PASSWORD (mvip|node). */
  datatype Options = Options(ip: string, port: string, username: string, password: string, ipType: string)

  /**
   * commandLineOptions: at least six argv entries (the script name and five
   * arguments, further ones ignored) and a mode of "mvip" or "node";
   * otherwise a usage exit.
   */
  function CommandLineOptions(argv: seq<string>): (r: Invocation<Options>)
    ensures r.Proceed? <==> |argv| >= 6 && argv[5] in {"mvip", "node"}
    ensures r.Proceed? ==>
              [r.value.ip, r.value.port, r.value.username, r.value.password, r.value.ipType] == argv[1..6]
    ensures |argv| < 6 ==> r == UsageExit("Incorrect Number of Arguments.")
    ensures |argv| >= 6 && argv[5] !in {"mvip", "node"} ==>
              r == UsageExit("Invalid type specified, use node or mvip")
  {
    if |argv| < 6 then UsageExit("Incorrect Number of Arguments.")
    else if argv[5] != "mvip" && argv[5] != "node" then UsageExit("Invalid type specified, use node or mvip")
    else Proceed(Options(argv[1], argv[2], argv[3], argv[4], argv[5]))
  }

  /**
   * The script ends at once with exit code UNKNOWN exactly when it has fewer
   * than five arguments or a mode other than mvip or node.
   */
  lemma CommandLineExitCode(argv: seq<string>)
    ensures UsageExitStatus(CommandLineOptions(argv)) ==
              if |argv| < 6 || argv[5] !in {"mvip", "node"} then Some(UNKNOWN) else None
  {
  }

  /** What node mode reports: exit status, node state, cluster name and MVIP. */
  datatype NodeReport = NodeReport(exitStatus: ExitCode, clusterState: string, clusterName: string, clusterMvip: string)

  /**
   * Node mode. `state` is the "state" field of the GetClusterState answer
   * (None when it is missing), `cluster` its "cluster" field, and `details`
   * the "details" of the TestConnectMvip answer, which is only asked for
   * when the node is Active.
   */
  function NodeMode(state: Option<string>, cluster: string, details: map<string, string>): (r: Invocation<NodeReport>)
    ensures r.UsageExit? <==> state.None?
    ensures r.UsageExit? ==> r.error == "State not found, are you sure this is a node?"
    ensures r.Proceed? ==> r.value.clusterState == state.value
    ensures r.Proceed? && state.value != "Active" ==>
              r.value.exitStatus == UNKNOWN && r.value.clusterMvip == "n/a" && r.value.clusterName == "n/a"
    ensures r.Proceed? && state.value == "Active" && "mvip" in details ==>
              r.value.exitStatus == OK && r.value.clusterMvip == details["mvip"] && r.value.clusterName == cluster
    ensures r.Proceed? && state.value == "Active" && "mvip" !in details ==>
              r.value.exitStatus == WARNING && r.value.clusterMvip == "*n/a Not in Cluster"
              && r.value.clusterName == cluster
  {
    match state
    case None => UsageExit("State not found, are you sure this is a node?")
    case Some(clusterState) =>
      if clusterState != "Active" then
        Proceed(NodeReport(UNKNOWN, clusterState, "n/a", "n/a"))
      else if "mvip" in details then
        Proceed(NodeReport(OK, clusterState, cluster, details["mvip"]))
      else
        Proceed(NodeReport(WARNING, clusterState, cluster, "*n/a Not in Cluster"))
  }

  /** Node mode ends at once with exit code UNKNOWN exactly when the node reports no state. */
  lemma NodeModeExitCode(state: Option<string>, cluster: string, details: map<string, string>)
    ensures UsageExitStatus(NodeMode(state, cluster, details)) == Some(UNKNOWN) <==> state.None?
  {
  }

  /**
   * Node mode is OK exactly for an Active node that reports an MVIP, never
   * CRITICAL, and always ends with a labelled exit state.
   */
  lemma NodeModeStatus(state: Option<string>, cluster: string, details: map<string, string>)
    requires NodeMode(state, cluster, details).Proceed?
    ensures var s := NodeMode(state, cluster, details).value.exitStatus;
            && (s == OK <==> state == Some("Active") && "mvip" in details)
            && s in {OK, WARNING, UNKNOWN}
            && ExitLabel(s).Some?
  {
  }
}
