/**
 * The status aggregator: each check's severity is folded into the running
 * exit status by add_note / addNote, which keeps the larger code and marks
 * the displayed value of every check that is not OK with a trailing "*".
 */
module Aggregation {
  import opened Nagios

  /** One evaluated check: the severity it produced and its display value. */
  datatype CheckResult = CheckResult(severity: ExitCode, value: string)

  /** The running result of a run: the exit status and the displayed values, in check order. */
  datatype Summary = Summary(status: ExitCode, values: seq<string>)

  /**
   * add_note / addNote: a non-OK result marks the value with "*" and raises
   * the exit status to the result if that is higher; an OK result changes
   * nothing. The new status is the larger of the two codes.
   */
  function AddNote(testResult: ExitCode, exitStatus: ExitCode, value: string): (r: (ExitCode, string))
    ensures testResult == OK ==> r == (exitStatus, value)
    ensures testResult != OK ==> r.1 == value + "*"
    ensures r.0 >= exitStatus && r.0 >= testResult
    ensures r.0 == exitStatus || r.0 == testResult
  {
    if testResult != OK then
      (if testResult > exitStatus then testResult else exitStatus, value + "*")
    else
      (exitStatus, value)
  }

  /** How a check's value is displayed after aggregation: marked exactly when it is not OK. */
  function Annotated(c: CheckResult): string
  {
    if c.severity == OK then c.value else c.value + "*"
  }

  /**
   * The scripts' sequence of add_note steps, starting from OK and taking the
   * checks in the order given (the last check is the last step).
   */
  function Aggregate(checks: seq<CheckResult>): (s: Summary)
    ensures |s.values| == |checks|
  {
    if checks == [] then Summary(OK, [])
    else
      var prior := Aggregate(checks[..|checks| - 1]);
      var last := checks[|checks| - 1];
      var noted := AddNote(last.severity, prior.status, last.value);
      Summary(noted.0, prior.values + [noted.1])
  }

  /** One more check is one more add_note step on the status so far. */
  lemma AggregateStep(checks: seq<CheckResult>, c: CheckResult)
    ensures Aggregate(checks + [c]).status == AddNote(c.severity, Aggregate(checks).status, c.value).0
  {
    assert (checks + [c])[..|checks|] == checks;
  }

  /** The severities of a sequence of checks, in order. */
  function Severities(checks: seq<CheckResult>): (s: seq<ExitCode>)
    ensures |s| == |checks|
    ensures forall i :: 0 <= i < |checks| ==> s[i] == checks[i].severity
  {
    seq(|checks|, i requires 0 <= i < |checks| => checks[i].severity)
  }

  /** With no checks the run is OK and nothing is displayed. */
  lemma AggregateEmpty()
    ensures Aggregate([]) == Summary(OK, [])
  {
  }

  /**
   * The overall status is the worst severity of the checks: at least every
   * check's severity, and equal to one of them, or OK when none ran above OK.
   */
  lemma {:induction false} AggregateIsWorst(checks: seq<CheckResult>)
    ensures forall i :: 0 <= i < |checks| ==> checks[i].severity <= Aggregate(checks).status
    ensures Aggregate(checks).status == OK ||
            exists i :: 0 <= i < |checks| && checks[i].severity == Aggregate(checks).status
  {
    if checks != [] {
      var front := checks[..|checks| - 1];
      AggregateIsWorst(front);
      var status := Aggregate(checks).status;
      var prior := Aggregate(front).status;
      if status != OK && status == prior {
        var i :| 0 <= i < |front| && front[i].severity == prior;
        assert checks[i].severity == status;
      }
      if status != OK && status != prior {
        assert checks[|checks| - 1].severity == status;
      }
    }
  }

  /**
   * Every displayed value is its check's value, marked with "*" exactly
   * when that check is not OK; display order is check order.
   */
  lemma {:induction false} AggregateValues(checks: seq<CheckResult>)
    ensures forall i :: 0 <= i < |checks| ==> Aggregate(checks).values[i] == Annotated(checks[i])
  {
    if checks != [] {
      AggregateValues(checks[..|checks| - 1]);
    }
  }

  /** The running status never decreases: after any prefix of the checks it is at most the final one. */
  lemma AggregateNeverDecreases(checks: seq<CheckResult>, k: nat)
    requires k <= |checks|
    ensures Aggregate(checks[..k]).status <= Aggregate(checks).status
  {
    AggregateIsWorst(checks[..k]);
    AggregateIsWorst(checks);
    var prefix := checks[..k];
    if Aggregate(prefix).status != OK {
      var i :| 0 <= i < |prefix| && prefix[i].severity == Aggregate(prefix).status;
      assert checks[i].severity == Aggregate(prefix).status;
    }
  }

  /**
   * The order of the checks does not affect the overall status: two runs
   * whose checks have the same severities, in any order, end in the same status.
   */
  lemma AggregateOrderIrrelevant(a: seq<CheckResult>, b: seq<CheckResult>)
    requires multiset(Severities(a)) == multiset(Severities(b))
    ensures Aggregate(a).status == Aggregate(b).status
  {
    AtMostWorstOfPermutation(a, b);
    AtMostWorstOfPermutation(b, a);
  }

  /** Helper: the status of `a` is at most that of any run with the same severities. */
  lemma AtMostWorstOfPermutation(a: seq<CheckResult>, b: seq<CheckResult>)
    requires multiset(Severities(a)) == multiset(Severities(b))
    ensures Aggregate(a).status <= Aggregate(b).status
  {
    AggregateIsWorst(a);
    AggregateIsWorst(b);
    var s := Aggregate(a).status;
    if s != OK {
      var i :| 0 <= i < |a| && a[i].severity == s;
      assert Severities(a)[i] == s;
      assert s in multiset(Severities(b));
      var j :| 0 <= j < |b| && Severities(b)[j] == s;
      assert b[j].severity == s;
    }
  }
}
