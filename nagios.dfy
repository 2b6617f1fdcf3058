/**
 * Exit codes of a monitoring plugin in the Nagios convention, shared by both
 * check scripts: the process exit code encodes the severity of the run.
 */
module Nagios {

  /** A plugin exit code: OK=0, WARNING=1, CRITICAL=2, UNKNOWN=3, DEPENDENT=4. */
  type ExitCode = c: int | 0 <= c <= 4

  const OK: ExitCode := 0
  const WARNING: ExitCode := 1
  const CRITICAL: ExitCode := 2
  const UNKNOWN: ExitCode := 3
  const DEPENDENT: ExitCode := 4

  datatype Option<T> = None | Some(value: T)

  /**
   * The "Exit State" label shown in the interactive table. The scripts
   * assign a label only for the codes 0..3; for DEPENDENT the label variable
   * stays unassigned, which is modelled as None.
   */
  function ExitLabel(status: ExitCode): (shown: Option<string>)
    ensures shown.Some? <==> status != DEPENDENT
    ensures shown.Some? ==> |shown.value| > 0 && (shown.value[0] == '*' <==> status != OK)
  {
    if status == OK then Some("OK")
    else if status == WARNING then Some("*Warning")
    else if status == CRITICAL then Some("*Critical")
    else if status == UNKNOWN then Some("*Unknown")
    else None
  }

  /** Distinct exit codes get distinct labels, so the label identifies the exit code. */
  lemma ExitLabelInjective(a: ExitCode, b: ExitCode)
    requires ExitLabel(a).Some? && ExitLabel(a) == ExitLabel(b)
    ensures a == b
  {
  }
}
