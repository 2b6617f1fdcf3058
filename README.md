# SolidFire cluster check: severity engine

A Dafny model of the decision logic shared by the two SolidFire monitoring
plugins `checkSF_element_v1_6.py` (vendor SDK) and `checkSF_http_v1_6.py`
(JSON-RPC over HTTPS). Both follow the Nagios convention: the exit status a run
computes is its severity, OK=0, WARNING=1, CRITICAL=2, UNKNOWN=3, DEPENDENT=4,
and the script ends with that status as its exit code (see "## Left out" for the
element script's non-interactive output, which fails before it gets there).

The engine has four parts.

- **Threshold evaluator** (`range_check` / `rangeCheck`). It maps a value and a
  (critical, warning) pair to OK, WARNING or CRITICAL using strict `>`.
- **Status aggregator** (`add_note` / `addNote`). It folds each check's severity
  into the running exit status by keeping the larger code. It marks the displayed
  value of a non-OK check with `*`.
- **Disk-activity tracker** (`read_write_check` / `readwriteCheck`). It compares
  the current counter text with the one the previous run stored in the cluster's
  scratch file, then always overwrites that file.
- **Fixed decisions**: the calibrated utilization and session thresholds, the
  exit-state labels, and the HTTP script's argument validation and node mode.

The helper functions are identical in both scripts, so each is modelled once.

Files and modules:

- `nagios.dfy` (`Nagios`): exit codes and the exit-state label.
- `thresholds.dfy` (`Thresholds`): `RangeCheck` and its utilization and session instances.
- `aggregation.dfy` (`Aggregation`): `AddNote` and the fold `Aggregate` over an ordered run of checks.
- `decimal.dfy` (`Decimal`): Python's `str()` of a counter, and the disk-activity key `str(readBytes) + str(writeBytes)`.
- `disk_activity.dfy` (`DiskActivity`): the activity decision, and the class `ActivityStore`. Its field `files` maps a scratch-file name to the file's contents. `ReadWriteCheck` updates it in place.
- `cluster_run.dfy` (`ClusterRun`): the session-counting loop and the cluster-wide run. The run is the checks part of the element script's main body (the value of `exit_status` after line 241) and the HTTP script's `mvip` mode. It evaluates disk activity, then utilization, then sessions, and threads `exitStatus` through `AddNote`, starting from OK.
- `http_script.dfy` (`HttpScript`): `commandLineOptions` and node mode.

Three points about the scripts' own behaviour:

- The disk check treats the counter text `"00"` as CRITICAL. It does not test whether the number is zero. `Decimal.ZeroKey` shows the two agree for the key the script builds.
- The stored key joins the two counter texts. It does not add the numbers. This is not a defect for counters that never decrease: `Decimal.SameKeyIffNoChange` proves the key changes exactly when a counter changes. Only a counter reset can make two different readings collide (`Decimal.ResetCountersCanCollide`).
- The previous value is read with `readline()` on a file opened in text mode. It is the file's first line, and a line ending `\n`, `\r` or `\r\n` comes back as `\n`. `DiskActivity.ReadLine` models this.

## Model

| member | source | states |
|---|---|---|
| `Nagios.ExitLabel` | checkSF_http_v1_6.py:294-301 | Labels exist exactly for codes 0..3 (none for DEPENDENT). A label starts with `*` exactly when the code is not OK. |
| `Nagios.ExitLabelInjective` | checkSF_element_v1_6.py:258-265 | Two codes with the same label are the same code. |
| `Thresholds.RangeCheck` | checkSF_http_v1_6.py:138-145 | CRITICAL iff value > critical. WARNING iff warning < value <= critical. OK iff the value is at or below both thresholds. The result is always in {OK, WARNING, CRITICAL}. |
| `Thresholds.CriticalBoundaryIsExclusive` | checkSF_element_v1_6.py:108-112 | A value equal to the critical threshold is WARNING when critical > warning, and OK otherwise. It is never CRITICAL. |
| `Thresholds.RangeCheckMonotone` | checkSF_element_v1_6.py:108-115 | For any thresholds, a larger value never gets a lower severity. |
| `Thresholds.UtilizationCheck` | checkSF_http_v1_6.py:266-268 | Utilization is CRITICAL above 90, WARNING above 80 up to and including 90, and OK at 80 or below. |
| `Thresholds.SessionLevels` | checkSF_element_v1_6.py:237-241 | The ceiling `maxSessions` is the largest session count that is not CRITICAL. 900 per member is the largest count that is OK, and with at least one member one more session is WARNING. |
| `Thresholds.WarnSessions` | checkSF_element_v1_6.py:238 | The warning level is 90% of the ceiling (10·warn = 9·max). It lies between 0 and the ceiling, and is strictly below the ceiling when there is at least one member. |
| `Thresholds.SessionCheck` | checkSF_element_v1_6.py:237-241 | With max = 1000 per ensemble member: CRITICAL iff sessions > max, WARNING iff 9·max < 10·sessions <= 10·max, OK iff 10·sessions <= 9·max. |
| `Thresholds.SessionCheckOneMember` | checkSF_http_v1_6.py:271-275 | With one ensemble member, 950 and 1000 sessions are WARNING, 1001 is CRITICAL and 900 is OK. |
| `Thresholds.SessionCheckNoMembers` | checkSF_element_v1_6.py:236-241 | With an ensemble count of 0, any session at all is CRITICAL. |
| `Aggregation.AddNote` | checkSF_element_v1_6.py:118-123 | An OK result returns the status and value unchanged. A non-OK result appends exactly one `*`. The new status is the larger of the running status and the result: at least both, and equal to one of them. |
| `Aggregation.Aggregate` | checkSF_element_v1_6.py:223-241 | The `add_note` fold from OK over the checks in order gives one displayed value per check. What the status is, is stated by the lemmas below. |
| `Aggregation.AggregateEmpty` | checkSF_element_v1_6.py:35 | With no checks, the status stays at its initial OK and nothing is displayed. |
| `Aggregation.AggregateIsWorst` | checkSF_element_v1_6.py:223-241 | The status after the fold is at least every check's severity, and is one of them or OK. So it is the maximum severity. |
| `Aggregation.AggregateValues` | checkSF_http_v1_6.py:257-275 | After the fold, the i-th displayed value is the i-th check's value. It carries `*` exactly when that check is not OK. Display order is check order. |
| `Aggregation.AggregateNeverDecreases` | checkSF_http_v1_6.py:148-153 | The status after any prefix of the checks is at most the final status. |
| `Aggregation.AggregateOrderIrrelevant` | checkSF_element_v1_6.py:226-241 | Two runs whose checks have the same multiset of severities end in the same status, whatever the order. |
| `Decimal.DecimalString` | checkSF_http_v1_6.py:233-234 | `str()` of a counter is non-empty, all digits, and starts with `0` only for 0. |
| `Decimal.ActivityKey` | checkSF_http_v1_6.py:259 | The key `str(readBytes) + str(writeBytes)` is all digits, so it contains no line ending. |
| `Decimal.ZeroKey` | checkSF_http_v1_6.py:119-121 | The key `str(read)+str(write)` equals `"00"` exactly when both counters are zero. |
| `Decimal.SameKeyIffNoChange` | checkSF_http_v1_6.py:259 | For non-decreasing counters, the stored key is unchanged exactly when neither counter changed. |
| `Decimal.ResetCountersCanCollide` | checkSF_http_v1_6.py:233-234 | Counters that go down can give the same key: (1, 23) and (12, 3). |
| `DiskActivity.ReadLine` | checkSF_http_v1_6.py:111-112 | Text-mode `readline()` returns the whole contents when there is no `\n` or `\r`. Otherwise it returns the contents up to the first line ending, followed by a single `\n`. |
| `DiskActivity.CheckActivity` | checkSF_element_v1_6.py:89-104 | No stored record gives ("n/a", UNKNOWN). A stored record gives ("No", CRITICAL) for `"00"`, then ("No", WARNING) if the value is unchanged, and otherwise ("Yes", OK). |
| `DiskActivity.ActivityLabelMatchesStatus` | checkSF_element_v1_6.py:89-102 | "Yes" iff OK. "No" iff WARNING or CRITICAL. "n/a" iff there was no stored record. |
| `DiskActivity.Previous` | checkSF_element_v1_6.py:79-82 | A previous value exists exactly when the cluster's scratch file exists. |
| `DiskActivity.RepeatedValueReportsNoActivity` | checkSF_http_v1_6.py:109-127 | After a value with no `\n` or `\r` is stored, checking the same value again reports "No": WARNING, or CRITICAL for `"00"`. |
| `DiskActivity.CarriageReturnReadsBackChanged` | checkSF_http_v1_6.py:111-127 | A stored `"5\r"` reads back as `"5\n"`, so checking `"5\r"` again reports ("Yes", OK). |
| `DiskActivity.ActivityStore.ReadWriteCheck` | checkSF_http_v1_6.py:108-135 | Returns the decision of `CheckActivity` on the file's first line, or on no record. In every branch the file then holds the new value and no other file changes. |
| `ClusterRun.CountSessions` | checkSF_element_v1_6.py:202-204 | The counting loop gives the number of listed sessions. |
| `ClusterRun.ScratchFileName` | checkSF_http_v1_6.py:258 | The scratch file is `/tmp/cluster-` followed by the address and `.txt`. |
| `ClusterRun.ScratchFileNameInjective` | checkSF_http_v1_6.py:258 | Different cluster addresses never share a scratch file. |
| `ClusterRun.RunClusterChecks` | checkSF_http_v1_6.py:257-275 | The exit status is the `AddNote` fold, from OK, over the enabled checks in script order. Each enabled value is displayed marked iff not OK. A disabled disk check displays "n/a". The scratch file is overwritten with the key exactly when the disk check is enabled. |
| `ClusterRun.RunStatusIsWorstEnabled` | checkSF_element_v1_6.py:223-241 | The run's status is at least the severity of each enabled check, and equals one of them or OK. |
| `ClusterRun.RunStatusHasLabel` | checkSF_element_v1_6.py:258-266 | A run never ends DEPENDENT, so its exit state always has a label. |
| `ClusterRun.NoDiskCheckNeverUnknown` | checkSF_element_v1_6.py:232-241 | With the disk check off, as shipped, the run ends OK, WARNING or CRITICAL, never UNKNOWN. |
| `ClusterRun.UtilizationScenarios` | checkSF_http_v1_6.py:266-275 | With sessions under 90% of the ceiling, utilization 85 ends WARNING (`*Warning`) and 95 ends CRITICAL. |
| `HttpScript.CommandLineExitCode` | checkSF_http_v1_6.py:42-58 | The script exits at once with UNKNOWN exactly when argv has fewer than 6 entries or the mode is neither "mvip" nor "node". Otherwise it goes on with no exit code yet. |
| `HttpScript.NodeModeExitCode` | checkSF_http_v1_6.py:184-188 | Node mode exits at once with UNKNOWN (through `printUsage`) exactly when the node's answer has no state. |
| `HttpScript.CommandLineOptions` | checkSF_http_v1_6.py:48-58 | Proceeds iff there are at least 6 argv entries and the mode is "mvip" or "node", and then returns argv[1..5] in order. Otherwise it exits with the matching usage message. |
| `HttpScript.NodeMode` | checkSF_http_v1_6.py:182-204 | A missing state gives a usage exit. A non-Active node gives UNKNOWN with name and MVIP "n/a". An Active node with an `mvip` detail gives OK with that MVIP. Otherwise it gives WARNING with "*n/a Not in Cluster". |
| `HttpScript.NodeModeStatus` | checkSF_http_v1_6.py:190-204 | Node mode is OK exactly for an Active node that reports an MVIP. It is never CRITICAL, and its exit state always has a label. |

## Left out

- Cluster access is not modelled. This covers `ElementFactory` calls, `sendPost` (JSON-RPC over HTTPS with a Basic-auth header) and their failure exits. What they return is taken as input: counters, utilization, session list, ensemble count, node state and details.
- Hostname and address checks (`ip_check`, `check_name`, `ipCheck`, `checkName`) and the element script's argparse are not modelled. They depend on socket and address libraries.
- The HTTP script's choice between node mode and mvip mode is not modelled as one member. `NodeMode` and `RunClusterChecks` model the two branches separately.
- Output rendering is not modelled: `pretty_print`/`prettyPrint`, the terminal-or-pipe branch and the timestamps. Only the exit-state labels are kept.
- The percentage arithmetic of the element script is not modelled. It is floating-point, display-only, and divides by totals that may be zero.
- Parsing utilization with `float(...)` is not modelled. A run takes both the utilization value and the text it was reported as.
- The element script's utilization display is modelled as text. If the SDK returns a number, the source's `value + "*"` would fail on a non-OK utilization. The model does not capture that failure.
- The 90% session threshold is an exact real, not a float. For fewer than 10^12 ensemble members, `1000·k` and `900·k` are exact doubles. The double nearest 0.9 differs from 0.9 by about 2.2·10^-17, so the exact product differs from `900·k` by a relative 2.5·10^-17. That is less than half a unit in the last place of `900·k`, which is at least a relative 5.5·10^-17. The float `max * .90` therefore rounds to exactly `900·k`, and Python compares an integer session count with it exactly. Beyond that bound the model may differ from the float computation.
- Real file handling is not modelled: open, seek, truncate, permissions and the exception branch that prints usage. The element script's handler calls an undefined `print_usage`. Concurrent runs writing one scratch file are not modelled either.
- For the element script, the model's status is the value of `exit_status` after line 241. The process exit code differs in non-interactive mode. There the script's one-line summary (lines 270-273) uses the undefined names `cluster_version`, `cluster_read_bytes` and `cluster_write_bytes`. The resulting `NameError` ends the process with exit code 1 before `sys.exit(exit_status)` at line 306, whatever the checks computed. A supervisor that runs the plugin with output redirected sees exit code 1.
- The element script's disk check (line 225) uses the undefined names `cluster_read_bytes`/`cluster_write_bytes`. It is disabled as shipped. `RunClusterChecks` uses the HTTP script's key, the read and write byte counter texts joined together.
- The element script's node loop that counts ensemble members is not modelled. It walks SDK objects and catches `AttributeError`. The ensemble count is an input.
- The element script's exit for an unknown helix type (`rep_count != 2`, lines 153-162) is not modelled. It stops the run before any check.
- In node mode, a missing `cluster` or `details` field is not modelled. The source raises an uncaught `KeyError` there.
