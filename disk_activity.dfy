/**
 * The disk-activity tracker: read_write_check / readwriteCheck compare the
 * current byte-counter text with the one stored in a per-cluster scratch
 * file by the previous run, and always overwrite the file with the current
 * text. The file system is modelled as a map from file name to contents.
 */
module DiskActivity {
  import opened Nagios

  /** The label and severity the activity check reports. */
  datatype Activity = Activity(diskUse: string, status: ExitCode)

  /** A line ending in Python's text mode with universal newlines: "\n", "\r" or "\r\n". */
  predicate IsLineEnd(c: char)
  {
    c == '\n' || c == '\r'
  }

  /**
   * Python's readline() on a file opened in text mode: the characters up to
   * the first line ending, with that ending ("\n", "\r" or "\r\n") read
   * as a single "\n"; the whole contents if there is no line ending.
   */
  function ReadLine(content: string): (line: string)
    ensures (forall i :: 0 <= i < |content| ==> !IsLineEnd(content[i])) ==> line == content
    ensures (exists i :: 0 <= i < |content| && IsLineEnd(content[i])) ==>
              && 0 < |line| <= |content|
              && line[|line| - 1] == '\n'
              && IsLineEnd(content[|line| - 1])
              && line[..|line| - 1] == content[..|line| - 1]
              && forall i :: 0 <= i < |line| - 1 ==> !IsLineEnd(line[i])
  {
    if content == [] then []
    else if IsLineEnd(content[0]) then ['\n']
    else [content[0]] + ReadLine(content[1..])
  }

  /**
   * The decision of the activity check, given the previous line (None when
   * no scratch file exists) and the current text.
   */
  function CheckActivity(previous: Option<string>, newUse: string): (r: Activity)
    ensures previous.None? ==> r == Activity("n/a", UNKNOWN)
    ensures previous.Some? && newUse == "00" ==> r == Activity("No", CRITICAL)
    ensures previous.Some? && newUse != "00" ==>
              r == if previous.value == newUse then Activity("No", WARNING) else Activity("Yes", OK)
  {
    match previous
    case None => Activity("n/a", UNKNOWN)
    case Some(previousUse) =>
      if newUse == "00" then Activity("No", CRITICAL)
      else if previousUse == newUse then Activity("No", WARNING)
      else Activity("Yes", OK)
  }

  /** The label answers "was there disk activity": "Yes" exactly when OK, "No" exactly when WARNING or CRITICAL. */
  lemma ActivityLabelMatchesStatus(previous: Option<string>, newUse: string)
    ensures CheckActivity(previous, newUse).diskUse == "Yes" <==> CheckActivity(previous, newUse).status == OK
    ensures CheckActivity(previous, newUse).diskUse == "No" <==>
              CheckActivity(previous, newUse).status in {WARNING, CRITICAL}
    ensures CheckActivity(previous, newUse).diskUse == "n/a" <==> previous.None?
  {
  }

  /** What the check reads as the previous value: the first line of the scratch file, if it exists. */
  function Previous(files: map<string, string>, fileName: string): (p: Option<string>)
    ensures p.Some? <==> fileName in files
  {
    if fileName in files then Some(ReadLine(files[fileName])) else None
  }

  /**
   * Once a value without line endings has been stored, a run that stores the
   * same value again reports no activity: WARNING, or CRITICAL for "00".
   */
  lemma {:induction false} RepeatedValueReportsNoActivity(files: map<string, string>, fileName: string, newUse: string)
    requires '\n' !in newUse && '\r' !in newUse
    ensures CheckActivity(Previous(files[fileName := newUse], fileName), newUse) ==
              if newUse == "00" then Activity("No", CRITICAL) else Activity("No", WARNING)
  {
  }

  /**
   * A stored value ending in a carriage return reads back with "\n" instead,
   * so storing "5\r" twice still reports activity.
   */
  lemma CarriageReturnReadsBackChanged(files: map<string, string>, fileName: string)
    ensures CheckActivity(Previous(files[fileName := "5\r"], fileName), "5\r") == Activity("Yes", OK)
  {
    assert ReadLine("5\r") == "5\n" by {
      assert ReadLine("5\r"[1..]) == "\n";
    }
  }

  /** The scratch files, one per cluster, keyed by file name. */
  class ActivityStore {
    var files: map<string, string>

    constructor (initial: map<string, string>)
      ensures files == initial
    {
      files := initial;
    }

    /**
     * read_write_check / readwriteCheck: decide from the previous line and
     * the current text, and overwrite (or create) this file with the current
     * text; no other file changes.
     */
    method ReadWriteCheck(fileName: string, newUse: string) returns (diskUse: string, status: ExitCode)
      modifies this
      ensures files == old(files)[fileName := newUse]
      ensures Activity(diskUse, status) == CheckActivity(Previous(old(files), fileName), newUse)
    {
      if fileName in files {
        var previousUse := ReadLine(files[fileName]);
        files := files[fileName := newUse];
        if newUse == "00" {
          diskUse, status := "No", CRITICAL;
        } else if previousUse == newUse {
          diskUse, status := "No", WARNING;
        } else {
          diskUse, status := "Yes", OK;
        }
      } else {
        files := files[fileName := newUse];
        diskUse, status := "n/a", UNKNOWN;
      }
    }
  }
}
