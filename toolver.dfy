/**
 * Recording the analyzer version in `scan.ini` (`py/common/util.py`,
 * `write_toolver` and `write_toolver_from_rpmlist`).
 */
module Toolver {
  import opened Wrappers
  import opened Results
  import Util

  /** The `scan.ini` key of an analyzer's version. */
  function VersionKey(toolKey: string): string {
    "analyzer-version-" + toolKey
  }

  method WriteToolver(ini: IniWriter, toolKey: string, ver: string)
    requires ini.isOpen
    modifies ini`text
    ensures ini.text == old(ini.text) + IniLine(VersionKey(toolKey), ver)
  {
    ini.Append(VersionKey(toolKey), ver);
  }

  /**
   * The state-machine effect of the hook: `get_cmd_output` runs `handle_ec`,
   * then `handle_rv(rc)`; a non-zero `rc` then becomes `error(..., ec=0)`.
   */
  function RpmlistStep(s: EcState, rc: int, keepGoing: bool): Step {
    var st1 := HandleEcStep(s);
    if st1.raised.Some? then st1
    else
      var st2 := HandleRvStep(st1.state, rc);
      if st2.raised.Some? || rc == 0 then st2
      else ErrorStep(st2.state, 0, keepGoing)
  }

  /**
   * `write_toolver_from_rpmlist`, given the exit status `rc` and output
   * `nvr` of the `grep` over the chroot's rpm list. Unless a `FatalError`
   * is thrown, it returns `rc`; on success (`rc == 0`) it writes the version.
   */
  method WriteToolverFromRpmlist(results: ScanResults, ini: IniWriter, tool: string, toolKey: string,
                                 rc: int, nvr: string) returns (ret: int, raised: Option<int>)
    requires ini.isOpen
    modifies results`ec, results`dying, ini`text
    ensures Step(results.State(), raised) == RpmlistStep(old(results.State()), rc, results.keepGoing)
    ensures raised.None? ==> ret == rc
    ensures raised.None? && rc == 0 ==> ini.text == old(ini.text) + IniLine(VersionKey(toolKey), Util.ToolVersion(tool, nvr))
    ensures raised.Some? || rc != 0 ==> ini.text == old(ini.text)
  {
    ret := rc;
    raised := results.HandleEc();
    if raised.Some? {
      return;
    }
    raised := results.HandleRv(rc);
    if raised.Some? {
      return;
    }
    if rc != 0 {
      raised := results.Error(0);
      return;
    }
    var ver := Util.ToolVersion(tool, nvr);
    WriteToolver(ini, toolKey, ver);
    ret := 0;
  }

  /**
   * A tool missing from the build root (a plain non-zero `rc`) does not
   * abort a scan that has had no error so far: the code stays 0.
   */
  lemma MissingToolKeepsScanGoing(s: EcState, rc: int, keepGoing: bool)
    requires s.ec == 0 && !s.dying && rc != 0 && rc <= 128
    ensures RpmlistStep(s, rc, keepGoing) == Step(s, None)
  {
  }

  /** ... but after an earlier error it does, without keep-going. */
  lemma MissingToolAbortsAfterError(s: EcState, rc: int)
    requires s.ec > 0 && !SignalCode(s.ec) && !s.dying && rc != 0 && rc <= 128
    ensures RpmlistStep(s, rc, false) == Step(s, Some(0))
  {
  }

  /** A grep killed by a signal shuts the scan down with that code. */
  lemma SignalledQueryIsFatal(s: EcState, rc: int, keepGoing: bool)
    requires !s.dying && !SignalCode(s.ec) && s.ec <= rc && SignalCode(rc)
    ensures RpmlistStep(s, rc, keepGoing) == Step(EcState(rc, true), Some(rc))
  {
  }
}
