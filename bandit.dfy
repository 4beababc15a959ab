/**
 * The bandit plug-in (`py/plugins/bandit.py`): bandit run over the build
 * and/or install tree after the build, its report filtered by key event.
 */
module Bandit {
  import opened Wrappers
  import opened Strings
  import opened Props
  import Util

  const RUN_BANDIT_SH := "/usr/share/csmock/scripts/run-bandit.sh"
  const BANDIT_CAPTURE := "/builddir/bandit-capture.err"

  /** The defaults of `--bandit-evt-filter` and `--bandit-severity-filter`. */
  const DEFAULT_EVT_FILTER := "^B[0-9]+"
  const DEFAULT_SEVERITY := "LOW"

  /** The accepted severity levels, lowest first; the parser allows only these. */
  const SEVERITY_LEVELS := ["LOW", "MEDIUM", "HIGH"]

  /** bandit's options for reporting from the given level up. */
  const SEVERITY_FLAGS := ["-l", "-ll", "-lll"]

  /** The options of the plug-in, as the parser leaves them. */
  datatype BanditArgs = BanditArgs(
    scanBuild: Option<bool>,
    scanInstall: Option<bool>,
    evtFilter: string,
    severityFilter: string)

  /** Index of `key` in `keys`, if present. */
  function IndexOf(keys: seq<string>, key: string): (r: Option<nat>)
    ensures r.Some? ==> r.value < |keys| && keys[r.value] == key && key !in keys[..r.value]
    ensures r.None? ==> key !in keys
  {
    if keys == [] then None
    else if keys[0] == key then Some(0)
    else match IndexOf(keys[1..], key)
      case None => None
      case Some(i) => assert keys[..i + 1] == [keys[0]] + keys[1..][..i]; Some(i + 1)
  }

  /**
   * `dict(zip(levels, flags))[severity.upper()]`: the flag paired with the
   * upper-cased level, or the `KeyError` for an unknown one.
   */
  function SeverityFlag(severity: string): Result<string, string> {
    var key := Upper(severity);
    match IndexOf(SEVERITY_LEVELS, key)
    case None => Failure(key)
    case Some(i) => Success(SEVERITY_FLAGS[i])
  }

  /** The command run in the chroot after the build. */
  function RunCmd(severityFlag: string, dirsToScan: string): string {
    "shopt -s nullglob && " + RUN_BANDIT_SH + " " + severityFlag + " " + dirsToScan + " > " + BANDIT_CAPTURE
  }

  /** After the directories: `bandit` to be installed, and (in `needRpmBi`) the install tree built. */
  function Installed(p: PropsState, a: BanditArgs): PropsState {
    p.(needRpmBi := p.needRpmBi || Util.ScanInstall(a.scanInstall, p.shellCmdToBuild),
       installPkgs := p.installPkgs + ["bandit"])
  }

  /** After the severity lookup: the command, the capture, the hooks. */
  function Scheduled(p: PropsState, runCmd: string, evtFilter: string): PropsState {
    p.(postBuildChrootCmds := p.postBuildChrootCmds + [runCmd],
       copyOutFiles := p.copyOutFiles + [BANDIT_CAPTURE],
       postDepinstHooks := p.postDepinstHooks + [ToolverHook("bandit", Lower("bandit"))],
       postProcessHooks := p.postProcessHooks + [BanditFilterHook(evtFilter)])
  }

  /** How `handle_args` ends, and the configuration it leaves. */
  datatype Effect = Effect(o: Outcome, p: PropsState)

  function HandleArgsSpec(enabled: bool, a: BanditArgs, p: PropsState): Effect {
    if !enabled then Effect(Ok, p)
    else match Util.DirsToScan(a.scanBuild, a.scanInstall, p.shellCmdToBuild, "bandit")
      case Failure(msg) => Effect(ParserError(msg), p)
      case Success(dirs) =>
        var q := Installed(p, a);
        match SeverityFlag(a.severityFilter)
        case Failure(key) => Effect(KeyError(key), q)
        case Success(flag) => Effect(Ok, Scheduled(q, RunCmd(flag, dirs), a.evtFilter))
  }

  class Plugin {
    var enabled: bool

    constructor ()
      ensures !enabled
    {
      enabled := false;
    }

    method Enable()
      modifies this
      ensures enabled
    {
      enabled := true;
    }

    method HandleArgs(a: BanditArgs, props: ScanProps) returns (o: Outcome)
      modifies props
      ensures Effect(o, props.State()) == HandleArgsSpec(enabled, a, old(props.State()))
    {
      if !enabled {
        return Ok;
      }
      ghost var p0 := props.State();
      var dirs := Util.DirsToScanByArgs(props, a.scanBuild, a.scanInstall, "bandit");
      if dirs.Failure? {
        assert props.State() == p0;
        return ParserError(dirs.error);
      }
      props.installPkgs := props.installPkgs + ["bandit"];
      assert props.State() == Installed(p0, a);
      var flag := SeverityFlag(a.severityFilter);
      if flag.Failure? {
        return KeyError(flag.error);
      }
      Schedule(props, RunCmd(flag.value, dirs.value), a.evtFilter);
      o := Ok;
    }

    method Schedule(props: ScanProps, runCmd: string, evtFilter: string)
      modifies props`postBuildChrootCmds, props`copyOutFiles, props`postDepinstHooks, props`postProcessHooks
      ensures props.State() == Scheduled(old(props.State()), runCmd, evtFilter)
    {
      props.postBuildChrootCmds := props.postBuildChrootCmds + [runCmd];
      props.copyOutFiles := props.copyOutFiles + [BANDIT_CAPTURE];
      Util.InstallDefaultToolverHook(props, "bandit");
      props.postProcessHooks := props.postProcessHooks + [BanditFilterHook(evtFilter)];
    }
  }

  // ------------------------------------------------------------ properties

  /** The first occurrence of a key is the index found. */
  lemma {:induction false} IndexOfFirst(keys: seq<string>, key: string, i: nat)
    requires i < |keys| && keys[i] == key && key !in keys[..i]
    ensures IndexOf(keys, key) == Some(i)
  {
    if i > 0 {
      assert keys[0] in keys[..i];
      assert keys[1..][..i - 1] == keys[1..i];
      assert forall x :: x in keys[1..i] ==> x in keys[..i];
      IndexOfFirst(keys[1..], key, i - 1);
    }
  }

  /** A plug-in that is not enabled changes nothing. */
  lemma DisabledChangesNothing(a: BanditArgs, p: PropsState)
    ensures HandleArgsSpec(false, a, p) == Effect(Ok, p)
  {
  }

  /** Each level selects its own option, and the lookup ignores case. */
  lemma SeverityMapping(severity: string)
    ensures Upper(severity) == "LOW" <==> SeverityFlag(severity) == Success("-l")
    ensures Upper(severity) == "MEDIUM" <==> SeverityFlag(severity) == Success("-ll")
    ensures Upper(severity) == "HIGH" <==> SeverityFlag(severity) == Success("-lll")
    ensures Upper(severity) !in SEVERITY_LEVELS <==> SeverityFlag(severity) == Failure(Upper(severity))
  {
    var key := Upper(severity);
    if key == "LOW" {
      IndexOfFirst(SEVERITY_LEVELS, key, 0);
    } else if key == "MEDIUM" {
      IndexOfFirst(SEVERITY_LEVELS, key, 1);
    } else if key == "HIGH" {
      IndexOfFirst(SEVERITY_LEVELS, key, 2);
    }
  }

  /** Every level the parser accepts, the default among them, has its option: no `KeyError`. */
  lemma AcceptedLevelsHaveFlags(severity: string)
    requires severity in SEVERITY_LEVELS
    ensures SeverityFlag(severity).Success?
    ensures SeverityFlag(severity).value in SEVERITY_FLAGS
  {
    UpperOfLevel(severity);
    SeverityMapping(severity);
  }

  /** The accepted levels are already upper case. */
  lemma UpperOfLevel(severity: string)
    requires severity in SEVERITY_LEVELS
    ensures Upper(severity) == severity
  {
    if severity == "LOW" {
      assert Upper(severity) == "LOW";
    } else if severity == "MEDIUM" {
      assert Upper(severity) == "MEDIUM";
    } else {
      assert Upper(severity) == "HIGH";
    }
  }

  /**
   * A `parser.error` about the directories comes before anything is
   * changed; an unknown level is raised after the directories are decided
   * and `bandit` is scheduled for installation, but before any command.
   */
  lemma ErrorCases(a: BanditArgs, p: PropsState)
    ensures var e := HandleArgsSpec(true, a, p);
      && (e.o.ParserError? <==> Util.DirsToScan(a.scanBuild, a.scanInstall, p.shellCmdToBuild, "bandit").Failure?)
      && (e.o.ParserError? ==> e.p == p)
      && (e.o.KeyError? ==> e.o.key == Upper(a.severityFilter) && Upper(a.severityFilter) !in SEVERITY_LEVELS)
      && (e.o.KeyError? ==>
            e.p.installPkgs == p.installPkgs + ["bandit"] && e.p.postBuildChrootCmds == p.postBuildChrootCmds)
      && !e.o.AssertFailed?
  {
    SeverityMapping(a.severityFilter);
  }

  /**
   * On success: bandit installed and its capture copied out, one command
   * scanning the directories with the severity option, the tool-version
   * hook before the build and the event filter after it.
   */
  lemma SuccessEffects(a: BanditArgs, p: PropsState)
    requires Util.DirsToScan(a.scanBuild, a.scanInstall, p.shellCmdToBuild, "bandit").Success?
    requires a.severityFilter in SEVERITY_LEVELS
    ensures var e := HandleArgsSpec(true, a, p);
      var dirs := Util.DirsToScan(a.scanBuild, a.scanInstall, p.shellCmdToBuild, "bandit").value;
      && e.o == Ok
      && e.p.installPkgs == p.installPkgs + ["bandit"]
      && e.p.postBuildChrootCmds == p.postBuildChrootCmds + [RunCmd(SeverityFlag(a.severityFilter).value, dirs)]
      && e.p.copyOutFiles == p.copyOutFiles + [BANDIT_CAPTURE]
      && e.p.postDepinstHooks == p.postDepinstHooks + [ToolverHook("bandit", Lower("bandit"))]
      && e.p.postProcessHooks == p.postProcessHooks + [BanditFilterHook(a.evtFilter)]
      && e.p.needRpmBi == (p.needRpmBi || Util.ScanInstall(a.scanInstall, p.shellCmdToBuild))
      && e.p.env == p.env && e.p.rpmOpts == p.rpmOpts && e.p.cswrapEnabled == p.cswrapEnabled
  {
    AcceptedLevelsHaveFlags(a.severityFilter);
  }

  /**
   * The directories scanned when neither option is given: the install
   * tree without `--shell-cmd`, the build tree with it.
   */
  lemma DefaultDirs(shellCmdToBuild: Option<string>)
    ensures Util.DirsToScan(None, None, shellCmdToBuild, "bandit") ==
      if shellCmdToBuild.Some? then Success(Util.BUILD_DIR) else Success(Util.BUILDROOT_DIR)
  {
  }
}
