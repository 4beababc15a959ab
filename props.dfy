/**
 * The shared, mutable scan configuration that every plug-in's
 * `handle_args` edits (the `props` object of csmock).  Hooks registered
 * into it are closures in the original; here they are opaque tokens, so
 * only which hooks are appended, and in what order, is modelled.
 */
module Props {
  import opened Wrappers

  /** A hook callback, identified by what it was created for. */
  datatype Hook =
    | ToolverHook(tool: string, toolKey: string)
    | CreateCapDirHook(dir: string)
    | CsgccaHook(csgccaPath: string)
    | InstallInferHook(installCmd: string)
    | InferFilterHook
    | BanditFilterHook(evtFilter: string)
    | ValgrindCleanupHook
    | ValgrindFilterHook
    | CbmcFilterHook
    | DivineFilterHook
    | SymbioticFilterHook
    | GllvmCheckHook

  /**
   * How a plug-in's `handle_args` ends: normally, through
   * `parser.error` (which exits), through a failed Python `assert`, or
   * through a `KeyError` raised by a dictionary lookup.
   */
  datatype Outcome = Ok | ParserError(msg: string) | AssertFailed(cond: string) | KeyError(key: string)

  /** The environment key through which csexec learns its wrapper. */
  const CSEXEC_WRAP_CMD := "CSEXEC_WRAP_CMD"

  /** The value of every field of a `ScanProps`, for contracts that compare whole states. */
  datatype PropsState = PropsState(
    installPkgs: seq<string>,
    installPkgsBlacklist: seq<string>,
    copyInFiles: seq<string>,
    copyOutFiles: seq<string>,
    postBuildChrootCmds: seq<string>,
    cswrapFilters: seq<string>,
    addRepos: seq<string>,
    rpmOpts: seq<string>,
    path: seq<string>,
    env: map<string, string>,
    runCheck: bool,
    needRpmBi: bool,
    shellCmdToBuild: Option<string>,
    postDepinstHooks: seq<Hook>,
    postProcessHooks: seq<Hook>,
    cswrapEnabled: bool,
    csexecEnabled: bool)

  class ScanProps {
    var installPkgs: seq<string>
    var installPkgsBlacklist: seq<string>
    var copyInFiles: seq<string>
    var copyOutFiles: seq<string>
    var postBuildChrootCmds: seq<string>
    var cswrapFilters: seq<string>
    var addRepos: seq<string>
    var rpmOpts: seq<string>
    var path: seq<string>
    var env: map<string, string>
    var runCheck: bool
    var needRpmBi: bool
    var shellCmdToBuild: Option<string>
    var postDepinstHooks: seq<Hook>
    var postProcessHooks: seq<Hook>
    /** Whether `enable_cswrap()` / `enable_csexec()` have been called. */
    var cswrapEnabled: bool
    var csexecEnabled: bool

    function State(): PropsState
      reads this
    {
      PropsState(installPkgs, installPkgsBlacklist, copyInFiles, copyOutFiles, postBuildChrootCmds,
                 cswrapFilters, addRepos, rpmOpts, path, env, runCheck, needRpmBi, shellCmdToBuild,
                 postDepinstHooks, postProcessHooks, cswrapEnabled, csexecEnabled)
    }

    constructor (shellCmdToBuild: Option<string>, path: seq<string>, env: map<string, string>)
      ensures this.shellCmdToBuild == shellCmdToBuild && this.path == path && this.env == env
      ensures installPkgs == [] && installPkgsBlacklist == [] && copyInFiles == []
      ensures copyOutFiles == [] && postBuildChrootCmds == [] && cswrapFilters == []
      ensures addRepos == [] && rpmOpts == [] && postDepinstHooks == [] && postProcessHooks == []
      ensures !runCheck && !needRpmBi && !cswrapEnabled && !csexecEnabled
    {
      this.shellCmdToBuild := shellCmdToBuild;
      this.path := path;
      this.env := env;
      installPkgs, installPkgsBlacklist, copyInFiles := [], [], [];
      copyOutFiles, postBuildChrootCmds, cswrapFilters := [], [], [];
      addRepos, rpmOpts, postDepinstHooks, postProcessHooks := [], [], [], [];
      runCheck, needRpmBi, cswrapEnabled, csexecEnabled := false, false, false, false;
    }

    /** `props.enable_cswrap()`; its body is not part of this model. */
    method EnableCswrap()
      modifies this`cswrapEnabled
      ensures cswrapEnabled
    {
      cswrapEnabled := true;
    }

    /** `props.enable_csexec()`; its body is not part of this model. */
    method EnableCsexec()
      modifies this`csexecEnabled
      ensures csexecEnabled
    {
      csexecEnabled := true;
    }
  }
}
