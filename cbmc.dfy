/**
 * The cbmc plug-in (`py/plugins/cbmc.py`): builds with `goto-gcc` and runs
 * the binaries of `%check` under csexec with the bounded model checker as
 * wrapper.
 */
module Cbmc {
  import opened Strings
  import opened Props
  import opened CFlags
  import opened Csexec
  import Util

  const CBMC_CAPTURE_DIR := "/builddir/cbmc-capture"
  const DEFAULT_CBMC_TIMEOUT := 42

  /** Only cswrap's own error events are kept, and no GCC warnings. */
  const CSWRAP_FILTER := "csgrep --mode=json --invert-match --checker GCC_WARNING --event error"

  /** `goto-gcc` as the compilers of `%build`. */
  const COMPILER_RPM_OPTS := ["--define", "__cc goto-gcc", "--define", "__cxx goto-gcc", "--define", "__cpp goto-gcc -E"]

  /** The default optimisation of the build is switched off. */
  const NO_OPT_RPM_OPTS := ["--define", "optflags -O0", "--define", "build_ldflags -O0"]

  const ADD_FLAGS := ["-Wno-unknown-warning-option", "-O0", "-g", LOADER_FLAG]

  /** The options handed to cbmc itself, ahead of the custom flags. */
  const CBMC_OPTS := "--unwind 1 --json-ui" + " --verbosity 4" + " --pointer-overflow-check" + " --memory-leak-check"

  const CSEXEC_CBMC := "/usr/bin/csexec-cbmc"

  /** The default cbmc command line for a timeout in seconds. */
  function DefaultWrapCmdList(timeout: int): seq<string> {
    ["--skip-ld-linux",
     CSEXEC_CBMC,
     "-t", IntToString(timeout),
     "-l", CBMC_CAPTURE_DIR,
     "-c", CBMC_OPTS]
  }

  /** The `--cbmc-add-flag` options go into the last entry, after a space. */
  function WrapCmdList(timeout: int, addFlags: seq<string>): seq<string> {
    WithAddFlags(DefaultWrapCmdList(timeout), addFlags)
  }

  /** The package, the tool version, cswrap with its filter. */
  function Installed(p: PropsState): PropsState {
    p.(installPkgs := p.installPkgs + ["cbmc", "cbmc-utils"],
       postDepinstHooks := p.postDepinstHooks + [ToolverHook("cbmc", Lower("cbmc"))],
       cswrapEnabled := true,
       cswrapFilters := p.cswrapFilters + [CSWRAP_FILTER])
  }

  /** `goto-gcc` in the environment and in the rpm macros, no optimisation. */
  function WithToolchain(p: PropsState): PropsState {
    p.(env := p.env["CC" := "goto-gcc"]["CXX" := "goto-gcc"],
       rpmOpts := p.rpmOpts + COMPILER_RPM_OPTS + NO_OPT_RPM_OPTS)
  }

  /** csexec on, and the capture directory made before the build. */
  function Armed(p: PropsState): PropsState {
    p.(csexecEnabled := true,
       postDepinstHooks := p.postDepinstHooks + [CreateCapDirHook(CBMC_CAPTURE_DIR)])
  }

  /** Everything up to the assertion. */
  function Prepared(p: PropsState): PropsState {
    Armed(WithToolchain(Installed(p)))
  }

  /** After the compiler flags: `%check`, the capture and the filter hook. */
  function Collected(p: PropsState): PropsState {
    p.(runCheck := true,
       copyOutFiles := p.copyOutFiles + [CBMC_CAPTURE_DIR],
       postProcessHooks := p.postProcessHooks + [CbmcFilterHook])
  }

  /** The plug-in's flag matrix after `handle_args`. */
  function FinalFlags(m: Matrix): Matrix {
    Retuned(m, ADD_FLAGS, OPT_LEVEL_FLAGS)
  }

  /** How `handle_args` ends, the plug-in's flag matrix and the configuration. */
  datatype Effect = Effect(o: Outcome, m: Matrix, p: PropsState)

  function HandleArgsSpec(enabled: bool, timeout: int, addFlags: seq<string>, m: Matrix, p: PropsState): Effect {
    if !enabled then Effect(Ok, m, p)
    else
      var q := Prepared(p);
      if CSEXEC_WRAP_CMD in q.env then Effect(AssertFailed(WRAP_CMD_ASSERT), m, q)
      else
        var m' := FinalFlags(m);
        Effect(Ok, m', Collected(q.(env := EnvWithFlags(WrapEnv(q.env, WrapCmdList(timeout, addFlags)), m'))))
  }

  class Plugin {
    var enabled: bool
    var flags: FlagsMatrix

    /** The matrix starts as `flags_by_warning_level(0)`. */
    constructor ()
      ensures !enabled && fresh(flags)
      ensures flags.Value() == LevelMatrix(0)
    {
      var f := FlagsByWarningLevel(0);
      enabled, flags := false, f;
    }

    method Enable()
      modifies this`enabled
      ensures enabled
    {
      enabled := true;
    }

    /** `handle_args`, with `--cbmc-timeout` and `--cbmc-add-flag`. */
    method HandleArgs(timeout: int, addFlags: seq<string>, props: ScanProps) returns (o: Outcome)
      modifies flags, props
      ensures Effect(o, flags.Value(), props.State()) == HandleArgsSpec(enabled, timeout, addFlags, old(flags.Value()), old(props.State()))
    {
      if !enabled {
        return Ok;
      }
      Install(props);
      SetToolchain(props);
      Arm(props);
      var wrapCmdList := ["--skip-ld-linux",
                          CSEXEC_CBMC,
                          "-t", IntToString(timeout),
                          "-l", CBMC_CAPTURE_DIR,
                          "-c", CBMC_OPTS];
      wrapCmdList := WithAddFlags(wrapCmdList, addFlags);
      o := Finish(props, wrapCmdList, timeout, addFlags);
    }

    method Install(props: ScanProps)
      modifies props`installPkgs, props`postDepinstHooks, props`cswrapEnabled, props`cswrapFilters
      ensures props.State() == Installed(old(props.State()))
    {
      props.installPkgs := props.installPkgs + ["cbmc", "cbmc-utils"];
      Util.InstallDefaultToolverHook(props, "cbmc");
      props.EnableCswrap();
      props.cswrapFilters := props.cswrapFilters + [CSWRAP_FILTER];
    }

    method SetToolchain(props: ScanProps)
      modifies props`env, props`rpmOpts
      ensures props.State() == WithToolchain(old(props.State()))
    {
      props.env := props.env["CC" := "goto-gcc"];
      props.env := props.env["CXX" := "goto-gcc"];
      props.rpmOpts := props.rpmOpts + COMPILER_RPM_OPTS;
      props.rpmOpts := props.rpmOpts + NO_OPT_RPM_OPTS;
    }

    method Arm(props: ScanProps)
      modifies props`csexecEnabled, props`postDepinstHooks
      ensures props.State() == Armed(old(props.State()))
    {
      props.EnableCsexec();
      props.postDepinstHooks := props.postDepinstHooks + [CreateCapDirHook(CBMC_CAPTURE_DIR)];
    }

    /** From the assertion on. */
    method Finish(props: ScanProps, wrapCmdList: seq<string>, timeout: int, addFlags: seq<string>) returns (o: Outcome)
      requires wrapCmdList == WrapCmdList(timeout, addFlags)
      modifies flags, props`env, props`runCheck, props`copyOutFiles, props`postProcessHooks
      ensures o == (if CSEXEC_WRAP_CMD in old(props.env) then AssertFailed(WRAP_CMD_ASSERT) else Ok)
      ensures flags.Value() == (if o.Ok? then FinalFlags(old(flags.Value())) else old(flags.Value()))
      ensures props.State() == (if o.Ok? then Collected(old(props.State()).(env := EnvWithFlags(WrapEnv(old(props.env), wrapCmdList), flags.Value())))
                                else old(props.State()))
    {
      o := SetWrapCmd(props, wrapCmdList);
      if o.AssertFailed? {
        return;
      }
      WriteCompilerFlags(flags, props, ADD_FLAGS, OPT_LEVEL_FLAGS);
      Collect(props);
    }

    method Collect(props: ScanProps)
      modifies props`runCheck, props`copyOutFiles, props`postProcessHooks
      ensures props.State() == Collected(old(props.State()))
    {
      props.runCheck := true;
      props.copyOutFiles := props.copyOutFiles + [CBMC_CAPTURE_DIR];
      props.postProcessHooks := props.postProcessHooks + [CbmcFilterHook];
    }
  }

  // ------------------------------------------------------------ properties

  /** A plug-in that is not enabled changes nothing. */
  lemma DisabledChangesNothing(timeout: int, addFlags: seq<string>, m: Matrix, p: PropsState)
    ensures HandleArgsSpec(false, timeout, addFlags, m, p) == Effect(Ok, m, p)
  {
  }

  /**
   * The assertion fails exactly when another analyzer already set the
   * wrapper; what happened before it is kept, the flag matrix is untouched.
   */
  lemma AssertionFailsOnSecondAnalyzer(timeout: int, addFlags: seq<string>, m: Matrix, p: PropsState)
    ensures var e := HandleArgsSpec(true, timeout, addFlags, m, p);
      && (e.o.AssertFailed? <==> CSEXEC_WRAP_CMD in p.env)
      && (e.o.AssertFailed? ==> e.p == Prepared(p) && e.m == m)
      && (e.o.Ok? || e.o.AssertFailed?)
  {
  }

  /**
   * On success csexec's wrapper is the cbmc command line joined by the
   * separator, and it splits back into that list when no custom flag holds
   * a backslash.
   */
  lemma WrapperIsCommandLine(timeout: int, addFlags: seq<string>, m: Matrix, p: PropsState)
    requires CSEXEC_WRAP_CMD !in p.env
    requires forall i :: 0 <= i < |addFlags| ==> '\\' !in addFlags[i]
    ensures var e := HandleArgsSpec(true, timeout, addFlags, m, p);
      && e.o == Ok
      && e.p.env[CSEXEC_WRAP_CMD] == Join(WrapCmdList(timeout, addFlags), WRAP_SEP)
      && Split(e.p.env[CSEXEC_WRAP_CMD], WRAP_SEP) == WrapCmdList(timeout, addFlags)
  {
    var l := WrapCmdList(timeout, addFlags);
    FlagsKeepWrapper(Prepared(p).env, l, FinalFlags(m));
    WrapCmdListHasNoSep(timeout, addFlags);
    WrapCmdIsJoin(l);
    WrapCmdSplitsBack(l);
  }

  /**
   * The command line: the timeout is its fourth entry, and the custom
   * flags, joined by spaces, end its last one.
   */
  lemma WrapCmdListShape(timeout: int, addFlags: seq<string>)
    ensures var l := WrapCmdList(timeout, addFlags);
      && |l| == 8 && l[..7] == DefaultWrapCmdList(timeout)[..7]
      && l[0] == "--skip-ld-linux" && l[2] == "-t" && l[3] == IntToString(timeout)
      && l[7] == CBMC_OPTS + " " + Join(addFlags, " ")
  {
  }

  /** No entry, custom flags included, holds the separator; the first is not empty. */
  lemma WrapCmdListHasNoSep(timeout: int, addFlags: seq<string>)
    requires forall i :: 0 <= i < |addFlags| ==> '\\' !in addFlags[i]
    ensures WrapCmdList(timeout, addFlags)[0] == "--skip-ld-linux"
    ensures forall i :: 0 <= i < |WrapCmdList(timeout, addFlags)| ==> NoSepInside(WrapCmdList(timeout, addFlags)[i], WRAP_SEP)
  {
    DefaultHasNoBackslash(timeout);
    WithAddFlagsHasNoSep(DefaultWrapCmdList(timeout), addFlags);
  }

  /** No entry of the default command line holds a backslash. */
  lemma DefaultHasNoBackslash(timeout: int)
    ensures forall i :: 0 <= i < |DefaultWrapCmdList(timeout)| ==> '\\' !in DefaultWrapCmdList(timeout)[i]
  {
    IntToStringHasNoBackslash(timeout);
    OptsHaveNoBackslash();
    assert '\\' !in CSEXEC_CBMC && '\\' !in CBMC_CAPTURE_DIR;
  }

  lemma OptsHaveNoBackslash()
    ensures '\\' !in CBMC_OPTS
  {
    assert '\\' !in "--unwind 1 --json-ui" && '\\' !in " --verbosity 4";
    assert '\\' !in " --pointer-overflow-check" && '\\' !in " --memory-leak-check";
  }

  /**
   * On success: the packages, the tool-version hook before the
   * capture-directory hook, cswrap with its filter, the rpm macros in
   * order, csexec on, `%check` run, the capture copied out, one filter hook.
   */
  lemma SuccessEffects(timeout: int, addFlags: seq<string>, m: Matrix, p: PropsState)
    requires CSEXEC_WRAP_CMD !in p.env
    ensures var e := HandleArgsSpec(true, timeout, addFlags, m, p);
      && e.p.installPkgs == p.installPkgs + ["cbmc", "cbmc-utils"]
      && e.p.postDepinstHooks == p.postDepinstHooks + [ToolverHook("cbmc", Lower("cbmc"))] + [CreateCapDirHook(CBMC_CAPTURE_DIR)]
      && e.p.cswrapEnabled && e.p.csexecEnabled && e.p.runCheck
      && e.p.cswrapFilters == p.cswrapFilters + [CSWRAP_FILTER]
      && e.p.rpmOpts == p.rpmOpts + COMPILER_RPM_OPTS + NO_OPT_RPM_OPTS
      && e.p.copyOutFiles == p.copyOutFiles + [CBMC_CAPTURE_DIR]
      && e.p.postProcessHooks == p.postProcessHooks + [CbmcFilterHook]
      && e.p.addRepos == p.addRepos
  {
  }

  /**
   * On success the environment names `goto-gcc` as both compilers, holds
   * the wrapper and the four serialised flag lists, and is otherwise as
   * before.
   */
  lemma EnvEffects(timeout: int, addFlags: seq<string>, m: Matrix, p: PropsState)
    requires CSEXEC_WRAP_CMD !in p.env
    ensures var e := HandleArgsSpec(true, timeout, addFlags, m, p);
      && e.p.env.Keys == p.env.Keys + {"CC", "CXX", CSEXEC_WRAP_CMD, CSWRAP_ADD_CFLAGS, CSWRAP_DEL_CFLAGS, CSWRAP_ADD_CXXFLAGS, CSWRAP_DEL_CXXFLAGS}
      && e.p.env["CC"] == "goto-gcc" && e.p.env["CXX"] == "goto-gcc"
      && e.p.env[CSEXEC_WRAP_CMD] == WrapCmd(WrapCmdList(timeout, addFlags))
      && e.p.env[CSWRAP_ADD_CFLAGS] == Serialized(e.m.addC, ":")
      && e.p.env[CSWRAP_DEL_CFLAGS] == Serialized(e.m.delC, ":")
      && e.p.env[CSWRAP_ADD_CXXFLAGS] == Serialized(e.m.addCxx, ":")
      && e.p.env[CSWRAP_DEL_CXXFLAGS] == Serialized(e.m.delCxx, ":")
      && (forall k :: k in p.env && k !in {"CC", "CXX", CSEXEC_WRAP_CMD} && !IsFlagsKey(k) ==> e.p.env[k] == p.env[k])
  {
    var e := HandleArgsSpec(true, timeout, addFlags, m, p);
    assert e.p.env == EnvWithFlags(WrapEnv(p.env["CC" := "goto-gcc"]["CXX" := "goto-gcc"], WrapCmdList(timeout, addFlags)), e.m);
    CompilerEnv(p.env, "goto-gcc", "goto-gcc", WrapCmdList(timeout, addFlags), e.m);
    CompilerEnvKeys(p.env, "goto-gcc", "goto-gcc", WrapCmdList(timeout, addFlags), e.m);
  }

  /**
   * The flag matrix gains the loader flag and `-O0` on both add lists and
   * every optimisation level on both del lists, after what it held.
   */
  lemma FlagsEffects(timeout: int, addFlags: seq<string>, m: Matrix, p: PropsState)
    requires CSEXEC_WRAP_CMD !in p.env
    ensures var e := HandleArgsSpec(true, timeout, addFlags, m, p);
      && e.m.addC == m.addC + ADD_FLAGS && e.m.addCxx == m.addCxx + ADD_FLAGS
      && e.m.delC == m.delC + OPT_LEVEL_FLAGS && e.m.delCxx == m.delCxx + OPT_LEVEL_FLAGS
      && LOADER_FLAG in e.m.addC && "-O0" in e.m.addCxx && "-O2" in e.m.delC
  {
    var e := HandleArgsSpec(true, timeout, addFlags, m, p);
    assert e.m.addC[|m.addC| + 3] == LOADER_FLAG;
    assert e.m.addCxx[|m.addCxx| + 1] == "-O0";
    assert e.m.delC[|m.delC| + 1] == "-O2";
  }
}
