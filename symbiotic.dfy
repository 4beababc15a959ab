/**
 * The symbiotic plug-in (`py/plugins/symbiotic.py`): builds with the gllvm
 * wrappers of Clang and runs the binaries of `%check` under csexec with
 * symbiotic (instrumentation, slicing and KLEE) as wrapper.
 */
module Symbiotic {
  import opened Strings
  import opened Props
  import opened CFlags
  import opened Csexec
  import Util

  const SYMBIOTIC_CAPTURE_DIR := "/builddir/symbiotic-capture"
  const DEFAULT_SYMBIOTIC_TIMEOUT := 30

  /** The Copr repositories symbiotic and gllvm are installed from, in this order. */
  const SYMBIOTIC_REPO := "https://download.copr.fedorainfracloud.org/results/@aufover/symbiotic/fedora-$releasever-$basearch/"
  const GLLVM_REPO := "https://download.copr.fedorainfracloud.org/results/@aufover/gllvm/fedora-$releasever-$basearch/"

  /** Only cswrap's own error events are kept, and no Clang warnings. */
  const CSWRAP_FILTER := "csgrep --mode=json --invert-match --checker CLANG_WARNING --event error"

  /** `gclang` and `gclang++` as the compilers of `%build`. */
  const COMPILER_RPM_OPTS := ["--define", "__cc gclang", "--define", "__cxx gclang++", "--define", "__cpp gclang -E"]

  /** The Clang toolchain, with the default optimisation switched off. */
  const NO_OPT_RPM_OPTS := ["--define", "toolchain clang", "--define", "optflags -O0", "--define", "build_ldflags -O0"]

  /** The compiler flags, `-Wno-unused-command-line-argument` twice as listed. */
  const ADD_FLAGS := ["-Wno-unused-command-line-argument",
                      "-Wno-unused-parameter", "-Wno-unknown-attributes",
                      "-Wno-unused-label", "-Wno-unknown-pragmas",
                      "-Wno-unused-command-line-argument",
                      "-fsanitize-address-use-after-scope", "-O0", "-Xclang",
                      "-disable-llvm-passes", "-D__inline=", "-g",
                      LOADER_FLAG]

  const CSEXEC_SYMBIOTIC := "/usr/bin/csexec-symbiotic"

  /** The options of symbiotic, with the timeout given to all three phases. */
  function SymbioticOpts(timeout: int): string {
    var t := IntToString(timeout);
    "--prp=memsafety --timeout=" + t + " --instrumentation-timeout=" + t + " --slicer-timeout=" + t
  }

  /** The default symbiotic command line for a timeout in seconds. */
  function DefaultWrapCmdList(timeout: int): seq<string> {
    ["--skip-ld-linux",
     CSEXEC_SYMBIOTIC,
     "-l", SYMBIOTIC_CAPTURE_DIR,
     "-s", SymbioticOpts(timeout)]
  }

  /** The `--symbiotic-add-flag` options go into the last entry, after a space. */
  function WrapCmdList(timeout: int, addFlags: seq<string>): seq<string> {
    WithAddFlags(DefaultWrapCmdList(timeout), addFlags)
  }

  /** The repositories, the packages, cswrap with its filter. */
  function Installed(p: PropsState): PropsState {
    p.(addRepos := p.addRepos + [SYMBIOTIC_REPO] + [GLLVM_REPO],
       installPkgs := p.installPkgs + ["symbiotic", "gllvm"],
       cswrapEnabled := true,
       cswrapFilters := p.cswrapFilters + [CSWRAP_FILTER])
  }

  /**
   * The gllvm compilers in the environment and in the rpm macros, the gllvm
   * sanity check before the build, the Clang toolchain without optimisation.
   */
  function WithToolchain(p: PropsState): PropsState {
    p.(env := p.env["CC" := "gclang"]["CXX" := "gclang++"],
       rpmOpts := p.rpmOpts + COMPILER_RPM_OPTS + NO_OPT_RPM_OPTS,
       postDepinstHooks := p.postDepinstHooks + [GllvmCheckHook])
  }

  /** The tool version, csexec on, the capture directory made before the build. */
  function Armed(p: PropsState): PropsState {
    p.(postDepinstHooks := p.postDepinstHooks + [ToolverHook("symbiotic", Lower("symbiotic"))] + [CreateCapDirHook(SYMBIOTIC_CAPTURE_DIR)],
       csexecEnabled := true)
  }

  /** Everything up to the assertion. */
  function Prepared(p: PropsState): PropsState {
    Armed(WithToolchain(Installed(p)))
  }

  /** After the compiler flags: `%check`, the capture and the filter hook. */
  function Collected(p: PropsState): PropsState {
    p.(runCheck := true,
       copyOutFiles := p.copyOutFiles + [SYMBIOTIC_CAPTURE_DIR],
       postProcessHooks := p.postProcessHooks + [SymbioticFilterHook])
  }

  /** The plug-in's flag matrix after `handle_args`. */
  function FinalFlags(m: Matrix): Matrix {
    Retuned(m, ADD_FLAGS, OPT_LEVEL_FLAGS)
  }

  /** How `handle_args` ends, the plug-in's flag matrix and the configuration. */
  datatype Effect = Effect(o: Outcome, m: Matrix, p: PropsState)

  function HandleArgsSpec(enabled: bool, timeout: int, addFlags: seq<string>, m: Matrix, p: PropsState): Effect {
    if !enabled then Effect(Ok, m, p)
    else
      var q := Prepared(p);
      if CSEXEC_WRAP_CMD in q.env then Effect(AssertFailed(WRAP_CMD_ASSERT), m, q)
      else
        var m' := FinalFlags(m);
        Effect(Ok, m', Collected(q.(env := EnvWithFlags(WrapEnv(q.env, WrapCmdList(timeout, addFlags)), m'))))
  }

  class Plugin {
    var enabled: bool
    var flags: FlagsMatrix

    /** The matrix starts as `flags_by_warning_level(0)`. */
    constructor ()
      ensures !enabled && fresh(flags)
      ensures flags.Value() == LevelMatrix(0)
    {
      var f := FlagsByWarningLevel(0);
      enabled, flags := false, f;
    }

    method Enable()
      modifies this`enabled
      ensures enabled
    {
      enabled := true;
    }

    /** `handle_args`, with `--symbiotic-timeout` and `--symbiotic-add-flag`. */
    method HandleArgs(timeout: int, addFlags: seq<string>, props: ScanProps) returns (o: Outcome)
      modifies flags, props
      ensures Effect(o, flags.Value(), props.State()) == HandleArgsSpec(enabled, timeout, addFlags, old(flags.Value()), old(props.State()))
    {
      if !enabled {
        return Ok;
      }
      Install(props);
      SetToolchain(props);
      Arm(props);
      var wrapCmdList := ["--skip-ld-linux",
                          CSEXEC_SYMBIOTIC,
                          "-l", SYMBIOTIC_CAPTURE_DIR,
                          "-s", SymbioticOpts(timeout)];
      wrapCmdList := WithAddFlags(wrapCmdList, addFlags);
      o := Finish(props, wrapCmdList, timeout, addFlags);
    }

    method Install(props: ScanProps)
      modifies props`addRepos, props`installPkgs, props`cswrapEnabled, props`cswrapFilters
      ensures props.State() == Installed(old(props.State()))
    {
      props.addRepos := props.addRepos + [SYMBIOTIC_REPO];
      props.addRepos := props.addRepos + [GLLVM_REPO];
      props.installPkgs := props.installPkgs + ["symbiotic", "gllvm"];
      props.EnableCswrap();
      props.cswrapFilters := props.cswrapFilters + [CSWRAP_FILTER];
    }

    method SetToolchain(props: ScanProps)
      modifies props`env, props`rpmOpts, props`postDepinstHooks
      ensures props.State() == WithToolchain(old(props.State()))
    {
      props.env := props.env["CC" := "gclang"];
      props.env := props.env["CXX" := "gclang++"];
      props.rpmOpts := props.rpmOpts + COMPILER_RPM_OPTS;
      props.postDepinstHooks := props.postDepinstHooks + [GllvmCheckHook];
      props.rpmOpts := props.rpmOpts + NO_OPT_RPM_OPTS;
    }

    method Arm(props: ScanProps)
      modifies props`postDepinstHooks, props`csexecEnabled
      ensures props.State() == Armed(old(props.State()))
    {
      Util.InstallDefaultToolverHook(props, "symbiotic");
      props.EnableCsexec();
      props.postDepinstHooks := props.postDepinstHooks + [CreateCapDirHook(SYMBIOTIC_CAPTURE_DIR)];
    }

    /** From the assertion on. */
    method Finish(props: ScanProps, wrapCmdList: seq<string>, timeout: int, addFlags: seq<string>) returns (o: Outcome)
      requires wrapCmdList == WrapCmdList(timeout, addFlags)
      modifies flags, props`env, props`runCheck, props`copyOutFiles, props`postProcessHooks
      ensures o == (if CSEXEC_WRAP_CMD in old(props.env) then AssertFailed(WRAP_CMD_ASSERT) else Ok)
      ensures flags.Value() == (if o.Ok? then FinalFlags(old(flags.Value())) else old(flags.Value()))
      ensures props.State() == (if o.Ok? then Collected(old(props.State()).(env := EnvWithFlags(WrapEnv(old(props.env), wrapCmdList), flags.Value())))
                                else old(props.State()))
    {
      o := SetWrapCmd(props, wrapCmdList);
      if o.AssertFailed? {
        return;
      }
      WriteCompilerFlags(flags, props, ADD_FLAGS, OPT_LEVEL_FLAGS);
      Collect(props);
    }

    method Collect(props: ScanProps)
      modifies props`runCheck, props`copyOutFiles, props`postProcessHooks
      ensures props.State() == Collected(old(props.State()))
    {
      props.runCheck := true;
      props.copyOutFiles := props.copyOutFiles + [SYMBIOTIC_CAPTURE_DIR];
      props.postProcessHooks := props.postProcessHooks + [SymbioticFilterHook];
    }
  }

  // ------------------------------------------------------------ properties

  /** A plug-in that is not enabled changes nothing. */
  lemma DisabledChangesNothing(timeout: int, addFlags: seq<string>, m: Matrix, p: PropsState)
    ensures HandleArgsSpec(false, timeout, addFlags, m, p) == Effect(Ok, m, p)
  {
  }

  /**
   * The assertion fails exactly when another analyzer already set the
   * wrapper; what happened before it is kept, the flag matrix is untouched.
   */
  lemma AssertionFailsOnSecondAnalyzer(timeout: int, addFlags: seq<string>, m: Matrix, p: PropsState)
    ensures var e := HandleArgsSpec(true, timeout, addFlags, m, p);
      && (e.o.AssertFailed? <==> CSEXEC_WRAP_CMD in p.env)
      && (e.o.AssertFailed? ==> e.p == Prepared(p) && e.m == m)
      && (e.o.Ok? || e.o.AssertFailed?)
  {
  }

  /**
   * On success csexec's wrapper is the symbiotic command line joined by the
   * separator, and it splits back into that list when no custom flag holds
   * a backslash.
   */
  lemma WrapperIsCommandLine(timeout: int, addFlags: seq<string>, m: Matrix, p: PropsState)
    requires CSEXEC_WRAP_CMD !in p.env
    requires forall i :: 0 <= i < |addFlags| ==> '\\' !in addFlags[i]
    ensures var e := HandleArgsSpec(true, timeout, addFlags, m, p);
      && e.o == Ok
      && e.p.env[CSEXEC_WRAP_CMD] == Join(WrapCmdList(timeout, addFlags), WRAP_SEP)
      && Split(e.p.env[CSEXEC_WRAP_CMD], WRAP_SEP) == WrapCmdList(timeout, addFlags)
  {
    var l := WrapCmdList(timeout, addFlags);
    FlagsKeepWrapper(Prepared(p).env, l, FinalFlags(m));
    WrapCmdListHasNoSep(timeout, addFlags);
    WrapCmdIsJoin(l);
    WrapCmdSplitsBack(l);
  }

  /**
   * The command line: the timeout in all three phase options, and then the
   * custom flags, joined by spaces, end its last entry.
   */
  lemma WrapCmdListShape(timeout: int, addFlags: seq<string>)
    ensures var l := WrapCmdList(timeout, addFlags);
      && |l| == 6 && l[..5] == DefaultWrapCmdList(timeout)[..5]
      && l[0] == "--skip-ld-linux" && l[1] == CSEXEC_SYMBIOTIC && l[4] == "-s"
      && l[5] == SymbioticOpts(timeout) + " " + Join(addFlags, " ")
  {
  }

  /** No entry, custom flags included, holds the separator; the first is not empty. */
  lemma WrapCmdListHasNoSep(timeout: int, addFlags: seq<string>)
    requires forall i :: 0 <= i < |addFlags| ==> '\\' !in addFlags[i]
    ensures WrapCmdList(timeout, addFlags)[0] == "--skip-ld-linux"
    ensures forall i :: 0 <= i < |WrapCmdList(timeout, addFlags)| ==> NoSepInside(WrapCmdList(timeout, addFlags)[i], WRAP_SEP)
  {
    DefaultHasNoBackslash(timeout);
    WithAddFlagsHasNoSep(DefaultWrapCmdList(timeout), addFlags);
  }

  /** No entry of the default command line holds a backslash. */
  lemma DefaultHasNoBackslash(timeout: int)
    ensures forall i :: 0 <= i < |DefaultWrapCmdList(timeout)| ==> '\\' !in DefaultWrapCmdList(timeout)[i]
  {
    OptsHaveNoBackslash(timeout);
    assert '\\' !in CSEXEC_SYMBIOTIC && '\\' !in SYMBIOTIC_CAPTURE_DIR;
  }

  lemma OptsHaveNoBackslash(timeout: int)
    ensures '\\' !in SymbioticOpts(timeout)
  {
    IntToStringHasNoBackslash(timeout);
    assert '\\' !in "--prp=memsafety --timeout=" && '\\' !in " --instrumentation-timeout=" && '\\' !in " --slicer-timeout=";
  }

  /**
   * On success: both repositories, the packages, cswrap with its filter,
   * the rpm macros in order, the gllvm check, then the tool-version hook,
   * then the capture-directory hook, csexec on, `%check` run, the capture
   * copied out, one filter hook.
   */
  lemma SuccessEffects(timeout: int, addFlags: seq<string>, m: Matrix, p: PropsState)
    requires CSEXEC_WRAP_CMD !in p.env
    ensures var e := HandleArgsSpec(true, timeout, addFlags, m, p);
      && e.p.addRepos == p.addRepos + [SYMBIOTIC_REPO] + [GLLVM_REPO]
      && e.p.installPkgs == p.installPkgs + ["symbiotic", "gllvm"]
      && e.p.postDepinstHooks == p.postDepinstHooks + [GllvmCheckHook] + [ToolverHook("symbiotic", Lower("symbiotic"))] + [CreateCapDirHook(SYMBIOTIC_CAPTURE_DIR)]
      && e.p.cswrapEnabled && e.p.csexecEnabled && e.p.runCheck
      && e.p.cswrapFilters == p.cswrapFilters + [CSWRAP_FILTER]
      && e.p.rpmOpts == p.rpmOpts + COMPILER_RPM_OPTS + NO_OPT_RPM_OPTS
      && e.p.copyOutFiles == p.copyOutFiles + [SYMBIOTIC_CAPTURE_DIR]
      && e.p.postProcessHooks == p.postProcessHooks + [SymbioticFilterHook]
  {
  }

  /**
   * On success the environment names the gllvm compilers, holds the wrapper
   * and the four serialised flag lists, and is otherwise as before.
   */
  lemma EnvEffects(timeout: int, addFlags: seq<string>, m: Matrix, p: PropsState)
    requires CSEXEC_WRAP_CMD !in p.env
    ensures var e := HandleArgsSpec(true, timeout, addFlags, m, p);
      && e.p.env.Keys == p.env.Keys + {"CC", "CXX", CSEXEC_WRAP_CMD, CSWRAP_ADD_CFLAGS, CSWRAP_DEL_CFLAGS, CSWRAP_ADD_CXXFLAGS, CSWRAP_DEL_CXXFLAGS}
      && e.p.env["CC"] == "gclang" && e.p.env["CXX"] == "gclang++"
      && e.p.env[CSEXEC_WRAP_CMD] == WrapCmd(WrapCmdList(timeout, addFlags))
      && e.p.env[CSWRAP_ADD_CFLAGS] == Serialized(e.m.addC, ":")
      && e.p.env[CSWRAP_DEL_CFLAGS] == Serialized(e.m.delC, ":")
      && e.p.env[CSWRAP_ADD_CXXFLAGS] == Serialized(e.m.addCxx, ":")
      && e.p.env[CSWRAP_DEL_CXXFLAGS] == Serialized(e.m.delCxx, ":")
      && (forall k :: k in p.env && k !in {"CC", "CXX", CSEXEC_WRAP_CMD} && !IsFlagsKey(k) ==> e.p.env[k] == p.env[k])
  {
    var e := HandleArgsSpec(true, timeout, addFlags, m, p);
    assert e.p.env == EnvWithFlags(WrapEnv(p.env["CC" := "gclang"]["CXX" := "gclang++"], WrapCmdList(timeout, addFlags)), e.m);
    CompilerEnv(p.env, "gclang", "gclang++", WrapCmdList(timeout, addFlags), e.m);
    CompilerEnvKeys(p.env, "gclang", "gclang++", WrapCmdList(timeout, addFlags), e.m);
  }

  /**
   * The flag matrix gains the loader flag and `-O0` on both add lists and
   * every optimisation level on both del lists, after what it held.
   */
  lemma FlagsEffects(timeout: int, addFlags: seq<string>, m: Matrix, p: PropsState)
    requires CSEXEC_WRAP_CMD !in p.env
    ensures var e := HandleArgsSpec(true, timeout, addFlags, m, p);
      && e.m.addC == m.addC + ADD_FLAGS && e.m.addCxx == m.addCxx + ADD_FLAGS
      && e.m.delC == m.delC + OPT_LEVEL_FLAGS && e.m.delCxx == m.delCxx + OPT_LEVEL_FLAGS
      && LOADER_FLAG in e.m.addC && "-O0" in e.m.addCxx && "-O2" in e.m.delC
  {
    var e := HandleArgsSpec(true, timeout, addFlags, m, p);
    assert e.m.addC[|m.addC| + 12] == LOADER_FLAG;
    assert e.m.addCxx[|m.addCxx| + 7] == "-O0";
    assert e.m.delC[|m.delC| + 1] == "-O2";
  }
}
