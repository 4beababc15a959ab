/**
 * The GCC plug-in (`py/plugins/gcc.py`): warning levels, `gcc -fanalyzer`
 * through csgcca, the sanitizers and custom flags, and what they do to
 * the scan configuration.
 */
module GccPlugin {
  import opened Wrappers
  import opened Strings
  import opened Props
  import opened CFlags
  import Util

  const CSGCCA_BIN := "/usr/bin/csgcca"

  /** The cswrap filters appended when the plug-in is off and when it is on. */
  const FILTER_WHEN_DISABLED := "csgrep --mode=json --invert-match --checker COMPILER_WARNING"
  const FILTER_WHEN_ENABLED := "csgrep --mode=json --invert-match --checker COMPILER_WARNING --event error"

  /** The parsed command-line options the plug-in reads. */
  datatype GccArgs = GccArgs(
    warningLevel: Option<int>,
    analyze: bool,
    analyzerBin: Option<string>,
    allTools: bool,
    setEnv: bool,
    sanitizeAddress: bool,
    sanitizeLeak: bool,
    sanitizeThread: bool,
    sanitizeUndefined: bool,
    custom: CustomFlagArgs)

  /** A set, non-empty `--gcc-analyzer-bin` (Python truthiness). */
  predicate HasAnalyzerBin(a: GccArgs) {
    a.analyzerBin.Some? && a.analyzerBin.value != ""
  }

  predicate Analyzing(a: GccArgs) {
    a.analyze || HasAnalyzerBin(a) || a.allTools
  }

  predicate BadAnalyzerBin(a: GccArgs) {
    HasAnalyzerBin(a) && !StartsWith(a.analyzerBin.value, "/")
  }

  predicate AnySanitizer(a: GccArgs) {
    a.sanitizeAddress || a.sanitizeLeak || a.sanitizeThread || a.sanitizeUndefined
  }

  predicate AnyCustom(c: CustomFlagArgs) {
    c.gccAddFlag != [] || c.gccAddCOnlyFlag != [] || c.gccAddCxxOnlyFlag != [] || c.gccDelFlag != []
  }

  // ------------------------------------------------------------ value-level effects

  /** `enable_sanitize` and the optional `-static` removal on a matrix. */
  function Sanitized(m: Matrix, flag: string, dropStatic: bool): Matrix {
    var s := if dropStatic then ["-static"] else [];
    Matrix(m.addC + [flag], m.delC + s, m.addCxx + [flag], m.delCxx + s)
  }

  /** `append_custom_flags` on a matrix. */
  function WithCustom(m: Matrix, c: CustomFlagArgs): Matrix {
    Matrix(m.addC + c.gccAddFlag + c.gccAddCOnlyFlag, m.delC + c.gccDelFlag,
           m.addCxx + c.gccAddFlag + c.gccAddCxxOnlyFlag, m.delCxx + c.gccDelFlag)
  }

  /** The sanitizers, in the order the source applies them. */
  function SanitizedMatrix(m: Matrix, a: GccArgs): Matrix {
    var m1 := if a.sanitizeAddress then Sanitized(m, "-fsanitize=address", true) else m;
    var m2 := if a.sanitizeLeak then Sanitized(m1, "-fsanitize=leak", true) else m1;
    var m3 := if a.sanitizeThread then Sanitized(m2, "-fsanitize=thread", true) else m2;
    if a.sanitizeUndefined then Sanitized(m3, "-fsanitize=undefined", false) else m3
  }

  /** The sanitizers, then the custom flags. */
  function BuildMatrix(m: Matrix, a: GccArgs): Matrix {
    WithCustom(SanitizedMatrix(m, a), a.custom)
  }

  /** The matrix the plug-in ends with, from the one it starts with. */
  function FinalMatrix(m: Matrix, a: GccArgs): Matrix {
    BuildMatrix(if a.warningLevel.Some? then LevelMatrix(a.warningLevel.value) else m, a)
  }

  /** `xs`, with `ys` appended when `given`. */
  function AppendedIf(xs: seq<string>, given: bool, ys: seq<string>): seq<string> {
    if given then xs + ys else xs
  }

  /** `install_pkgs` after the sanitizers' packages, in option order. */
  function WithSanitizerPkgs(pkgs: seq<string>, a: GccArgs): seq<string> {
    var p1 := AppendedIf(pkgs, a.sanitizeAddress, ["libasan"]);
    var p2 := AppendedIf(p1, a.sanitizeLeak, ["liblsan"]);
    var p3 := AppendedIf(p2, a.sanitizeThread, ["libtsan"]);
    AppendedIf(p3, a.sanitizeUndefined, ["libubsan", "libubsan-static"])
  }

  /** The blacklist after the sanitizers: each one adds `valgrind` once more. */
  function WithValgrindEntries(blacklist: seq<string>, a: GccArgs): seq<string> {
    var b1 := AppendedIf(blacklist, a.sanitizeAddress, ["valgrind"]);
    var b2 := AppendedIf(b1, a.sanitizeLeak, ["valgrind"]);
    var b3 := AppendedIf(b2, a.sanitizeThread, ["valgrind"]);
    AppendedIf(b3, a.sanitizeUndefined, ["valgrind"])
  }

  /** `--gcc-set-env` and the address sanitizer's `ASAN_OPTIONS`. */
  function BuildEnv(env: map<string, string>, a: GccArgs): map<string, string> {
    var e1 := if a.setEnv then env["CC" := "gcc"]["CXX" := "g++"] else env;
    if a.sanitizeAddress then e1["ASAN_OPTIONS" := "detect_leaks=0"] else e1
  }

  function AnalyzerFiles(a: GccArgs, csgccaOut: string): seq<string> {
    if Analyzing(a) then [CSGCCA_BIN, Strip(csgccaOut)] else []
  }

  /** Whether any option turned the plug-in on. */
  predicate TurnsOn(a: GccArgs) {
    a.warningLevel.Some? || Analyzing(a) || a.setEnv || AnySanitizer(a) || AnyCustom(a.custom)
  }

  /** Where `parser.error` stops `handle_args`, if it does, given the csgcca query's exit status. */
  function GccError(a: GccArgs, csgccaRc: int, enabled: bool, sanitize: bool, pkgs: seq<string>): Option<string> {
    if Analyzing(a) && BadAnalyzerBin(a) then
      Some("--gcc-analyzer-bin should be an absolute path. Found value: '" + a.analyzerBin.value + "'.")
    else if Analyzing(a) && csgccaRc != 0 then
      Some("--gcc-analyze requires " + CSGCCA_BIN + " to be available")
    else if (enabled || TurnsOn(a)) && (sanitize || AnySanitizer(a)) && "valgrind" in WithSanitizerPkgs(pkgs, a) then
      Some("GCC sanitizers are not compatible with valgrind")
    else None
  }

  // ------------------------------------------------------------ the plug-in, step by step

  /** The plug-in's own fields, as a value. */
  datatype GccState = GccState(enabled: bool, sanitize: bool, flags: Matrix, csgccaPath: Option<string>)

  /** The plug-in together with the scan configuration it edits. */
  datatype Conf = Conf(g: GccState, p: PropsState)

  /** How a step ends, and the state it leaves behind. */
  datatype Effect = Effect(o: Outcome, g: GccState, p: PropsState)

  const BAD_BIN_PREFIX := "--gcc-analyzer-bin should be an absolute path. Found value: '"
  const NO_CSGCCA := "--gcc-analyze requires " + CSGCCA_BIN + " to be available"
  const VALGRIND_CONFLICT := "GCC sanitizers are not compatible with valgrind"

  /** `--gcc-warning-level`: on, with the level's fresh matrix. */
  function LevelStep(a: GccArgs, g: GccState): GccState {
    if a.warningLevel.Some? then g.(enabled := true, flags := LevelMatrix(a.warningLevel.value)) else g
  }

  /** The analyzer options, with the csgcca query's exit status and output. */
  function AnalyzerStep(a: GccArgs, c: Conf, csgccaRc: int, csgccaOut: string): Effect {
    if !Analyzing(a) then Effect(Ok, c.g, c.p)
    else
      var g := c.g.(enabled := true);
      if BadAnalyzerBin(a) then Effect(ParserError(BAD_BIN_PREFIX + a.analyzerBin.value + "'."), g, c.p)
      else if csgccaRc != 0 then Effect(ParserError(NO_CSGCCA), g, c.p)
      else
        var path := Strip(csgccaOut);
        Effect(Ok, g.(csgccaPath := Some(path)), c.p.(copyInFiles := c.p.copyInFiles + [CSGCCA_BIN, path]))
  }

  /** The warning level and the analyzer options. */
  function Configure(a: GccArgs, c: Conf, csgccaRc: int, csgccaOut: string): Effect {
    AnalyzerStep(a, Conf(LevelStep(a, c.g), c.p), csgccaRc, csgccaOut)
  }

  /** One sanitizer: `enable_sanitize`, then `-static` dropped when asked. */
  function SanitizerStep(c: Conf, pkgs: seq<string>, flag: string, dropStatic: bool): Conf {
    Conf(c.g.(enabled := true, sanitize := true, flags := Sanitized(c.g.flags, flag, dropStatic)),
         c.p.(runCheck := true, installPkgs := c.p.installPkgs + pkgs,
              installPkgsBlacklist := c.p.installPkgsBlacklist + ["valgrind"]))
  }

  /** The address sanitizer also switches leak detection off. */
  function AddressStep(c: Conf): Conf {
    var s := SanitizerStep(c, ["libasan"], "-fsanitize=address", true);
    s.(p := s.p.(env := s.p.env["ASAN_OPTIONS" := "detect_leaks=0"]))
  }

  /** A sanitizer option: its step when given, nothing otherwise. */
  function OptionStep(given: bool, c: Conf, pkgs: seq<string>, flag: string, dropStatic: bool): Conf {
    if given then SanitizerStep(c, pkgs, flag, dropStatic) else c
  }

  function SanitizersStep(a: GccArgs, c: Conf): Conf {
    var c1 := if a.sanitizeAddress then AddressStep(c) else c;
    var c2 := OptionStep(a.sanitizeLeak, c1, ["liblsan"], "-fsanitize=leak", true);
    var c3 := OptionStep(a.sanitizeThread, c2, ["libtsan"], "-fsanitize=thread", true);
    OptionStep(a.sanitizeUndefined, c3, ["libubsan", "libubsan-static"], "-fsanitize=undefined", false)
  }

  /** `--gcc-set-env`: on, with `CC` and `CXX` pointing at GCC. */
  function SetEnvStep(a: GccArgs, c: Conf): Conf {
    if a.setEnv then Conf(c.g.(enabled := true), c.p.(env := c.p.env["CC" := "gcc"]["CXX" := "g++"])) else c
  }

  /** The custom flags: appended, and the plug-in on when there was any. */
  function CustomStep(a: GccArgs, c: Conf): Conf {
    Conf(c.g.(enabled := c.g.enabled || AnyCustom(a.custom), flags := WithCustom(c.g.flags, a.custom)), c.p)
  }

  /** `--gcc-set-env`, the sanitizers, then the custom flags. */
  function Build(a: GccArgs, c: Conf): Conf {
    CustomStep(a, SanitizersStep(a, SetEnvStep(a, c)))
  }

  /** The hooks the finished plug-in installs. */
  function GccHooks(csgccaPath: Option<string>): seq<Hook> {
    [ToolverHook("gcc", Lower("gcc"))] + (if csgccaPath.Some? then [CsgccaHook(csgccaPath.value)] else [])
  }

  /** From `if not self.enabled` on. */
  function FinishStep(c: Conf): Effect {
    if !c.g.enabled then
      Effect(Ok, c.g, c.p.(cswrapFilters := c.p.cswrapFilters + [FILTER_WHEN_DISABLED]))
    else if c.g.sanitize && "valgrind" in c.p.installPkgs then
      Effect(ParserError(VALGRIND_CONFLICT), c.g, c.p)
    else
      Effect(Ok, c.g, EnabledProps(c.g, c.p))
  }

  /** GCC installed, cswrap on and filtering, the flags matrix in the environment. */
  function CswrapSetup(m: Matrix, p: PropsState): PropsState {
    p.(installPkgs := p.installPkgs + ["gcc"], cswrapEnabled := true,
       cswrapFilters := p.cswrapFilters + [FILTER_WHEN_ENABLED],
       env := EnvWithFlags(p.env, m))
  }

  /** What an enabled plug-in does to the scan configuration. */
  function EnabledProps(g: GccState, p: PropsState): PropsState {
    var q := CswrapSetup(g.flags, p);
    q.(postDepinstHooks := q.postDepinstHooks + GccHooks(g.csgccaPath))
  }

  /** `handle_args` as a function of the starting state and the csgcca query's result. */
  function HandleArgsSpec(a: GccArgs, c: Conf, csgccaRc: int, csgccaOut: string): Effect {
    var e := Configure(a, c, csgccaRc, csgccaOut);
    if e.o.ParserError? then e else FinishStep(Build(a, Conf(e.g, e.p)))
  }

  // ------------------------------------------------------------ the plug-in

  class Plugin {
    var enabled: bool
    var sanitize: bool
    var flags: FlagsMatrix
    var csgccaPath: Option<string>

    function State(): GccState
      reads this, flags
    {
      GccState(enabled, sanitize, flags.Value(), csgccaPath)
    }

    constructor ()
      ensures fresh(flags)
      ensures State() == GccState(false, false, LevelMatrix(0), None)
    {
      var f := FlagsByWarningLevel(0);
      enabled, sanitize, flags, csgccaPath := false, false, f, None;
    }

    method Enable()
      modifies this`enabled
      ensures enabled
    {
      enabled := true;
    }

    /** `enable_sanitize`: on, sanitizing, `%check` run, packages and flags added, valgrind blacklisted. */
    method EnableSanitize(props: ScanProps, pkgs: seq<string>, sanitizerFlags: seq<string>)
      modifies this`enabled, this`sanitize, props`runCheck, props`installPkgs, props`installPkgsBlacklist, flags
      ensures enabled && sanitize && props.runCheck
      ensures props.installPkgs == old(props.installPkgs) + pkgs
      ensures props.installPkgsBlacklist == old(props.installPkgsBlacklist) + ["valgrind"]
      ensures flags.addCFlags == old(flags.addCFlags) + sanitizerFlags
      ensures flags.addCxxFlags == old(flags.addCxxFlags) + sanitizerFlags
      ensures flags.delCFlags == old(flags.delCFlags) && flags.delCxxFlags == old(flags.delCxxFlags)
    {
      enabled := true;
      sanitize := true;
      props.runCheck := true;
      props.installPkgs := props.installPkgs + pkgs;
      flags.AppendFlags(sanitizerFlags);
      props.installPkgsBlacklist := props.installPkgsBlacklist + ["valgrind"];
    }

    /** One sanitizer option: `enable_sanitize`, then `-static` dropped when it must be. */
    method Sanitizer(props: ScanProps, pkgs: seq<string>, flag: string, dropStatic: bool)
      modifies this`enabled, this`sanitize, props`runCheck, props`installPkgs, props`installPkgsBlacklist, flags
      ensures Conf(State(), props.State()) == SanitizerStep(old(Conf(State(), props.State())), pkgs, flag, dropStatic)
    {
      EnableSanitize(props, pkgs, [flag]);
      if dropStatic {
        flags.RemoveFlags(["-static"]);
      }
    }

    /** `--gcc-warning-level`. */
    method SetWarningLevel(args: GccArgs)
      modifies this`enabled, this`flags
      ensures flags == old(flags) || fresh(flags)
      ensures State() == LevelStep(args, old(State()))
    {
      if args.warningLevel.Some? {
        Enable();
        flags := FlagsByWarningLevel(args.warningLevel.value);
      }
    }

    /** `--gcc-analyze` and friends: `csgccaRc`/`csgccaOut` are the csgcca query's result. */
    method ConfigureAnalyzer(args: GccArgs, props: ScanProps, csgccaRc: int, csgccaOut: string) returns (o: Outcome)
      modifies this`enabled, this`csgccaPath, props`copyInFiles
      ensures Effect(o, State(), props.State()) == AnalyzerStep(args, old(Conf(State(), props.State())), csgccaRc, csgccaOut)
    {
      if Analyzing(args) {
        Enable();
        if HasAnalyzerBin(args) && !StartsWith(args.analyzerBin.value, "/") {
          return ParserError(BAD_BIN_PREFIX + args.analyzerBin.value + "'.");
        }
        if csgccaRc != 0 {
          return ParserError(NO_CSGCCA);
        }
        var path := Strip(csgccaOut);
        csgccaPath := Some(path);
        props.copyInFiles := props.copyInFiles + [CSGCCA_BIN, path];
      }
      o := Ok;
    }

    /** A sanitizer option, applied when given. */
    method SanitizerOption(given: bool, props: ScanProps, pkgs: seq<string>, flag: string, dropStatic: bool)
      modifies this`enabled, this`sanitize, props`runCheck, props`installPkgs, props`installPkgsBlacklist, flags
      ensures Conf(State(), props.State()) == OptionStep(given, old(Conf(State(), props.State())), pkgs, flag, dropStatic)
    {
      if given {
        Sanitizer(props, pkgs, flag, dropStatic);
      }
    }

    /** `--gcc-sanitize-address`, which also turns leak detection off. */
    method AddressOption(given: bool, props: ScanProps)
      modifies this`enabled, this`sanitize, flags, props`env, props`runCheck, props`installPkgs, props`installPkgsBlacklist
      ensures Conf(State(), props.State()) == (if given then AddressStep(old(Conf(State(), props.State()))) else old(Conf(State(), props.State())))
    {
      if given {
        Sanitizer(props, ["libasan"], "-fsanitize=address", true);
        props.env := props.env["ASAN_OPTIONS" := "detect_leaks=0"];
      }
    }

    /** The four sanitizer options, in the source's order. */
    method ApplySanitizers(args: GccArgs, props: ScanProps)
      modifies this`enabled, this`sanitize, flags, props`env, props`runCheck, props`installPkgs, props`installPkgsBlacklist
      ensures Conf(State(), props.State()) == SanitizersStep(args, old(Conf(State(), props.State())))
    {
      AddressOption(args.sanitizeAddress, props);
      SanitizerOption(args.sanitizeLeak, props, ["liblsan"], "-fsanitize=leak", true);
      SanitizerOption(args.sanitizeThread, props, ["libtsan"], "-fsanitize=thread", true);
      SanitizerOption(args.sanitizeUndefined, props, ["libubsan", "libubsan-static"], "-fsanitize=undefined", false);
    }

    /** `--gcc-set-env`. */
    method SetEnv(args: GccArgs, props: ScanProps)
      modifies this`enabled, props`env
      ensures Conf(State(), props.State()) == SetEnvStep(args, old(Conf(State(), props.State())))
    {
      if args.setEnv {
        Enable();
        props.env := props.env["CC" := "gcc"];
        props.env := props.env["CXX" := "g++"];
      }
    }

    /** The `--gcc-*-flag` options. */
    method ApplyCustomFlags(args: GccArgs, props: ScanProps)
      modifies this`enabled, flags
      ensures Conf(State(), props.State()) == CustomStep(args, old(Conf(State(), props.State())))
    {
      var any := flags.AppendCustomFlags(args.custom);
      if any {
        Enable();
      }
    }

    /** `--gcc-set-env`, the sanitizers and the custom flags. */
    method ApplyBuildOptions(args: GccArgs, props: ScanProps)
      modifies this`enabled, this`sanitize, flags, props`env, props`runCheck, props`installPkgs, props`installPkgsBlacklist
      ensures Conf(State(), props.State()) == Build(args, old(Conf(State(), props.State())))
    {
      SetEnv(args, props);
      ApplySanitizers(args, props);
      ApplyCustomFlags(args, props);
    }

    /** From `if not self.enabled` on: the valgrind check, then the scan configuration. */
    method Finish(props: ScanProps) returns (o: Outcome)
      modifies props
      ensures Effect(o, State(), props.State()) == FinishStep(old(Conf(State(), props.State())))
    {
      if !enabled {
        props.cswrapFilters := props.cswrapFilters + [FILTER_WHEN_DISABLED];
        return Ok;
      }
      if sanitize && "valgrind" in props.installPkgs {
        return ParserError(VALGRIND_CONFLICT);
      }
      ConfigureScan(props);
      o := Ok;
    }

    /** An enabled plug-in's packages, cswrap set-up, flags and hooks. */
    method ConfigureScan(props: ScanProps)
      modifies props`installPkgs, props`cswrapEnabled, props`cswrapFilters, props`env, props`postDepinstHooks
      ensures props.State() == EnabledProps(State(), old(props.State()))
    {
      SetUpCswrap(props);
      InstallHooks(props);
    }

    method SetUpCswrap(props: ScanProps)
      modifies props`installPkgs, props`cswrapEnabled, props`cswrapFilters, props`env
      ensures props.State() == CswrapSetup(flags.Value(), old(props.State()))
    {
      props.installPkgs := props.installPkgs + ["gcc"];
      props.EnableCswrap();
      props.cswrapFilters := props.cswrapFilters + [FILTER_WHEN_ENABLED];
      WriteFlagsToEnv(props);
    }

    /** `self.flags.write_to_env(props.env)`. */
    method WriteFlagsToEnv(props: ScanProps)
      modifies props`env
      ensures props.env == EnvWithFlags(old(props.env), flags.Value())
    {
      var env := flags.WriteToEnv(props.env);
      props.env := env;
    }

    /** The default tool-version hook, then the csgcca hook when analyzing. */
    method InstallHooks(props: ScanProps)
      modifies props`postDepinstHooks
      ensures props.postDepinstHooks == old(props.postDepinstHooks) + GccHooks(csgccaPath)
    {
      ghost var h0 := props.postDepinstHooks;
      Util.InstallDefaultToolverHook(props, "gcc");
      if csgccaPath.Some? {
        props.postDepinstHooks := props.postDepinstHooks + [CsgccaHook(csgccaPath.value)];
        assert props.postDepinstHooks == h0 + ([ToolverHook("gcc", Lower("gcc"))] + [CsgccaHook(csgccaPath.value)]);
      }
    }

    /**
     * `handle_args`: `csgccaRc` and `csgccaOut` are the exit status and
     * output of `csgcca --print-path-to-wrap`, queried only when analyzing.
     */
    method HandleArgs(args: GccArgs, props: ScanProps, csgccaRc: int, csgccaOut: string) returns (o: Outcome)
      modifies this, flags, props
      ensures Effect(o, State(), props.State()) == HandleArgsSpec(args, old(Conf(State(), props.State())), csgccaRc, csgccaOut)
    {
      SetWarningLevel(args);
      o := ConfigureAnalyzer(args, props, csgccaRc, csgccaOut);
      if o.ParserError? {
        return;
      }
      ApplyBuildOptions(args, props);
      o := Finish(props);
    }
  }

  // ------------------------------------------------------------ the csgcca hook's path edit

  predicate IsCswrap(entry: string) {
    EndsWith(entry, "/cswrap")
  }

  /** The index of the first entry ending in `/cswrap`. */
  function FindCswrap(path: seq<string>): (r: Option<nat>)
    ensures r.Some? ==> r.value < |path| && IsCswrap(path[r.value])
    ensures r.Some? ==> forall i :: 0 <= i < r.value ==> !IsCswrap(path[i])
    ensures r.None? ==> forall i :: 0 <= i < |path| ==> !IsCswrap(path[i])
    decreases |path|
  {
    if path == [] then None
    else if IsCswrap(path[0]) then Some(0)
    else
      var r := FindCswrap(path[1..]);
      assert forall i :: 1 <= i < |path| ==> path[i] == path[1..][i - 1];
      if r.Some? then Some(r.value + 1) else None
  }

  /** Where csgcca goes: before the first cswrap entry, or first. */
  function CswrapIndex(path: seq<string>): nat {
    match FindCswrap(path)
    case Some(i) => i
    case None => 0
  }

  /** `props.path.insert(idx_cswrap, csgcca_path)` after the search loop. */
  method InsertCsgcca(props: ScanProps, csgccaPath: string)
    modifies props`path
    ensures var k := CswrapIndex(old(props.path));
      props.path == old(props.path)[..k] + [csgccaPath] + old(props.path)[k..]
  {
    var idxCswrap := 0;
    for idx := 0 to |props.path|
      invariant forall i :: 0 <= i < idx ==> !IsCswrap(props.path[i])
      invariant idxCswrap == 0
    {
      if IsCswrap(props.path[idx]) {
        idxCswrap := idx;
        break;
      }
    }
    assert idxCswrap == CswrapIndex(props.path);
    props.path := props.path[..idxCswrap] + [csgccaPath] + props.path[idxCswrap..];
  }

  // ------------------------------------------------------------ properties

  lemma SanitizerPkgsHaveNoValgrind(pkgs: seq<string>, a: GccArgs)
    ensures "valgrind" in WithSanitizerPkgs(pkgs, a) <==> "valgrind" in pkgs
  {
  }

  /** The valgrind check only ever fires on a `valgrind` another plug-in installed. */
  lemma ValgrindConflictIsPreexisting(a: GccArgs, csgccaRc: int, enabled: bool, sanitize: bool, pkgs: seq<string>)
    requires !Analyzing(a) || (!BadAnalyzerBin(a) && csgccaRc == 0)
    ensures GccError(a, csgccaRc, enabled, sanitize, pkgs).Some? <==>
      (enabled || TurnsOn(a)) && (sanitize || AnySanitizer(a)) && "valgrind" in pkgs
  {
    SanitizerPkgsHaveNoValgrind(pkgs, a);
  }

  /** A warning level replaces the starting flags altogether. */
  lemma LevelReplacesFlags(m: Matrix, m': Matrix, a: GccArgs)
    requires a.warningLevel.Some?
    ensures FinalMatrix(m, a) == FinalMatrix(m', a)
  {
  }

  /** Address, leak and thread sanitizers drop `-static`; the undefined one does not. */
  lemma StaticDroppedBySanitizers(m: Matrix, a: GccArgs)
    requires "-static" !in m.delC && "-static" !in a.custom.gccDelFlag
    ensures "-static" in BuildMatrix(m, a).delC <==> a.sanitizeAddress || a.sanitizeLeak || a.sanitizeThread
  {
  }

  /** One sanitizer option, field by field. */
  lemma OptionStepClosedForm(given: bool, c: Conf, pkgs: seq<string>, flag: string, dropStatic: bool)
    ensures OptionStep(given, c, pkgs, flag, dropStatic) ==
      Conf(c.g.(enabled := c.g.enabled || given, sanitize := c.g.sanitize || given,
                flags := if given then Sanitized(c.g.flags, flag, dropStatic) else c.g.flags),
           c.p.(runCheck := c.p.runCheck || given,
                installPkgs := AppendedIf(c.p.installPkgs, given, pkgs),
                installPkgsBlacklist := AppendedIf(c.p.installPkgsBlacklist, given, ["valgrind"])))
  {
  }

  /** The address sanitizer option, field by field. */
  lemma AddressClosedForm(given: bool, c: Conf)
    ensures (if given then AddressStep(c) else c) ==
      Conf(c.g.(enabled := c.g.enabled || given, sanitize := c.g.sanitize || given,
                flags := if given then Sanitized(c.g.flags, "-fsanitize=address", true) else c.g.flags),
           c.p.(env := if given then c.p.env["ASAN_OPTIONS" := "detect_leaks=0"] else c.p.env,
                runCheck := c.p.runCheck || given,
                installPkgs := AppendedIf(c.p.installPkgs, given, ["libasan"]),
                installPkgsBlacklist := AppendedIf(c.p.installPkgsBlacklist, given, ["valgrind"])))
  {
  }

  /** The four sanitizer options on the plug-in's fields. */
  lemma SanitizersPluginClosedForm(a: GccArgs, c: Conf)
    ensures SanitizersStep(a, c).g ==
      c.g.(enabled := c.g.enabled || AnySanitizer(a),
           sanitize := c.g.sanitize || AnySanitizer(a),
           flags := SanitizedMatrix(c.g.flags, a))
  {
    var c1 := if a.sanitizeAddress then AddressStep(c) else c;
    var c2 := OptionStep(a.sanitizeLeak, c1, ["liblsan"], "-fsanitize=leak", true);
    var c3 := OptionStep(a.sanitizeThread, c2, ["libtsan"], "-fsanitize=thread", true);
    AddressClosedForm(a.sanitizeAddress, c);
    OptionStepClosedForm(a.sanitizeLeak, c1, ["liblsan"], "-fsanitize=leak", true);
    OptionStepClosedForm(a.sanitizeThread, c2, ["libtsan"], "-fsanitize=thread", true);
    OptionStepClosedForm(a.sanitizeUndefined, c3, ["libubsan", "libubsan-static"], "-fsanitize=undefined", false);
  }

  /** The four sanitizer options on the scan configuration. */
  lemma SanitizersPropsClosedForm(a: GccArgs, c: Conf)
    ensures SanitizersStep(a, c).p ==
      c.p.(env := if a.sanitizeAddress then c.p.env["ASAN_OPTIONS" := "detect_leaks=0"] else c.p.env,
           runCheck := c.p.runCheck || AnySanitizer(a),
           installPkgs := WithSanitizerPkgs(c.p.installPkgs, a),
           installPkgsBlacklist := WithValgrindEntries(c.p.installPkgsBlacklist, a))
  {
    var c1 := if a.sanitizeAddress then AddressStep(c) else c;
    var c2 := OptionStep(a.sanitizeLeak, c1, ["liblsan"], "-fsanitize=leak", true);
    var c3 := OptionStep(a.sanitizeThread, c2, ["libtsan"], "-fsanitize=thread", true);
    AddressClosedForm(a.sanitizeAddress, c);
    OptionStepClosedForm(a.sanitizeLeak, c1, ["liblsan"], "-fsanitize=leak", true);
    OptionStepClosedForm(a.sanitizeThread, c2, ["libtsan"], "-fsanitize=thread", true);
    OptionStepClosedForm(a.sanitizeUndefined, c3, ["libubsan", "libubsan-static"], "-fsanitize=undefined", false);
  }

  /** The step-by-step option handling agrees with the closed forms of its effects. */
  lemma BuildClosedForm(a: GccArgs, c: Conf)
    ensures Build(a, c).g ==
      c.g.(enabled := c.g.enabled || a.setEnv || AnySanitizer(a) || AnyCustom(a.custom),
           sanitize := c.g.sanitize || AnySanitizer(a),
           flags := BuildMatrix(c.g.flags, a))
    ensures Build(a, c).p ==
      c.p.(env := BuildEnv(c.p.env, a),
           runCheck := c.p.runCheck || AnySanitizer(a),
           installPkgs := WithSanitizerPkgs(c.p.installPkgs, a),
           installPkgsBlacklist := WithValgrindEntries(c.p.installPkgsBlacklist, a))
  {
    var c1 := SetEnvStep(a, c);
    SanitizersPluginClosedForm(a, c1);
    SanitizersPropsClosedForm(a, c1);
    var c2 := SanitizersStep(a, c1);
    assert c2.g.flags == SanitizedMatrix(c.g.flags, a);
  }

  /** The plug-in's fields after a `handle_args` that returns. */
  function FinalGcc(a: GccArgs, g: GccState, csgccaOut: string): GccState {
    GccState(g.enabled || TurnsOn(a), g.sanitize || AnySanitizer(a), FinalMatrix(g.flags, a),
             if Analyzing(a) then Some(Strip(csgccaOut)) else g.csgccaPath)
  }

  lemma ConfigureOk(a: GccArgs, c: Conf, csgccaRc: int, csgccaOut: string)
    requires Configure(a, c, csgccaRc, csgccaOut).o.Ok?
    ensures var e := Configure(a, c, csgccaRc, csgccaOut);
      && e.g == GccState(c.g.enabled || a.warningLevel.Some? || Analyzing(a), c.g.sanitize,
                         if a.warningLevel.Some? then LevelMatrix(a.warningLevel.value) else c.g.flags,
                         if Analyzing(a) then Some(Strip(csgccaOut)) else c.g.csgccaPath)
      && e.p == c.p.(copyInFiles := c.p.copyInFiles + AnalyzerFiles(a, csgccaOut))
  {
  }

  /** The scan configuration once every option has been applied, before `if not self.enabled`. */
  function BuiltProps(a: GccArgs, p: PropsState, csgccaOut: string): PropsState {
    p.(copyInFiles := p.copyInFiles + AnalyzerFiles(a, csgccaOut),
       env := BuildEnv(p.env, a),
       runCheck := p.runCheck || AnySanitizer(a),
       installPkgs := WithSanitizerPkgs(p.installPkgs, a),
       installPkgsBlacklist := WithValgrindEntries(p.installPkgsBlacklist, a))
  }

  /** Once the options are through, what is left of `handle_args` is its final step on the closed forms. */
  lemma HandleArgsIsFinish(a: GccArgs, c: Conf, csgccaRc: int, csgccaOut: string)
    requires Configure(a, c, csgccaRc, csgccaOut).o.Ok?
    ensures HandleArgsSpec(a, c, csgccaRc, csgccaOut) ==
      FinishStep(Conf(FinalGcc(a, c.g, csgccaOut), BuiltProps(a, c.p, csgccaOut)))
  {
    var e1 := Configure(a, c, csgccaRc, csgccaOut);
    ConfigureOk(a, c, csgccaRc, csgccaOut);
    BuildClosedForm(a, Conf(e1.g, e1.p));
  }

  /**
   * `handle_args` stops through `parser.error` exactly in the three cases
   * `GccError` lists, with its message, and otherwise returns.
   */
  lemma HandleArgsErrors(a: GccArgs, c: Conf, csgccaRc: int, csgccaOut: string)
    ensures var e := HandleArgsSpec(a, c, csgccaRc, csgccaOut);
      var err := GccError(a, csgccaRc, c.g.enabled, c.g.sanitize, c.p.installPkgs);
      && (e.o.ParserError? <==> err.Some?)
      && (err.Some? ==> e.o == ParserError(err.value))
      && (err.None? ==> e.o == Ok)
  {
    if Configure(a, c, csgccaRc, csgccaOut).o.Ok? {
      HandleArgsIsFinish(a, c, csgccaRc, csgccaOut);
    }
  }

  /** A `handle_args` that returns leaves the plug-in in the closed-form state. */
  lemma HandleArgsState(a: GccArgs, c: Conf, csgccaRc: int, csgccaOut: string)
    requires HandleArgsSpec(a, c, csgccaRc, csgccaOut).o.Ok?
    ensures HandleArgsSpec(a, c, csgccaRc, csgccaOut).g == FinalGcc(a, c.g, csgccaOut)
  {
    HandleArgsIsFinish(a, c, csgccaRc, csgccaOut);
  }

  /**
   * An enabled plug-in that returns has copied csgcca in, set the build
   * environment, installed the sanitizers' packages and blacklisted valgrind
   * once per sanitizer, and then installed GCC, turned cswrap on, written
   * its final flags over the environment and installed its hooks; nothing
   * else in the configuration changed.
   */
  lemma HandleArgsEnabled(a: GccArgs, c: Conf, csgccaRc: int, csgccaOut: string)
    requires HandleArgsSpec(a, c, csgccaRc, csgccaOut).o.Ok?
    requires c.g.enabled || TurnsOn(a)
    ensures HandleArgsSpec(a, c, csgccaRc, csgccaOut).p ==
      EnabledProps(FinalGcc(a, c.g, csgccaOut), BuiltProps(a, c.p, csgccaOut))
  {
    HandleArgsIsFinish(a, c, csgccaRc, csgccaOut);
  }

  /**
   * Without any option a disabled plug-in changes nothing but the cswrap
   * filter that hides compiler warnings.
   */
  lemma NoOptionOnlyFilters(a: GccArgs, c: Conf, csgccaRc: int, csgccaOut: string)
    requires !c.g.enabled && !TurnsOn(a)
    ensures HandleArgsSpec(a, c, csgccaRc, csgccaOut) ==
      Effect(Ok, c.g, c.p.(cswrapFilters := c.p.cswrapFilters + [FILTER_WHEN_DISABLED]))
  {
    BuildClosedForm(a, c);
    assert WithSanitizerPkgs(c.p.installPkgs, a) == c.p.installPkgs;
    assert WithValgrindEntries(c.p.installPkgsBlacklist, a) == c.p.installPkgsBlacklist;
    assert BuildMatrix(c.g.flags, a) == c.g.flags;
  }

  /** Every entry keeps its place relative to the others; csgcca sits right before the first cswrap. */
  lemma {:induction false} InsertKeepsOrder(path: seq<string>, csgccaPath: string)
    ensures var k := CswrapIndex(path);
      var p := path[..k] + [csgccaPath] + path[k..];
      |p| == |path| + 1 && p[k] == csgccaPath && p[..k] + p[k + 1..] == path &&
      (FindCswrap(path).Some? ==> IsCswrap(p[k + 1]) && forall i :: 0 <= i < k ==> !IsCswrap(p[i])) &&
      (FindCswrap(path).None? ==> k == 0)
  {
    var k := CswrapIndex(path);
    var p := path[..k] + [csgccaPath] + path[k..];
    assert p[..k] == path[..k];
    assert p[k + 1..] == path[k..];
    assert path[..k] + path[k..] == path;
    assert forall i :: 0 <= i < k ==> p[i] == path[i];
  }
}
