/**
 * The infer plug-in (`py/plugins/infer.py`): installs Infer from a release
 * archive, runs its analysis phase after the build and passes the report
 * through `filter-infer.py`, whose filters the paired `--[no-]infer-*`
 * options switch off.
 */
module Infer {
  import opened Wrappers
  import opened Strings
  import opened Props
  import opened CFlags
  import FilterInfer

  const INFER_RESULTS_FILTER_SCRIPT := "/usr/share/csmock/scripts/filter-infer.py"
  const INFER_INSTALL_SCRIPT := "/usr/share/csmock/scripts/install-infer.sh"
  const INFER_RESULTS := "/builddir/infer-results.txt"
  const INFER_OUT_DIR := "/builddir/infer-out"

  /** The packages Infer's reporting needs: Python and both libtinfo versions. */
  const INFER_PKGS := ["python", "ncurses-compat-libs", "ncurses-libs"]

  /** The analyses run when no `--infer-analyze-add-flag` is given. */
  const DEFAULT_ANALYZE_FLAGS := "--pulse --bufferoverrun"

  const NO_ARCHIVE_MSG :=
    "The Infer plugin requires an archive with the binary release of Infer. " +
    "The archive can be downloaded from https://github.com/facebook/infer/releases. " +
    "By default, the plugin looks for the archive in /opt/infer-linux*.tar.xz. " +
    "Alternatively, the \"--infer-archive-path INFER_ARCHIVE_PATH\" option can be " +
    "used to specify the path to the archive."

  function NoSuchArchiveMsg(path: string): string {
    "--infer-archive-path: given path \"" + path + "\" doesn't exist"
  }

  /**
   * The options of the plug-in; each paired `--[no-]infer-*` option is
   * `None` when absent, `Some(true)` or `Some(false)` when given.
   */
  datatype InferArgs = InferArgs(
    analyzeAddFlag: seq<string>,
    archivePath: string,
    filter: Option<bool>,
    biabductionFilter: Option<bool>,
    inferboFilter: Option<bool>,
    uninitFilter: Option<bool>,
    deadStoreSeverity: Option<bool>)

  /**
   * What the plug-in asks of the host: the paths `os.path.isfile` accepts,
   * the entries `os.listdir("/opt")` returns in its order, and
   * `os.path.abspath`.
   */
  datatype Host = Host(files: set<string>, optEntries: seq<string>, absPath: string -> string)

  // -------------------------------------------------------------- archive

  /**
   * `re.search(r"infer-linux.*\.tar\.xz", name)`: `infer-linux`, then any
   * run of characters without a line break, then `.tar.xz`.
   */
  predicate IsArchiveName(name: string) {
    exists i, j :: 0 <= i && i + 11 <= j <= |name| && OccursAt(name, "infer-linux", i) && OccursAt(name, ".tar.xz", j) &&
      '\n' !in name[i + 11..j]
  }

  /** The last archive among the entries of `/opt`, or `""` when there is none. */
  function LastArchive(entries: seq<string>): (r: string)
  {
    if entries == [] then ""
    else if IsArchiveName(entries[|entries| - 1]) then "/opt/" + entries[|entries| - 1]
    else LastArchive(entries[..|entries| - 1])
  }

  /** Where the archive comes from, or the `parser.error` message. */
  datatype Lookup = Found(path: string) | Missing(msg: string)

  function ArchiveLookup(args: InferArgs, host: Host): Lookup {
    if args.archivePath != "" then
      if args.archivePath in host.files then Found(host.absPath(args.archivePath))
      else Missing(NoSuchArchiveMsg(args.archivePath))
    else
      var found := LastArchive(host.optEntries);
      if found == "" then Missing(NO_ARCHIVE_MSG) else Found(found)
  }

  /** The loop over `/opt`: every matching entry replaces the previous one. */
  method SearchOpt(entries: seq<string>) returns (path: string)
    ensures path == LastArchive(entries)
  {
    path := "";
    for k := 0 to |entries|
      invariant path == LastArchive(entries[..k])
    {
      var file := entries[k];
      assert entries[..k + 1][..k] == entries[..k];
      if IsArchiveName(file) {
        path := "/opt/" + file;
      }
    }
    assert entries[..|entries|] == entries;
  }

  method LocateArchive(args: InferArgs, host: Host) returns (l: Lookup)
    ensures l == ArchiveLookup(args, host)
  {
    if args.archivePath != "" {
      if args.archivePath in host.files {
        l := Found(host.absPath(args.archivePath));
      } else {
        l := Missing(NoSuchArchiveMsg(args.archivePath));
      }
    } else {
      var path := SearchOpt(host.optEntries);
      if path == "" {
        l := Missing(NO_ARCHIVE_MSG);
      } else {
        l := Found(path);
      }
    }
  }

  // ------------------------------------------------------------- commands

  function InstallCmd(archive: string): string {
    INFER_INSTALL_SCRIPT + " " + archive + " " + INFER_OUT_DIR
  }

  /** The analyses: the custom flags replace the default ones. */
  function AnalyzeFlags(addFlags: seq<string>): string {
    if addFlags != [] then Serialized(addFlags, " ") else DEFAULT_ANALYZE_FLAGS
  }

  function RunCmd(addFlags: seq<string>): string {
    "infer analyze --keep-going " + AnalyzeFlags(addFlags) + " -o " + INFER_OUT_DIR
  }

  /** `xs`, followed by `x` when `given` is `Some(false)`. */
  function AddIfOff(xs: seq<string>, given: Option<bool>, x: string): seq<string> {
    if given == Some(false) then xs + [x] else xs
  }

  /** The options for `filter-infer.py`, in the plug-in's order. */
  function FilterArgs(a: InferArgs): seq<string> {
    var f1 := AddIfOff([], a.filter, "--only-transform");
    var f2 := AddIfOff(f1, a.biabductionFilter, FilterInfer.NO_BIABDUCTION);
    var f3 := AddIfOff(f2, a.inferboFilter, "--no-inferbo");
    var f4 := AddIfOff(f3, a.uninitFilter, "--no-uninit");
    AddIfOff(f4, a.deadStoreSeverity, "--no-dead-store")
  }

  function FilterCmd(filterArgs: seq<string>): string {
    "python " + INFER_RESULTS_FILTER_SCRIPT + " " + Serialized(filterArgs, " ") +
    " < " + INFER_OUT_DIR + "/report.json > " + INFER_RESULTS
  }

  // ---------------------------------------------------------------- props

  function WithPkgs(p: PropsState): PropsState {
    p.(installPkgs := p.installPkgs + INFER_PKGS)
  }

  /** The archive copied in and the install hook. */
  function Installed(p: PropsState, archive: string): PropsState {
    p.(copyInFiles := p.copyInFiles + [archive],
       postDepinstHooks := p.postDepinstHooks + [InstallInferHook(InstallCmd(archive))])
  }

  /** The analysis, then the filter, after the build; the results copied out and converted. */
  function Scheduled(p: PropsState, a: InferArgs): PropsState {
    p.(postBuildChrootCmds := p.postBuildChrootCmds + [RunCmd(a.analyzeAddFlag)] + [FilterCmd(FilterArgs(a))],
       copyOutFiles := p.copyOutFiles + [INFER_RESULTS],
       postProcessHooks := p.postProcessHooks + [InferFilterHook])
  }

  datatype Effect = Effect(o: Outcome, p: PropsState)

  function HandleArgsSpec(enabled: bool, a: InferArgs, host: Host, p: PropsState): Effect {
    if !enabled then Effect(Ok, p)
    else
      var q := WithPkgs(p);
      match ArchiveLookup(a, host)
      case Missing(msg) => Effect(ParserError(msg), q)
      case Found(archive) => Effect(Ok, Scheduled(Installed(q, archive), a))
  }

  class Plugin {
    var enabled: bool

    constructor ()
      ensures !enabled
    {
      enabled := false;
    }

    method Enable()
      modifies this
      ensures enabled
    {
      enabled := true;
    }

    method HandleArgs(a: InferArgs, host: Host, props: ScanProps) returns (o: Outcome)
      modifies props
      ensures Effect(o, props.State()) == HandleArgsSpec(enabled, a, host, old(props.State()))
    {
      if !enabled {
        return Ok;
      }
      props.installPkgs := props.installPkgs + INFER_PKGS;
      var l := LocateArchive(a, host);
      if l.Missing? {
        return ParserError(l.msg);
      }
      Install(props, l.path);
      Schedule(props, a);
      o := Ok;
    }

    method Install(props: ScanProps, archive: string)
      modifies props`copyInFiles, props`postDepinstHooks
      ensures props.State() == Installed(old(props.State()), archive)
    {
      props.copyInFiles := props.copyInFiles + [archive];
      var installCmd := INFER_INSTALL_SCRIPT + " " + archive + " " + INFER_OUT_DIR;
      props.postDepinstHooks := props.postDepinstHooks + [InstallInferHook(installCmd)];
    }

    method Schedule(props: ScanProps, a: InferArgs)
      modifies props`postBuildChrootCmds, props`copyOutFiles, props`postProcessHooks
      ensures props.State() == Scheduled(old(props.State()), a)
    {
      var runCmd := AnalyzeCmd(a.analyzeAddFlag);
      props.postBuildChrootCmds := props.postBuildChrootCmds + [runCmd];
      var filterCmd := FilterCommand(a);
      props.postBuildChrootCmds := props.postBuildChrootCmds + [filterCmd];
      props.copyOutFiles := props.copyOutFiles + [INFER_RESULTS];
      props.postProcessHooks := props.postProcessHooks + [InferFilterHook];
    }

    method AnalyzeCmd(addFlags: seq<string>) returns (runCmd: string)
      ensures runCmd == RunCmd(addFlags)
    {
      var flags := DEFAULT_ANALYZE_FLAGS;
      if addFlags != [] {
        flags := SerializeFlags(addFlags, " ");
      }
      runCmd := "infer analyze --keep-going " + flags + " -o " + INFER_OUT_DIR;
    }

    method FilterCommand(a: InferArgs) returns (filterCmd: string)
      ensures filterCmd == FilterCmd(FilterArgs(a))
    {
      var filterArgs := BuildFilterArgs(a);
      var serialized := SerializeFlags(filterArgs, " ");
      filterCmd := "python " + INFER_RESULTS_FILTER_SCRIPT + " " + serialized +
                   " < " + INFER_OUT_DIR + "/report.json > " + INFER_RESULTS;
    }

    method BuildFilterArgs(a: InferArgs) returns (filterArgs: seq<string>)
      ensures filterArgs == FilterArgs(a)
    {
      filterArgs := [];
      if a.filter == Some(false) {
        filterArgs := filterArgs + ["--only-transform"];
      }
      if a.biabductionFilter == Some(false) {
        filterArgs := filterArgs + [FilterInfer.NO_BIABDUCTION];
      }
      if a.inferboFilter == Some(false) {
        filterArgs := filterArgs + ["--no-inferbo"];
      }
      if a.uninitFilter == Some(false) {
        filterArgs := filterArgs + ["--no-uninit"];
      }
      if a.deadStoreSeverity == Some(false) {
        filterArgs := filterArgs + ["--no-dead-store"];
      }
    }
  }

  // ------------------------------------------------------------ properties

  /** A plug-in that is not enabled changes nothing. */
  lemma DisabledChangesNothing(a: InferArgs, host: Host, p: PropsState)
    ensures HandleArgsSpec(false, a, host, p) == Effect(Ok, p)
  {
  }

  /**
   * The search of `/opt` finds nothing exactly when no entry is an
   * archive; otherwise it names the last entry that is.
   */
  lemma {:induction false} LastArchiveSpec(entries: seq<string>)
    ensures LastArchive(entries) == "" <==> forall k :: 0 <= k < |entries| ==> !IsArchiveName(entries[k])
    ensures LastArchive(entries) != "" ==>
      exists k :: 0 <= k < |entries| && IsArchiveName(entries[k]) && LastArchive(entries) == "/opt/" + entries[k] &&
        forall k' :: k < k' < |entries| ==> !IsArchiveName(entries[k'])
  {
    if entries != [] {
      var n := |entries| - 1;
      var init := entries[..n];
      LastArchiveSpec(init);
      if !IsArchiveName(entries[n]) && LastArchive(init) != "" {
        var k :| 0 <= k < |init| && IsArchiveName(init[k]) && LastArchive(init) == "/opt/" + init[k] &&
          forall k' :: k < k' < |init| ==> !IsArchiveName(init[k']);
        assert entries[k] == init[k];
      }
      if !IsArchiveName(entries[n]) && LastArchive(init) == "" {
        forall k | 0 <= k < |entries|
          ensures !IsArchiveName(entries[k])
        {
          if k < n {
            assert entries[k] == init[k];
          }
        }
      }
    }
  }

  /**
   * The packages come first and stay even when no archive is found; the
   * run fails exactly when the given path is not a file, or when none is
   * given and `/opt` holds no archive, and then nothing else is changed.
   */
  lemma ErrorCases(a: InferArgs, host: Host, p: PropsState)
    ensures var e := HandleArgsSpec(true, a, host, p);
      && e.p.installPkgs == p.installPkgs + INFER_PKGS
      && (e.o.ParserError? <==>
            (a.archivePath != "" && a.archivePath !in host.files) ||
            (a.archivePath == "" && forall k :: 0 <= k < |host.optEntries| ==> !IsArchiveName(host.optEntries[k])))
      && (e.o.ParserError? ==> e.p == p.(installPkgs := p.installPkgs + INFER_PKGS))
      && (e.o.ParserError? && a.archivePath != "" ==> e.o.msg == NoSuchArchiveMsg(a.archivePath))
      && (e.o.ParserError? && a.archivePath == "" ==> e.o.msg == NO_ARCHIVE_MSG)
      && (e.o.Ok? || e.o.ParserError?)
  {
    LastArchiveSpec(host.optEntries);
  }

  /**
   * On success the archive (the absolute form of the given path, or the
   * last match in `/opt`) is copied in and installed, the analysis runs
   * before the filter, the results are copied out and converted.
   */
  lemma SuccessEffects(a: InferArgs, host: Host, p: PropsState)
    requires ArchiveLookup(a, host).Found?
    ensures var e := HandleArgsSpec(true, a, host, p);
      var archive := if a.archivePath != "" then host.absPath(a.archivePath) else LastArchive(host.optEntries);
      && e.o == Ok
      && e.p.installPkgs == p.installPkgs + INFER_PKGS
      && e.p.copyInFiles == p.copyInFiles + [archive]
      && e.p.postDepinstHooks == p.postDepinstHooks + [InstallInferHook(InstallCmd(archive))]
      && e.p.postBuildChrootCmds == p.postBuildChrootCmds + [RunCmd(a.analyzeAddFlag)] + [FilterCmd(FilterArgs(a))]
      && e.p.copyOutFiles == p.copyOutFiles + [INFER_RESULTS]
      && e.p.postProcessHooks == p.postProcessHooks + [InferFilterHook]
      && e.p.env == p.env && e.p.cswrapFilters == p.cswrapFilters && e.p.runCheck == p.runCheck
  {
  }

  /** The custom analysis flags, joined by spaces, replace the default ones. */
  lemma AnalyzeFlagsReplaceDefault(addFlags: seq<string>)
    ensures addFlags == [] ==> RunCmd(addFlags) == "infer analyze --keep-going " + DEFAULT_ANALYZE_FLAGS + " -o " + INFER_OUT_DIR
    ensures addFlags != [] && addFlags[0] != "" ==> RunCmd(addFlags) == "infer analyze --keep-going " + Join(addFlags, " ") + " -o " + INFER_OUT_DIR
  {
    if addFlags != [] && addFlags[0] != "" {
      JoinNonEmpty(addFlags, " ");
    }
  }

  /** The position of each filter option in the plug-in's order. */
  function Rank(opt: string): int {
    if opt == "--only-transform" then 0
    else if opt == FilterInfer.NO_BIABDUCTION then 1
    else if opt == "--no-inferbo" then 2
    else if opt == "--no-uninit" then 3
    else 4
  }

  /**
   * Each option is passed exactly when its paired flag was given as
   * `--no-...`; absent or `--...` adds nothing.
   */
  lemma FilterArgsMembers(a: InferArgs)
    ensures "--only-transform" in FilterArgs(a) <==> a.filter == Some(false)
    ensures FilterInfer.NO_BIABDUCTION in FilterArgs(a) <==> a.biabductionFilter == Some(false)
    ensures "--no-inferbo" in FilterArgs(a) <==> a.inferboFilter == Some(false)
    ensures "--no-uninit" in FilterArgs(a) <==> a.uninitFilter == Some(false)
    ensures "--no-dead-store" in FilterArgs(a) <==> a.deadStoreSeverity == Some(false)
  {
    OptionsDistinct();
  }

  /** Only the five options are ever passed. */
  lemma FilterArgsAreOptions(a: InferArgs)
    ensures forall i :: 0 <= i < |FilterArgs(a)| ==> FilterArgs(a)[i] in FilterOptions()
  {
  }

  /** The five options, in the plug-in's order. */
  function FilterOptions(): seq<string> {
    ["--only-transform", FilterInfer.NO_BIABDUCTION, "--no-inferbo", "--no-uninit", "--no-dead-store"]
  }

  lemma OptionsDistinct()
    ensures forall i, j :: 0 <= i < j < |FilterOptions()| ==> FilterOptions()[i] != FilterOptions()[j]
    ensures forall i :: 0 <= i < |FilterOptions()| ==> Rank(FilterOptions()[i]) == i
  {
    var o := FilterOptions();
    assert o[0][2] == 'o' && o[1][2] == 'n' && o[1][5] == 'b' && o[2][5] == 'i' && o[3][5] == 'u' && o[4][5] == 'd';
  }

  /** The options are passed in the plug-in's order, each at most once. */
  lemma FilterArgsOrdered(a: InferArgs)
    ensures forall i, j :: 0 <= i < j < |FilterArgs(a)| ==> Rank(FilterArgs(a)[i]) < Rank(FilterArgs(a)[j])
  {
    OptionsDistinct();
  }

  /**
   * The serialised options split back into the same list at the spaces,
   * so the filter script sees exactly these arguments.
   */
  lemma FilterArgsSplitBack(a: InferArgs)
    requires FilterArgs(a) != []
    ensures Split(Serialized(FilterArgs(a), " "), " ") == FilterArgs(a)
  {
    var f := FilterArgs(a);
    FilterArgsAreOptions(a);
    forall i | 0 <= i < |f|
      ensures NoSepInside(f[i], " ")
    {
      assert f[i] in FilterOptions();
      NoLeadCharNoSep(f[i], " ");
    }
    SerializedSplitsBack(f, " ");
  }

  /**
   * With the option spelled alike on both sides, the script runs no filter
   * for `--no-infer-filter`, and otherwise exactly the filters whose paired
   * flag was not given as `--no-...`.
   */
  lemma FiltersRun(a: InferArgs)
    ensures var s := FilterInfer.SelectFilters(FilterArgs(a));
      && (s.None? <==> a.filter == Some(false))
      && (s.Some? ==>
            (FilterInfer.Biabduction in s.value <==> a.biabductionFilter != Some(false)) &&
            (FilterInfer.Inferbo in s.value <==> a.inferboFilter != Some(false)) &&
            (FilterInfer.Uninit in s.value <==> a.uninitFilter != Some(false)) &&
            (FilterInfer.DeadStore in s.value <==> a.deadStoreSeverity != Some(false)))
  {
    FilterArgsMembers(a);
    FilterInfer.SelectFiltersSpec(FilterArgs(a), FilterInfer.NO_BIABDUCTION);
  }

  /**
   * As the script is written, `--no-infer-biabduction-filter` does not
   * switch the bi-abduction filter off: whenever the script filters at all,
   * it runs it.
   */
  lemma BiabductionStaysOnAsWritten(a: InferArgs)
    requires a.filter != Some(false)
    ensures var s := FilterInfer.SelectFiltersAsWritten(FilterArgs(a));
      s.Some? && FilterInfer.Biabduction in s.value
  {
    FilterArgsMembers(a);
    FilterArgsAreOptions(a);
    FilterInfer.PluginCannotDisableBiabductionAsWritten();
    var f := FilterArgs(a);
    assert FilterInfer.NO_BIABDUCTION_AS_WRITTEN !in f by {
      forall i | 0 <= i < |f|
        ensures f[i] != FilterInfer.NO_BIABDUCTION_AS_WRITTEN
      {
        assert f[i] in FilterOptions();
        assert FilterInfer.NO_BIABDUCTION_AS_WRITTEN[8] == 'd';
      }
    }
  }
}
