# csmock core, modelled in Dafny

csmock runs static and dynamic analyzers over an SRPM in a mock chroot and
collects their findings. This project models the deterministic parts
beneath its process and chroot plumbing, and proves properties about them:

- shell quoting and command rendering (`shell_quote`, `strlist_to_shell_cmd`);
- the build/install scan-directory decision (`dirs_to_scan_by_args`);
- the version taken from `rpm -qa` output, and the tool-version hook;
- the compiler-flag matrix of cswrap (`FlagsMatrix`, `flags_by_warning_level`,
  `serialize_flags`, `encode_custom_flag_opts`);
- the exit-code state machine of `ScanResults` (`update_ec`, `error`,
  `fatal_error`, `handle_ec`, `handle_rv`);
- the output-name parser, the `scan.ini` writer (`IniWriter`) and
  `re_from_checker_set`;
- the Infer false-positive filter and its report printer (`filter-infer.py`);
- the Snyk coverage statistics in both variants of `snyk_write_analysis_meta`;
- the Clippy JSON-lines converter (`convert-clippy.py`);
- the `handle_args` configuration updates of these plug-ins:
  - gcc, infer and bandit;
  - the csexec-based dynamic analyzers valgrind, strace, cbmc, divine and symbiotic.

Layout:

- One module per source file. `Props` is the shared `props` object: a class
  with one field per attribute the plug-ins touch.
- `Csexec` holds what the csexec plug-ins share: `CSEXEC_WRAP_CMD`, the
  backslash-`a` separator, the assertion, and the compiler-flag retuning.
- `Strings`, `Wrappers` and `PyJson` hold Python string, `Option` and JSON
  semantics.

State changes are modelled imperatively:

- A class method changes exactly the fields it names in `modifies`.
- Its `ensures` ties the new value of the whole state to a specification
  function of the old state.
- Lemmas about those specification functions state the properties: errors,
  ordering, round trips, and what stays unchanged.

Hooks are closures in csmock. Here they are tokens (`Props.Hook`), so the
model checks which hooks are appended and in what order.

## Model

| member | source | states |
|---|---|---|
| Util.ShellQuote | py/common/util.py:23-35 | the result is `"`, the input with each of `\`, `"`, `$` preceded by a backslash and every other character copied in order, then `"` |
| Util.ShellQuoteRoundTrip | py/common/util.py:23-35 | dropping the outer quotes and the escaping backslashes gives the input back |
| Util.UnescapeEscaped | py/common/util.py:24-34 | unescaping the quoted body recovers the input |
| Util.EscapedIsWellEscaped | py/common/util.py:24-34 | in the quoted body every `"`, `$` and `\` is escaped; none stands unescaped |
| Util.EscapedSnoc | py/common/util.py:25-34 | one more input character appends exactly its escaped form to the body |
| Util.StrlistToShellCmd | py/common/util.py:62-73 | a single string gives `sh -c ` and its translation; a list gives the translated items joined by single spaces, with no leading space (so `[]` gives `""`) |
| Util.RenderList | py/common/util.py:70-72 | the loop leaves `""` for no items, otherwise one blank then the translated items joined by single blanks |
| Util.TranslateAll | py/common/util.py:63-66 | each item is translated on its own: `shell_quote` with `escape_special`, otherwise only wrapped in single quotes |
| Util.TranslatedJoinStartsWithQuote | py/common/util.py:70-73 | a non-empty rendered list starts with a quote, so `lstrip` removes only the first added blank |
| Util.StripOneSpace | py/common/util.py:73 | `lstrip` of one blank before a non-blank text gives that text |
| Util.DirsToScanByArgs | py/common/util.py:122-149 | scan-build defaults to on iff `--shell-cmd` is given and scan-install to on iff it is not, explicit values override; the two error messages when both are off and when install meets `--shell-cmd`; otherwise BUILD, BUILDROOT or both separated by one space; `need_rpm_bi` set exactly when install is scanned on success |
| Util.FindRelease | py/common/util.py:88 | the leftmost position where `-[0-9].*$` matches, or none |
| Util.ToolVersionOfNvr | py/common/util.py:88 | for `<tool>-<ver>-<digit…>` with no dash-digit inside `ver`, the version is exactly `ver` |
| Util.VersionOfNvrLine | py/common/util.py:88 | the two substitutions turn the stripped line `<tool>-<ver>-<rel>` into `ver` |
| Util.RemovePrefixOf | py/common/util.py:88 | the `^<tool>-` substitution removes exactly that prefix |
| Util.CutReleaseOfVersionRelease | py/common/util.py:88 | the `-[0-9].*$` substitution cuts everything from the first dash-digit |
| Util.ReleaseAtVersionEnd | py/common/util.py:88 | the release pattern matches right after the version |
| Util.NoReleaseInsideVersion | py/common/util.py:88 | it matches nowhere inside the version |
| Util.InstallDefaultToolverHook | py/common/util.py:93-99 | exactly one version hook is appended, keyed by the lower-cased tool name |
| Toolver.WriteToolver | py/common/util.py:76-77 | `scan.ini` gains the line `analyzer-version-<key> = <version>` |
| Toolver.WriteToolverFromRpmlist | py/common/util.py:80-90 | a failed query reports `error(ec=0)` and returns its code, writing nothing; otherwise the extracted version is written and 0 returned |
| Toolver.MissingToolKeepsScanGoing | py/common/util.py:83-86 | a missing tool does not stop a scan that had no error yet |
| Toolver.MissingToolAbortsAfterError | py/common/util.py:83-86 | after an earlier error, the `error(ec=0)` of a missing tool still raises |
| Toolver.SignalledQueryIsFatal | py/common/results.py:200-204 | a query killed by a signal shuts the scan down with that code |
| CFlags.SerializeFlags | py/common/cflags.py:71-77 | a separator goes before an item only once the output is non-empty: the items from the first non-empty one, joined; `[]` gives `""` |
| CFlags.DropLeadingEmpty | py/common/cflags.py:73-76 | the items that contribute, starting with a non-empty one |
| CFlags.DropLeadingEmptySnoc | py/common/cflags.py:73-76 | one more item extends the contributing items unless all so far and it are empty |
| CFlags.SerializedSplitsBack | py/common/cflags.py:71-77 | with a non-empty first item and no separator inside an item, splitting at the separator gives the list back |
| CFlags.EncodeCustomFlagOpts | py/common/cflags.py:58-68 | all add options, then C-only, C++-only, then del options, each ` --<opt>='<flag>'`, in order |
| CFlags.AppendOptions | py/common/cflags.py:60-67 | one loop appends one ` --<opt>='<flag>'` per flag |
| CFlags.OptionListAppend | py/common/cflags.py:60-67 | the options of two lists are the options of their concatenation |
| CFlags.OptionListSnoc | py/common/cflags.py:60-67 | one more flag appends exactly its option |
| CFlags.FlagsMatrix.constructor | py/common/cflags.py:81-85 | all four lists start empty |
| CFlags.FlagsMatrix.AppendFlags | py/common/cflags.py:87-89 | both add lists gain the flags, the del lists stay as they were |
| CFlags.FlagsMatrix.RemoveFlags | py/common/cflags.py:91-93 | both del lists gain the flags, the add lists stay as they were |
| CFlags.FlagsMatrix.AppendCustomFlags | py/common/cflags.py:95-108 | C-add gets add then C-only flags, C++-add gets add then C++-only flags, both del lists the del flags; the result is true iff one of the four lists is non-empty |
| CFlags.FlagsMatrix.WriteToEnv | py/common/cflags.py:110-114 | the environment written from the matrix value |
| CFlags.EnvWithFlagsKeys | py/common/cflags.py:110-114 | exactly the four `CSWRAP_{ADD,DEL}_{C,CXX}FLAGS` keys are set to the `:`-serialised lists; every other key is untouched |
| CFlags.FlagsByWarningLevel | py/common/cflags.py:117-133 | a fresh matrix holding the levels 0 to `level` accumulated |
| CFlags.LevelZero | py/common/cflags.py:18-33 | level 0: both del lists are the four common patterns, C-add is `-Wno-unknown-pragmas`, C++-add is empty |
| CFlags.LevelMonotone | py/common/cflags.py:117-133 | for `n >= 0` each list at level `n` is a prefix of the same list at level `n+1` |
| CFlags.LevelSaturates | py/common/cflags.py:18-33 | every level from 2 up equals level 2 |
| CFlags.NegativeLevelEmpty | py/common/cflags.py:119 | a negative level gives the all-empty matrix |
| Results.Basename | py/common/results.py:61 | `os.path.basename`: no `/` in the result, a suffix of the path, preceded by `/` when shorter |
| Results.BasenameOfPath | py/common/results.py:61 | the basename of `dir/x` is `x` |
| Results.BasenameNoSlash | py/common/results.py:61 | a name without `/` is its own basename |
| Results.BasenameNoNewline | py/common/results.py:61 | the basename of a one-line path is one line |
| Results.MatchSuffix | py/common/results.py:77-85 | `re.match("^(.*)\.<ext>$")`: the group gives the name back with the suffix, and an optional final newline |
| Results.MatchSuffixComplete | py/common/results.py:77-85 | every match of the regex yields that group |
| Results.MatchSuffixNoNewline | py/common/results.py:77-85 | on a one-line name the regex matches iff the name ends in the suffix |
| Results.ParseOutputNameReassembles | py/common/results.py:61-85 | the directory name plus the recorded suffixes is the basename; `use_xz` iff it ends in `.xz`, `use_tar` iff what remains ends in `.tar` |
| Results.BaseNameReassembles | py/common/results.py:77-85 | the same statement for the base name itself |
| Results.StripExtNoNewline | py/common/results.py:77-80 | one suffix step on a one-line name: it matches iff the name ends in the suffix, and the rest plus the suffix is the name |
| Results.ParseTarXz | py/common/results.py:77-85 | `r.tar.xz` gives `r` with tar and xz |
| Results.ParseXzTar | py/common/results.py:77-85 | `r.xz.tar` gives `r.xz` with tar only |
| Results.ScanResults.constructor | py/common/results.py:51-85 | no error yet, not dying, and the output name parsed |
| Results.ScanResults.UpdateEc | py/common/results.py:179-181 | `ec := max(ec, new)` |
| Results.ScanResults.PrintWithTs | py/common/results.py:173-177 | only its `handle_ec` call changes state |
| Results.ScanResults.Error | py/common/results.py:183-187 | first `handle_ec`, then the code raised to `ec`; raises `FatalError(ec)` iff not dying, not keep-going and the accumulated code is non-zero |
| Results.ScanResults.FatalError | py/common/results.py:189-193 | sets dying for good and always raises `FatalError(ec)` |
| Results.ScanResults.HandleEc | py/common/results.py:195-198 | a fatal error with the same code iff not dying and `128 < ec < 192` |
| Results.ScanResults.HandleRv | py/common/results.py:200-204 | nothing for `rv <= 128`; otherwise the code raised to `rv`, then `handle_ec` |
| Results.RunMonotone | py/common/results.py:179-204 | over any run of calls the exit code never decreases, and a dying scan stays dying |
| Results.RunEcIsSomeCode | py/common/results.py:179-204 | the final code is the initial one or one a call passed |
| Results.DyingRunRaisesOnlyByFatalError | py/common/results.py:186-193 | once dying, nothing but an explicit `fatal_error` raises |
| Results.KeepGoingNeverRaises | py/common/results.py:186 | with keep-going and no signal codes, no call except `fatal_error` raises |
| Results.ErrorZeroAfterError | py/common/results.py:183-187 | an `error(ec=0)` still raises once an earlier error made `ec` non-zero |
| Results.ErrorRaisesIff | py/common/results.py:183-187 | `error` raises iff not dying, not keep-going and `max(ec, new) != 0`; when dying it only raises the code |
| Results.HandleRvSignal | py/common/results.py:195-204 | a command killed by a signal shuts the scan down with its code |
| Results.IniLineReadBack | py/common/results.py:270-272 | a written line reads back as its key and the stripped value |
| Results.ReadBack | py/common/results.py:270-272 | a `key = value` line reads back as that key and value |
| Results.ThreeLinesReadBack | py/common/results.py:270-272 | three appended lines with blank-free keys and one-line values split at the line breaks into exactly those three lines, each reading back as its key and value |
| Results.IniWriter.constructor | py/common/results.py:247-256 | the header and the six creation keys in order |
| Results.IniWriter.Write | py/common/results.py:266-268 | the text is appended |
| Results.IniWriter.Append | py/common/results.py:270-272 | one `key = value` line, the value stripped |
| Results.IniWriter.Close | py/common/results.py:258-264 | the first close appends time-finished and exit-code; any later close changes nothing |
| Results.SortedSeq | py/common/results.py:279 | `sorted` of a non-empty set starts with its least element |
| Results.SortedSeqElements | py/common/results.py:279 | `sorted` lists exactly the set's elements, once each |
| Results.SortedSeqSorted | py/common/results.py:279 | in strictly increasing code-point order |
| Results.MinExists | py/common/results.py:279 | a non-empty set has a least element |
| Results.MinUnique | py/common/results.py:279 | the least element is unique |
| Results.SortedSeqUnfold | py/common/results.py:279 | `sorted` is the least element followed by the rest sorted |
| Results.SortedCheckers | py/common/results.py:279 | computes `sorted(checker_set)` |
| Results.ReFromCheckerSet | py/common/results.py:275-286 | `^(`, the sorted checkers joined by `|`, `)$`; it depends on the set only |
| Results.CheckerRegexEmpty | py/common/results.py:275-286 | the empty set gives `^()$` |
| Results.CheckerRegexAlternatives | py/common/results.py:275-286 | without `|` in a checker, the text between `^(` and `)$` splits back into the sorted checkers |
| FilterInfer.UninitFilter | scripts/filter-infer.py:8-11 | it can fire only on `UNINITIALIZED_VALUE` bugs, and on those iff the qualifier matches |
| FilterInfer.ScanTrace | scripts/filter-infer.py:16-20 | true only when some trace step matches one of the two skip patterns, false when every step has a description and none matches |
| FilterInfer.BiabductionFilter | scripts/filter-infer.py:14-20 | it can fire only on `NULL_DEREFERENCE`/`RESOURCE_LEAK` bugs with a matching trace step |
| FilterInfer.InferboFilter | scripts/filter-infer.py:23-43 | it never changes the bug |
| FilterInfer.InferboFires | scripts/filter-infer.py:23-43 | always fires on `BUFFER_OVERRUN_U5`/`INTEGER_OVERFLOW_U5`; on the other listed types iff the qualifier has `+oo` or `-oo`; never on other types |
| FilterInfer.LowerSeverityForDeadStore | scripts/filter-infer.py:46-48 | it never drops a bug |
| FilterInfer.FilterEffect | scripts/filter-infer.py:46-48 | only the dead-store filter changes a bug: severity `WARNING` on `DEAD_STORE` bugs |
| FilterInfer.FiresIgnoresSeverity | scripts/filter-infer.py:8-43 | no filter's verdict depends on the severity |
| FilterInfer.FilteredSnoc | scripts/filter-infer.py:54-71 | one more bug appends at most that bug, as the filters left it |
| FilterInfer.BugList.constructor | scripts/filter-infer.py:77 | the list holds the bugs loaded |
| FilterInfer.ApplyFilters | scripts/filter-infer.py:51-73 | the input list ends up empty and the result is the kept bugs, in order |
| FilterInfer.RunFilters | scripts/filter-infer.py:56-69 | the inner loop decides as the filter chain does: dropped iff a filter returned something truthy, with the bug as the filters left it |
| FilterInfer.KeptIffNoneFires | scripts/filter-infer.py:57-71 | a bug is kept iff no filter returns a truthy value; a raising filter counts as a real bug and the next filter still runs |
| FilterInfer.KeptBugIsRewritten | scripts/filter-infer.py:46-71 | a kept bug is unchanged except for the dead-store severity rewrite |
| FilterInfer.Processed | scripts/filter-infer.py:54-71 | every bug as the filters leave it, one per input bug |
| FilterInfer.FilteredIsSubsequence | scripts/filter-infer.py:51-73 | the result is an order-preserving subsequence of the processed input |
| FilterInfer.SubsequenceDropHead | scripts/filter-infer.py:54-55 | a subsequence of the tail is a subsequence of the list |
| FilterInfer.ProcessedWithoutDeadStore | scripts/filter-infer.py:51-73 | without the dead-store filter kept bugs are unchanged |
| FilterInfer.PluginCannotDisableBiabductionAsWritten | scripts/filter-infer.py:82 | as written, the `--no-biabduction` option the plugin passes leaves all four filters on |
| FilterInfer.SelectFiltersSpec | scripts/filter-infer.py:79-94 | for any option that disables bi-abduction (the misspelled one as written, the plug-in's one when corrected): no filtering iff `--only-transform`; otherwise each filter runs iff its option is absent, in the order bi-abduction, inferbo, uninit, dead-store |
| FilterInfer.AsWrittenDiffersOnlyBySpelling | scripts/filter-infer.py:82 | for every argument list, the script as written selects the same filters as the corrected one iff `--only-transform` is given or `--no-biadbuction` and `--no-biabduction` are both present or both absent |
| FilterInfer.FinalRender | scripts/filter-infer.py:105 | `file:line:col: `, the severity lower-cased, then `[type]: qualifier` |
| FilterInfer.NoteLine | scripts/filter-infer.py:104 | a note line exists iff the trace step has all four fields |
| FilterInfer.NoteLines | scripts/filter-infer.py:103-104 | one note per trace step |
| FilterInfer.Block | scripts/filter-infer.py:102-105 | a block starts with `Error: INFER_WARNING:` and has the trace's notes and a final line |
| FilterInfer.PrintReport | scripts/filter-infer.py:97-106 | the lines printed, and whether the script crashes on a missing field |
| FilterInfer.Blocks | scripts/filter-infer.py:99-106 | one block per bug |
| FilterInfer.ReportIsJoin | scripts/filter-infer.py:97-106 | the report completes iff every bug is complete, and is then the blocks separated by exactly one blank line, with none before the first |
| FilterInfer.ReportCompleteIff | scripts/filter-infer.py:97-106 | the report completes iff every bug has all its fields |
| FilterInfer.ReportLinesJoin | scripts/filter-infer.py:97-106 | with every bug complete the lines are the blocks joined by one blank line |
| FilterInfer.ReportAfterFirst | scripts/filter-infer.py:100-101 | after the first bug a blank line precedes each block |
| FilterInfer.FilterAndReportBy | scripts/filter-infer.py:76-106 | with a given option disabling bi-abduction: the report of the bugs kept by the selected filters, or of all bugs with `--only-transform` |
| FilterInfer.FilterAndReport | scripts/filter-infer.py:76-106 | `main` as written: the report of the bugs kept by the filters selected with `--no-biadbuction` as the disabling option, or of all bugs with `--only-transform` |
| FilterInfer.FilterAndReportCorrected | scripts/filter-infer.py:76-106 | `main` with `--no-biabduction` as the disabling option: the report of the bugs kept by the corrected selection |
| PyJson.MemberIsLastBinding | csmock/common/snyk.py:28 | a JSON object member lookup gives the last binding of the key, or none |
| PyJson.MemberNoneIffUnbound | csmock/common/snyk.py:28 | a lookup fails iff no member has the key |
| PyJson.MemberLastBinding | csmock/common/snyk.py:28 | a found value is that of the last member with the key |
| PyJson.PyIndex | csmock/common/snyk.py:28 | Python list indexing, negative indices included; out of range is an error |
| Snyk.CountCoverage | csmock/common/snyk.py:29-34 | the loop computes the coverage tally or the first lookup error |
| Snyk.TallyIsSums | csmock/common/snyk.py:29-34 | on well-formed entries the tally is the sum of `files` and the sum over `SUPPORTED` entries |
| Snyk.SumsSnoc | csmock/common/snyk.py:31-34 | one more entry adds its files to the total, and to supported when its type is `SUPPORTED` |
| Snyk.TallyFailureSticks | csmock/common/snyk.py:31-34 | once a lookup fails, later entries do not matter |
| Snyk.TallyFailsAtFirstBadEntry | csmock/common/snyk.py:31-34 | the error is that of the first malformed entry |
| Snyk.SupportedAtMostTotal | csmock/common/snyk.py:29-35 | with non-negative counts, `0 <= supported <= total` |
| Snyk.RatioBounds | csmock/common/snyk.py:36-38 | the ratio is in `[0, 100]`, 0 when there are no files, `⌊supported·100/total⌋` for a positive total, and 100 when all files are supported |
| Snyk.Analyze | csmock/common/snyk.py:26-38 | the lookups and the tally, or the exception they raise |
| Snyk.WriteMeta | csmock/common/snyk.py:21-52 | both variants: new exit state, return value and appended `scan.ini` text as the variant's specification says |
| Snyk.WriteAnalysisMeta | csmock/common/snyk.py:21-52 | the current variant |
| Snyk.WriteAnalysisMetaLegacy | py/common/snyk.py:5-29 | the older variant |
| Snyk.MetaReadsBack | csmock/common/snyk.py:26-44 | with well-formed coverage entries both variants return 0 and keep the exit code, and the appended text splits into exactly three lines that read back as `snyk-scanned-files-coverage`, `-success`, `-total` in that order, holding the truncated percentage `int(supported·100/total)` (0 without files), the sum of supported files and the sum of all files |
| Snyk.MetaLinesReadBack | csmock/common/snyk.py:40-42 | the three appended lines of a tally split back into three lines and read back as the three keys with the ratio, supported and total counts |
| Snyk.NothingAppendedOnFailure | csmock/common/snyk.py:46-52 | on an error nothing is appended, because all lookups come before the appends |
| Snyk.HandledFailureReturnsOne | csmock/common/snyk.py:46-52 | a handled error goes through `results.error` and returns 1 unless that raises |
| Snyk.VariantsAgree | py/common/snyk.py:27-29 | the variants behave alike exactly when the analysis succeeds or fails with `OSError`/`KeyError` |
| Snyk.MalformedEscapesCurrent | csmock/common/snyk.py:46-52 | a JSON syntax error is not handled by the current variant |
| Snyk.NoRunsIsIndexError | csmock/common/snyk.py:28 | an empty `runs` list raises `IndexError`: it escapes the current variant, the older one returns 1 |
| Snyk.EntryOfCoverageEntry | csmock/common/snyk.py:32-33 | a coverage entry contributes its `files` and whether its type is `SUPPORTED` |
| Snyk.OneOfThree | csmock/common/snyk.py:29-38 | example only: one supported file out of three gives a ratio of 33 |
| Clippy.FirstComponent | scripts/convert-clippy.py:35 | the text up to the first `/` |
| Clippy.FirstComponentIsSplit | scripts/convert-clippy.py:35 | it is `split("/")[0]` |
| Clippy.PackagePathOfSource | scripts/convert-clippy.py:33-37 | a matched path under the build directory gives the build directory plus the package directory |
| Clippy.PackagePathShape | scripts/convert-clippy.py:33-37 | the package path is the build directory plus one component |
| Clippy.ShortMatch | scripts/convert-clippy.py:34 | a match no longer than the build directory gives the build directory itself |
| Clippy.FirstMatch | scripts/convert-clippy.py:26-31 | none iff no pattern matches; otherwise the result is that of some pattern `k` such that every pattern before `k` fails, i.e. the first matching pattern |
| Clippy.SearchPackageId | scripts/convert-clippy.py:26-31 | the loop with its `break` finds that first match |
| Clippy.RestLines | scripts/convert-clippy.py:47-50 | every line of `rest` prefixed with `#  `, except an empty first line |
| Clippy.PrintRest | scripts/convert-clippy.py:47-50 | the loop prints those lines |
| Clippy.BlockShape | scripts/convert-clippy.py:45-52 | `Error: CLIPPY_WARNING:`, the location line, comment lines, then one blank line |
| Clippy.ConvertRecord | scripts/convert-clippy.py:23-52 | the lines printed for one record, or the exception its lookups raise |
| Clippy.ConvertInput | scripts/convert-clippy.py:15-52 | the whole output and the exit status |
| Clippy.ConvertAppend | scripts/convert-clippy.py:16 | the output of two inputs is the first's output followed by the second's |
| Clippy.NotJsonExitsOne | scripts/convert-clippy.py:16-21 | a line that is not JSON ends the run with status 1 after the earlier output |
| Clippy.OtherReasonsSkipped | scripts/convert-clippy.py:23-24 | a record whose `reason` is not `compiler-message` prints nothing |
| Clippy.UnmatchedPackageSkipped | scripts/convert-clippy.py:26-31 | a record whose package id matches no pattern prints nothing |
| Clippy.LocationRender | scripts/convert-clippy.py:46 | example only: the location line starts with `<pkg>/<file>:` (implied by `Clippy.BlockShape`) |
| GccPlugin.Plugin.constructor | py/plugins/gcc.py:43-47 | not enabled, no sanitizer, the level-0 matrix and no csgcca path |
| GccPlugin.Plugin.Enable | py/plugins/gcc.py:52-53 | enabled |
| GccPlugin.Plugin.EnableSanitize | py/plugins/gcc.py:55-63 | enabled, sanitize and `run_check` set; the packages appended; `valgrind` blacklisted; the flags added to both add lists only |
| GccPlugin.Plugin.Sanitizer | py/plugins/gcc.py:147-160 | one sanitizer: `enable_sanitize`, then `-static` dropped when asked |
| GccPlugin.Plugin.SetWarningLevel | py/plugins/gcc.py:111-113 | a given level enables the plug-in and replaces the matrix |
| GccPlugin.Plugin.ConfigureAnalyzer | py/plugins/gcc.py:115-131 | the analyzer enables the plug-in; a relative `--gcc-analyzer-bin` and a failing csgcca are parser errors; otherwise the csgcca path is stripped and both files copied in |
| GccPlugin.Plugin.SanitizerOption | py/plugins/gcc.py:147-160 | the sanitizer step only when its option is given |
| GccPlugin.Plugin.AddressOption | py/plugins/gcc.py:138-145 | address: `libasan`, `ASAN_OPTIONS=detect_leaks=0`, `-static` dropped |
| GccPlugin.Plugin.ApplySanitizers | py/plugins/gcc.py:138-160 | the four sanitizers in order |
| GccPlugin.Plugin.SetEnv | py/plugins/gcc.py:133-136 | `--gcc-set-env` enables the plug-in and sets `CC=gcc`, `CXX=g++` |
| GccPlugin.Plugin.ApplyCustomFlags | py/plugins/gcc.py:163-164 | custom flags extend the matrix and enable the plug-in iff one was given |
| GccPlugin.Plugin.ApplyBuildOptions | py/plugins/gcc.py:133-164 | set-env, sanitizers and custom flags in that order |
| GccPlugin.Plugin.Finish | py/plugins/gcc.py:166-185 | not enabled: one `COMPILER_WARNING` filter and nothing else; sanitize with `valgrind` installed: parser error; otherwise the scan configuration |
| GccPlugin.Plugin.ConfigureScan | py/plugins/gcc.py:176-247 | `gcc` installed, cswrap on with its filter, the flags written, the hooks appended |
| GccPlugin.Plugin.SetUpCswrap | py/plugins/gcc.py:176-183 | `gcc`, cswrap, the filter, the four flag keys |
| GccPlugin.Plugin.WriteFlagsToEnv | py/plugins/gcc.py:183 | the four flag keys from the matrix |
| GccPlugin.Plugin.InstallHooks | py/plugins/gcc.py:185-247 | the version hook, then the csgcca hook when there is a csgcca path |
| GccPlugin.Plugin.HandleArgs | py/plugins/gcc.py:110-247 | the whole `handle_args` as one transformation of the plug-in and props state |
| GccPlugin.FindCswrap | py/plugins/gcc.py:224-228 | the first entry ending in `/cswrap`, or none |
| GccPlugin.InsertCsgcca | py/plugins/gcc.py:224-229 | csgcca inserted at that index, or at 0 |
| GccPlugin.InsertKeepsOrder | py/plugins/gcc.py:224-229 | one entry added right before the first `/cswrap` entry, or first; the others keep their order |
| GccPlugin.SanitizerPkgsHaveNoValgrind | py/plugins/gcc.py:139-160 | the sanitizers never install `valgrind` themselves |
| GccPlugin.ValgrindConflictIsPreexisting | py/plugins/gcc.py:172-173 | the sanitizer-valgrind error happens iff the plug-in is enabled, sanitizing and `valgrind` is being installed |
| GccPlugin.LevelReplacesFlags | py/plugins/gcc.py:111-113 | a given level makes the earlier matrix irrelevant |
| GccPlugin.StaticDroppedBySanitizers | py/plugins/gcc.py:138-160 | `-static` is dropped iff address, leak or thread is on; undefined does not drop it |
| GccPlugin.OptionStepClosedForm | py/plugins/gcc.py:147-160 | the effect of one sanitizer option in closed form |
| GccPlugin.AddressClosedForm | py/plugins/gcc.py:138-145 | the effect of the address option in closed form |
| GccPlugin.SanitizersPluginClosedForm | py/plugins/gcc.py:138-160 | the plug-in after all four sanitizer options |
| GccPlugin.SanitizersPropsClosedForm | py/plugins/gcc.py:138-160 | the props after all four sanitizer options |
| GccPlugin.BuildClosedForm | py/plugins/gcc.py:133-164 | plug-in and props after set-env, sanitizers and custom flags |
| GccPlugin.ConfigureOk | py/plugins/gcc.py:111-131 | after a good level/analyzer step: enabled, matrix and csgcca path, copy-in files |
| GccPlugin.HandleArgsIsFinish | py/plugins/gcc.py:110-247 | without an early error, `handle_args` is the final step on the built configuration |
| GccPlugin.HandleArgsErrors | py/plugins/gcc.py:120-173 | a parser error iff one of the three error conditions holds |
| GccPlugin.HandleArgsState | py/plugins/gcc.py:110-164 | on success the plug-in state is the one the options build |
| GccPlugin.HandleArgsEnabled | py/plugins/gcc.py:166-247 | an enabled plug-in leaves the full scan configuration |
| GccPlugin.NoOptionOnlyFilters | py/plugins/gcc.py:166-170 | a plug-in nothing enables only appends the `COMPILER_WARNING` filter |
| Infer.SearchOpt | py/plugins/infer.py:76-78 | the loop over `/opt` leaves the last matching entry |
| Infer.LastArchiveSpec | py/plugins/infer.py:76-79 | empty iff no entry matches `infer-linux.*\.tar\.xz`; otherwise `/opt/` plus the last matching entry |
| Infer.LocateArchive | py/plugins/infer.py:66-84 | a given path must be a file and is made absolute; otherwise `/opt` is searched; each failure has its message |
| Infer.Plugin.constructor | py/plugins/infer.py:17-18 | not enabled |
| Infer.Plugin.Enable | py/plugins/infer.py:23-24 | enabled |
| Infer.Plugin.HandleArgs | py/plugins/infer.py:57-134 | the whole `handle_args` as one props transformation |
| Infer.Plugin.Install | py/plugins/infer.py:86-92 | the archive copied in and the install hook registered |
| Infer.Plugin.Schedule | py/plugins/infer.py:94-134 | the analyze then the filter command, the results copied out, the filter hook |
| Infer.Plugin.AnalyzeCmd | py/plugins/infer.py:94-98 | the analyze command |
| Infer.Plugin.FilterCommand | py/plugins/infer.py:119-122 | the filter command with the serialised filter options |
| Infer.Plugin.BuildFilterArgs | py/plugins/infer.py:101-116 | the filter options |
| Infer.DisabledChangesNothing | py/plugins/infer.py:58-59 | a disabled plug-in changes nothing |
| Infer.ErrorCases | py/plugins/infer.py:64-84 | the packages `python`, `ncurses-compat-libs`, `ncurses-libs` are always added first; a parser error iff the given archive is missing or `/opt` has none, with its message, and nothing else changed |
| Infer.SuccessEffects | py/plugins/infer.py:64-134 | the archive copied in; install hook; analyze then filter command; results copied out; filter hook; nothing else |
| Infer.AnalyzeFlagsReplaceDefault | py/plugins/infer.py:95-98 | custom analyze flags replace `--pulse --bufferoverrun` and are joined by spaces |
| Infer.FilterArgsMembers | py/plugins/infer.py:101-116 | each option is present iff its paired flag is explicitly off |
| Infer.FilterArgsAreOptions | py/plugins/infer.py:101-116 | only the five options appear |
| Infer.OptionsDistinct | py/plugins/infer.py:101-116 | the five options are distinct |
| Infer.FilterArgsOrdered | py/plugins/infer.py:101-116 | in the order only-transform, no-biabduction, no-inferbo, no-uninit, no-dead-store |
| Infer.FilterArgsSplitBack | py/plugins/infer.py:119 | the serialised options split back at spaces |
| Infer.FiltersRun | py/plugins/infer.py:101-122 | with the option spelled as the plug-in spells it, a filter runs iff its flag is not explicitly off and `--only-transform` stops all filtering |
| Infer.BiabductionStaysOnAsWritten | py/plugins/infer.py:106-107 | as written, `filter-infer.py` keeps bi-abduction whatever the plug-in passes |
| Bandit.Plugin.constructor | py/plugins/bandit.py:34-36 | not enabled |
| Bandit.Plugin.Enable | py/plugins/bandit.py:41-42 | enabled |
| Bandit.Plugin.HandleArgs | py/plugins/bandit.py:54-78 | the whole `handle_args` as one props transformation |
| Bandit.Plugin.Schedule | py/plugins/bandit.py:66-78 | the run command, the capture, the version hook and the filter hook |
| Bandit.IndexOf | py/plugins/bandit.py:65 | the position of the key among the levels, or none |
| Bandit.IndexOfFirst | py/plugins/bandit.py:65 | the first occurrence of the key is the position found |
| Bandit.DisabledChangesNothing | py/plugins/bandit.py:55-56 | a disabled plug-in changes nothing |
| Bandit.SeverityMapping | py/plugins/bandit.py:65 | `LOW`, `MEDIUM`, `HIGH` in any letter case give `-l`, `-ll`, `-lll`; any other level is a `KeyError` on the upper-cased name |
| Bandit.UpperOfLevel | py/plugins/bandit.py:36 | the accepted levels are already upper case |
| Bandit.AcceptedLevelsHaveFlags | py/plugins/bandit.py:50-52 | every level the parser accepts has its option |
| Bandit.ErrorCases | py/plugins/bandit.py:59-65 | a directory error comes before any props change; an unknown level is raised after `bandit` is added and before any command |
| Bandit.SuccessEffects | py/plugins/bandit.py:63-78 | `bandit` installed; `shopt -s nullglob && <script> <sev> <dirs> > <capture>` appended; capture copied out; one version hook and one filter hook; `need_rpm_bi` as the directories say |
| Bandit.DefaultDirs | py/plugins/bandit.py:59-60 | with neither scan option, the install tree without `--shell-cmd` and the build tree with it |
| Csexec.WithAddFlags | py/plugins/cbmc.py:99 | only the last entry changes: it gains one space and the custom flags joined by spaces, a trailing space even when there are none |
| Csexec.SetWrapCmd | py/plugins/valgrind.py:78-82 | the assertion fails iff `CSEXEC_WRAP_CMD` is set, leaving the environment; otherwise the key is set to the backslash-`a` serialisation |
| Csexec.WrapCmdSplitsBack | py/plugins/valgrind.py:81 | csexec splits the wrapper back into the list when no entry holds the separator |
| Csexec.WrapCmdIsJoin | py/plugins/valgrind.py:81 | with a non-empty first entry the wrapper is the entries joined by the separator |
| Csexec.NoBackslashNoSep | py/plugins/valgrind.py:81 | an entry without a backslash cannot hold the separator |
| Csexec.FixedThenFlagsHaveNoSep | py/plugins/valgrind.py:68-75 | fixed entries without a backslash plus separator-free flags hold no separator |
| Csexec.WithAddFlagsHasNoSep | py/plugins/cbmc.py:90-99 | the same after the custom flags are appended to the last entry |
| Csexec.WriteCompilerFlags | py/plugins/cbmc.py:109-111 | the add flags appended, the del flags removed, the matrix written to the environment |
| Csexec.FlagsKeepWrapper | py/plugins/cbmc.py:105-111 | writing the flags keeps the wrapper |
| Csexec.CompilerEnv | py/plugins/cbmc.py:73-111 | the compilers, the wrapper and the four flag lists are set; every other variable is as it was |
| Csexec.CompilerEnvKeys | py/plugins/cbmc.py:73-111 | exactly those seven keys are added |
| Csexec.WrapEnvKeys | py/plugins/valgrind.py:82 | the wrapper touches one key |
| Valgrind.Plugin.constructor | py/plugins/valgrind.py:33-34 | not enabled |
| Valgrind.Plugin.Enable | py/plugins/valgrind.py:40-41 | enabled |
| Valgrind.Plugin.HandleArgs | py/plugins/valgrind.py:49-103 | the whole `handle_args` as one props transformation |
| Valgrind.Plugin.Prepare | py/plugins/valgrind.py:54-65 | `valgrind`, the version hook, csexec, the capture-directory hook |
| Valgrind.Plugin.Finish | py/plugins/valgrind.py:78-103 | the assertion, then the wrapper and what follows it |
| Valgrind.Plugin.Collect | py/plugins/valgrind.py:85-103 | `%check` run, the capture copied out, cleanup then filter hook |
| Valgrind.DisabledChangesNothing | py/plugins/valgrind.py:50-51 | a disabled plug-in changes nothing |
| Valgrind.AssertionFailsOnSecondAnalyzer | py/plugins/valgrind.py:78 | the assertion fails iff `CSEXEC_WRAP_CMD` is already set; the earlier changes are kept and the environment is not touched |
| Valgrind.WrapperIsCommandLine | py/plugins/valgrind.py:68-82 | the wrapper is the five fixed entries then the custom flags, joined by backslash-`a`, and splits back into them |
| Valgrind.WrapCmdListHasNoSep | py/plugins/valgrind.py:68-75 | no entry holds the separator, and the first is `valgrind` |
| Valgrind.SuccessEffects | py/plugins/valgrind.py:54-103 | `valgrind` installed, `run_check`, the capture copied out; version hook before the capture-directory hook; cleanup before filter |
| Strace.Plugin.constructor | py/plugins/strace.py:35-36 | not enabled |
| Strace.Plugin.Enable | py/plugins/strace.py:41-42 | enabled |
| Strace.Plugin.HandleArgs | py/plugins/strace.py:50-87 | the whole `handle_args` as one props transformation |
| Strace.Plugin.Prepare | py/plugins/strace.py:55-66 | `strace`, the version hook, csexec, the capture-directory hook |
| Strace.Plugin.Finish | py/plugins/strace.py:77-87 | the assertion, then the wrapper and what follows it |
| Strace.Plugin.Collect | py/plugins/strace.py:84-87 | `%check` run and the capture copied out |
| Strace.DisabledChangesNothing | py/plugins/strace.py:51-52 | a disabled plug-in changes nothing |
| Strace.AssertionFailsOnSecondAnalyzer | py/plugins/strace.py:77 | the assertion fails iff `CSEXEC_WRAP_CMD` is already set |
| Strace.WrapperIsCommandLine | py/plugins/strace.py:69-81 | the wrapper is `strace`, `--output=<dir>/trace`, `--output-separately`, then the custom flags, and splits back into them |
| Strace.WrapCmdListHasNoSep | py/plugins/strace.py:69-74 | no entry holds the separator |
| Strace.SuccessEffects | py/plugins/strace.py:55-89 | `strace` installed, `run_check`, the capture copied out; no post-process hook |
| Cbmc.Plugin.constructor | py/plugins/cbmc.py:36-38 | not enabled, with a fresh level-0 matrix |
| Cbmc.Plugin.Enable | py/plugins/cbmc.py:43-44 | enabled |
| Cbmc.Plugin.HandleArgs | py/plugins/cbmc.py:56-137 | the whole `handle_args` as one transformation of the matrix and props |
| Cbmc.Plugin.Install | py/plugins/cbmc.py:61-68 | the packages, the version hook, cswrap and its filter |
| Cbmc.Plugin.SetToolchain | py/plugins/cbmc.py:73-78 | `CC`/`CXX` and the rpm defines |
| Cbmc.Plugin.Arm | py/plugins/cbmc.py:81-87 | csexec and the capture-directory hook |
| Cbmc.Plugin.Finish | py/plugins/cbmc.py:102-137 | the assertion, then the wrapper, the matrix and what follows |
| Cbmc.Plugin.Collect | py/plugins/cbmc.py:114-137 | `%check` run, the capture copied out, the filter hook |
| Cbmc.DisabledChangesNothing | py/plugins/cbmc.py:57-58 | a disabled plug-in changes nothing |
| Cbmc.AssertionFailsOnSecondAnalyzer | py/plugins/cbmc.py:102 | the assertion fails iff `CSEXEC_WRAP_CMD` is set; matrix untouched |
| Cbmc.WrapperIsCommandLine | py/plugins/cbmc.py:90-106 | the wrapper is the eight-entry list joined by backslash-`a` and splits back into it |
| Cbmc.WrapCmdListShape | py/plugins/cbmc.py:90-99 | eight entries, the timeout in decimal after `-t`, the last entry the cbmc options, one space and the custom flags |
| Cbmc.WrapCmdListHasNoSep | py/plugins/cbmc.py:90-99 | no entry holds the separator |
| Cbmc.DefaultHasNoBackslash | py/plugins/cbmc.py:90-95 | the fixed list has no backslash |
| Cbmc.OptsHaveNoBackslash | py/plugins/cbmc.py:95 | the cbmc options have no backslash |
| Cbmc.SuccessEffects | py/plugins/cbmc.py:61-137 | packages; version then capture-directory hook; cswrap, csexec, `%check`; the filter; six compiler then four optflags defines; capture; filter hook |
| Cbmc.EnvEffects | py/plugins/cbmc.py:73-111 | `CC`=`CXX`=`goto-gcc`, the wrapper set, each of the four `CSWRAP_{ADD,DEL}_{C,CXX}FLAGS` keys holding its `:`-serialised list of the final matrix; nothing else changed |
| Cbmc.FlagsEffects | py/plugins/cbmc.py:109-110 | the four flags added to both add lists, `-O1`..`-Og` to both del lists |
| Divine.Plugin.constructor | py/plugins/divine.py:37-39 | not enabled, with a fresh level-0 matrix |
| Divine.Plugin.Enable | py/plugins/divine.py:44-45 | enabled |
| Divine.Plugin.HandleArgs | py/plugins/divine.py:56-125 | the whole `handle_args` |
| Divine.Plugin.Install | py/plugins/divine.py:61-66 | the repo, `divine`, cswrap and its filter |
| Divine.Plugin.SetToolchain | py/plugins/divine.py:70-75 | `CC=dioscc`, `CXX=diosc++` and 6 + 6 rpm defines |
| Divine.Plugin.Arm | py/plugins/divine.py:78-87 | version hook, csexec, capture-directory hook |
| Divine.Plugin.Finish | py/plugins/divine.py:101-125 | the assertion, then the wrapper, the matrix and what follows |
| Divine.Plugin.Collect | py/plugins/divine.py:113-125 | `%check` run, the capture copied out, the filter hook |
| Divine.DisabledChangesNothing | py/plugins/divine.py:57-58 | a disabled plug-in changes nothing |
| Divine.AssertionFailsOnSecondAnalyzer | py/plugins/divine.py:101 | the assertion fails iff `CSEXEC_WRAP_CMD` is set; matrix untouched |
| Divine.WrapperIsCommandLine | py/plugins/divine.py:90-105 | the wrapper joins and splits back |
| Divine.WrapCmdListShape | py/plugins/divine.py:90-98 | six entries, the last `check --max-time <timeout>`, one space and the custom flags |
| Divine.WrapCmdListHasNoSep | py/plugins/divine.py:90-98 | no entry holds the separator |
| Divine.DefaultHasNoBackslash | py/plugins/divine.py:90-94 | the fixed list has no backslash |
| Divine.SuccessEffects | py/plugins/divine.py:61-125 | one repo and `divine`; version then capture-directory hook; cswrap, csexec, `%check`; the filter; defines in order; capture; filter hook |
| Divine.EnvEffects | py/plugins/divine.py:70-110 | the compilers, the wrapper set, each of the four `CSWRAP_{ADD,DEL}_{C,CXX}FLAGS` keys holding its `:`-serialised list of the final matrix; nothing else changed |
| Divine.FlagsEffects | py/plugins/divine.py:108-109 | the four flags added, `-O1`..`-Og` removed |
| Symbiotic.Plugin.constructor | py/plugins/symbiotic.py:37-39 | not enabled, with a fresh level-0 matrix |
| Symbiotic.Plugin.Enable | py/plugins/symbiotic.py:44-45 | enabled |
| Symbiotic.Plugin.HandleArgs | py/plugins/symbiotic.py:57-144 | the whole `handle_args` |
| Symbiotic.Plugin.Install | py/plugins/symbiotic.py:62-68 | two repos, `symbiotic` and `gllvm`, cswrap and its filter |
| Symbiotic.Plugin.SetToolchain | py/plugins/symbiotic.py:72-82 | `gclang`/`gclang++`, compiler defines, the gllvm check hook, then the optflags defines |
| Symbiotic.Plugin.Arm | py/plugins/symbiotic.py:85-94 | version hook, csexec, capture-directory hook |
| Symbiotic.Plugin.Finish | py/plugins/symbiotic.py:109-144 | the assertion, then the wrapper, the matrix and what follows |
| Symbiotic.Plugin.Collect | py/plugins/symbiotic.py:128-144 | `%check` run, the capture copied out, the filter hook |
| Symbiotic.DisabledChangesNothing | py/plugins/symbiotic.py:58-59 | a disabled plug-in changes nothing |
| Symbiotic.AssertionFailsOnSecondAnalyzer | py/plugins/symbiotic.py:109 | the assertion fails iff `CSEXEC_WRAP_CMD` is set; matrix untouched |
| Symbiotic.WrapperIsCommandLine | py/plugins/symbiotic.py:98-113 | the wrapper joins and splits back |
| Symbiotic.WrapCmdListShape | py/plugins/symbiotic.py:97-106 | six entries; the last holds the timeout for `--timeout`, `--instrumentation-timeout` and `--slicer-timeout`, then one space and the custom flags |
| Symbiotic.WrapCmdListHasNoSep | py/plugins/symbiotic.py:98-106 | no entry holds the separator |
| Symbiotic.DefaultHasNoBackslash | py/plugins/symbiotic.py:98-102 | the fixed list has no backslash |
| Symbiotic.OptsHaveNoBackslash | py/plugins/symbiotic.py:102 | the `-s` argument has no backslash |
| Symbiotic.SuccessEffects | py/plugins/symbiotic.py:62-144 | two repos, two packages; gllvm check, version, capture-directory hook in that order; cswrap, csexec, `%check`; defines; capture; filter hook |
| Symbiotic.EnvEffects | py/plugins/symbiotic.py:72-125 | the compilers, the wrapper set, each of the four `CSWRAP_{ADD,DEL}_{C,CXX}FLAGS` keys holding its `:`-serialised list of the final matrix; nothing else changed |
| Symbiotic.FlagsEffects | py/plugins/symbiotic.py:116-124 | the thirteen flags, the duplicated `-Wno-unused-command-line-argument` kept twice, and `-O1`..`-Og` removed |

## Left out

- `ScanResults.__enter__`/`__exit__`, `exec_cmd`, `get_cmd_output` and `open_res_file` are not modelled. They set up temporary directories, a `tee` subprocess, signal handlers and tar. Only the `ec`/`dying` transitions they trigger are modelled (`HandleRv`, `HandleEc`), and logging is a no-op.
- Process, file system and chroot work is not modelled, only given as data:
  - `subprocess`, mock, `tee`, signals, tar, temporary directories and timestamps;
  - the results of `csgcca --print-path-to-wrap`, `os.path.isfile`, `os.path.abspath`, `os.listdir("/opt")` (its order) and the `rpm-list` grep are parameters;
  - the current time and host name given to `IniWriter` are parameters.
- Hook bodies are not modelled: mock commands, `csgrep` pipelines, version queries and `chmod`. A hook is a token that records what it was created for.
- `transform_results`, `finalize_results`, `apply_result_filters` and `handle_known_fp_list` are not modelled. They build shell pipelines whose meaning lies in external tools.
- The plug-ins clang, smatch, cppcheck, snyk, gitleaks, semgrep, pylint, shellcheck, unicontrol and clippy are not modelled, nor `find-unicode-control.py`. They run subprocesses or network code in `handle_args`, or append constant shell templates.
- argparse plumbing is not modelled (`init_parser`, `add_paired_flag`, `arg_value_by_name`, `sanitize_opts_arg`). Parsed options enter as values, and `parser.error` is a `ParserError` outcome.
- `ScanProps.enable_cswrap` and `enable_csexec` are not part of this model. They are treated as opaque: the model records only that each was called (`cswrapEnabled`, `csexecEnabled`). What they add to `env` (such as `CSWRAP_TIMEOUT_FOR`), to `path` (such as the `/cswrap` entry) and to the copy-in files is not modelled.
- `Cbmc.EnvEffects`, `Divine.EnvEffects`, `Symbiotic.EnvEffects`: "every other variable is as before" holds apart from what `enable_cswrap` and `enable_csexec` themselves set, which the model does not capture.
- The plug-in ordering by `pass_priority`/`pass_before` is not part of this model. The constants are kept.
- `FilterInfer.UninitFilter`, `FilterInfer.BiabductionFilter`: the regexes are written out as existential predicates over the text (`.` does not match a newline). Python's regex engine is not modelled.
- `Clippy.ConvertInput`: the package-id and message regexes are parameters.
- `Util.ToolVersion`: the substitution `^<tool>-` assumes a tool name without regex metacharacters.
- `Strings.Lower`, `Strings.Upper`: `str.lower`/`str.upper` are modelled on ASCII letters only. Bandit's levels and the tool names are ASCII.
- `Snyk.RatioBounds`: `int(a*100/b)` is float division, then truncated. It is modelled as truncating integer division. That agrees while the total stays below 2^46 files. Above that the float quotient can round up to the next integer (total 10^17, supported 10^17 - 1 gives 100 in Python, 99 here). The same bound applies to the coverage value in `Snyk.MetaReadsBack`.
- `PyJson.Json`: there is no float case. A `files` count written as a JSON float is summed by Python, but the model cannot represent it.
- `Results.IniWriter.Append`: values are already rendered by `str`. `str()` of non-integer values is not modelled.
- Python exceptions other than `parser.error`, the `CSEXEC_WRAP_CMD` assertion and Bandit's `KeyError` are outside the plug-in models. Examples are a `None` where a list is expected, or writing to a closed `IniWriter`.

## Findings

| source | as written | input that shows it | evidently intended | confidence | as-written member | corrected member |
|---|---|---|---|---|---|---|
| scripts/filter-infer.py:82 | the script disables the bi-abduction filter only for the option `--no-biadbuction`, while the infer plug-in passes `--no-biabduction` (py/plugins/infer.py:107) | `--no-infer-biabduction-filter`: the plug-in passes `--no-biabduction`, and all four filters still run | the option the plug-in passes turns the bi-abduction filter off | not executed | FilterInfer.AsWrittenDiffersOnlyBySpelling, FilterInfer.FilterAndReport, Infer.BiabductionStaysOnAsWritten | FilterInfer.FilterAndReportCorrected, Infer.FiltersRun |

`FilterInfer.SelectFiltersAsWritten` is the selection with the option as
written, and `FilterInfer.FilterAndReport` models `main` with it.
`FilterInfer.SelectFilters` is the corrected selection, used by
`FilterInfer.FilterAndReportCorrected` and by the infer plug-in's
end-to-end lemma `Infer.FiltersRun`. `FilterInfer.SelectFiltersSpec` states
the iff and order facts for both, and
`FilterInfer.PluginCannotDisableBiabductionAsWritten` is the concrete input.
