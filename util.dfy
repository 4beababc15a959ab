/**
 * Shell quoting, command rendering, the build/install scan-directory
 * decision and tool-version extraction (`py/common/util.py`).
 */
module Util {
  import opened Wrappers
  import opened Strings
  import opened Props

  // ------------------------------------------------------------ shell_quote

  /** The characters `shell_quote` protects inside double quotes. */
  predicate IsShellSpecial(c: char) {
    c == '\\' || c == '"' || c == '$'
  }

  function EscapeChar(c: char): string {
    if IsShellSpecial(c) then ['\\', c] else [c]
  }

  /** Specification of the quoted body: each special character escaped. */
  function Escaped(s: string): string {
    if s == [] then "" else EscapeChar(s[0]) + Escaped(s[1..])
  }

  /** `s` double-quoted the way `shell_quote` does it. */
  function Quoted(s: string): string {
    "\"" + Escaped(s) + "\""
  }

  lemma {:induction false} EscapedSnoc(s: string, c: char)
    ensures Escaped(s + [c]) == Escaped(s) + EscapeChar(c)
  {
    if s == [] {
      assert ([] + [c])[1..] == [];
    } else {
      assert (s + [c])[1..] == s[1..] + [c];
      EscapedSnoc(s[1..], c);
    }
  }

  method ShellQuote(strIn: string) returns (r: string)
    ensures r == Quoted(strIn)
  {
    var strOut := "";
    for i := 0 to |strIn|
      invariant strOut == Escaped(strIn[..i])
    {
      var c := strIn[i];
      if c == '\\' {
        strOut := strOut + "\\\\";
      } else if c == '"' {
        strOut := strOut + "\\\"";
      } else if c == '$' {
        strOut := strOut + "\\$";
      } else {
        strOut := strOut + [c];
      }
      assert strIn[..i + 1] == strIn[..i] + [c];
      EscapedSnoc(strIn[..i], c);
    }
    assert strIn[..|strIn|] == strIn;
    r := "\"" + strOut + "\"";
  }

  /** What a shell does inside double quotes with these escapes. */
  function Unescape(b: string): string
    decreases |b|
  {
    if b == [] then ""
    else if b[0] == '\\' && |b| >= 2 then [b[1]] + Unescape(b[2..])
    else [b[0]] + Unescape(b[1..])
  }

  /** Drops the surrounding double quotes and the escaping backslashes. */
  function Unquote(q: string): Option<string> {
    if |q| >= 2 && q[0] == '"' && q[|q| - 1] == '"' then Some(Unescape(q[1..|q| - 1]))
    else None
  }

  lemma {:induction false} UnescapeEscaped(s: string)
    ensures Unescape(Escaped(s)) == s
  {
    if s != [] {
      var e := Escaped(s);
      assert e == EscapeChar(s[0]) + Escaped(s[1..]);
      if IsShellSpecial(s[0]) {
        assert e[2..] == Escaped(s[1..]);
      } else {
        assert e[1..] == Escaped(s[1..]);
      }
      UnescapeEscaped(s[1..]);
      assert s == [s[0]] + s[1..];
    }
  }

  /** Unquoting a `shell_quote` result gives the original string back. */
  lemma ShellQuoteRoundTrip(s: string)
    ensures Unquote(Quoted(s)) == Some(s)
  {
    var q := Quoted(s);
    assert q[1..|q| - 1] == Escaped(s);
    UnescapeEscaped(s);
  }

  /**
   * A quoted body is a run of tokens: either a backslash followed by a
   * special character, or a single character that is not special.  So no
   * `"` or `$` in it is ever left unescaped.
   */
  predicate WellEscaped(b: string)
    decreases |b|
  {
    if b == [] then true
    else if b[0] == '\\' then |b| >= 2 && IsShellSpecial(b[1]) && WellEscaped(b[2..])
    else !IsShellSpecial(b[0]) && WellEscaped(b[1..])
  }

  lemma {:induction false} EscapedIsWellEscaped(s: string)
    ensures WellEscaped(Escaped(s))
  {
    if s != [] {
      var e := Escaped(s);
      assert e == EscapeChar(s[0]) + Escaped(s[1..]);
      if IsShellSpecial(s[0]) {
        assert e[2..] == Escaped(s[1..]);
      } else {
        assert e[1..] == Escaped(s[1..]);
      }
      EscapedIsWellEscaped(s[1..]);
    }
  }

  // --------------------------------------------------- strlist_to_shell_cmd

  /** The two shapes `strlist_to_shell_cmd` accepts: one string or a list. */
  datatype CmdIn = Str(s: string) | StrList(items: seq<string>)

  /** The nested `translate_one`. */
  function TranslateOne(i: string, escapeSpecial: bool): string {
    if escapeSpecial then Quoted(i) else "'" + i + "'"
  }

  function TranslateAll(items: seq<string>, escapeSpecial: bool): (r: seq<string>)
    ensures |r| == |items|
    ensures forall k :: 0 <= k < |items| ==> r[k] == TranslateOne(items[k], escapeSpecial)
  {
    seq(|items|, k requires 0 <= k < |items| => TranslateOne(items[k], escapeSpecial))
  }

  method StrlistToShellCmd(cmdIn: CmdIn, escapeSpecial: bool) returns (r: string)
    ensures cmdIn.Str? ==> r == "sh -c " + TranslateOne(cmdIn.s, escapeSpecial)
    ensures cmdIn.StrList? ==> r == Join(TranslateAll(cmdIn.items, escapeSpecial), " ")
  {
    if cmdIn.Str? {
      var q := cmdIn.s;
      if escapeSpecial {
        q := ShellQuote(cmdIn.s);
      } else {
        q := "'" + cmdIn.s + "'";
      }
      return "sh -c " + q;
    }
    var items := cmdIn.items;
    var cmdOut := RenderList(items, escapeSpecial);
    if items != [] {
      TranslatedJoinStartsWithQuote(items, escapeSpecial);
      StripOneSpace(Join(TranslateAll(items, escapeSpecial), " "));
    }
    r := StripLeading(cmdOut);
  }

  /** The loop over a list: each translated item with one blank in front. */
  method RenderList(items: seq<string>, escapeSpecial: bool) returns (cmdOut: string)
    ensures items == [] ==> cmdOut == ""
    ensures items != [] ==> cmdOut == " " + Join(TranslateAll(items, escapeSpecial), " ")
  {
    cmdOut := "";
    for i := 0 to |items|
      invariant cmdOut == Rendered(items[..i], escapeSpecial)
    {
      var t := "'" + items[i] + "'";
      if escapeSpecial {
        t := ShellQuote(items[i]);
      }
      RenderedSnoc(items, i, escapeSpecial);
      cmdOut := cmdOut + " " + t;
    }
    assert items[..|items|] == items;
  }

  /** What the loop has built after the items `xs`. */
  function Rendered(xs: seq<string>, escapeSpecial: bool): string {
    if xs == [] then "" else " " + Join(TranslateAll(xs, escapeSpecial), " ")
  }

  lemma RenderedSnoc(items: seq<string>, i: nat, escapeSpecial: bool)
    requires i < |items|
    ensures Rendered(items[..i + 1], escapeSpecial)
         == Rendered(items[..i], escapeSpecial) + " " + TranslateOne(items[i], escapeSpecial)
  {
    TranslateAllSnoc(items, i, escapeSpecial);
    var t := TranslateOne(items[i], escapeSpecial);
    if i > 0 {
      JoinSnoc(TranslateAll(items[..i], escapeSpecial), t, " ");
    } else {
      assert TranslateAll(items[..1], escapeSpecial) == [t];
    }
  }

  lemma TranslateAllSnoc(items: seq<string>, i: nat, escapeSpecial: bool)
    requires i < |items|
    ensures TranslateAll(items[..i + 1], escapeSpecial)
         == TranslateAll(items[..i], escapeSpecial) + [TranslateOne(items[i], escapeSpecial)]
  {
  }

  /** A rendered list starts with a quote character, not with white space. */
  lemma TranslatedJoinStartsWithQuote(items: seq<string>, escapeSpecial: bool)
    requires items != []
    ensures var j := Join(TranslateAll(items, escapeSpecial), " "); j != [] && !IsPySpace(j[0])
  {
    var xs := TranslateAll(items, escapeSpecial);
    assert xs[0] == TranslateOne(items[0], escapeSpecial);
    if |xs| > 1 {
      assert Join(xs, " ") == xs[0] + " " + Join(xs[1..], " ");
    }
  }

  /** `lstrip` of one blank before a non-blank start removes just that blank. */
  lemma StripOneSpace(t: string)
    requires t == [] || !IsPySpace(t[0])
    ensures StripLeading(" " + t) == t
  {
    assert (" " + t)[1..] == t;
  }

  // --------------------------------------------------- dirs_to_scan_by_args

  const BUILD_DIR := "/builddir/build/BUILD"
  const BUILDROOT_DIR := "/builddir/build/BUILDROOT"

  /** `--<tool>-scan-build`: given explicitly, or on iff `--shell-cmd` is set. */
  function ScanBuild(arg: Option<bool>, shellCmdToBuild: Option<string>): bool {
    if arg.Some? then arg.value else shellCmdToBuild.Some?
  }

  /** `--<tool>-scan-install`: given explicitly, or on iff `--shell-cmd` is not set. */
  function ScanInstall(arg: Option<bool>, shellCmdToBuild: Option<string>): bool {
    if arg.Some? then arg.value else shellCmdToBuild.None?
  }

  /** The directories `dirs_to_scan_by_args` decides on, or the `parser.error` message. */
  function DirsToScan(scanBuildArg: Option<bool>, scanInstallArg: Option<bool>, shellCmdToBuild: Option<string>, tool: string)
    : Result<string, string>
  {
    var build := ScanBuild(scanBuildArg, shellCmdToBuild);
    var install := ScanInstall(scanInstallArg, shellCmdToBuild);
    if !build && !install then
      Failure("either --" + tool + "-scan-build or --" + tool + "-scan-install must be enabled")
    else if install && shellCmdToBuild.Some? then
      Failure("--shell-cmd and --" + tool + "-scan-install cannot be used together")
    else if build && install then Success(BUILD_DIR + " " + BUILDROOT_DIR)
    else if build then Success(BUILD_DIR)
    else Success(BUILDROOT_DIR)
  }

  method DirsToScanByArgs(props: ScanProps, scanBuildArg: Option<bool>, scanInstallArg: Option<bool>, tool: string)
    returns (r: Result<string, string>)
    modifies props`needRpmBi
    ensures var build := ScanBuild(scanBuildArg, props.shellCmdToBuild);
      var install := ScanInstall(scanInstallArg, props.shellCmdToBuild);
      && (!build && !install ==>
            r == Failure("either --" + tool + "-scan-build or --" + tool + "-scan-install must be enabled"))
      && ((build || install) && install && props.shellCmdToBuild.Some? ==>
            r == Failure("--shell-cmd and --" + tool + "-scan-install cannot be used together"))
      && (r.Success? <==> (build || install) && !(install && props.shellCmdToBuild.Some?))
      && (r.Success? ==> r.value == if build && install then BUILD_DIR + " " + BUILDROOT_DIR
                                    else if build then BUILD_DIR else BUILDROOT_DIR)
      && props.needRpmBi == (old(props.needRpmBi) || (r.Success? && install))
    ensures r == DirsToScan(scanBuildArg, scanInstallArg, props.shellCmdToBuild, tool)
  {
    var scanBuild := if scanBuildArg.None? then props.shellCmdToBuild.Some? else scanBuildArg.value;
    var scanInstall := if scanInstallArg.None? then props.shellCmdToBuild.None? else scanInstallArg.value;
    if !scanBuild && !scanInstall {
      return Failure("either --" + tool + "-scan-build or --" + tool + "-scan-install must be enabled");
    }
    if scanInstall && props.shellCmdToBuild.Some? {
      return Failure("--shell-cmd and --" + tool + "-scan-install cannot be used together");
    }
    var dirsToScan := "";
    if scanBuild {
      dirsToScan := dirsToScan + BUILD_DIR;
      if scanInstall {
        dirsToScan := dirsToScan + " ";
      }
    }
    if scanInstall {
      dirsToScan := dirsToScan + BUILDROOT_DIR;
      props.needRpmBi := true;
    }
    return Success(dirsToScan);
  }

  // ------------------------------------------------ version from rpm list

  /** `re.sub("^<prefix>", "", s)` for a prefix without regex metacharacters. */
  function RemovePrefix(s: string, prefix: string): string {
    if StartsWith(s, prefix) then s[|prefix|..] else s
  }

  /** The regex `-[0-9].*$` matches at `k`: `.` spans no newline, `$` also fits before a final one. */
  predicate ReleaseAt(s: string, k: nat) {
    k + 1 < |s| && s[k] == '-' && IsDigit(s[k + 1]) &&
    (NoNewline(s[k + 2..]) || (s[|s| - 1] == '\n' && k + 2 <= |s| - 1 && NoNewline(s[k + 2..|s| - 1])))
  }

  /** Leftmost match of `-[0-9].*$` at or after `k`. */
  function FindRelease(s: string, k: nat): (r: Option<nat>)
    ensures r.Some? ==> k <= r.value && ReleaseAt(s, r.value)
    ensures r.Some? ==> forall j :: k <= j < r.value ==> !ReleaseAt(s, j)
    ensures r.None? ==> forall j :: k <= j ==> !ReleaseAt(s, j)
    decreases |s| - k
  {
    if k + 1 >= |s| then None
    else if ReleaseAt(s, k) then Some(k)
    else FindRelease(s, k + 1)
  }

  /** `re.sub("-[0-9].*$", "", s)`: drop the release part. */
  function CutRelease(s: string): string {
    match FindRelease(s, 0)
    case None => s
    case Some(i) => s[..i] + (if NoNewline(s[i + 2..]) then "" else "\n")
  }

  /** The version that `write_toolver_from_rpmlist` extracts from an NVR line. */
  function ToolVersion(tool: string, nvr: string): string {
    VersionOfLine(tool, Strip(nvr))
  }

  /** The two substitutions on the stripped line. */
  function VersionOfLine(tool: string, line: string): string {
    CutRelease(RemovePrefix(line, tool + "-"))
  }

  /** No `-` directly followed by a digit in `v`. */
  predicate NoDashDigit(v: string) {
    forall j :: 0 <= j < |v| - 1 ==> !(v[j] == '-' && IsDigit(v[j + 1]))
  }

  /**
   * For an rpm name-version-release line `<tool>-<ver>-<rel>` whose version
   * has no `-<digit>` and whose release starts with a digit, the extracted
   * version is `<ver>`.
   */
  lemma ToolVersionOfNvr(tool: string, nvr: string, ver: string, rel: string)
    requires Strip(nvr) == tool + "-" + ver + "-" + rel
    requires NoDashDigit(ver) && rel != [] && IsDigit(rel[0]) && NoNewline(rel)
    ensures ToolVersion(tool, nvr) == ver
  {
    VersionOfNvrLine(tool, ver, rel);
  }

  lemma VersionOfNvrLine(tool: string, ver: string, rel: string)
    requires NoDashDigit(ver) && rel != [] && IsDigit(rel[0]) && NoNewline(rel)
    ensures VersionOfLine(tool, tool + "-" + ver + "-" + rel) == ver
  {
    var p := tool + "-";
    var s := ver + "-" + rel;
    assert tool + "-" + ver + "-" + rel == p + s;
    RemovePrefixOf(p, s);
    CutReleaseOfVersionRelease(ver, rel);
  }

  lemma RemovePrefixOf(prefix: string, s: string)
    ensures RemovePrefix(prefix + s, prefix) == s
  {
    assert (prefix + s)[..|prefix|] == prefix;
  }

  lemma CutReleaseOfVersionRelease(ver: string, rel: string)
    requires NoDashDigit(ver) && rel != [] && IsDigit(rel[0]) && NoNewline(rel)
    ensures CutRelease(ver + "-" + rel) == ver
  {
    var s := ver + "-" + rel;
    ReleaseAtVersionEnd(ver, rel);
    NoReleaseInsideVersion(ver, rel);
    assert FindRelease(s, 0) == Some(|ver|);
    assert s[..|ver|] == ver;
    assert s[|ver| + 2..] == rel[1..];
  }

  lemma ReleaseAtVersionEnd(ver: string, rel: string)
    requires rel != [] && IsDigit(rel[0]) && NoNewline(rel)
    ensures ReleaseAt(ver + "-" + rel, |ver|)
  {
    var s := ver + "-" + rel;
    assert s[|ver| + 1] == rel[0];
    assert s[|ver| + 2..] == rel[1..];
  }

  lemma NoReleaseInsideVersion(ver: string, rel: string)
    requires NoDashDigit(ver) && rel != []
    ensures forall j :: 0 <= j < |ver| ==> !ReleaseAt(ver + "-" + rel, j)
  {
    var s := ver + "-" + rel;
    forall j | 0 <= j < |ver|
      ensures !(s[j] == '-' && IsDigit(s[j + 1]))
    {
      if j < |ver| - 1 {
        assert s[j] == ver[j] && s[j + 1] == ver[j + 1];
      } else {
        assert s[j + 1] == '-';
      }
    }
  }

  /** `install_default_toolver_hook`: one version hook keyed by the lower-cased name. */
  method InstallDefaultToolverHook(props: ScanProps, tool: string)
    modifies props`postDepinstHooks
    ensures props.postDepinstHooks == old(props.postDepinstHooks) + [ToolverHook(tool, Lower(tool))]
  {
    var toolKey := Lower(tool);
    props.postDepinstHooks := props.postDepinstHooks + [ToolverHook(tool, toolKey)];
  }
}
