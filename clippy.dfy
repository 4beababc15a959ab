/**
 * The Clippy converter (`scripts/convert-clippy.py`): JSON lines from
 * `cargo clippy --message-format=json` to csdiff's text format.
 *
 * The three regular expressions (the two package-id patterns and the
 * message pattern) are parameters: a package-id pattern gives its first
 * group when `re.search` matches, the message pattern its six groups.
 */
module Clippy {
  import opened Wrappers
  import opened Strings
  import opened PyJson

  /** The groups of the message pattern: type, content, file, line, column, rest. */
  datatype MessageParts = MessageParts(kind: string, content: string, file: string,
                                       lineNo: string, column: string, rest: string)

  /** One `print` call of the converter; `Render` gives its text. */
  datatype Line =
    | Header
    | Location(packagePath: string, file: string, lineNo: string, column: string, kind: string, content: string)
    | Comment(text: string)
    | Blank

  const HEADER := "Error: CLIPPY_WARNING:"
  const BUILD_DIR := "/builddir/build/BUILD/"

  function Render(l: Line): string {
    match l
    case Header => HEADER
    case Location(p, f, n, c, k, m) => p + "/" + f + ":" + n + ":" + c + ": " + k + ": " + m
    case Comment(t) => "#  " + t
    case Blank => ""
  }

  // ------------------------------------------------------------ package path

  /** `s.split("/")[0]`: `s` up to its first slash. */
  function FirstComponent(s: string): (r: string)
    ensures '/' !in r && StartsWith(s, r) && (r == s || s[|r|] == '/')
  {
    match FindSep(s, "/")
    case None =>
      forall p | 0 <= p < |s|
        ensures s[p] != '/'
      {
        assert !OccursAt(s, "/", p);
        assert s[p..p + 1] == [s[p]];
      }
      s
    case Some(i) =>
      forall p | 0 <= p < i
        ensures s[..i][p] != '/'
      {
        assert !OccursAt(s, "/", p);
        assert s[p..p + 1] == [s[p]];
      }
      assert s[i..i + 1] == "/";
      s[..i]
  }

  lemma FirstComponentIsSplit(s: string)
    ensures FirstComponent(s) == Split(s, "/")[0]
  {
  }

  /**
   * The package directory: the build directory followed by the first path
   * component after the first `len(BUILD_DIR)` characters of the match.
   */
  function PackagePath(matched: string): string {
    BUILD_DIR + FirstComponent(DropPrefix(matched, |BUILD_DIR|))
  }

  /** A source path under the build directory keeps only its package directory. */
  lemma {:induction false} PackagePathOfSource(pkg: string, rest: string)
    requires '/' !in pkg
    ensures PackagePath(BUILD_DIR + pkg + "/" + rest) == BUILD_DIR + pkg
    ensures PackagePath(BUILD_DIR + pkg) == BUILD_DIR + pkg
  {
    var s := pkg + "/" + rest;
    assert (BUILD_DIR + pkg + "/" + rest)[|BUILD_DIR|..] == s;
    assert (BUILD_DIR + pkg)[|BUILD_DIR|..] == pkg;
    assert s[|pkg|] == '/';
    assert s[..|pkg|] == pkg;
  }

  /** The package directory is the build directory and one path component. */
  lemma PackagePathShape(matched: string)
    ensures var p := PackagePath(matched);
      StartsWith(p, BUILD_DIR) && '/' !in p[|BUILD_DIR|..]
  {
    var p := PackagePath(matched);
    assert p[|BUILD_DIR|..] == FirstComponent(DropPrefix(matched, |BUILD_DIR|));
    assert p[..|BUILD_DIR|] == BUILD_DIR;
  }

  /** A match shorter than the build directory leaves the directory alone. */
  lemma ShortMatch(matched: string)
    requires |matched| <= |BUILD_DIR|
    ensures PackagePath(matched) == BUILD_DIR
  {
  }

  /** The first pattern that matches, in order. */
  function FirstMatch(patterns: seq<string -> Option<string>>, s: string): (r: Option<string>)
    ensures r.None? <==> forall i :: 0 <= i < |patterns| ==> patterns[i](s).None?
    ensures r.Some? ==>
      exists k :: 0 <= k < |patterns| && r == patterns[k](s) &&
                  forall i :: 0 <= i < k ==> patterns[i](s).None?
    decreases |patterns|
  {
    if patterns == [] then None
    else if patterns[0](s).Some? then patterns[0](s)
    else
      var r := FirstMatch(patterns[1..], s);
      assert forall i :: 1 <= i < |patterns| ==> patterns[i] == patterns[1..][i - 1];
      if r.Some? then
        ghost var k :| 0 <= k < |patterns[1..]| && r == patterns[1..][k](s) &&
                       forall i :: 0 <= i < k ==> patterns[1..][i](s).None?;
        assert r == patterns[k + 1](s);
        r
      else
        r
  }

  /** The pattern loop, which stops at the first match. */
  method SearchPackageId(patterns: seq<string -> Option<string>>, packageId: string) returns (m: Option<string>)
    ensures m == FirstMatch(patterns, packageId)
  {
    m := None;
    var k := 0;
    while k < |patterns|
      invariant 0 <= k <= |patterns|
      invariant m.None? && FirstMatch(patterns, packageId) == FirstMatch(patterns[k..], packageId)
    {
      m := patterns[k](packageId);
      if m.Some? {
        break;
      }
      assert patterns[k..][1..] == patterns[k + 1..];
      k := k + 1;
    }
  }

  // ------------------------------------------------------------ blocks

  /** The `#  ` lines: every line of `rest` except an empty first one. */
  function RestLines(lines: seq<string>): (r: seq<Line>)
    ensures |r| == (if lines != [] && Strip(lines[0]) == "" then |lines| - 1 else |lines|)
    ensures var skip := if lines != [] && Strip(lines[0]) == "" then 1 else 0;
      forall i :: 0 <= i < |r| ==> r[i] == Comment(lines[i + skip])
  {
    var kept := if lines != [] && Strip(lines[0]) == "" then lines[1..] else lines;
    seq(|kept|, i requires 0 <= i < |kept| => Comment(kept[i]))
  }

  /** The loop over `enumerate(rest.split("\n"))`. */
  method PrintRest(rest: string) returns (out: seq<Line>)
    ensures out == RestLines(Split(rest, "\n"))
  {
    var lines := Split(rest, "\n");
    var skip := if lines != [] && Strip(lines[0]) == "" then 1 else 0;
    out := [];
    for x := 0 to |lines|
      invariant |out| == (if x < skip then 0 else x - skip)
      invariant forall i :: 0 <= i < |out| ==> out[i] == Comment(lines[i + skip])
    {
      if x == 0 && Strip(lines[x]) == "" {
        continue;
      }
      out := out + [Comment(lines[x])];
    }
  }

  /** The lines printed for one warning. */
  function Block(packagePath: string, m: MessageParts): seq<Line> {
    [Header, Location(packagePath, m.file, m.lineNo, m.column, m.kind, m.content)] +
    RestLines(Split(m.rest, "\n")) + [Blank]
  }

  /** A block: the header, one location line, comment lines, one blank line. */
  lemma BlockShape(packagePath: string, m: MessageParts)
    ensures var b := Block(packagePath, m);
      |b| >= 3 && b[0] == Header && b[1] == Location(packagePath, m.file, m.lineNo, m.column, m.kind, m.content) &&
      b[|b| - 1] == Blank && (forall i :: 2 <= i < |b| - 1 ==> b[i].Comment?)
  {
  }

  /** A warning to print: the package directory and the message's groups. */
  datatype Warning = Warning(packagePath: string, parts: MessageParts)

  /**
   * What one JSON record yields: nothing for a record that is not a
   * compiler message, whose package id no pattern matches or whose
   * message does not match; a failing lookup is an uncaught exception.
   */
  function Select(item: Json, patterns: seq<string -> Option<string>>,
                  message: string -> Option<MessageParts>): Result<Option<Warning>, PyError>
  {
    var reason :- Subscript(item, Name("reason"));
    if reason != JStr("compiler-message") then Success(None)
    else
      var pid :- Subscript(item, Name("package_id"));
      if !pid.JStr? then Failure(TypeError)
      else
        match FirstMatch(patterns, pid.s)
        case None => Success(None)
        case Some(matched) =>
          var msg :- Subscript(item, Name("message"));
          var rendered :- Subscript(msg, Name("rendered"));
          if !rendered.JStr? then Failure(AttributeError)
          else
            match message(Strip(rendered.s))
            case None => Success(None)
            case Some(parts) => Success(Some(Warning(PackagePath(matched), parts)))
  }

  function Lines(w: Option<Warning>): seq<Line> {
    match w
    case None => []
    case Some(Warning(p, m)) => Block(p, m)
  }

  /** How the script ends: at the end of input, `sys.exit(1)`, or an uncaught exception. */
  datatype Exit = Done | ExitStatus(code: int) | Crashed(error: PyError)

  datatype Run = Run(lines: seq<Line>, exit: Exit)

  function PrependRun(ls: seq<Line>, r: Run): Run {
    Run(ls + r.lines, r.exit)
  }

  /**
   * The run over the input lines, each `None` when `json.loads` rejects it;
   * `select` is what a record yields (`Select` with the script's patterns).
   */
  function Convert(input: seq<Option<Json>>, select: Json -> Result<Option<Warning>, PyError>): Run
    decreases |input|
  {
    if input == [] then Run([], Done)
    else if input[0].None? then Run([], ExitStatus(1))
    else
      match select(input[0].value)
      case Failure(e) => Run([], Crashed(e))
      case Success(w) => PrependRun(Lines(w), Convert(input[1..], select))
  }

  /** One record of `main`'s loop: the lines it prints. */
  method ConvertRecord(item: Json, patterns: seq<string -> Option<string>>,
                       message: string -> Option<MessageParts>) returns (r: Result<seq<Line>, PyError>)
    ensures var w := Select(item, patterns, message);
      if w.Failure? then r == Failure(w.error) else r == Success(Lines(w.value))
  {
    var reason := Subscript(item, Name("reason"));
    if reason.Failure? {
      return Failure(reason.error);
    }
    if reason.value != JStr("compiler-message") {
      return Success([]);
    }
    var pid := Subscript(item, Name("package_id"));
    if pid.Failure? {
      return Failure(pid.error);
    }
    if !pid.value.JStr? {
      return Failure(TypeError);
    }
    var matched := SearchPackageId(patterns, pid.value.s);
    if matched.None? {
      return Success([]);
    }
    var packagePath := PackagePath(matched.value);
    var msg := Subscript(item, Name("message"));
    if msg.Failure? {
      return Failure(msg.error);
    }
    var rendered := Subscript(msg.value, Name("rendered"));
    if rendered.Failure? {
      return Failure(rendered.error);
    }
    if !rendered.value.JStr? {
      return Failure(AttributeError);
    }
    var parts := message(Strip(rendered.value.s));
    if parts.None? {
      return Success([]);
    }
    var m := parts.value;
    var restLines := PrintRest(m.rest);
    r := Success([Header, Location(packagePath, m.file, m.lineNo, m.column, m.kind, m.content)] + restLines + [Blank]);
  }

  /** `main`: the lines printed and how the script ends. */
  method ConvertInput(input: seq<Option<Json>>, patterns: seq<string -> Option<string>>,
                      message: string -> Option<MessageParts>) returns (out: seq<Line>, exit: Exit)
    ensures Run(out, exit) == Convert(input, item => Select(item, patterns, message))
  {
    var select := item => Select(item, patterns, message);
    out := [];
    for j := 0 to |input|
      invariant Convert(input, select) == PrependRun(out, Convert(input[j..], select))
    {
      assert input[j..][1..] == input[j + 1..];
      if input[j].None? {
        return out, ExitStatus(1);
      }
      var b := ConvertRecord(input[j].value, patterns, message);
      if b.Failure? {
        return out, Crashed(b.error);
      }
      out := out + b.value;
    }
    assert input[|input|..] == [];
    exit := Done;
  }

  // ------------------------------------------------------------ properties

  lemma ConcatAssoc(a: seq<Line>, b: seq<Line>, c: seq<Line>)
    ensures a + (b + c) == (a + b) + c
  {
  }

  /** The output of a prefix that runs to its end is kept: runs compose. */
  lemma {:induction false} ConvertAppend(xs: seq<Option<Json>>, ys: seq<Option<Json>>,
                                         select: Json -> Result<Option<Warning>, PyError>)
    requires Convert(xs, select).exit == Done
    ensures Convert(xs + ys, select) == PrependRun(Convert(xs, select).lines, Convert(ys, select))
    decreases |xs|
  {
    if xs == [] {
      assert xs + ys == ys;
    } else {
      assert (xs + ys)[0] == xs[0];
      assert (xs + ys)[1..] == xs[1..] + ys;
      ConvertAppend(xs[1..], ys, select);
      var w := select(xs[0].value).value;
      ConcatAssoc(Lines(w), Convert(xs[1..], select).lines, Convert(ys, select).lines);
    }
  }

  /** A line that is not JSON ends the run with status 1, after what was printed before it. */
  lemma NotJsonExitsOne(xs: seq<Option<Json>>, rest: seq<Option<Json>>,
                        select: Json -> Result<Option<Warning>, PyError>)
    requires Convert(xs, select).exit == Done
    ensures Convert(xs + [None] + rest, select) == Run(Convert(xs, select).lines, ExitStatus(1))
  {
    assert xs + [None] + rest == xs + ([None] + rest);
    ConvertAppend(xs, [None] + rest, select);
  }

  /** Records other than compiler messages print nothing, whatever else they hold. */
  lemma OtherReasonsSkipped(members: seq<(string, Json)>, reason: Json,
                            patterns: seq<string -> Option<string>>,
                            message: string -> Option<MessageParts>)
    requires reason != JStr("compiler-message")
    ensures Select(JObj(members + [("reason", reason)]), patterns, message) == Success(None)
  {
    var ms := members + [("reason", reason)];
    assert ms[|ms| - 1] == ("reason", reason);
  }

  /** A compiler message whose package id no pattern matches prints nothing. */
  lemma UnmatchedPackageSkipped(item: Json, patterns: seq<string -> Option<string>>,
                                message: string -> Option<MessageParts>)
    requires Subscript(item, Name("reason")) == Success(JStr("compiler-message"))
    requires Subscript(item, Name("package_id")).Success? && Subscript(item, Name("package_id")).value.JStr?
    requires forall i :: 0 <= i < |patterns| ==> patterns[i](Subscript(item, Name("package_id")).value.s).None?
    ensures Select(item, patterns, message) == Success(None)
  {
  }

  /** A location line starts with the package directory and the file. */
  lemma LocationRender(p: string, f: string, n: string, c: string, k: string, m: string)
    ensures StartsWith(Render(Location(p, f, n, c, k, m)), p + "/" + f + ":")
  {
    var head := p + "/" + f + ":";
    assert Render(Location(p, f, n, c, k, m)) == head + (n + ":" + c + ": " + k + ": " + m);
    assert (head + (n + ":" + c + ": " + k + ": " + m))[..|head|] == head;
  }
}
