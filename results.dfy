/**
 * Scan results (`py/common/results.py`): the output-name parser, the
 * exit-code state machine of `ScanResults`, the `scan.ini` writer and the
 * checker-set regex.
 */
module Results {
  import opened Wrappers
  import opened Strings
  import Util

  // ------------------------------------------------------------ output name

  /** `os.path.basename`: everything after the last `/`. */
  function Basename(p: string): (r: string)
    ensures '/' !in r
    ensures EndsWith(p, r)
    ensures |r| < |p| ==> p[|p| - |r| - 1] == '/'
    decreases |p|
  {
    if p == [] then ""
    else if p[|p| - 1] == '/' then ""
    else
      var r := Basename(p[..|p| - 1]) + [p[|p| - 1]];
      assert p[|p| - |r|..] == p[..|p| - 1][|p| - |r|..] + [p[|p| - 1]];
      r
  }

  /** The last component of `dir/x` is `x`. */
  lemma {:induction false} BasenameOfPath(dir: string, x: string)
    requires '/' !in x
    ensures Basename(dir + "/" + x) == x
    decreases |x|
  {
    var p := dir + "/" + x;
    if x == [] {
      assert p[|p| - 1] == '/';
    } else {
      assert p[..|p| - 1] == dir + "/" + x[..|x| - 1];
      BasenameOfPath(dir, x[..|x| - 1]);
      assert x == x[..|x| - 1] + [x[|x| - 1]];
    }
  }

  lemma {:induction false} BasenameNoSlash(x: string)
    requires '/' !in x
    ensures Basename(x) == x
    decreases |x|
  {
    if x != [] {
      var y := x[..|x| - 1];
      assert '/' !in y;
      BasenameNoSlash(y);
      assert x == y + [x[|x| - 1]];
    }
  }

  lemma BasenameNoNewline(p: string)
    requires NoNewline(p)
    ensures NoNewline(Basename(p))
  {
    var b := Basename(p);
    forall i | 0 <= i < |b|
      ensures b[i] != '\n'
    {
      assert b[i] == p[|p| - |b| + i];
    }
  }

  /**
   * `re.match("^(.*)<ext>$", s)` with a literal `ext`: group 1 when it
   * matches. `.` spans no newline and `$` also matches before a final one.
   */
  function MatchSuffix(s: string, ext: string): (r: Option<string>)
    ensures r.Some? ==> NoNewline(r.value) && (s == r.value + ext || s == r.value + ext + "\n")
  {
    if EndsWith(s, ext) && NoNewline(s[..|s| - |ext|]) then
      assert s == s[..|s| - |ext|] + ext;
      Some(s[..|s| - |ext|])
    else if EndsWith(s, ext + "\n") && NoNewline(s[..|s| - |ext| - 1]) then
      assert s == s[..|s| - |ext| - 1] + ext + "\n";
      Some(s[..|s| - |ext| - 1])
    else
      None
  }

  /** Every way the regex can match yields the group `MatchSuffix` returns. */
  lemma MatchSuffixComplete(s: string, ext: string, g: string)
    requires ext != [] && NoNewline(ext) && NoNewline(g)
    requires s == g + ext || s == g + ext + "\n"
    ensures MatchSuffix(s, ext) == Some(g)
  {
    if s == g + ext {
      assert s[..|s| - |ext|] == g;
      assert s[|s| - |ext|..] == ext;
    } else {
      assert s[|s| - 1] == '\n';
      assert s[|s| - 1] == ext[|ext| - 1] ==> false;
      assert !EndsWith(s, ext);
      assert s[..|s| - |ext| - 1] == g;
      assert s[|s| - |ext| - 1..] == ext + "\n";
    }
  }

  /** On a line-break-free name the regex matches iff the name ends in `ext`. */
  lemma MatchSuffixNoNewline(s: string, ext: string)
    requires NoNewline(s)
    ensures var x := MatchSuffix(s, ext); var rest := if x.Some? then x.value else s;
      (x.Some? <==> EndsWith(s, ext)) && rest + (if x.Some? then ext else "") == s && NoNewline(rest)
  {
    if s != [] {
      assert s[|s| - 1] != '\n';
    }
    if EndsWith(s, ext) {
      var g := s[..|s| - |ext|];
      assert s == g + ext;
      forall i | 0 <= i < |g|
        ensures g[i] != '\n'
      {
        assert g[i] == s[i];
      }
    }
  }

  lemma EndsWithBoth(a: string, t: string, x: string)
    ensures EndsWith(a + x, t + x) <==> EndsWith(a, t)
  {
    if EndsWith(a + x, t + x) {
      assert a[|a| - |t|..] == (a + x)[|a + x| - |t + x|..][..|t|];
    }
    if EndsWith(a, t) {
      assert (a + x)[|a + x| - |t + x|..] == a[|a| - |t|..] + x;
    }
  }

  /** What the constructor derives from the output path. */
  datatype OutputName = OutputName(dirname: string, useXz: bool, useTar: bool)

  /** The `.xz` suffix is stripped first, then `.tar`. */
  function ParseOutputName(output: string): OutputName {
    ParseBaseName(Basename(output))
  }

  /** The two suffix matches on the base name. */
  function ParseBaseName(base: string): OutputName {
    var x := StripExt(base, ".xz");
    var t := StripExt(x.0, ".tar");
    OutputName(t.0, x.1, t.1)
  }

  /** `dirname = m.group(1)` when the suffix regex matches; whether it did. */
  function StripExt(s: string, ext: string): (string, bool) {
    var m := MatchSuffix(s, ext);
    if m.Some? then (m.value, true) else (s, false)
  }

  /** On a line-break-free name one strip step removes `ext` exactly when the name ends in it. */
  lemma StripExtNoNewline(s: string, ext: string)
    requires NoNewline(s)
    ensures StripExt(s, ext).1 <==> EndsWith(s, ext)
    ensures StripExt(s, ext).0 + (if StripExt(s, ext).1 then ext else "") == s
    ensures NoNewline(StripExt(s, ext).0)
  {
    MatchSuffixNoNewline(s, ext);
  }

  /** The suffix a parsed name records. */
  function RecordedSuffix(n: OutputName): string {
    (if n.useTar then ".tar" else "") + (if n.useXz then ".xz" else "")
  }

  /**
   * For a path without line breaks the parsed name followed by the suffix
   * it recorded is the base name again; `.xz` is recorded iff the base name
   * ends in it, and `.tar` iff what is left before that ends in `.tar`.
   */
  lemma ParseOutputNameReassembles(output: string)
    requires NoNewline(output)
    ensures var n := ParseOutputName(output); n.dirname + RecordedSuffix(n) == Basename(output)
    ensures var n := ParseOutputName(output); n.useXz <==> EndsWith(Basename(output), ".xz")
    ensures var n := ParseOutputName(output);
      n.useTar <==> EndsWith(Basename(output), ".tar" + (if n.useXz then ".xz" else ""))
  {
    BasenameNoNewline(output);
    BaseNameReassembles(Basename(output));
  }

  lemma BaseNameReassembles(base: string)
    requires NoNewline(base)
    ensures var n := ParseBaseName(base); n.dirname + RecordedSuffix(n) == base
    ensures var n := ParseBaseName(base); n.useXz <==> EndsWith(base, ".xz")
    ensures var n := ParseBaseName(base);
      n.useTar <==> EndsWith(base, ".tar" + (if n.useXz then ".xz" else ""))
  {
    var x := StripExt(base, ".xz");
    StripExtNoNewline(base, ".xz");
    var t := StripExt(x.0, ".tar");
    StripExtNoNewline(x.0, ".tar");
    TwoStrips(base, x.0, x.1, t.0, t.1);
    assert ParseBaseName(base) == OutputName(t.0, x.1, t.1);
  }

  /** Undoing `.tar` inside `.xz`: the two steps' facts in terms of the original name. */
  lemma TwoStrips(base: string, a: string, xz: bool, d: string, tar: bool)
    requires base == a + (if xz then ".xz" else "")
    requires a == d + (if tar then ".tar" else "")
    requires tar <==> EndsWith(a, ".tar")
    ensures d + RecordedSuffix(OutputName(d, xz, tar)) == base
    ensures tar <==> EndsWith(base, ".tar" + (if xz then ".xz" else ""))
  {
    var xs := if xz then ".xz" else "";
    var ts := if tar then ".tar" else "";
    assert RecordedSuffix(OutputName(d, xz, tar)) == ts + xs;
    assert d + (ts + xs) == base;
    EndsWithBoth(a, ".tar", xs);
  }

  /** `r.tar.xz` gives `r` with both flags. */
  lemma ParseTarXz()
    ensures ParseOutputName("/tmp/r.tar.xz") == OutputName("r", true, true)
  {
    BasenameOfPath("/tmp", "r.tar.xz");
    assert "/tmp" + "/" + "r.tar.xz" == "/tmp/r.tar.xz";
    MatchSuffixComplete("r.tar.xz", ".xz", "r.tar");
    MatchSuffixComplete("r.tar", ".tar", "r");
  }

  /** `r.xz.tar` gives `r.xz` with tar only: the `.xz` test comes first. */
  lemma ParseXzTar()
    ensures ParseOutputName("r.xz.tar") == OutputName("r.xz", false, true)
  {
    BasenameNoSlash("r.xz.tar");
    MatchSuffixNoNewline("r.xz.tar", ".xz");
    assert !EndsWith("r.xz.tar", ".xz");
    MatchSuffixComplete("r.xz.tar", ".tar", "r.xz");
  }

  // ------------------------------------------------ exit-code state machine

  /** The fields of `ScanResults` the state machine changes. */
  datatype EcState = EcState(ec: int, dying: bool)

  /** A state after a call, and the code of the `FatalError` it raised, if any. */
  datatype Step = Step(state: EcState, raised: Option<int>)

  /** Exit codes 129..191: a process killed by a terminating signal. */
  predicate SignalCode(ec: int) {
    128 < ec < 128 + 64
  }

  function Max(a: int, b: int): int {
    if a < b then b else a
  }

  /** `handle_ec`: a signal code while not dying turns into a fatal error carrying it. */
  function HandleEcStep(s: EcState): Step {
    if !s.dying && SignalCode(s.ec) then Step(EcState(s.ec, true), Some(s.ec)) else Step(s, None)
  }

  /**
   * `error(msg, ec)`: its logging first runs `handle_ec` on the old code;
   * otherwise the code is raised to `ec` and `FatalError(ec)` is thrown
   * unless dying, keep-going or the accumulated code is 0.
   */
  function ErrorStep(s: EcState, e: int, keepGoing: bool): Step {
    if !s.dying && SignalCode(s.ec) then Step(EcState(s.ec, true), Some(s.ec))
    else
      var ec := Max(s.ec, e);
      Step(EcState(ec, s.dying), if !s.dying && !keepGoing && ec != 0 then Some(e) else None)
  }

  /** `fatal_error(msg, ec)`: dying for good, code raised to `ec`, `FatalError(ec)` thrown. */
  function FatalErrorStep(s: EcState, e: int): Step {
    Step(EcState(Max(s.ec, e), true), Some(e))
  }

  /** `handle_rv(rv)`: for `rv > 128`, raise the code to `rv`, then `handle_ec`. */
  function HandleRvStep(s: EcState, rv: int): Step {
    if rv <= 128 then Step(s, None) else HandleEcStep(EcState(Max(s.ec, rv), s.dying))
  }

  /** `update_ec(ec)`. */
  function UpdateEcStep(s: EcState, e: int): Step {
    Step(EcState(Max(s.ec, e), s.dying), None)
  }

  class ScanResults {
    const output: string
    const tool: string
    const toolVersion: string
    const keepGoing: bool
    var dirname: string
    var useXz: bool
    var useTar: bool
    var ec: int
    var dying: bool

    function State(): EcState
      reads this
    {
      EcState(ec, dying)
    }

    /** `__init__`: no error yet, and the output name parsed. */
    constructor (output: string, tool: string, toolVersion: string, keepGoing: bool)
      ensures this.output == output && this.tool == tool && this.toolVersion == toolVersion
      ensures this.keepGoing == keepGoing
      ensures OutputName(dirname, useXz, useTar) == ParseOutputName(output)
      ensures ec == 0 && !dying
    {
      this.output := output;
      this.tool := tool;
      this.toolVersion := toolVersion;
      this.keepGoing := keepGoing;
      ec := 0;
      dying := false;
      var name := Basename(output);
      var xz, tar := false, false;
      var m := MatchSuffix(name, ".xz");
      if m.Some? {
        xz := true;
        name := m.value;
      }
      m := MatchSuffix(name, ".tar");
      if m.Some? {
        tar := true;
        name := m.value;
      }
      dirname, useXz, useTar := name, xz, tar;
    }

    method UpdateEc(e: int)
      modifies this`ec
      ensures State() == UpdateEcStep(old(State()), e).state
    {
      if ec < e {
        ec := e;
      }
    }

    /** `print_with_ts`: the message is not modelled, only its `handle_ec` call. */
    method PrintWithTs() returns (raised: Option<int>)
      modifies this`ec, this`dying
      ensures Step(State(), raised) == HandleEcStep(old(State()))
      decreases if dying then 0 else 1, 2
    {
      raised := HandleEc();
    }

    method Error(e: int) returns (raised: Option<int>)
      modifies this`ec, this`dying
      ensures Step(State(), raised) == ErrorStep(old(State()), e, keepGoing)
      decreases if dying then 0 else 1, 3
    {
      raised := PrintWithTs();
      if raised.Some? {
        return;
      }
      UpdateEc(e);
      if !dying && !keepGoing && ec != 0 {
        raised := Some(e);
      }
    }

    method FatalError(e: int) returns (raised: Option<int>)
      modifies this`ec, this`dying
      ensures Step(State(), raised) == FatalErrorStep(old(State()), e)
      decreases if dying then 0 else 1, if dying then 4 else 0
    {
      dying := true;
      var inner := Error(e);
      // being dying, the inner `error` call cannot throw
      assert inner == None;
      raised := Some(e);
    }

    method HandleEc() returns (raised: Option<int>)
      modifies this`ec, this`dying
      ensures Step(State(), raised) == HandleEcStep(old(State()))
      decreases if dying then 0 else 1, 1
    {
      raised := None;
      if !dying && 128 < ec < 128 + 64 {
        raised := FatalError(ec);
      }
    }

    method HandleRv(rv: int) returns (raised: Option<int>)
      modifies this`ec, this`dying
      ensures Step(State(), raised) == HandleRvStep(old(State()), rv)
    {
      raised := None;
      if 128 < rv {
        UpdateEc(rv);
        raised := HandleEc();
      }
    }
  }

  /** A call into the state machine. */
  datatype Call = UpdateEcCall(e: int) | ErrorCall(e: int) | FatalErrorCall(e: int) | HandleEcCall | HandleRvCall(rv: int)

  function StepOf(s: EcState, c: Call, keepGoing: bool): Step {
    match c
    case UpdateEcCall(e) => UpdateEcStep(s, e)
    case ErrorCall(e) => ErrorStep(s, e, keepGoing)
    case FatalErrorCall(e) => FatalErrorStep(s, e)
    case HandleEcCall => HandleEcStep(s)
    case HandleRvCall(rv) => HandleRvStep(s, rv)
  }

  /** A run of calls; the first `FatalError` propagates and ends the run. */
  function Run(s: EcState, calls: seq<Call>, keepGoing: bool): Step
    decreases |calls|
  {
    if calls == [] then Step(s, None)
    else
      var st := StepOf(s, calls[0], keepGoing);
      if st.raised.Some? then st else Run(st.state, calls[1..], keepGoing)
  }

  /** The exit code never decreases, and once dying the scan stays dying. */
  lemma {:induction false} RunMonotone(s: EcState, calls: seq<Call>, keepGoing: bool)
    ensures Run(s, calls, keepGoing).state.ec >= s.ec
    ensures s.dying ==> Run(s, calls, keepGoing).state.dying
    decreases |calls|
  {
    if calls != [] {
      var st := StepOf(s, calls[0], keepGoing);
      if st.raised.None? {
        RunMonotone(st.state, calls[1..], keepGoing);
      }
    }
  }

  /** The final code is one of the codes the run started with or passed. */
  predicate CodeOf(c: Call, x: int) {
    match c
    case UpdateEcCall(e) => x == e
    case ErrorCall(e) => x == e
    case FatalErrorCall(e) => x == e
    case HandleEcCall => false
    case HandleRvCall(rv) => x == rv
  }

  lemma {:induction false} RunEcIsSomeCode(s: EcState, calls: seq<Call>, keepGoing: bool)
    ensures var ec := Run(s, calls, keepGoing).state.ec;
      ec == s.ec || exists i :: 0 <= i < |calls| && CodeOf(calls[i], ec)
    decreases |calls|
  {
    if calls != [] {
      var st := StepOf(s, calls[0], keepGoing);
      assert st.state.ec == s.ec || CodeOf(calls[0], st.state.ec);
      if st.raised.None? {
        RunEcIsSomeCode(st.state, calls[1..], keepGoing);
        var ec := Run(st.state, calls[1..], keepGoing).state.ec;
        if ec != st.state.ec {
          var i :| 0 <= i < |calls[1..]| && CodeOf(calls[1..][i], ec);
          assert CodeOf(calls[i + 1], ec);
        }
      }
    }
  }

  /** Once dying, only an explicit `fatal_error` still throws. */
  lemma {:induction false} DyingRunRaisesOnlyByFatalError(s: EcState, calls: seq<Call>, keepGoing: bool)
    requires s.dying
    requires forall i :: 0 <= i < |calls| ==> !calls[i].FatalErrorCall?
    ensures Run(s, calls, keepGoing) == Step(Run(s, calls, keepGoing).state, None)
    decreases |calls|
  {
    if calls != [] {
      DyingRunRaisesOnlyByFatalError(StepOf(s, calls[0], keepGoing).state, calls[1..], keepGoing);
    }
  }

  /**
   * With keep-going and no code in the signal range anywhere, no call short
   * of `fatal_error` throws.
   */
  lemma {:induction false} KeepGoingNeverRaises(s: EcState, calls: seq<Call>)
    requires !SignalCode(s.ec)
    requires forall i :: 0 <= i < |calls| ==> !calls[i].FatalErrorCall?
    requires forall i, x :: 0 <= i < |calls| && CodeOf(calls[i], x) ==> !SignalCode(x)
    ensures Run(s, calls, true).raised == None
    decreases |calls|
  {
    if calls != [] {
      var st := StepOf(s, calls[0], true);
      assert st.state.ec == s.ec || CodeOf(calls[0], st.state.ec);
      assert forall i, x :: 0 <= i < |calls[1..]| && CodeOf(calls[1..][i], x) ==> CodeOf(calls[i + 1], x);
      KeepGoingNeverRaises(st.state, calls[1..]);
    }
  }

  /**
   * Without keep-going, an `error(ec=0)` still throws `FatalError(0)` once an
   * earlier error left a non-zero code behind (after that error was caught).
   */
  lemma ErrorZeroAfterError(s: EcState, e: int)
    requires s.ec >= 0 && !s.dying && !SignalCode(s.ec) && !SignalCode(e) && Max(s.ec, e) != 0
    ensures ErrorStep(s, e, false).raised == Some(e)
    ensures ErrorStep(ErrorStep(s, e, false).state, 0, false).raised == Some(0)
  {
  }

  /**
   * Outside the pending-signal case, `error` throws iff not dying, not
   * keep-going and the accumulated code is non-zero; `fatal_error`'s inner
   * `error` (made while dying) never throws.
   */
  lemma ErrorRaisesIff(s: EcState, e: int, keepGoing: bool)
    requires s.dying || !SignalCode(s.ec)
    ensures ErrorStep(s, e, keepGoing).raised.Some? <==> !s.dying && !keepGoing && Max(s.ec, e) != 0
    ensures s.dying ==> ErrorStep(s, e, keepGoing) == Step(EcState(Max(s.ec, e), true), None)
  {
  }

  /** A command killed by a signal, with no larger code pending, shuts the scan down with its code. */
  lemma HandleRvSignal(s: EcState, rv: int)
    requires !s.dying && SignalCode(rv) && s.ec <= rv
    ensures HandleRvStep(s, rv) == Step(EcState(rv, true), Some(rv))
  {
  }

  // ----------------------------------------------------------- scan.ini

  /** One `key = value` line of `scan.ini`, surrounding whitespace stripped from the value. */
  function IniLine(key: string, value: string): string {
    key + " = " + Strip(value) + "\n"
  }

  /** Reads a `scan.ini` line back: the text before the first ` = ` and the rest of the line. */
  function ReadIniLine(line: string): Option<(string, string)> {
    if line == [] || line[|line| - 1] != '\n' then None
    else
      var body := line[..|line| - 1];
      match FindSep(body, " = ")
      case None => None
      case Some(i) => Some((body[..i], body[i + 3..]))
  }

  /**
   * A line written by `append` reads back as its key and the stripped value,
   * for a key in which ` = ` cannot be found early.
   */
  lemma IniLineReadBack(key: string, value: string)
    requires NoSepInside(key, " = ")
    ensures ReadIniLine(IniLine(key, value)) == Some((key, Strip(value)))
  {
    ReadBack(key, Strip(value));
  }

  lemma ReadBack(key: string, v: string)
    requires NoSepInside(key, " = ")
    ensures ReadIniLine(key + " = " + v + "\n") == Some((key, v))
  {
    var line := key + " = " + v + "\n";
    var body := key + " = " + v;
    assert line[..|line| - 1] == body;
    FindSepAfterItem(key, " = ", v);
    assert body[..|key|] == key;
    assert body[|key| + 3..] == v;
  }

  /**
   * Three appended lines with blank-free keys and one-line values: the text
   * splits at its line breaks into exactly those lines (and the empty rest),
   * and each reads back as its key and value.
   */
  lemma ThreeLinesReadBack(k1: string, v1: string, k2: string, v2: string, k3: string, v3: string)
    requires ' ' !in k1 && ' ' !in k2 && ' ' !in k3
    requires NoNewline(k1) && NoNewline(k2) && NoNewline(k3)
    requires NoNewline(v1) && NoNewline(v2) && NoNewline(v3)
    requires Strip(v1) == v1 && Strip(v2) == v2 && Strip(v3) == v3
    ensures var lines := Split(IniLine(k1, v1) + IniLine(k2, v2) + IniLine(k3, v3), "\n");
      lines == [k1 + " = " + v1, k2 + " = " + v2, k3 + " = " + v3, ""] &&
      ReadIniLine(lines[0] + "\n") == Some((k1, v1)) &&
      ReadIniLine(lines[1] + "\n") == Some((k2, v2)) &&
      ReadIniLine(lines[2] + "\n") == Some((k3, v3))
  {
    var l1, l2, l3 := k1 + " = " + v1, k2 + " = " + v2, k3 + " = " + v3;
    var xs := [l1, l2, l3, ""];
    assert Join(xs, "\n") == l1 + "\n" + (l2 + "\n" + (l3 + "\n" + "")) by {
      assert xs[1..] == [l2, l3, ""];
      assert [l2, l3, ""][1..] == [l3, ""];
      assert [l3, ""][1..] == [""];
      assert Join([l3, ""], "\n") == l3 + "\n" + "";
      assert Join([l2, l3, ""], "\n") == l2 + "\n" + Join([l3, ""], "\n");
    }
    assert IniLine(k1, v1) + IniLine(k2, v2) + IniLine(k3, v3) == Join(xs, "\n");
    NoLeadCharNoSep(l1, "\n");
    NoLeadCharNoSep(l2, "\n");
    NoLeadCharNoSep(l3, "\n");
    SplitJoin(xs, "\n");
    NoLeadCharNoSep(k1, " = ");
    NoLeadCharNoSep(k2, " = ");
    NoLeadCharNoSep(k3, " = ");
    ReadBack(k1, v1);
    ReadBack(k2, v2);
    ReadBack(k3, v3);
  }

  class IniWriter {
    const results: ScanResults
    /** Everything written to `scan.ini` so far. */
    var text: string
    /** `self.ini is not None`. */
    var isOpen: bool

    /** `__init__`: the header and the six creation keys; argv, host and time are given. */
    constructor (results: ScanResults, argv: seq<string>, host: string, timeCreated: string)
      ensures this.results == results && isOpen
      ensures text == "[scan]\n" + IniLine("tool", results.tool) + IniLine("tool-version", results.toolVersion)
        + IniLine("tool-args", Join(Util.TranslateAll(argv, false), " ")) + IniLine("host", host)
        + IniLine("store-results-to", results.output) + IniLine("time-created", timeCreated)
    {
      this.results := results;
      var toolArgs := Util.StrlistToShellCmd(Util.StrList(argv), false);
      text := "[scan]\n" + IniLine("tool", results.tool) + IniLine("tool-version", results.toolVersion)
        + IniLine("tool-args", toolArgs) + IniLine("host", host)
        + IniLine("store-results-to", results.output) + IniLine("time-created", timeCreated);
      isOpen := true;
    }

    method Write(t: string)
      requires isOpen
      modifies this`text
      ensures text == old(text) + t
    {
      text := text + t;
    }

    /** `append(key, value)` for a value already rendered by `str`. */
    method Append(key: string, value: string)
      requires isOpen
      modifies this`text
      ensures text == old(text) + IniLine(key, value)
    {
      var valStr := Strip(value);
      Write(key + " = " + valStr + "\n");
    }

    /** `close`: the two closing keys are written once; a later close changes nothing. */
    method Close(timeFinished: string)
      modifies this`text, this`isOpen
      ensures !isOpen
      ensures old(isOpen) ==> text == old(text) + IniLine("time-finished", timeFinished) + IniLine("exit-code", IntToString(results.ec))
      ensures !old(isOpen) ==> text == old(text)
    {
      if !isOpen {
        return;
      }
      Append("time-finished", timeFinished);
      Append("exit-code", IntToString(results.ec));
      isOpen := false;
    }
  }

  // ------------------------------------------------- re_from_checker_set

  predicate IsMin(m: string, s: set<string>) {
    m in s && forall x :: x in s ==> StrLe(m, x)
  }

  lemma {:induction false} MinExists(s: set<string>)
    requires s != {}
    ensures exists m :: IsMin(m, s)
    decreases |s|
  {
    var y :| y in s;
    var rest := s - {y};
    if rest == {} {
      assert s == {y};
      StrLeReflexive(y);
      assert IsMin(y, s);
    } else {
      MinExists(rest);
      var m :| IsMin(m, rest);
      StrLeTotal(m, y);
      if StrLe(m, y) {
        assert IsMin(m, s);
      } else {
        forall x | x in s
          ensures StrLe(y, x)
        {
          if x == y {
            StrLeReflexive(y);
          } else {
            StrLeTransitive(y, m, x);
          }
        }
        assert IsMin(y, s);
      }
    }
  }

  lemma MinUnique(m: string, n: string, s: set<string>)
    requires IsMin(m, s) && IsMin(n, s)
    ensures m == n
  {
    StrLeAntisymmetric(m, n);
  }

  /** Python's `sorted(checker_set)`. */
  ghost function SortedSeq(s: set<string>): (r: seq<string>)
    ensures s != {} ==> r != [] && IsMin(r[0], s)
    ensures s == {} ==> r == []
    decreases |s|
  {
    if s == {} then []
    else
      MinExists(s);
      var m :| IsMin(m, s);
      [m] + SortedSeq(s - {m})
  }

  /** `sorted` lists exactly the elements of the set, each once. */
  lemma {:induction false} SortedSeqElements(s: set<string>)
    ensures var r := SortedSeq(s); |r| == |s| && forall x :: x in r <==> x in s
    decreases |s|
  {
    if s != {} {
      var m := SortedSeq(s)[0];
      SortedSeqUnfold(s, m);
      SortedSeqElements(s - {m});
    }
  }

  /** ... and in strictly increasing code-point order. */
  lemma {:induction false} SortedSeqSorted(s: set<string>)
    ensures var r := SortedSeq(s); forall i, j :: 0 <= i < j < |r| ==> StrLe(r[i], r[j]) && r[i] != r[j]
    decreases |s|
  {
    if s != {} {
      var r := SortedSeq(s);
      var m := r[0];
      var tail := SortedSeq(s - {m});
      SortedSeqUnfold(s, m);
      SortedSeqSorted(s - {m});
      SortedSeqElements(s - {m});
      forall i, j | 0 <= i < j < |r|
        ensures StrLe(r[i], r[j]) && r[i] != r[j]
      {
        assert r[j] == tail[j - 1];
        if i > 0 {
          assert r[i] == tail[i - 1];
        } else {
          assert r[j] in s - {m};
        }
      }
    }
  }

  lemma SortedSeqUnfold(s: set<string>, m: string)
    requires IsMin(m, s)
    ensures SortedSeq(s) == [m] + SortedSeq(s - {m})
  {
    var r := SortedSeq(s);
    MinUnique(r[0], m, s);
  }

  /** Computes `sorted(checker_set)`. */
  method SortedCheckers(checkerSet: set<string>) returns (xs: seq<string>)
    ensures xs == SortedSeq(checkerSet)
  {
    xs := [];
    var rest := checkerSet;
    while rest != {}
      invariant xs + SortedSeq(rest) == SortedSeq(checkerSet)
      decreases |rest|
    {
      MinExists(rest);
      var m :| m in rest && IsMin(m, rest);
      SortedSeqUnfold(rest, m);
      xs := xs + [m];
      rest := rest - {m};
    }
  }

  /** The regex for a checker set: `^(` + sorted checkers joined by `|` + `)$`. */
  ghost function CheckerRegex(checkerSet: set<string>): string {
    "^(" + Join(SortedSeq(checkerSet), "|") + ")$"
  }

  method ReFromCheckerSet(checkerSet: set<string>) returns (chkRe: string)
    ensures chkRe == CheckerRegex(checkerSet)
  {
    var sorted := SortedCheckers(checkerSet);
    chkRe := "^(";
    var first := true;
    for i := 0 to |sorted|
      invariant first <==> i == 0
      invariant chkRe == "^(" + Join(sorted[..i], "|")
    {
      ghost var before := Join(sorted[..i], "|");
      assert sorted[..i + 1] == sorted[..i] + [sorted[i]];
      if first {
        first := false;
        assert sorted[..i + 1] == [sorted[i]];
        assert Join(sorted[..i + 1], "|") == sorted[i];
      } else {
        JoinSnoc(sorted[..i], sorted[i], "|");
        assert Join(sorted[..i + 1], "|") == before + "|" + sorted[i];
        chkRe := chkRe + "|";
      }
      chkRe := chkRe + sorted[i];
    }
    assert sorted[..|sorted|] == sorted;
    chkRe := chkRe + ")$";
  }

  lemma CheckerRegexEmpty()
    ensures CheckerRegex({}) == "^()$"
  {
  }

  lemma NoPipeInside(x: string)
    requires '|' !in x
    ensures NoSepInside(x, "|")
  {
    forall p | 0 <= p < |x|
      ensures !OccursAt(x + "|", "|", p)
    {
      assert (x + "|")[p..p + 1] == [x[p]];
    }
  }

  /**
   * The alternatives of the regex are exactly the sorted checkers: splitting
   * its body at `|` gives them back when no checker contains `|`.
   */
  lemma CheckerRegexAlternatives(checkerSet: set<string>)
    requires checkerSet != {}
    requires forall c :: c in checkerSet ==> '|' !in c
    ensures var re := CheckerRegex(checkerSet);
      StartsWith(re, "^(") && EndsWith(re, ")$") && Split(re[2..|re| - 2], "|") == SortedSeq(checkerSet)
  {
    var xs := SortedSeq(checkerSet);
    SortedSeqElements(checkerSet);
    forall i | 0 <= i < |xs|
      ensures NoSepInside(xs[i], "|")
    {
      NoPipeInside(xs[i]);
    }
    SplitJoin(xs, "|");
    var re := CheckerRegex(checkerSet);
    assert re[2..|re| - 2] == Join(xs, "|");
  }
}
