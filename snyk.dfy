/**
 * Snyk coverage statistics written to `scan.ini` by
 * `snyk_write_analysis_meta`, in its two variants: the current one
 * (`csmock/common/snyk.py`), which handles only `OSError` and `KeyError`,
 * and the older one (`py/common/snyk.py`), which handles every exception.
 */
module Snyk {
  import opened Wrappers
  import opened Strings
  import opened Results
  import opened PyJson

  /** What reading the results file gives: it cannot be opened, it is not JSON, or a value. */
  datatype Loaded = Unreadable | Malformed | Parsed(data: Json)

  /** `n += x` on an int: numbers and booleans add, anything else is a `TypeError`. */
  function Count(x: Json): Result<int, PyError> {
    match x
    case JInt(n) => Success(n)
    case JBool(b) => Success(if b then 1 else 0)
    case _ => Failure(TypeError)
  }

  // ------------------------------------------------------------ the tally

  datatype Tally = Tally(total: int, supported: int)

  /** One coverage entry: its file count and whether its type is `SUPPORTED`. */
  function Entry(lang: Json): Result<(int, bool), PyError> {
    var files :- Subscript(lang, Name("files"));
    var n :- Count(files);
    var ty :- Subscript(lang, Name("type"));
    Success((n, ty == JStr("SUPPORTED")))
  }

  function AddEntry(t: Tally, e: (int, bool)): Tally {
    Tally(t.total + e.0, if e.1 then t.supported + e.0 else t.supported)
  }

  /** The loop over the coverage entries; the first entry that throws ends it. */
  function TallyOf(langs: seq<Json>): Result<Tally, PyError>
    decreases |langs|
  {
    if langs == [] then Success(Tally(0, 0))
    else
      var t :- TallyOf(langs[..|langs| - 1]);
      var e :- Entry(langs[|langs| - 1]);
      Success(AddEntry(t, e))
  }

  /** The accumulating loop of `snyk_write_analysis_meta`. */
  method CountCoverage(langs: seq<Json>) returns (r: Result<Tally, PyError>)
    ensures r == TallyOf(langs)
  {
    var total := 0;
    var supported := 0;
    for i := 0 to |langs|
      invariant TallyOf(langs[..i]) == Success(Tally(total, supported))
    {
      assert langs[..i + 1][..i] == langs[..i];
      var lang := langs[i];
      var files := Subscript(lang, Name("files"));
      if files.Failure? {
        TallyFailureSticks(langs, i + 1);
        return Failure(files.error);
      }
      var n := Count(files.value);
      if n.Failure? {
        TallyFailureSticks(langs, i + 1);
        return Failure(n.error);
      }
      total := total + n.value;
      var ty := Subscript(lang, Name("type"));
      if ty.Failure? {
        TallyFailureSticks(langs, i + 1);
        return Failure(ty.error);
      }
      if ty.value == JStr("SUPPORTED") {
        supported := supported + n.value;
      }
    }
    assert langs[..|langs|] == langs;
    r := Success(Tally(total, supported));
  }

  /** Once an entry throws, the rest of the loop does not run. */
  lemma {:induction false} TallyFailureSticks(langs: seq<Json>, k: nat)
    requires k <= |langs| && TallyOf(langs[..k]).Failure?
    ensures TallyOf(langs) == TallyOf(langs[..k])
    decreases |langs| - k
  {
    if k < |langs| {
      assert langs[..k + 1][..k] == langs[..k];
      TallyFailureSticks(langs, k + 1);
    } else {
      assert langs[..k] == langs;
    }
  }

  predicate AllEntries(langs: seq<Json>) {
    forall i :: 0 <= i < |langs| ==> Entry(langs[i]).Success?
  }

  /** Sum of the file counts (a definition independent of the loop's order). */
  function TotalFiles(langs: seq<Json>): int
    requires AllEntries(langs)
    decreases |langs|
  {
    if langs == [] then 0 else Entry(langs[0]).value.0 + TotalFiles(langs[1..])
  }

  /** Sum of the file counts of the `SUPPORTED` entries. */
  function SupportedFiles(langs: seq<Json>): int
    requires AllEntries(langs)
    decreases |langs|
  {
    if langs == [] then 0
    else (if Entry(langs[0]).value.1 then Entry(langs[0]).value.0 else 0) + SupportedFiles(langs[1..])
  }

  lemma {:induction false} SumsSnoc(langs: seq<Json>, x: Json)
    requires AllEntries(langs) && Entry(x).Success?
    ensures AllEntries(langs + [x])
    ensures TotalFiles(langs + [x]) == TotalFiles(langs) + Entry(x).value.0
    ensures SupportedFiles(langs + [x]) == SupportedFiles(langs) + (if Entry(x).value.1 then Entry(x).value.0 else 0)
    decreases |langs|
  {
    assert forall i :: 0 <= i < |langs| ==> (langs + [x])[i] == langs[i];
    assert (langs + [x])[|langs|] == x;
    if langs != [] {
      assert (langs + [x])[1..] == langs[1..] + [x];
      assert (langs + [x])[0] == langs[0];
      SumsSnoc(langs[1..], x);
    }
  }

  /**
   * The loop succeeds exactly when every entry has a numeric `files` and a
   * `type`, and then it yields the sum of all counts and of the supported ones.
   */
  lemma {:induction false} TallyIsSums(langs: seq<Json>)
    ensures TallyOf(langs).Success? <==> AllEntries(langs)
    ensures AllEntries(langs) ==>
      TallyOf(langs) == Success(Tally(TotalFiles(langs), SupportedFiles(langs)))
    decreases |langs|
  {
    if langs != [] {
      var init := langs[..|langs| - 1];
      var x := langs[|langs| - 1];
      assert langs == init + [x];
      assert forall i :: 0 <= i < |init| ==> init[i] == langs[i];
      assert x == langs[|langs| - 1];
      TallyIsSums(init);
      if AllEntries(langs) {
        SumsSnoc(init, x);
      }
    }
  }

  /** A failing loop fails with the exception of the first bad entry. */
  lemma {:induction false} TallyFailsAtFirstBadEntry(langs: seq<Json>, k: nat)
    requires k < |langs| && Entry(langs[k]).Failure?
    requires forall i :: 0 <= i < k ==> Entry(langs[i]).Success?
    ensures TallyOf(langs) == Failure(Entry(langs[k]).error)
    decreases |langs|
  {
    var init := langs[..|langs| - 1];
    if k == |langs| - 1 {
      assert forall i :: 0 <= i < |init| ==> init[i] == langs[i];
      TallyIsSums(init);
    } else {
      assert init[k] == langs[k];
      assert forall i :: 0 <= i < k ==> init[i] == langs[i];
      TallyFailsAtFirstBadEntry(init, k);
    }
  }

  /** With non-negative counts, the supported files are at most all files. */
  lemma {:induction false} SupportedAtMostTotal(langs: seq<Json>)
    requires AllEntries(langs)
    requires forall i :: 0 <= i < |langs| ==> Entry(langs[i]).value.0 >= 0
    ensures 0 <= SupportedFiles(langs) <= TotalFiles(langs)
    decreases |langs|
  {
    if langs != [] {
      assert forall i :: 0 <= i < |langs| - 1 ==> langs[1..][i] == langs[i + 1];
      SupportedAtMostTotal(langs[1..]);
    }
  }

  // ------------------------------------------------------------ the ratio

  /** `int(a / b)` for `b > 0`: the quotient truncated toward zero. */
  function TruncDiv(a: int, b: int): int
    requires b > 0
  {
    if a >= 0 then a / b else -((-a) / b)
  }

  /** The coverage ratio, 0 when there are no files. */
  function Ratio(t: Tally): int {
    if t.total > 0 then TruncDiv(t.supported * 100, t.total) else 0
  }

  lemma DivBetween(a: int, t: int, c: int)
    requires t > 0 && 0 <= a <= c * t
    ensures 0 <= a / t <= c
  {
  }

  lemma DivFloor(a: int, t: int)
    requires t > 0
    ensures (a / t) * t <= a < (a / t + 1) * t
  {
  }

  lemma DivSelf(t: int)
    requires t > 0
    ensures (100 * t) / t == 100
  {
  }

  /** For non-negative counts the ratio is the floored percentage and lies within 0..100. */
  lemma RatioBounds(t: Tally)
    requires 0 <= t.supported <= t.total
    ensures 0 <= Ratio(t) <= 100
    ensures t.total == 0 ==> Ratio(t) == 0
    ensures t.total > 0 ==> Ratio(t) * t.total <= t.supported * 100 < (Ratio(t) + 1) * t.total
    ensures t.total > 0 && t.supported == t.total ==> Ratio(t) == 100
  {
    if t.total > 0 {
      var a := t.supported * 100;
      assert a <= 100 * t.total;
      DivBetween(a, t.total, 100);
      DivFloor(a, t.total);
      if t.supported == t.total {
        DivSelf(t.total);
      }
    }
  }

  // ------------------------------------------------------------ the function

  /** `data["runs"][0]["properties"]["coverage"]`, then what iterating it visits. */
  function CoverageEntries(data: Json): Result<seq<Json>, PyError> {
    var runs :- Subscript(data, Name("runs"));
    var run :- Subscript(runs, Index(0));
    var props :- Subscript(run, Name("properties"));
    var coverage :- Subscript(props, Name("coverage"));
    Elements(coverage)
  }

  /** Everything before the first `append`: the tally, or the exception met. */
  function Analysis(load: Loaded): Result<Tally, PyError> {
    match load
    case Unreadable => Failure(OSError)
    case Malformed => Failure(ValueError)
    case Parsed(data) =>
      var langs :- CoverageEntries(data);
      TallyOf(langs)
  }

  /** The `scan.ini` keys of the statistics. */
  const COVERAGE_KEY := "snyk-scanned-files-coverage"
  const SUCCESS_KEY := "snyk-scanned-files-success"
  const TOTAL_KEY := "snyk-scanned-files-total"

  /** The three `scan.ini` lines, in the order written. */
  function MetaLines(t: Tally): string {
    IniLine(COVERAGE_KEY, IntToString(Ratio(t))) +
    IniLine(SUCCESS_KEY, IntToString(t.supported)) +
    IniLine(TOTAL_KEY, IntToString(t.total))
  }

  datatype Variant = Current | Legacy

  /** The exceptions a variant turns into a reported error. */
  predicate Handles(v: Variant, e: PyError) {
    match v
    case Current => e == OSError || e == KeyError
    case Legacy => true
  }

  /** How the function ends: a return value, an exception it lets through, or `FatalError`. */
  datatype Exit = Returned(code: int) | Propagated(error: PyError) | Fatal(code: int)

  /** The new exit-code state, how the call ends, and the text appended to `scan.ini`. */
  datatype Effect = Effect(state: EcState, exit: Exit, appended: string)

  function Meta(v: Variant, s: EcState, keepGoing: bool, load: Loaded): Effect {
    match Analysis(load)
    case Success(t) => Effect(s, Returned(0), MetaLines(t))
    case Failure(e) =>
      if !Handles(v, e) then Effect(s, Propagated(e), "")
      else
        var st := ErrorStep(s, 1, keepGoing);
        Effect(st.state, if st.raised.Some? then Fatal(st.raised.value) else Returned(1), "")
  }

  /** Reading the file, the lookups and the loop: everything before the first `append`. */
  method Analyze(load: Loaded) returns (a: Result<Tally, PyError>)
    ensures a == Analysis(load)
  {
    match load {
      case Unreadable =>
        a := Failure(OSError);
      case Malformed =>
        a := Failure(ValueError);
      case Parsed(data) =>
        var entries := CoverageEntries(data);
        if entries.Failure? {
          a := Failure(entries.error);
        } else {
          a := CountCoverage(entries.value);
        }
    }
  }

  lemma Concat4(a: string, b: string, c: string, d: string)
    ensures a + b + c + d == a + (b + c + d)
  {
  }

  /** Shared body of both variants. */
  method WriteMeta(v: Variant, results: ScanResults, ini: IniWriter, load: Loaded) returns (exit: Exit)
    requires ini.isOpen
    modifies results`ec, results`dying, ini`text
    ensures var m := Meta(v, old(results.State()), results.keepGoing, load);
      results.State() == m.state && exit == m.exit && ini.text == old(ini.text) + m.appended
  {
    var a := Analyze(load);
    if a.Success? {
      var t := a.value;
      ghost var before := ini.text;
      ghost var l1 := IniLine(COVERAGE_KEY, IntToString(Ratio(t)));
      ghost var l2 := IniLine(SUCCESS_KEY, IntToString(t.supported));
      ghost var l3 := IniLine(TOTAL_KEY, IntToString(t.total));
      ini.Append(COVERAGE_KEY, IntToString(Ratio(t)));
      ini.Append(SUCCESS_KEY, IntToString(t.supported));
      ini.Append(TOTAL_KEY, IntToString(t.total));
      Concat4(before, l1, l2, l3);
      return Returned(0);
    }
    if !Handles(v, a.error) {
      return Propagated(a.error);
    }
    var raised := results.Error(1);
    exit := if raised.Some? then Fatal(raised.value) else Returned(1);
  }

  /** `snyk_write_analysis_meta` of `csmock/common/snyk.py`. */
  method WriteAnalysisMeta(results: ScanResults, ini: IniWriter, load: Loaded) returns (exit: Exit)
    requires ini.isOpen
    modifies results`ec, results`dying, ini`text
    ensures var m := Meta(Current, old(results.State()), results.keepGoing, load);
      results.State() == m.state && exit == m.exit && ini.text == old(ini.text) + m.appended
  {
    exit := WriteMeta(Current, results, ini, load);
  }

  /** `snyk_write_analysis_meta` of `py/common/snyk.py`. */
  method WriteAnalysisMetaLegacy(results: ScanResults, ini: IniWriter, load: Loaded) returns (exit: Exit)
    requires ini.isOpen
    modifies results`ec, results`dying, ini`text
    ensures var m := Meta(Legacy, old(results.State()), results.keepGoing, load);
      results.State() == m.state && exit == m.exit && ini.text == old(ini.text) + m.appended
  {
    exit := WriteMeta(Legacy, results, ini, load);
  }

  // ------------------------------------------------------------ properties

  /**
   * The three lines of a tally split back at the line breaks, and read back
   * as the coverage, success and total keys in that order.
   */
  lemma MetaLinesReadBack(t: Tally)
    ensures var lines := Split(MetaLines(t), "\n");
      |lines| == 4 && lines[3] == "" &&
      ReadIniLine(lines[0] + "\n") == Some((COVERAGE_KEY, IntToString(Ratio(t)))) &&
      ReadIniLine(lines[1] + "\n") == Some((SUCCESS_KEY, IntToString(t.supported))) &&
      ReadIniLine(lines[2] + "\n") == Some((TOTAL_KEY, IntToString(t.total)))
  {
    IntToStringIsStripped(Ratio(t));
    IntToStringIsStripped(t.supported);
    IntToStringIsStripped(t.total);
    MetaKeysArePlain();
    ThreeLinesReadBack(COVERAGE_KEY, IntToString(Ratio(t)), SUCCESS_KEY, IntToString(t.supported),
      TOTAL_KEY, IntToString(t.total));
  }

  lemma MetaKeysArePlain()
    ensures ' ' !in COVERAGE_KEY && ' ' !in SUCCESS_KEY && ' ' !in TOTAL_KEY
    ensures NoNewline(COVERAGE_KEY) && NoNewline(SUCCESS_KEY) && NoNewline(TOTAL_KEY)
  {
  }

  /**
   * A results file whose coverage entries are all well formed: both variants
   * return 0 and leave the exit code alone, and the appended text reads back,
   * line by line, as exactly the coverage, success and total keys in that
   * order, holding the truncated percentage, the supported sum and the total
   * sum of the entries.
   */
  lemma MetaReadsBack(v: Variant, s: EcState, keepGoing: bool, data: Json, langs: seq<Json>)
    requires CoverageEntries(data) == Success(langs) && AllEntries(langs)
    ensures var m := Meta(v, s, keepGoing, Parsed(data));
      var total := TotalFiles(langs);
      var supported := SupportedFiles(langs);
      var coverage := if total > 0 then TruncDiv(supported * 100, total) else 0;
      var lines := Split(m.appended, "\n");
      m.state == s && m.exit == Returned(0) && |lines| == 4 && lines[3] == "" &&
      ReadIniLine(lines[0] + "\n") == Some((COVERAGE_KEY, IntToString(coverage))) &&
      ReadIniLine(lines[1] + "\n") == Some((SUCCESS_KEY, IntToString(supported))) &&
      ReadIniLine(lines[2] + "\n") == Some((TOTAL_KEY, IntToString(total)))
  {
    TallyIsSums(langs);
    var t := Tally(TotalFiles(langs), SupportedFiles(langs));
    assert Analysis(Parsed(data)) == Success(t);
    assert Meta(v, s, keepGoing, Parsed(data)) == Effect(s, Returned(0), MetaLines(t));
    MetaLinesReadBack(t);
  }

  /** Every lookup precedes the first `append`: a failure appends nothing. */
  lemma NothingAppendedOnFailure(v: Variant, s: EcState, keepGoing: bool, load: Loaded)
    requires Analysis(load).Failure?
    ensures Meta(v, s, keepGoing, load).appended == ""
  {
  }

  /**
   * A handled failure is reported as `error(msg)` with code 1: it returns 1
   * when that does not abort the scan, and throws `FatalError(1)` otherwise.
   */
  lemma {:induction false} HandledFailureReturnsOne(v: Variant, s: EcState, keepGoing: bool, load: Loaded)
    requires Analysis(load).Failure? && Handles(v, Analysis(load).error)
    requires !SignalCode(s.ec)
    ensures var m := Meta(v, s, keepGoing, load);
      m.state == EcState(Max(s.ec, 1), s.dying) &&
      m.exit == (if !s.dying && !keepGoing then Fatal(1) else Returned(1))
  {
  }

  /** The two variants differ only on exceptions other than `OSError` and `KeyError`. */
  lemma VariantsAgree(s: EcState, keepGoing: bool, load: Loaded)
    ensures Meta(Current, s, keepGoing, load) == Meta(Legacy, s, keepGoing, load) <==>
      (Analysis(load).Success? || Analysis(load).error in {OSError, KeyError})
  {
    if Analysis(load).Failure? && Analysis(load).error !in {OSError, KeyError} {
      assert Meta(Current, s, keepGoing, load).exit.Propagated?;
    }
  }

  /** A results file that is not JSON escapes the current variant as a `ValueError`. */
  lemma MalformedEscapesCurrent(s: EcState, keepGoing: bool)
    ensures Meta(Current, s, keepGoing, Malformed) == Effect(s, Propagated(ValueError), "")
  {
  }

  /** An empty `runs` array is an `IndexError`, which only the legacy variant handles. */
  lemma NoRunsIsIndexError(s: EcState)
    requires !s.dying && !SignalCode(s.ec)
    ensures var load := Parsed(JObj([("runs", JArr([]))]));
      Meta(Current, s, true, load).exit == Propagated(IndexError) &&
      Meta(Legacy, s, true, load).exit == Returned(1)
  {
    var data := JObj([("runs", JArr([]))]);
    assert Subscript(data, Name("runs")) == Success(JArr([]));
    assert CoverageEntries(data) == Failure(IndexError);
  }

  /** A coverage entry as Snyk writes it. */
  function CoverageEntry(n: int, ty: string): Json {
    JObj([("files", JInt(n)), ("type", JStr(ty))])
  }

  lemma EntryOfCoverageEntry(n: int, ty: string)
    ensures Entry(CoverageEntry(n, ty)) == Success((n, ty == "SUPPORTED"))
  {
    var ms := [("files", JInt(n)), ("type", JStr(ty))];
    assert ms[..1] == [("files", JInt(n))];
    assert Member(ms, "files") == Some(JInt(n));
    assert Member(ms, "type") == Some(JStr(ty));
  }

  /** One supported file of three gives a coverage of 33. */
  lemma OneOfThree()
    ensures var cov := JArr([CoverageEntry(1, "SUPPORTED"), CoverageEntry(2, "UNSUPPORTED")]);
      var data := JObj([("runs", JArr([JObj([("properties", JObj([("coverage", cov)]))])]))]);
      Analysis(Parsed(data)) == Success(Tally(3, 1)) && Ratio(Tally(3, 1)) == 33
  {
    var e1 := CoverageEntry(1, "SUPPORTED");
    var e2 := CoverageEntry(2, "UNSUPPORTED");
    EntryOfCoverageEntry(1, "SUPPORTED");
    EntryOfCoverageEntry(2, "UNSUPPORTED");
    assert [e1, e2][..1] == [e1];
    assert [e1][..0] == [];
    assert TallyOf([e1]) == Success(Tally(1, 1));
    assert TallyOf([e1, e2]) == Success(Tally(3, 1));
    var cov := JArr([e1, e2]);
    var run := JObj([("properties", JObj([("coverage", cov)]))]);
    var data := JObj([("runs", JArr([run]))]);
    assert Subscript(data, Name("runs")) == Success(JArr([run]));
    assert Subscript(JArr([run]), Index(0)) == Success(run);
    assert CoverageEntries(data) == Success([e1, e2]);
  }
}
