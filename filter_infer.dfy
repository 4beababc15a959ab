/**
 * The Infer false-positive filter and report converter
 * (`scripts/filter-infer.py`). Bugs are Infer's JSON records; every key
 * may be absent, and a filter that looks up an absent key throws.
 */
module FilterInfer {
  import opened Wrappers
  import opened Strings

  // ------------------------------------------------------------ data model

  datatype TraceStep = TraceStep(
    filename: Option<string>,
    lineNumber: Option<int>,
    columnNumber: Option<int>,
    description: Option<string>)

  datatype Bug = Bug(
    bugType: Option<string>,
    qualifier: Option<string>,
    severity: Option<string>,
    file: Option<string>,
    line: Option<int>,
    column: Option<int>,
    bugTrace: Option<seq<TraceStep>>)

  /** A filter call returned (truthy or not) or threw; either way with the bug as the call left it. */
  datatype FilterCall = Returned(truthy: bool, bug: Bug) | Raised(bug: Bug)

  /** The filters `main` can select, in the order it selects them. */
  datatype FilterName = Biabduction | Inferbo | Uninit | DeadStore

  // -------------------------------------------------------------- regexes

  const UNINIT_HEAD := "The value read from "
  const UNINIT_TAIL := "[_] was never initialized"

  /** `re.match("The value read from .*\[_\] was never initialized.", q)`. */
  predicate UninitQualifier(q: string) {
    StartsWith(q, UNINIT_HEAD) &&
    exists i :: |UNINIT_HEAD| <= i <= |q| && OccursAt(q, UNINIT_TAIL, i) &&
      NoNewline(q[|UNINIT_HEAD|..i]) && i + |UNINIT_TAIL| < |q| && q[i + |UNINIT_TAIL|] != '\n'
  }

  const SKIPPING_HEAD := "Skipping "

  /** `re.match("Skipping .*\(\):", d)`. */
  predicate SkippingCall(d: string) {
    StartsWith(d, SKIPPING_HEAD) &&
    exists i :: |SKIPPING_HEAD| <= i <= |d| && OccursAt(d, "():", i) && NoNewline(d[|SKIPPING_HEAD|..i])
  }

  const SWITCH_HEAD := "Switch condition is false"
  const SWITCH_TAIL := " Skipping switch case"

  /** `re.match("Switch condition is false. Skipping switch case", d)`: the `.` is any non-newline. */
  predicate SkippingSwitchCase(d: string) {
    |SWITCH_HEAD| + 1 + |SWITCH_TAIL| <= |d| && StartsWith(d, SWITCH_HEAD) &&
    d[|SWITCH_HEAD|] != '\n' && OccursAt(d, SWITCH_TAIL, |SWITCH_HEAD| + 1)
  }

  // -------------------------------------------------------------- filters

  /** `uninitFilter`. */
  function UninitFilter(bug: Bug): (r: FilterCall)
    ensures r.bug == bug
    ensures r.Returned? && r.truthy ==> bug.bugType == Some("UNINITIALIZED_VALUE")
    ensures bug.bugType == Some("UNINITIALIZED_VALUE") && bug.qualifier.Some? ==>
      r == Returned(UninitQualifier(bug.qualifier.value), bug)
  {
    match bug.bugType
    case None => Raised(bug)
    case Some(t) =>
      if t != "UNINITIALIZED_VALUE" then Returned(false, bug)
      else
        match bug.qualifier
        case None => Raised(bug)
        case Some(q) => Returned(UninitQualifier(q), bug)
  }

  predicate BiabductionStep(d: string) {
    SkippingCall(d) || SkippingSwitchCase(d)
  }

  /** The loop over the trace: `Some(true)` on a skipping step, `None` when a step has no description first. */
  function ScanTrace(steps: seq<TraceStep>): (r: Option<bool>)
    ensures r == Some(true) ==> exists k :: 0 <= k < |steps| && steps[k].description.Some? && BiabductionStep(steps[k].description.value)
    ensures (forall k :: 0 <= k < |steps| ==> steps[k].description.Some? && !BiabductionStep(steps[k].description.value)) ==> r == Some(false)
  {
    if steps == [] then Some(false)
    else
      match steps[0].description
      case None => None
      case Some(d) =>
        if BiabductionStep(d) then Some(true)
        else
          var r := ScanTrace(steps[1..]);
          assert r == Some(true) ==> exists k :: 1 <= k < |steps| && steps[k].description.Some? && BiabductionStep(steps[k].description.value) by {
            if r == Some(true) {
              var k :| 0 <= k < |steps[1..]| && steps[1..][k].description.Some? && BiabductionStep(steps[1..][k].description.value);
              assert steps[k + 1] == steps[1..][k];
            }
          }
          r
  }

  predicate IsBiabductionType(t: string) {
    t == "NULL_DEREFERENCE" || t == "RESOURCE_LEAK"
  }

  /** `biabductionFilter`. */
  function BiabductionFilter(bug: Bug): (r: FilterCall)
    ensures r.bug == bug
    ensures r.Returned? && r.truthy ==>
      bug.bugType.Some? && IsBiabductionType(bug.bugType.value) && bug.bugTrace.Some? &&
      (exists k :: 0 <= k < |bug.bugTrace.value| && bug.bugTrace.value[k].description.Some? &&
                   BiabductionStep(bug.bugTrace.value[k].description.value))
  {
    match bug.bugType
    case None => Raised(bug)
    case Some(t) =>
      if !IsBiabductionType(t) then Returned(false, bug)
      else
        match bug.bugTrace
        case None => Raised(bug)
        case Some(steps) =>
          match ScanTrace(steps)
          case None => Raised(bug)
          case Some(b) => Returned(b, bug)
  }

  predicate IsAlwaysDroppedType(t: string) {
    t == "BUFFER_OVERRUN_U5" || t == "INTEGER_OVERFLOW_U5"
  }

  predicate IsUnboundedType(t: string) {
    t in ["BUFFER_OVERRUN_L2", "BUFFER_OVERRUN_L3", "BUFFER_OVERRUN_L4", "BUFFER_OVERRUN_L5",
          "BUFFER_OVERRUN_S2", "INFERBO_ALLOC_MAY_BE_NEGATIVE", "INFERBO_ALLOC_MAY_BE_BIG"] ||
    t in ["INTEGER_OVERFLOW_L2", "INTEGER_OVERFLOW_L5", "INTEGER_OVERFLOW_U5"]
  }

  /** The qualifier mentions an infinite bound. */
  predicate MentionsInfinity(q: string) {
    Contains(q, "+oo") || Contains(q, "-oo")
  }

  /** `inferboFilter`. */
  function InferboFilter(bug: Bug): (r: FilterCall)
    ensures r.bug == bug
  {
    match bug.bugType
    case None => Raised(bug)
    case Some(t) =>
      if IsAlwaysDroppedType(t) then Returned(true, bug)
      else if !IsUnboundedType(t) then Returned(false, bug)
      else
        match bug.qualifier
        case None => Raised(bug)
        case Some(q) => Returned(MentionsInfinity(q), bug)
  }

  /** `lowerSeverityForDEADSTORE`: rewrites the severity in place and returns `None`. */
  function LowerSeverityForDeadStore(bug: Bug): (r: FilterCall)
    ensures !(r.Returned? && r.truthy)
  {
    match bug.bugType
    case None => Raised(bug)
    case Some(t) => Returned(false, if t == "DEAD_STORE" then bug.(severity := Some("WARNING")) else bug)
  }

  function CallFilter(f: FilterName, bug: Bug): FilterCall {
    match f
    case Biabduction => BiabductionFilter(bug)
    case Inferbo => InferboFilter(bug)
    case Uninit => UninitFilter(bug)
    case DeadStore => LowerSeverityForDeadStore(bug)
  }

  /** The filter returns something truthy: it marks the bug a false alarm. */
  predicate Fires(f: FilterName, bug: Bug) {
    var c := CallFilter(f, bug);
    c.Returned? && c.truthy
  }

  /** `inferboFilter` always fires on the two U5 types, fires on the other listed types iff the qualifier has `+oo` or `-oo`, and never on other types. */
  lemma InferboFires(bug: Bug, t: string)
    requires bug.bugType == Some(t)
    ensures IsAlwaysDroppedType(t) ==> Fires(Inferbo, bug)
    ensures !IsAlwaysDroppedType(t) && IsUnboundedType(t) && bug.qualifier.Some? ==>
      (Fires(Inferbo, bug) <==> MentionsInfinity(bug.qualifier.value))
    ensures !IsAlwaysDroppedType(t) && !IsUnboundedType(t) ==> !Fires(Inferbo, bug)
  {
  }

  /** Only the dead-store filter changes a bug, and only the severity of a `DEAD_STORE` bug. */
  lemma FilterEffect(f: FilterName, bug: Bug)
    ensures CallFilter(f, bug).bug ==
      if f == DeadStore && bug.bugType == Some("DEAD_STORE") then bug.(severity := Some("WARNING")) else bug
  {
  }

  /** No filter reads the severity. */
  lemma FiresIgnoresSeverity(f: FilterName, bug: Bug, sev: Option<string>)
    ensures Fires(f, bug.(severity := sev)) <==> Fires(f, bug)
  {
    var b := bug.(severity := sev);
    assert b.bugType == bug.bugType && b.qualifier == bug.qualifier && b.bugTrace == bug.bugTrace;
  }

  // -------------------------------------------------------- applyFilters

  /** What the filter loop decides for one bug, and the bug as the filters left it. */
  datatype Verdict = Verdict(keep: bool, bug: Bug)

  function FilterBug(bug: Bug, fs: seq<FilterName>): Verdict
    decreases |fs|
  {
    if fs == [] then Verdict(true, bug)
    else
      var c := CallFilter(fs[0], bug);
      if c.Returned? && c.truthy then Verdict(false, c.bug) else FilterBug(c.bug, fs[1..])
  }

  /** The bugs that survive, in input order. */
  function Filtered(bugs: seq<Bug>, fs: seq<FilterName>): seq<Bug>
    decreases |bugs|
  {
    if bugs == [] then []
    else
      var v := FilterBug(bugs[0], fs);
      (if v.keep then [v.bug] else []) + Filtered(bugs[1..], fs)
  }

  lemma {:induction false} FilteredSnoc(bugs: seq<Bug>, b: Bug, fs: seq<FilterName>)
    ensures Filtered(bugs + [b], fs) ==
      Filtered(bugs, fs) + (if FilterBug(b, fs).keep then [FilterBug(b, fs).bug] else [])
    decreases |bugs|
  {
    if bugs == [] {
      assert [b][1..] == [];
    } else {
      assert (bugs + [b])[1..] == bugs[1..] + [b];
      FilteredSnoc(bugs[1..], b, fs);
    }
  }

  /** The Python list the filters work on. */
  class BugList {
    var items: seq<Bug>

    constructor (items: seq<Bug>)
      ensures this.items == items
    {
      this.items := items;
    }
  }

  /**
   * `applyFilters`: pops every bug off the front of `bugList` and keeps it
   * unless a filter returns something truthy; a filter that throws counts
   * as "real bug" and the next filter runs.
   */
  method ApplyFilters(bugList: BugList, filterList: seq<FilterName>) returns (modified: seq<Bug>)
    modifies bugList
    ensures bugList.items == []
    ensures modified == Filtered(old(bugList.items), filterList)
  {
    modified := [];
    ghost var done: seq<Bug> := [];
    while bugList.items != []
      invariant old(bugList.items) == done + bugList.items
      invariant modified == Filtered(done, filterList)
      decreases |bugList.items|
    {
      var bug := bugList.items[0];
      bugList.items := bugList.items[1..];
      var isFalseAlarm, after := RunFilters(bug, filterList);
      if !isFalseAlarm {
        modified := modified + [after];
      }
      FilteredSnoc(done, bug, filterList);
      done := done + [bug];
    }
    assert done == old(bugList.items);
  }

  /**
   * The inner loop of `applyFilters` for one bug: the filters in order
   * until one returns something truthy; `after` is the bug as they left it.
   */
  method RunFilters(bug: Bug, filterList: seq<FilterName>) returns (isFalseAlarm: bool, after: Bug)
    ensures Verdict(!isFalseAlarm, after) == FilterBug(bug, filterList)
  {
    after := bug;
    isFalseAlarm := false;
    var i := 0;
    while i < |filterList|
      invariant 0 <= i <= |filterList|
      invariant FilterBug(bug, filterList) == FilterBug(after, filterList[i..])
    {
      assert filterList[i..][1..] == filterList[i + 1..];
      var c := CallFilter(filterList[i], after);
      after := c.bug;
      if c.Returned? && c.truthy {
        isFalseAlarm := true;
        return;
      }
      // a filter that threw leaves the bug counted as real
      isFalseAlarm := false;
      i := i + 1;
    }
  }

  /** A bug is kept iff no filter fires on it. */
  lemma {:induction false} KeptIffNoneFires(bug: Bug, fs: seq<FilterName>)
    ensures FilterBug(bug, fs).keep <==> forall i :: 0 <= i < |fs| ==> !Fires(fs[i], bug)
    decreases |fs|
  {
    if fs != [] {
      var c := CallFilter(fs[0], bug);
      FilterEffect(fs[0], bug);
      KeptIffNoneFires(c.bug, fs[1..]);
      forall i | 1 <= i < |fs|
        ensures Fires(fs[i], c.bug) <==> Fires(fs[i], bug)
      {
        if c.bug != bug {
          FiresIgnoresSeverity(fs[i], bug, Some("WARNING"));
        }
      }
      assert forall i :: 0 <= i < |fs[1..]| ==> fs[1..][i] == fs[i + 1];
    }
  }

  /** A bug the filters keep is the input bug, with the dead-store rewrite if that filter ran. */
  lemma {:induction false} KeptBugIsRewritten(bug: Bug, fs: seq<FilterName>)
    requires FilterBug(bug, fs).keep
    ensures FilterBug(bug, fs).bug ==
      if DeadStore in fs && bug.bugType == Some("DEAD_STORE") then bug.(severity := Some("WARNING")) else bug
    decreases |fs|
  {
    if fs != [] {
      var c := CallFilter(fs[0], bug);
      FilterEffect(fs[0], bug);
      KeptBugIsRewritten(c.bug, fs[1..]);
      assert DeadStore in fs <==> fs[0] == DeadStore || DeadStore in fs[1..];
    }
  }

  /** `a` is `b` with some items left out, in order. */
  predicate IsSubsequence(a: seq<Bug>, b: seq<Bug>)
    decreases |b|
  {
    if a == [] then true
    else if b == [] then false
    else (a[0] == b[0] && IsSubsequence(a[1..], b[1..])) || IsSubsequence(a, b[1..])
  }

  /** Each input bug as the filters leave it. */
  function Processed(bugs: seq<Bug>, fs: seq<FilterName>): (r: seq<Bug>)
    ensures |r| == |bugs|
    ensures forall i :: 0 <= i < |bugs| ==> r[i] == FilterBug(bugs[i], fs).bug
  {
    seq(|bugs|, i requires 0 <= i < |bugs| => FilterBug(bugs[i], fs).bug)
  }

  /** The result is an order-preserving subsequence of the (rewritten) input. */
  lemma {:induction false} FilteredIsSubsequence(bugs: seq<Bug>, fs: seq<FilterName>)
    ensures IsSubsequence(Filtered(bugs, fs), Processed(bugs, fs))
    decreases |bugs|
  {
    if bugs != [] {
      var p := Processed(bugs, fs);
      FilteredIsSubsequence(bugs[1..], fs);
      assert p[1..] == Processed(bugs[1..], fs);
      var rest := Filtered(bugs[1..], fs);
      if FilterBug(bugs[0], fs).keep {
        assert Filtered(bugs, fs) == [p[0]] + rest;
        assert ([p[0]] + rest)[1..] == rest;
      } else {
        assert Filtered(bugs, fs) == rest;
        if rest != [] {
          SubsequenceDropHead(rest, p);
        }
      }
    }
  }

  lemma {:induction false} SubsequenceDropHead(a: seq<Bug>, b: seq<Bug>)
    requires b != [] && IsSubsequence(a, b[1..])
    ensures IsSubsequence(a, b)
  {
  }

  /** With no dead-store filter the bugs are not rewritten, so the result is a subsequence of the input. */
  lemma ProcessedWithoutDeadStore(bugs: seq<Bug>, fs: seq<FilterName>)
    requires DeadStore !in fs
    ensures forall i :: 0 <= i < |bugs| && FilterBug(bugs[i], fs).keep ==> Processed(bugs, fs)[i] == bugs[i]
  {
    forall i | 0 <= i < |bugs| && FilterBug(bugs[i], fs).keep
      ensures Processed(bugs, fs)[i] == bugs[i]
    {
      KeptBugIsRewritten(bugs[i], fs);
    }
  }

  // ---------------------------------------------------- filter selection

  /** The option `filter-infer.py` tests to disable the bi-abduction filter (sic). */
  const NO_BIABDUCTION_AS_WRITTEN := "--no-biadbuction"
  /** The option the infer plugin passes for it. */
  const NO_BIABDUCTION := "--no-biabduction"

  /** The filter selection of `main`; `None` means `--only-transform` (no filtering at all). */
  function SelectFiltersBy(argv: seq<string>, noBiabduction: string): Option<seq<FilterName>> {
    if "--only-transform" in argv then None
    else Some((if noBiabduction in argv then [] else [Biabduction]) +
              (if "--no-inferbo" in argv then [] else [Inferbo]) +
              (if "--no-uninit" in argv then [] else [Uninit]) +
              (if "--no-dead-store" in argv then [] else [DeadStore]))
  }

  /** The selection as written. */
  function SelectFiltersAsWritten(argv: seq<string>): Option<seq<FilterName>> {
    SelectFiltersBy(argv, NO_BIABDUCTION_AS_WRITTEN)
  }

  /** The selection with the option spelled as the plugin spells it. */
  function SelectFilters(argv: seq<string>): Option<seq<FilterName>> {
    SelectFiltersBy(argv, NO_BIABDUCTION)
  }

  /** As written, the plugin's `--no-biabduction` leaves the bi-abduction filter on. */
  lemma PluginCannotDisableBiabductionAsWritten()
    ensures SelectFiltersAsWritten([NO_BIABDUCTION]) == Some([Biabduction, Inferbo, Uninit, DeadStore])
  {
    assert [Biabduction] + [Inferbo] + [Uninit] + [DeadStore] == [Biabduction, Inferbo, Uninit, DeadStore];
    assert NO_BIABDUCTION_AS_WRITTEN != NO_BIABDUCTION by {
      assert NO_BIABDUCTION_AS_WRITTEN[8] != NO_BIABDUCTION[8];
    }
    assert "--only-transform" != NO_BIABDUCTION by {
      assert "--only-transform"[2] != NO_BIABDUCTION[2];
    }
    assert "--no-inferbo" != NO_BIABDUCTION by {
      assert "--no-inferbo"[5] != NO_BIABDUCTION[5];
    }
    assert "--no-uninit" != NO_BIABDUCTION by {
      assert "--no-uninit"[5] != NO_BIABDUCTION[5];
    }
    assert "--no-dead-store" != NO_BIABDUCTION by {
      assert "--no-dead-store"[5] != NO_BIABDUCTION[5];
    }
  }

  /**
   * Whatever option disables bi-abduction: no filters for `--only-transform`,
   * otherwise the fixed order with exactly the disabled ones left out. The
   * script as written is the case `noBiabduction == NO_BIABDUCTION_AS_WRITTEN`,
   * the corrected one `noBiabduction == NO_BIABDUCTION`.
   */
  lemma SelectFiltersSpec(argv: seq<string>, noBiabduction: string)
    ensures var s := SelectFiltersBy(argv, noBiabduction);
      && (s.None? <==> "--only-transform" in argv)
      && (s.Some? ==>
            (Biabduction in s.value <==> noBiabduction !in argv) &&
            (Inferbo in s.value <==> "--no-inferbo" !in argv) &&
            (Uninit in s.value <==> "--no-uninit" !in argv) &&
            (DeadStore in s.value <==> "--no-dead-store" !in argv))
      && (s.Some? ==> InFilterOrder(s.value))
  {
  }

  /**
   * The script as written and the corrected one select the same filters
   * exactly when no filtering happens or the argument list holds both
   * spellings or neither; so as written only `--no-biadbuction` disables
   * bi-abduction, and `--no-biabduction` never does.
   */
  lemma {:induction false} AsWrittenDiffersOnlyBySpelling(argv: seq<string>)
    ensures SelectFiltersAsWritten(argv) == SelectFilters(argv) <==>
      ("--only-transform" in argv || (NO_BIABDUCTION_AS_WRITTEN in argv <==> NO_BIABDUCTION in argv))
  {
    SelectFiltersSpec(argv, NO_BIABDUCTION_AS_WRITTEN);
    SelectFiltersSpec(argv, NO_BIABDUCTION);
  }

  /** The position of a filter in the order `main` builds the list. */
  function Position(f: FilterName): int {
    match f
    case Biabduction => 0
    case Inferbo => 1
    case Uninit => 2
    case DeadStore => 3
  }

  /** Bi-abduction, inferbo, uninit, dead-store, each at most once. */
  predicate InFilterOrder(fs: seq<FilterName>) {
    forall i, j :: 0 <= i < j < |fs| ==> Position(fs[i]) < Position(fs[j])
  }

  // ---------------------------------------------------------------- report

  // The report is modelled as the sequence of `print` calls the script
  // makes; `Render` gives the text of each, which is followed by a newline
  // on stdout.

  /** One `print` call of the report. */
  datatype Line =
    | Header
    | Note(file: string, line: int, column: int, description: string)
    | Final(file: string, line: int, column: int, severity: string, bugType: string, qualifier: string)
    | Blank

  /** `%s` of a number. */
  function Num(i: int): string {
    IntToString(i)
  }

  const HEADER := "Error: INFER_WARNING:"

  /** The text printed for a line. */
  function Render(l: Line): string {
    match l
    case Header => HEADER
    case Note(f, n, c, d) => f + ":" + Num(n) + ":" + Num(c) + ": note: " + d
    case Final(f, n, c, sev, t, q) => f + ":" + Num(n) + ":" + Num(c) + ": " + Lower(sev) + "[" + t + "]: " + q
    case Blank => ""
  }

  /**
   * A bug line reads `file:line:col: ` followed by the lower-cased severity
   * and ends with `[type]: qualifier`.
   */
  lemma FinalRender(f: string, n: int, c: int, sev: string, t: string, q: string)
    ensures var r := Render(Final(f, n, c, sev, t, q));
      var head := f + ":" + Num(n) + ":" + Num(c) + ": ";
      StartsWith(r, head) && OccursAt(r, Lower(sev), |head|) && EndsWith(r, "[" + t + "]: " + q)
  {
    var head := f + ":" + Num(n) + ":" + Num(c) + ": ";
    var tail := "[" + t + "]: " + q;
    var r := Render(Final(f, n, c, sev, t, q));
    assert r == head + Lower(sev) + tail;
    assert r[..|head|] == head;
    assert r[|head|..|head| + |Lower(sev)|] == Lower(sev);
    assert r[|r| - |tail|..] == tail;
  }

  /** The note line of a trace step, or `None` if a key is missing. */
  function NoteLine(t: TraceStep): (r: Option<Line>)
    ensures r.Some? <==> t.filename.Some? && t.lineNumber.Some? && t.columnNumber.Some? && t.description.Some?
  {
    if t.filename.Some? && t.lineNumber.Some? && t.columnNumber.Some? && t.description.Some? then
      Some(Note(t.filename.value, t.lineNumber.value, t.columnNumber.value, t.description.value))
    else None
  }

  /** What was printed, and whether printing got to the end (a missing key throws). */
  datatype Printed = Printed(lines: seq<Line>, complete: bool)

  function Prepend(ls: seq<Line>, p: Printed): Printed {
    Printed(ls + p.lines, p.complete)
  }

  /** The note lines of a trace, up to the first step with a missing key. */
  function NoteLines(steps: seq<TraceStep>): (r: Printed)
    ensures r.complete ==> |r.lines| == |steps|
    ensures forall i :: 0 <= i < |r.lines| ==> r.lines[i].Note?
    decreases |steps|
  {
    if steps == [] then Printed([], true)
    else
      match NoteLine(steps[0])
      case None => Printed([], false)
      case Some(l) => Prepend([l], NoteLines(steps[1..]))
  }

  /** The closing `file:line:col: severity[type]: qualifier` line. */
  function BugLine(bug: Bug): Option<Line> {
    if bug.file.Some? && bug.line.Some? && bug.column.Some? && bug.severity.Some? &&
       bug.bugType.Some? && bug.qualifier.Some? then
      Some(Final(bug.file.value, bug.line.value, bug.column.value, bug.severity.value,
                 bug.bugType.value, bug.qualifier.value))
    else None
  }

  /** The lines printed for one bug: the header, a note per trace step, the bug line. */
  function Block(bug: Bug): (r: Printed)
    ensures r.lines != [] && r.lines[0] == Header
    ensures bug.bugTrace.Some? && r.complete ==> |r.lines| == |bug.bugTrace.value| + 2
  {
    match bug.bugTrace
    case None => Printed([Header], false)
    case Some(steps) =>
      var notes := NoteLines(steps);
      if !notes.complete then Printed([Header] + notes.lines, false)
      else
        match BugLine(bug)
        case None => Printed([Header] + notes.lines, false)
        case Some(l) => Printed([Header] + notes.lines + [l], true)
  }

  predicate Complete(bug: Bug) {
    Block(bug).complete
  }

  /** The printing loop of `main`, from the bug it starts with; `first` is its `firstBug` flag. */
  function Report(bugs: seq<Bug>, first: bool): Printed
    decreases |bugs|
  {
    if bugs == [] then Printed([], true)
    else
      var sep := if first then [] else [Blank];
      var b := Block(bugs[0]);
      if !b.complete then Printed(sep + b.lines, false)
      else Prepend(sep + b.lines, Report(bugs[1..], false))
  }

  /**
   * The report printing of `main`: the lines printed, and whether a missing
   * key stopped the script.
   */
  method PrintReport(bugs: seq<Bug>) returns (out: seq<Line>, crashed: bool)
    ensures Printed(out, !crashed) == Report(bugs, true)
  {
    out := [];
    crashed := false;
    var firstBug := true;
    for j := 0 to |bugs|
      invariant firstBug <==> j == 0
      invariant Report(bugs, true) == Prepend(out, Report(bugs[j..], firstBug))
    {
      var bug := bugs[j];
      assert bugs[j..][1..] == bugs[j + 1..];
      if !firstBug {
        out := out + [Blank];
      }
      var printed := Block(bug);
      out := out + printed.lines;
      if !printed.complete {
        crashed := true;
        return;
      }
      firstBug := false;
    }
  }

  /** `bugs` are all printable. */
  predicate AllComplete(bugs: seq<Bug>) {
    forall i :: 0 <= i < |bugs| ==> Complete(bugs[i])
  }

  /** The blocks joined by one empty line each, none before the first. */
  function JoinBlocks(blocks: seq<seq<Line>>): seq<Line>
    decreases |blocks|
  {
    if blocks == [] then []
    else if |blocks| == 1 then blocks[0]
    else blocks[0] + [Blank] + JoinBlocks(blocks[1..])
  }

  function Blocks(bugs: seq<Bug>): (r: seq<seq<Line>>)
    ensures |r| == |bugs|
    decreases |bugs|
  {
    if bugs == [] then [] else [Block(bugs[0]).lines] + Blocks(bugs[1..])
  }

  /**
   * With every bug printable the report is the blocks joined by one empty
   * line, with none before the first; it is complete exactly then.
   */
  lemma ReportIsJoin(bugs: seq<Bug>)
    ensures Report(bugs, true).complete <==> AllComplete(bugs)
    ensures AllComplete(bugs) ==> Report(bugs, true).lines == JoinBlocks(Blocks(bugs))
  {
    ReportCompleteIff(bugs);
    if AllComplete(bugs) {
      ReportLinesJoin(bugs);
    }
  }

  lemma AllCompleteCons(bugs: seq<Bug>)
    requires bugs != []
    ensures AllComplete(bugs) <==> Complete(bugs[0]) && AllComplete(bugs[1..])
  {
    assert forall i :: 1 <= i < |bugs| ==> bugs[i] == bugs[1..][i - 1];
  }

  lemma {:induction false} ReportCompleteIff(bugs: seq<Bug>)
    ensures Report(bugs, true).complete <==> AllComplete(bugs)
    decreases |bugs|
  {
    if bugs != [] {
      ReportAfterFirst(bugs[1..]);
      ReportCompleteIff(bugs[1..]);
      AllCompleteCons(bugs);
    }
  }

  lemma {:induction false} ReportLinesJoin(bugs: seq<Bug>)
    requires AllComplete(bugs)
    ensures Report(bugs, true).lines == JoinBlocks(Blocks(bugs))
    decreases |bugs|
  {
    if bugs != [] {
      AllCompleteCons(bugs);
      ReportAfterFirst(bugs[1..]);
      ReportLinesJoin(bugs[1..]);
      if |bugs| > 1 {
        var b := Block(bugs[0]).lines;
        assert Blocks(bugs) == [b] + Blocks(bugs[1..]);
        assert Blocks(bugs)[1..] == Blocks(bugs[1..]);
        assert Report(bugs, true).lines == b + ([Blank] + JoinBlocks(Blocks(bugs[1..])));
      }
    }
  }

  /** Later bugs get the empty separator line in front. */
  lemma ReportAfterFirst(bugs: seq<Bug>)
    ensures Report(bugs, false) == Prepend(if bugs == [] then [] else [Blank], Report(bugs, true))
  {
  }

  /**
   * `main` with `noBiabduction` as the option that disables bi-abduction:
   * filtering unless `--only-transform`, then the report.
   */
  method FilterAndReportBy(argv: seq<string>, noBiabduction: string, bugList: BugList)
    returns (out: seq<Line>, crashed: bool)
    modifies bugList
    ensures var fs := SelectFiltersBy(argv, noBiabduction);
      var kept := if fs.None? then old(bugList.items) else Filtered(old(bugList.items), fs.value);
      Printed(out, !crashed) == Report(kept, true)
  {
    var bugs := bugList.items;
    var fs := SelectFiltersBy(argv, noBiabduction);
    if fs.Some? {
      bugs := ApplyFilters(bugList, fs.value);
    }
    out, crashed := PrintReport(bugs);
  }

  /** The whole script as written, testing `--no-biadbuction`. */
  method FilterAndReport(argv: seq<string>, bugList: BugList) returns (out: seq<Line>, crashed: bool)
    modifies bugList
    ensures var fs := SelectFiltersAsWritten(argv);
      var kept := if fs.None? then old(bugList.items) else Filtered(old(bugList.items), fs.value);
      Printed(out, !crashed) == Report(kept, true)
  {
    out, crashed := FilterAndReportBy(argv, NO_BIABDUCTION_AS_WRITTEN, bugList);
  }

  /** The whole script with the option spelled as the plugin passes it. */
  method FilterAndReportCorrected(argv: seq<string>, bugList: BugList) returns (out: seq<Line>, crashed: bool)
    modifies bugList
    ensures var fs := SelectFilters(argv);
      var kept := if fs.None? then old(bugList.items) else Filtered(old(bugList.items), fs.value);
      Printed(out, !crashed) == Report(kept, true)
  {
    out, crashed := FilterAndReportBy(argv, NO_BIABDUCTION, bugList);
  }
}
