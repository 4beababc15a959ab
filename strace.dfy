/**
 * The strace plug-in (`py/plugins/strace.py`): strace as csexec's
 * execution wrapper, recording the system calls of the binaries run in
 * `%check`. It has no post-processing hook: the traces are only copied out.
 */
module Strace {
  import opened Strings
  import opened Props
  import opened CFlags
  import opened Csexec
  import Util

  const STRACE_CAPTURE_DIR := "/builddir/strace-capture"

  /** Lower than the GCC plug-in's, so that `enable_csexec` works. */
  const PASS_PRIORITY := 0x02

  /** The plug-in is marked experimental. */
  const EXPERIMENTAL := true

  /** The default strace command line, then `--strace-add-flag` in order. */
  function WrapCmdList(addFlags: seq<string>): seq<string> {
    ["strace",
     "--output=" + STRACE_CAPTURE_DIR + "/trace",
     "--output-separately"] + addFlags
  }

  /** Up to the assertion: the package, the hooks before the build, csexec on. */
  function Prepared(p: PropsState): PropsState {
    p.(installPkgs := p.installPkgs + ["strace"],
       postDepinstHooks := p.postDepinstHooks + [ToolverHook("strace", Lower("strace")), CreateCapDirHook(STRACE_CAPTURE_DIR)],
       csexecEnabled := true)
  }

  /** After the wrapper: `%check` and the capture. */
  function Collected(p: PropsState): PropsState {
    p.(runCheck := true,
       copyOutFiles := p.copyOutFiles + [STRACE_CAPTURE_DIR])
  }

  function Finished(p: PropsState, addFlags: seq<string>): PropsState {
    Collected(p.(env := WrapEnv(p.env, WrapCmdList(addFlags))))
  }

  /** How `handle_args` ends, and the configuration it leaves. */
  datatype Effect = Effect(o: Outcome, p: PropsState)

  function HandleArgsSpec(enabled: bool, addFlags: seq<string>, p: PropsState): Effect {
    if !enabled then Effect(Ok, p)
    else
      var q := Prepared(p);
      if CSEXEC_WRAP_CMD in q.env then Effect(AssertFailed(WRAP_CMD_ASSERT), q)
      else Effect(Ok, Finished(q, addFlags))
  }

  class Plugin {
    var enabled: bool

    constructor ()
      ensures !enabled
    {
      enabled := false;
    }

    method Enable()
      modifies this
      ensures enabled
    {
      enabled := true;
    }

    /** `handle_args`, with `--strace-add-flag` as `addFlags`. */
    method HandleArgs(addFlags: seq<string>, props: ScanProps) returns (o: Outcome)
      modifies props
      ensures Effect(o, props.State()) == HandleArgsSpec(enabled, addFlags, old(props.State()))
    {
      if !enabled {
        return Ok;
      }
      Prepare(props);
      var wrapCmdList := ["strace",
                          "--output=" + STRACE_CAPTURE_DIR + "/trace",
                          "--output-separately"];
      wrapCmdList := wrapCmdList + addFlags;
      o := Finish(props, wrapCmdList, addFlags);
    }

    method Prepare(props: ScanProps)
      modifies props`installPkgs, props`postDepinstHooks, props`csexecEnabled
      ensures props.State() == Prepared(old(props.State()))
    {
      props.installPkgs := props.installPkgs + ["strace"];
      Util.InstallDefaultToolverHook(props, "strace");
      props.EnableCsexec();
      props.postDepinstHooks := props.postDepinstHooks + [CreateCapDirHook(STRACE_CAPTURE_DIR)];
    }

    method Finish(props: ScanProps, wrapCmdList: seq<string>, addFlags: seq<string>) returns (o: Outcome)
      requires wrapCmdList == WrapCmdList(addFlags)
      modifies props`env, props`runCheck, props`copyOutFiles
      ensures o == (if CSEXEC_WRAP_CMD in old(props.env) then AssertFailed(WRAP_CMD_ASSERT) else Ok)
      ensures props.State() == (if o.Ok? then Finished(old(props.State()), addFlags) else old(props.State()))
    {
      o := SetWrapCmd(props, wrapCmdList);
      if o.AssertFailed? {
        return;
      }
      Collect(props);
    }

    method Collect(props: ScanProps)
      modifies props`runCheck, props`copyOutFiles
      ensures props.State() == Collected(old(props.State()))
    {
      props.runCheck := true;
      props.copyOutFiles := props.copyOutFiles + [STRACE_CAPTURE_DIR];
    }
  }

  // ------------------------------------------------------------ properties

  /** A plug-in that is not enabled changes nothing. */
  lemma DisabledChangesNothing(addFlags: seq<string>, p: PropsState)
    ensures HandleArgsSpec(false, addFlags, p) == Effect(Ok, p)
  {
  }

  /**
   * The assertion fails exactly when another analyzer already set the
   * wrapper; what happened before it is kept, and the wrapper is not touched.
   */
  lemma AssertionFailsOnSecondAnalyzer(addFlags: seq<string>, p: PropsState)
    ensures var e := HandleArgsSpec(true, addFlags, p);
      && (e.o.AssertFailed? <==> CSEXEC_WRAP_CMD in p.env)
      && (e.o.AssertFailed? ==> e.p == Prepared(p) && e.p.env == p.env)
      && (e.o.Ok? || e.o.AssertFailed?)
  {
  }

  /**
   * On success csexec's wrapper is the default command line followed by the
   * custom flags, joined by the separator, and splits back into that list
   * when no custom flag contains the separator.
   */
  lemma WrapperIsCommandLine(addFlags: seq<string>, p: PropsState)
    requires CSEXEC_WRAP_CMD !in p.env
    requires forall i :: 0 <= i < |addFlags| ==> NoSepInside(addFlags[i], WRAP_SEP)
    ensures var e := HandleArgsSpec(true, addFlags, p);
      && e.o == Ok
      && e.p.env[CSEXEC_WRAP_CMD] == Join(WrapCmdList(addFlags), WRAP_SEP)
      && Split(e.p.env[CSEXEC_WRAP_CMD], WRAP_SEP) == WrapCmdList(addFlags)
  {
    var l := WrapCmdList(addFlags);
    WrapCmdListHasNoSep(addFlags);
    WrapCmdIsJoin(l);
    WrapCmdSplitsBack(l);
  }

  /** No entry of the command line holds the separator, and the first is `strace`. */
  lemma WrapCmdListHasNoSep(addFlags: seq<string>)
    requires forall i :: 0 <= i < |addFlags| ==> NoSepInside(addFlags[i], WRAP_SEP)
    ensures WrapCmdList(addFlags) != [] && WrapCmdList(addFlags)[0] == "strace"
    ensures forall i :: 0 <= i < |WrapCmdList(addFlags)| ==> NoSepInside(WrapCmdList(addFlags)[i], WRAP_SEP)
  {
    var d := WrapCmdList([]);
    assert WrapCmdList(addFlags) == d + addFlags;
    assert '\\' !in STRACE_CAPTURE_DIR;
    assert '\\' !in d[1];
    FixedThenFlagsHaveNoSep(d, addFlags);
  }

  /**
   * On success: strace installed, `%check` run, the capture directory
   * copied out, the tool-version hook before the capture-directory hook,
   * and no post-processing hook.
   */
  lemma SuccessEffects(addFlags: seq<string>, p: PropsState)
    requires CSEXEC_WRAP_CMD !in p.env
    ensures var e := HandleArgsSpec(true, addFlags, p);
      && e.p.installPkgs == p.installPkgs + ["strace"]
      && e.p.runCheck && e.p.csexecEnabled
      && e.p.copyOutFiles == p.copyOutFiles + [STRACE_CAPTURE_DIR]
      && e.p.postDepinstHooks == p.postDepinstHooks + [ToolverHook("strace", "strace"), CreateCapDirHook(STRACE_CAPTURE_DIR)]
      && e.p.postProcessHooks == p.postProcessHooks
      && e.p.env == p.env[CSEXEC_WRAP_CMD := WrapCmd(WrapCmdList(addFlags))]
  {
    LowerOfLower("strace");
  }
}
