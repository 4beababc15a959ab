/**
 * What the csexec-based dynamic analyzers (valgrind, strace, cbmc, divine,
 * symbiotic) have in common: a wrapper command line handed to csexec
 * through `CSEXEC_WRAP_CMD`, serialised with the two-character separator
 * backslash-`a`, under the assertion that no other analyzer set it first.
 */
module Csexec {
  import opened Strings
  import opened Props
  import opened CFlags

  /** The separator: a backslash followed by the letter `a` (two characters). */
  const WRAP_SEP := "\\a"

  /** The failed `assert "CSEXEC_WRAP_CMD" not in props.env`. */
  const WRAP_CMD_ASSERT := "\"CSEXEC_WRAP_CMD\" not in props.env"

  /** `serialize_flags(wrap_cmd_list, separator="\\a")`. */
  function WrapCmd(wrapCmdList: seq<string>): string {
    Serialized(wrapCmdList, WRAP_SEP)
  }

  /** `wrap_cmd_list[-1] += " " + " ".join(add_flags)`. */
  function WithAddFlags(wrapCmdList: seq<string>, addFlags: seq<string>): (r: seq<string>)
    requires wrapCmdList != []
    ensures |r| == |wrapCmdList|
    ensures r[..|r| - 1] == wrapCmdList[..|wrapCmdList| - 1]
    ensures r[|r| - 1] == wrapCmdList[|wrapCmdList| - 1] + " " + Join(addFlags, " ")
  {
    wrapCmdList[..|wrapCmdList| - 1] + [wrapCmdList[|wrapCmdList| - 1] + " " + Join(addFlags, " ")]
  }

  /** The environment once the wrapper is set, if the assertion holds. */
  function WrapEnv(env: map<string, string>, wrapCmdList: seq<string>): map<string, string> {
    env[CSEXEC_WRAP_CMD := WrapCmd(wrapCmdList)]
  }

  /**
   * The assertion, then `props.env["CSEXEC_WRAP_CMD"] = wrap_cmd`: a failed
   * assertion leaves the environment as it was.
   */
  method SetWrapCmd(props: ScanProps, wrapCmdList: seq<string>) returns (o: Outcome)
    modifies props`env
    ensures o == (if CSEXEC_WRAP_CMD in old(props.env) then AssertFailed(WRAP_CMD_ASSERT) else Ok)
    ensures props.env == (if o.Ok? then WrapEnv(old(props.env), wrapCmdList) else old(props.env))
  {
    if CSEXEC_WRAP_CMD in props.env {
      return AssertFailed(WRAP_CMD_ASSERT);
    }
    var wrapCmd := SerializeFlags(wrapCmdList, WRAP_SEP);
    props.env := props.env[CSEXEC_WRAP_CMD := wrapCmd];
    o := Ok;
  }

  /**
   * csexec gets the list back by splitting at the separator, as long as no
   * entry contains it and the first entry is not empty.
   */
  lemma WrapCmdSplitsBack(wrapCmdList: seq<string>)
    requires wrapCmdList != [] && wrapCmdList[0] != ""
    requires forall i :: 0 <= i < |wrapCmdList| ==> NoSepInside(wrapCmdList[i], WRAP_SEP)
    ensures Split(WrapCmd(wrapCmdList), WRAP_SEP) == wrapCmdList
  {
    SerializedSplitsBack(wrapCmdList, WRAP_SEP);
  }

  /** With a non-empty first entry nothing is dropped: the entries joined by the separator. */
  lemma WrapCmdIsJoin(wrapCmdList: seq<string>)
    requires wrapCmdList != [] && wrapCmdList[0] != ""
    ensures WrapCmd(wrapCmdList) == Join(wrapCmdList, WRAP_SEP)
  {
  }

  /** A string without a backslash cannot hold the separator. */
  lemma NoBackslashNoSep(x: string)
    requires '\\' !in x
    ensures NoSepInside(x, WRAP_SEP)
  {
    NoLeadCharNoSep(x, WRAP_SEP);
  }

  /**
   * A fixed command line without backslashes, followed by custom flags
   * that do not hold the separator, has no entry that holds it.
   */
  lemma FixedThenFlagsHaveNoSep(fixed: seq<string>, flags: seq<string>)
    requires forall i :: 0 <= i < |fixed| ==> '\\' !in fixed[i]
    requires forall i :: 0 <= i < |flags| ==> NoSepInside(flags[i], WRAP_SEP)
    ensures forall i :: 0 <= i < |fixed + flags| ==> NoSepInside((fixed + flags)[i], WRAP_SEP)
  {
    forall i | 0 <= i < |fixed + flags|
      ensures NoSepInside((fixed + flags)[i], WRAP_SEP)
    {
      if i < |fixed| {
        NoBackslashNoSep(fixed[i]);
      } else {
        assert (fixed + flags)[i] == flags[i - |fixed|];
      }
    }
  }

  /**
   * The list with custom flags on its last entry has no entry holding the
   * separator, when neither the list nor the custom flags hold a backslash.
   */
  lemma WithAddFlagsHasNoSep(wrapCmdList: seq<string>, addFlags: seq<string>)
    requires wrapCmdList != []
    requires forall i :: 0 <= i < |wrapCmdList| ==> '\\' !in wrapCmdList[i]
    requires forall i :: 0 <= i < |addFlags| ==> '\\' !in addFlags[i]
    ensures forall i :: 0 <= i < |WithAddFlags(wrapCmdList, addFlags)| ==> NoSepInside(WithAddFlags(wrapCmdList, addFlags)[i], WRAP_SEP)
  {
    var r := WithAddFlags(wrapCmdList, addFlags);
    JoinExcludes('\\', addFlags, " ");
    forall i | 0 <= i < |r|
      ensures NoSepInside(r[i], WRAP_SEP)
    {
      if i < |r| - 1 {
        assert r[i] == r[..|r| - 1][i];
      }
      NoBackslashNoSep(r[i]);
    }
  }

  // ------------------------------------- compiler flags of the model checkers

  /** Makes every binary built start through csexec's loader. */
  const LOADER_FLAG := "-Wl,--dynamic-linker,/usr/bin/csexec-loader"

  /** The optimisation levels cbmc, divine and symbiotic drop. */
  const OPT_LEVEL_FLAGS := ["-O1", "-O2", "-O3", "-Os", "-Ofast", "-Og"]

  /** `append_flags(add)` then `remove_flags(del)` on a matrix. */
  function Retuned(m: Matrix, add: seq<string>, del: seq<string>): Matrix {
    Matrix(m.addC + add, m.delC + del, m.addCxx + add, m.delCxx + del)
  }

  /**
   * `self.flags.append_flags(add)`, `self.flags.remove_flags(del)`,
   * `self.flags.write_to_env(props.env)`.
   */
  method WriteCompilerFlags(flags: FlagsMatrix, props: ScanProps, add: seq<string>, del: seq<string>)
    modifies flags, props`env
    ensures flags.Value() == Retuned(old(flags.Value()), add, del)
    ensures props.env == EnvWithFlags(old(props.env), flags.Value())
  {
    flags.AppendFlags(add);
    flags.RemoveFlags(del);
    props.env := flags.WriteToEnv(props.env);
  }

  /** Writing the flags keeps the wrapper: its key is not a flags key. */
  lemma FlagsKeepWrapper(env: map<string, string>, wrapCmdList: seq<string>, m: Matrix)
    ensures CSEXEC_WRAP_CMD in EnvWithFlags(WrapEnv(env, wrapCmdList), m)
    ensures EnvWithFlags(WrapEnv(env, wrapCmdList), m)[CSEXEC_WRAP_CMD] == WrapCmd(wrapCmdList)
  {
    EnvWithFlagsKeys(WrapEnv(env, wrapCmdList), m);
  }

  /**
   * The environment a model checker leaves: its compilers, the wrapper and
   * the four serialised flag lists, every other variable as it was.
   */
  lemma CompilerEnv(env: map<string, string>, cc: string, cxx: string, wrapCmdList: seq<string>, m: Matrix)
    ensures var r := EnvWithFlags(WrapEnv(env["CC" := cc]["CXX" := cxx], wrapCmdList), m);
      && r["CC"] == cc && r["CXX"] == cxx
      && r[CSEXEC_WRAP_CMD] == WrapCmd(wrapCmdList)
      && r[CSWRAP_ADD_CFLAGS] == Serialized(m.addC, ":")
      && r[CSWRAP_DEL_CFLAGS] == Serialized(m.delC, ":")
      && r[CSWRAP_ADD_CXXFLAGS] == Serialized(m.addCxx, ":")
      && r[CSWRAP_DEL_CXXFLAGS] == Serialized(m.delCxx, ":")
      && (forall k :: k in env && k !in {"CC", "CXX", CSEXEC_WRAP_CMD} && !IsFlagsKey(k) ==> r[k] == env[k])
  {
    EnvWithFlagsKeys(WrapEnv(env["CC" := cc]["CXX" := cxx], wrapCmdList), m);
  }

  /** The variables set by a model checker are added to those already there. */
  lemma CompilerEnvKeys(env: map<string, string>, cc: string, cxx: string, wrapCmdList: seq<string>, m: Matrix)
    ensures EnvWithFlags(WrapEnv(env["CC" := cc]["CXX" := cxx], wrapCmdList), m).Keys ==
      env.Keys + {"CC", "CXX", CSEXEC_WRAP_CMD, CSWRAP_ADD_CFLAGS, CSWRAP_DEL_CFLAGS, CSWRAP_ADD_CXXFLAGS, CSWRAP_DEL_CXXFLAGS}
  {
    EnvWithFlagsKeys(WrapEnv(env["CC" := cc]["CXX" := cxx], wrapCmdList), m);
  }

  /** Setting the wrapper touches that one key of the environment. */
  lemma WrapEnvKeys(env: map<string, string>, wrapCmdList: seq<string>)
    ensures WrapEnv(env, wrapCmdList).Keys == env.Keys + {CSEXEC_WRAP_CMD}
    ensures WrapEnv(env, wrapCmdList)[CSEXEC_WRAP_CMD] == WrapCmd(wrapCmdList)
    ensures forall k :: k in env && k != CSEXEC_WRAP_CMD ==> WrapEnv(env, wrapCmdList)[k] == env[k]
  {
  }
}
