/**
 * Compiler-flag matrix: flags to add and to drop for C and C++, built per
 * GCC warning level and written to the environment read by cswrap
 * (`py/common/cflags.py`).
 */
module CFlags {
  import opened Strings

  // ------------------------------------------------------- serialize_flags

  /** The items of `flags` from the first non-empty one on. */
  function DropLeadingEmpty(flags: seq<string>): (r: seq<string>)
    ensures r == [] || r[0] != ""
    ensures |r| <= |flags|
  {
    if flags == [] then []
    else if flags[0] == "" then DropLeadingEmpty(flags[1..])
    else flags
  }

  lemma {:induction false} DropLeadingEmptySnoc(flags: seq<string>, f: string)
    ensures DropLeadingEmpty(flags + [f]) ==
      if DropLeadingEmpty(flags) == [] then (if f == "" then [] else [f])
      else DropLeadingEmpty(flags) + [f]
  {
    if flags == [] {
      assert [] + [f] == [f];
      assert [f][1..] == [];
    } else {
      assert (flags + [f])[1..] == flags[1..] + [f];
      if flags[0] == "" {
        DropLeadingEmptySnoc(flags[1..], f);
      }
    }
  }

  lemma JoinNonEmpty(xs: seq<string>, sep: string)
    requires xs != [] && xs[0] != ""
    ensures Join(xs, sep) != ""
  {
  }

  /**
   * `serialize_flags`: a separator goes before an item only once the output
   * is non-empty, so leading empty items vanish and the rest is joined.
   */
  method SerializeFlags(flags: seq<string>, separator: string) returns (out: string)
    ensures out == Join(DropLeadingEmpty(flags), separator)
    ensures flags != [] && flags[0] != "" ==> out == Join(flags, separator)
    ensures flags == [] ==> out == ""
  {
    out := "";
    for i := 0 to |flags|
      invariant out == Join(DropLeadingEmpty(flags[..i]), separator)
    {
      var f := flags[i];
      assert flags[..i + 1] == flags[..i] + [f];
      DropLeadingEmptySnoc(flags[..i], f);
      var done := DropLeadingEmpty(flags[..i]);
      if done != [] {
        JoinNonEmpty(done, separator);
        JoinSnoc(done, f, separator);
      }
      if out != "" {
        out := out + separator;
      }
      out := out + f;
    }
    assert flags[..|flags|] == flags;
  }

  /** Spec-level `serialize_flags`, for use in other contracts. */
  function Serialized(flags: seq<string>, separator: string): string {
    Join(DropLeadingEmpty(flags), separator)
  }

  /**
   * A list serialised with a separator that no item lets start early can be
   * split back into the same list (when its first item is non-empty).
   */
  lemma SerializedSplitsBack(flags: seq<string>, separator: string)
    requires separator != "" && flags != [] && flags[0] != ""
    requires forall i :: 0 <= i < |flags| ==> NoSepInside(flags[i], separator)
    ensures Split(Serialized(flags, separator), separator) == flags
  {
    SplitJoin(flags, separator);
  }

  // --------------------------------------------------- custom flag options

  /** The four `--gcc-*-flag` options, each given any number of times. */
  datatype CustomFlagArgs = CustomFlagArgs(
    gccAddFlag: seq<string>,
    gccAddCOnlyFlag: seq<string>,
    gccAddCxxOnlyFlag: seq<string>,
    gccDelFlag: seq<string>)

  /** ` --<opt>='<flag>'` for every flag, in order. */
  function OptionList(opt: string, flags: seq<string>): string {
    if flags == [] then "" else " --" + opt + "='" + flags[0] + "'" + OptionList(opt, flags[1..])
  }

  lemma {:induction false} OptionListSnoc(opt: string, flags: seq<string>, f: string)
    ensures OptionList(opt, flags + [f]) == OptionList(opt, flags) + " --" + opt + "='" + f + "'"
  {
    if flags != [] {
      assert (flags + [f])[1..] == flags[1..] + [f];
      OptionListSnoc(opt, flags[1..], f);
    } else {
      assert [f][1..] == [];
    }
  }

  /** Repeating an option list is the same as passing the flags in one list. */
  lemma {:induction false} OptionListAppend(opt: string, a: seq<string>, b: seq<string>)
    ensures OptionList(opt, a + b) == OptionList(opt, a) + OptionList(opt, b)
  {
    if a != [] {
      assert (a + b)[1..] == a[1..] + b;
      OptionListAppend(opt, a[1..], b);
    } else {
      assert a + b == b;
    }
  }

  method AppendOptions(cmd: string, opt: string, flags: seq<string>) returns (r: string)
    ensures r == cmd + OptionList(opt, flags)
  {
    r := cmd;
    for i := 0 to |flags|
      invariant r == cmd + OptionList(opt, flags[..i])
    {
      assert flags[..i + 1] == flags[..i] + [flags[i]];
      OptionListSnoc(opt, flags[..i], flags[i]);
      r := r + " --" + opt + "='" + flags[i] + "'";
    }
    assert flags[..|flags|] == flags;
  }

  /** `encode_custom_flag_opts`: all add, then C-only, C++-only, then del options. */
  method EncodeCustomFlagOpts(args: CustomFlagArgs) returns (cmd: string)
    ensures cmd == OptionList("gcc-add-flag", args.gccAddFlag)
                 + OptionList("gcc-add-c-only-flag", args.gccAddCOnlyFlag)
                 + OptionList("gcc-add-cxx-only-flag", args.gccAddCxxOnlyFlag)
                 + OptionList("gcc-del-flag", args.gccDelFlag)
  {
    ghost var a := OptionList("gcc-add-flag", args.gccAddFlag);
    ghost var c := OptionList("gcc-add-c-only-flag", args.gccAddCOnlyFlag);
    ghost var x := OptionList("gcc-add-cxx-only-flag", args.gccAddCxxOnlyFlag);
    ghost var d := OptionList("gcc-del-flag", args.gccDelFlag);
    cmd := "";
    cmd := AppendOptions(cmd, "gcc-add-flag", args.gccAddFlag);
    assert cmd == a;
    cmd := AppendOptions(cmd, "gcc-add-c-only-flag", args.gccAddCOnlyFlag);
    assert cmd == a + c;
    cmd := AppendOptions(cmd, "gcc-add-cxx-only-flag", args.gccAddCxxOnlyFlag);
    assert cmd == a + c + x;
    cmd := AppendOptions(cmd, "gcc-del-flag", args.gccDelFlag);
  }

  // ----------------------------------------------------------- FlagsMatrix

  /** The value of a flags matrix. */
  datatype Matrix = Matrix(addC: seq<string>, delC: seq<string>, addCxx: seq<string>, delCxx: seq<string>)

  const CSWRAP_ADD_CFLAGS := "CSWRAP_ADD_CFLAGS"
  const CSWRAP_DEL_CFLAGS := "CSWRAP_DEL_CFLAGS"
  const CSWRAP_ADD_CXXFLAGS := "CSWRAP_ADD_CXXFLAGS"
  const CSWRAP_DEL_CXXFLAGS := "CSWRAP_DEL_CXXFLAGS"

  predicate IsFlagsKey(k: string) {
    k == CSWRAP_ADD_CFLAGS || k == CSWRAP_DEL_CFLAGS || k == CSWRAP_ADD_CXXFLAGS || k == CSWRAP_DEL_CXXFLAGS
  }

  class FlagsMatrix {
    var addCFlags: seq<string>
    var delCFlags: seq<string>
    var addCxxFlags: seq<string>
    var delCxxFlags: seq<string>

    function Value(): Matrix
      reads this
    {
      Matrix(addCFlags, delCFlags, addCxxFlags, delCxxFlags)
    }

    constructor ()
      ensures Value() == Matrix([], [], [], [])
    {
      addCFlags, delCFlags, addCxxFlags, delCxxFlags := [], [], [], [];
    }

    /** Both add lists gain `flags`; the del lists stay as they are. */
    method AppendFlags(flags: seq<string>)
      modifies this
      ensures addCFlags == old(addCFlags) + flags && addCxxFlags == old(addCxxFlags) + flags
      ensures delCFlags == old(delCFlags) && delCxxFlags == old(delCxxFlags)
    {
      addCFlags := addCFlags + flags;
      addCxxFlags := addCxxFlags + flags;
    }

    /** Both del lists gain `flags`; the add lists stay as they are. */
    method RemoveFlags(flags: seq<string>)
      modifies this
      ensures delCFlags == old(delCFlags) + flags && delCxxFlags == old(delCxxFlags) + flags
      ensures addCFlags == old(addCFlags) && addCxxFlags == old(addCxxFlags)
    {
      delCFlags := delCFlags + flags;
      delCxxFlags := delCxxFlags + flags;
    }

    /** Adds the `--gcc-*-flag` options; tells whether any was given. */
    method AppendCustomFlags(args: CustomFlagArgs) returns (any: bool)
      modifies this
      ensures addCFlags == old(addCFlags) + args.gccAddFlag + args.gccAddCOnlyFlag
      ensures addCxxFlags == old(addCxxFlags) + args.gccAddFlag + args.gccAddCxxOnlyFlag
      ensures delCFlags == old(delCFlags) + args.gccDelFlag
      ensures delCxxFlags == old(delCxxFlags) + args.gccDelFlag
      ensures any <==> args.gccAddFlag != [] || args.gccAddCOnlyFlag != [] ||
                       args.gccAddCxxOnlyFlag != [] || args.gccDelFlag != []
    {
      addCFlags := addCFlags + args.gccAddFlag;
      addCFlags := addCFlags + args.gccAddCOnlyFlag;
      addCxxFlags := addCxxFlags + args.gccAddFlag;
      addCxxFlags := addCxxFlags + args.gccAddCxxOnlyFlag;
      delCFlags := delCFlags + args.gccDelFlag;
      delCxxFlags := delCxxFlags + args.gccDelFlag;
      any := 0 < |args.gccAddFlag| || 0 < |args.gccAddCOnlyFlag| ||
             0 < |args.gccAddCxxOnlyFlag| || 0 < |args.gccDelFlag|;
    }

    /** `write_to_env`, on a copy of the dictionary. */
    method WriteToEnv(env: map<string, string>) returns (env': map<string, string>)
      ensures env' == EnvWithFlags(env, Value())
    {
      env' := env;
      var v := SerializeFlags(addCFlags, ":");
      env' := env'[CSWRAP_ADD_CFLAGS := v];
      v := SerializeFlags(delCFlags, ":");
      env' := env'[CSWRAP_DEL_CFLAGS := v];
      v := SerializeFlags(addCxxFlags, ":");
      env' := env'[CSWRAP_ADD_CXXFLAGS := v];
      v := SerializeFlags(delCxxFlags, ":");
      env' := env'[CSWRAP_DEL_CXXFLAGS := v];
    }
  }

  /** The environment `write_to_env` produces from a matrix value. */
  function EnvWithFlags(env: map<string, string>, m: Matrix): map<string, string> {
    env[CSWRAP_ADD_CFLAGS := Serialized(m.addC, ":")]
       [CSWRAP_DEL_CFLAGS := Serialized(m.delC, ":")]
       [CSWRAP_ADD_CXXFLAGS := Serialized(m.addCxx, ":")]
       [CSWRAP_DEL_CXXFLAGS := Serialized(m.delCxx, ":")]
  }

  /**
   * The four CSWRAP flag keys get the `:`-serialised lists; every other
   * key of the dictionary is left as it was.
   */
  lemma EnvWithFlagsKeys(env: map<string, string>, m: Matrix)
    ensures var e := EnvWithFlags(env, m);
      && e.Keys == env.Keys + {CSWRAP_ADD_CFLAGS, CSWRAP_DEL_CFLAGS, CSWRAP_ADD_CXXFLAGS, CSWRAP_DEL_CXXFLAGS}
      && e[CSWRAP_ADD_CFLAGS] == Serialized(m.addC, ":")
      && e[CSWRAP_DEL_CFLAGS] == Serialized(m.delC, ":")
      && e[CSWRAP_ADD_CXXFLAGS] == Serialized(m.addCxx, ":")
      && e[CSWRAP_DEL_CXXFLAGS] == Serialized(m.delCxx, ":")
      && forall k :: k in env && !IsFlagsKey(k) ==> e[k] == env[k]
  {
  }

  // ------------------------------------------------ flags_by_warning_level

  /** `DEL_FLAGS_BY_LEVEL_COMMON` as a lookup. */
  function DelFlagsByLevelCommon(l: int): seq<string> {
    if l == 0 then ["-Werror*", "-fdiagnostics-color*", "-no-canonical-prefixes", "-Wno-error=deprecated-register"]
    else []
  }

  /** `ADD_FLAGS_BY_LEVEL_COMMON` as a lookup. */
  function AddFlagsByLevelCommon(l: int): seq<string> {
    if l == 1 then ["-Wall", "-Wextra"]
    else if l == 2 then ["-Wunreachable-code", "-Wundef", "-Wcast-align", "-Wpointer-arith",
                         "-Wfloat-equal", "-Wshadow", "-Wwrite-strings", "-Wformat=2"]
    else []
  }

  /** `ADD_FLAGS_BY_LEVEL_C_ONLY` as a lookup. */
  function AddFlagsByLevelCOnly(l: int): seq<string> {
    if l == 0 then ["-Wno-unknown-pragmas"]
    else if l == 2 then ["-Wstrict-prototypes"]
    else []
  }

  /** `ADD_FLAGS_BY_LEVEL_CXX_ONLY` as a lookup. */
  function AddFlagsByLevelCxxOnly(l: int): seq<string> {
    if l == 2 then ["-Wctor-dtor-privacy", "-Woverloaded-virtual"] else []
  }

  /** The contribution of one warning level `l` to a matrix. */
  function AddLevel(m: Matrix, l: int): Matrix {
    Matrix(m.addC + AddFlagsByLevelCommon(l) + AddFlagsByLevelCOnly(l),
           m.delC + DelFlagsByLevelCommon(l),
           m.addCxx + AddFlagsByLevelCommon(l) + AddFlagsByLevelCxxOnly(l),
           m.delCxx + DelFlagsByLevelCommon(l))
  }

  /** The matrix that accumulates levels `0 ..< upTo`. */
  function LevelsUpTo(upTo: int): Matrix
    decreases upTo
  {
    if upTo <= 0 then Matrix([], [], [], []) else AddLevel(LevelsUpTo(upTo - 1), upTo - 1)
  }

  /** `flags_by_warning_level(level)` as a value: levels `0 .. level`. */
  function LevelMatrix(level: int): Matrix {
    LevelsUpTo(level + 1)
  }

  /**
   * `flags_by_warning_level`: a fresh matrix holding, list by list, the
   * flags of every level from 0 up to `level` in increasing level order.
   */
  method FlagsByWarningLevel(level: int) returns (flags: FlagsMatrix)
    ensures fresh(flags)
    ensures flags.Value() == LevelMatrix(level)
  {
    flags := new FlagsMatrix();
    var l := 0;
    while l < level + 1
      invariant 0 <= l <= if level + 1 >= 0 then level + 1 else 0
      invariant flags.Value() == LevelsUpTo(l)
    {
      flags.delCFlags := flags.delCFlags + DelFlagsByLevelCommon(l);
      flags.delCxxFlags := flags.delCxxFlags + DelFlagsByLevelCommon(l);
      flags.addCFlags := flags.addCFlags + AddFlagsByLevelCommon(l);
      flags.addCxxFlags := flags.addCxxFlags + AddFlagsByLevelCommon(l);
      flags.addCFlags := flags.addCFlags + AddFlagsByLevelCOnly(l);
      flags.addCxxFlags := flags.addCxxFlags + AddFlagsByLevelCxxOnly(l);
      l := l + 1;
    }
    assert LevelsUpTo(l) == LevelsUpTo(level + 1) by {
      if level + 1 < 0 {
        assert l == 0;
        assert LevelsUpTo(0) == Matrix([], [], [], []);
        assert LevelsUpTo(level + 1) == Matrix([], [], [], []);
      } else {
        assert l == level + 1;
      }
    }
  }

  predicate IsPrefix(a: seq<string>, b: seq<string>) {
    |a| <= |b| && b[..|a|] == a
  }

  predicate MatrixPrefix(a: Matrix, b: Matrix) {
    IsPrefix(a.addC, b.addC) && IsPrefix(a.delC, b.delC) &&
    IsPrefix(a.addCxx, b.addCxx) && IsPrefix(a.delCxx, b.delCxx)
  }

  /** Level 0: the four common drop patterns and `-Wno-unknown-pragmas` for C only. */
  lemma LevelZero()
    ensures LevelMatrix(0) == Matrix(
      ["-Wno-unknown-pragmas"],
      ["-Werror*", "-fdiagnostics-color*", "-no-canonical-prefixes", "-Wno-error=deprecated-register"],
      [],
      ["-Werror*", "-fdiagnostics-color*", "-no-canonical-prefixes", "-Wno-error=deprecated-register"])
  {
    assert LevelsUpTo(0) == Matrix([], [], [], []);
  }

  /** Raising the level only appends: every list is a prefix of the next level's. */
  lemma {:induction false} LevelMonotone(n: int)
    requires n >= 0
    ensures MatrixPrefix(LevelMatrix(n), LevelMatrix(n + 1))
  {
    var a := LevelMatrix(n);
    var b := LevelMatrix(n + 1);
    assert b == AddLevel(a, n + 1);
    PrefixOfAppend(a.addC, AddFlagsByLevelCommon(n + 1) + AddFlagsByLevelCOnly(n + 1));
    assert b.addC == a.addC + (AddFlagsByLevelCommon(n + 1) + AddFlagsByLevelCOnly(n + 1));
    PrefixOfAppend(a.addCxx, AddFlagsByLevelCommon(n + 1) + AddFlagsByLevelCxxOnly(n + 1));
    assert b.addCxx == a.addCxx + (AddFlagsByLevelCommon(n + 1) + AddFlagsByLevelCxxOnly(n + 1));
    PrefixOfAppend(a.delC, DelFlagsByLevelCommon(n + 1));
    PrefixOfAppend(a.delCxx, DelFlagsByLevelCommon(n + 1));
  }

  lemma PrefixOfAppend(a: seq<string>, b: seq<string>)
    ensures IsPrefix(a, a + b)
  {
    assert (a + b)[..|a|] == a;
  }

  /** Levels above 2 add nothing: they all equal level 2. */
  lemma {:induction false} LevelSaturates(n: int)
    requires n >= 2
    ensures LevelMatrix(n) == LevelMatrix(2)
    decreases n
  {
    if n > 2 {
      LevelSaturates(n - 1);
      assert LevelMatrix(n) == AddLevel(LevelMatrix(n - 1), n);
    }
  }

  /** A negative level gives the all-empty matrix. */
  lemma NegativeLevelEmpty(n: int)
    requires n < 0
    ensures LevelMatrix(n) == Matrix([], [], [], [])
  {
  }
}
