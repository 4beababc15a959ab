/**
 * JSON values as Python's `json` module produces them, and the Python
 * semantics of subscripting and iterating them, exceptions included.
 */
module PyJson {
  import opened Wrappers

  /**
   * A value `json.load` produces. Numbers are integers. An object keeps its
   * members in document order.
   */
  datatype Json =
    | JNull
    | JBool(b: bool)
    | JInt(i: int)
    | JStr(s: string)
    | JArr(items: seq<Json>)
    | JObj(members: seq<(string, Json)>)

  /** The Python exceptions the modelled code can meet. */
  datatype PyError = OSError | ValueError | KeyError | TypeError | IndexError | AttributeError

  /** A subscript: `x["name"]` or `x[index]`. */
  datatype Key = Name(name: string) | Index(index: int)

  /** The value bound to `k` in an object; a repeated name takes its last binding. */
  function Member(members: seq<(string, Json)>, k: string): Option<Json>
    decreases |members|
  {
    if members == [] then None
    else if members[|members| - 1].0 == k then Some(members[|members| - 1].1)
    else Member(members[..|members| - 1], k)
  }

  /** `Member` finds a name exactly when it is bound, and then its last binding. */
  lemma MemberIsLastBinding(members: seq<(string, Json)>, k: string)
    ensures Member(members, k).None? <==> forall i :: 0 <= i < |members| ==> members[i].0 != k
    ensures Member(members, k).Some? ==>
      exists i :: 0 <= i < |members| && members[i] == (k, Member(members, k).value) &&
        (forall j :: i < j < |members| ==> members[j].0 != k)
  {
    MemberNoneIffUnbound(members, k);
    if Member(members, k).Some? {
      MemberLastBinding(members, k);
    }
  }

  lemma {:induction false} MemberNoneIffUnbound(members: seq<(string, Json)>, k: string)
    ensures Member(members, k).None? <==> forall i :: 0 <= i < |members| ==> members[i].0 != k
    decreases |members|
  {
    if members != [] && members[|members| - 1].0 != k {
      var init := members[..|members| - 1];
      MemberNoneIffUnbound(init, k);
      assert forall i :: 0 <= i < |init| ==> init[i] == members[i];
    }
  }

  lemma {:induction false} MemberLastBinding(members: seq<(string, Json)>, k: string)
    requires Member(members, k).Some?
    ensures exists i :: 0 <= i < |members| && members[i] == (k, Member(members, k).value) &&
                        (forall j :: i < j < |members| ==> members[j].0 != k)
    decreases |members|
  {
    var n := |members| - 1;
    if members[n].0 == k {
      assert members[n] == (k, Member(members, k).value);
    } else {
      var init := members[..n];
      MemberLastBinding(init, k);
      var i :| 0 <= i < |init| && init[i] == (k, Member(init, k).value) &&
        forall j :: i < j < |init| ==> init[j].0 != k;
      assert members[i] == init[i];
      assert forall j :: i < j < n ==> members[j] == init[j];
    }
  }

  /** Python's `xs[i]` on a sequence of length `|xs|`, negative indices counting from the end. */
  function PyIndex<T>(xs: seq<T>, i: int): (r: Option<T>)
    ensures r.Some? <==> -|xs| <= i < |xs|
    ensures 0 <= i < |xs| ==> r == Some(xs[i])
  {
    if 0 <= i < |xs| then Some(xs[i])
    else if -|xs| <= i < 0 then Some(xs[|xs| + i])
    else None
  }

  /** Python's subscript on a JSON value. */
  function Subscript(j: Json, k: Key): Result<Json, PyError> {
    match j
    case JObj(ms) =>
      (match k
       case Name(n) => (match Member(ms, n) case Some(v) => Success(v) case None => Failure(KeyError))
       case Index(_) => Failure(KeyError))
    case JArr(xs) =>
      (match k
       case Index(i) => (match PyIndex(xs, i) case Some(v) => Success(v) case None => Failure(IndexError))
       case Name(_) => Failure(TypeError))
    case JStr(s) =>
      (match k
       case Index(i) => (match PyIndex(s, i) case Some(c) => Success(JStr([c])) case None => Failure(IndexError))
       case Name(_) => Failure(TypeError))
    case _ => Failure(TypeError)
  }

  /**
   * What `for x in j` visits: the items of an array, the member names of an
   * object, the characters of a string; other values are not iterable.
   * A repeated member name is visited twice here, once in Python, which
   * changes no outcome: visiting any name fails on its first subscript.
   */
  function Elements(j: Json): Result<seq<Json>, PyError> {
    match j
    case JArr(xs) => Success(xs)
    case JObj(ms) => Success(seq(|ms|, i requires 0 <= i < |ms| => JStr(ms[i].0)))
    case JStr(s) => Success(seq(|s|, i requires 0 <= i < |s| => JStr([s[i]])))
    case _ => Failure(TypeError)
  }
}
