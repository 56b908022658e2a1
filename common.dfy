/** Vocabulary shared by every module: optional values, what an endpoint answers,
    event payloads, Python truthiness, and the first-match and filter queries that
    stand for SQLAlchemy's `.filter(...).first()` and `.filter(...).all()`. */
module Common {

  datatype Option<T> = None | Some(value: T) {
    /** `x or default` for a value that is either present or None. */
    function GetOr(default: T): T {
      if Some? then value else default
    }
  }

  /** What an endpoint answers: its value, the HTTPException it raises
      (404, 403, 400), or an uncaught Python error, which the framework
      turns into a 500. */
  datatype Response<T> =
    | Ok(value: T)
    | NotFound(detail: string)
    | Forbidden(detail: string)
    | BadRequest(detail: string)
    | ServerError(detail: string)

  /** Event payloads carry only identifiers. */
  type Payload = map<string, int>

  /** `payload.get(key)` */
  function Get(p: Payload, key: string): Option<int> {
    if key in p then Some(p[key]) else None
  }

  /** One unit of deferred work: `background_tasks.add_task(events.emit, kind, payload)`. */
  datatype Event = Event(kind: string, payload: Payload)

  /** Python truthiness of an optional string: neither None nor "". */
  predicate Truthy(s: Option<string>) {
    s.Some? && s.value != ""
  }

  /** Index of the first element satisfying `f` (a query's `.first()` in row order). */
  function FirstIndex<T>(s: seq<T>, f: T -> bool): (r: Option<nat>)
    ensures r.Some? ==> r.value < |s| && f(s[r.value])
    ensures r.Some? ==> forall j :: 0 <= j < r.value ==> !f(s[j])
    ensures r.None? ==> forall j :: 0 <= j < |s| ==> !f(s[j])
    decreases |s|
  {
    if |s| == 0 then None
    else if f(s[0]) then Some(0)
    else
      match FirstIndex(s[1..], f)
      case None => None
      case Some(k) => Some(k + 1)
  }

  /** `FirstIndex` depends only on which positions satisfy `f`. */
  lemma FirstIndexPointwise<T>(s: seq<T>, t: seq<T>, f: T -> bool)
    requires |s| == |t|
    requires forall i | 0 <= i < |s| :: f(s[i]) == f(t[i])
    ensures FirstIndex(s, f) == FirstIndex(t, f)
  {
    var a, b := FirstIndex(s, f), FirstIndex(t, f);
    if a.Some? && b.Some? {
      assert !(a.value < b.value) && !(b.value < a.value);
    }
  }

  /** The first element satisfying `f`, if any. */
  function First<T>(s: seq<T>, f: T -> bool): (r: Option<T>)
    ensures r.Some? ==> r.value in s && f(r.value)
    ensures r.None? <==> forall x :: x in s ==> !f(x)
  {
    match FirstIndex(s, f)
    case None => None
    case Some(i) => Some(s[i])
  }

  /** `s` without its element at position `i`; the others keep their order. */
  function RemoveAt<T>(s: seq<T>, i: nat): (r: seq<T>)
    requires i < |s|
    ensures |r| == |s| - 1
    ensures forall j | 0 <= j < i :: r[j] == s[j]
    ensures forall j | i <= j < |r| :: r[j] == s[j + 1]
    ensures multiset(r) + multiset{s[i]} == multiset(s)
    ensures forall x | x in r :: x in s
  {
    assert s == s[..i] + [s[i]] + s[i + 1..];
    s[..i] + s[i + 1..]
  }

  /** The elements satisfying `f`, in their original order (a query's `.all()`). */
  function Filter<T>(s: seq<T>, f: T -> bool): (r: seq<T>)
    ensures |r| <= |s|
    ensures forall x :: x in r ==> x in s && f(x)
    ensures forall x :: x in s && f(x) ==> x in r
    decreases |s|
  {
    if |s| == 0 then []
    else
      var init := s[..|s| - 1];
      assert s == init + [s[|s| - 1]];
      Filter(init, f) + if f(s[|s| - 1]) then [s[|s| - 1]] else []
  }

  /** The positions of the elements satisfying `f`: an independent description of
      what a SQL `count()` counts. */
  ghost function IndicesWhere<T>(s: seq<T>, f: T -> bool): set<nat> {
    set i: nat | i < |s| && f(s[i])
  }

  /** The positions of a non-empty sequence: those of its prefix, and the last
      one when it qualifies. */
  lemma IndicesWhereSnoc<T>(s: seq<T>, f: T -> bool)
    requires |s| > 0
    ensures |s| - 1 !in IndicesWhere(s[..|s| - 1], f)
    ensures IndicesWhere(s, f) == IndicesWhere(s[..|s| - 1], f) + if f(s[|s| - 1]) then {|s| - 1} else {}
  {
    var n := |s| - 1;
    forall i: nat | i < n ensures s[..n][i] == s[i] { }
  }

  /** Filtering keeps exactly one element per position that satisfies `f`. */
  lemma {:induction false} FilterSize<T>(s: seq<T>, f: T -> bool)
    ensures |Filter(s, f)| == |IndicesWhere(s, f)|
    decreases |s|
  {
    if |s| > 0 {
      var n := |s| - 1;
      FilterSize(s[..n], f);
      IndicesWhereSnoc(s, f);
      assert Filter(s, f) == Filter(s[..n], f) + if f(s[n]) then [s[n]] else [];
    }
  }

  /** Filtering a sequence extended by one element. */
  lemma FilterSnoc<T>(s: seq<T>, x: T, f: T -> bool)
    ensures Filter(s + [x], f) == Filter(s, f) + if f(x) then [x] else []
  {
    assert (s + [x])[..|s + [x]| - 1] == s;
  }

  function DigitChar(d: nat): char
    requires d < 10
  {
    "0123456789"[d]
  }

  /** Python's `str(n)` for a natural number. */
  function NatToString(n: nat): string
    decreases n
  {
    if n < 10 then [DigitChar(n)] else NatToString(n / 10) + [DigitChar(n % 10)]
  }

  /** Python's `str(i)` (used by the f-strings that build message texts). */
  function IntToString(i: int): string {
    if i < 0 then "-" + NatToString(-i) else NatToString(i)
  }
}
