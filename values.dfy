/**
 * Values exchanged with the OSC layer and the Python semantics the handlers
 * rely on: the outcome of a handler (a reply tuple, `None`, or an exception)
 * and list indexing with negative indices.
 */
module Values {

  datatype Option<+T> = None | Some(value: T)

  /** The exceptions a request handler can end with. */
  datatype Error =
    | IndexError      // a list index outside the list (or a tuple too short)
    | TypeError       // a list indexed with something that is not an integer
    | AttributeError  // an attribute the host object does not have
    | HostError       // an exception raised by the host runtime itself

  /** One argument of an OSC message or one field of a reply tuple. */
  datatype Value =
    | Int(i: int)
    | Real(r: real)
    | Text(s: string)
    | Bool(b: bool)
    | List(items: seq<Value>)

  /**
   * What a handler does with a request: it returns a tuple that becomes the
   * reply, returns `None` (no reply is sent), or raises.
   */
  datatype Outcome = Returned(values: seq<Value>) | Silent | Raised(error: Error)

  /**
   * Python's `xs[i]` on a list of length `n`: the position it reads, or
   * `None` where Python raises IndexError. Negative indices count from the end.
   */
  function PyIndex(n: nat, i: int): (r: Option<nat>)
    ensures r.Some? <==> 0 <= n + i && i < n
    ensures r.Some? ==> r.value < n && (r.value == i || r.value == n + i)
  {
    if 0 <= i < n then Some(i)
    else if 0 <= n + i && i < 0 then Some(n + i)
    else None
  }

  /**
   * The number a value stands for in Python's comparisons: `bool` is a
   * subtype of `int` (`True == 1`), and an `int` equals the `float` with
   * the same value (`0 == 0.0`). Text and lists are not numbers.
   */
  function NumberOf(v: Value): (r: Option<real>)
    ensures r.Some? <==> v.Int? || v.Real? || v.Bool?
  {
    match v
    case Int(i) => Some(i as real)
    case Real(x) => Some(x)
    case Bool(b) => Some(if b then 1.0 else 0.0)
    case _ => None
  }

  /** Python's `a == b` on two message arguments. */
  predicate PyEquals(a: Value, b: Value)
  {
    if NumberOf(a).Some? && NumberOf(b).Some? then NumberOf(a) == NumberOf(b) else a == b
  }

  /**
   * One representative per class of values Python's `==` identifies: every
   * number equal to an integer becomes that `Int`; anything else stays as it is.
   */
  function Canonical(v: Value): (w: Value)
    ensures NumberOf(w) == NumberOf(v)
  {
    match v
    case Bool(b) => Int(if b then 1 else 0)
    case Real(x) => if x == x.Floor as real then Int(x.Floor) else v
    case _ => v
  }

  /** Two values have the same representative exactly when Python's `==` holds between them. */
  lemma CanonicalMatchesPyEquals(a: Value, b: Value)
    ensures Canonical(a) == Canonical(b) <==> PyEquals(a, b)
  {
    if NumberOf(a).Some? && NumberOf(b).Some? && NumberOf(a) == NumberOf(b) {
      // A number equal to an integer is an integer, whatever form it has.
      var x := NumberOf(a).value;
      if x == x.Floor as real {
        assert Canonical(a) == Int(x.Floor) == Canonical(b);
      } else {
        assert a.Real? && b.Real?;
      }
    }
  }

  /**
   * The integer a value yields as a list index (Python's `__index__`):
   * an `int` itself, or a `bool` as 0 or 1. A `float`, text or a list
   * gives `None`, where Python raises TypeError.
   */
  function AsIndex(v: Value): (r: Option<int>)
    ensures r.Some? <==> v.Int? || v.Bool?
    ensures r.Some? ==> Some(r.value as real) == NumberOf(v)
  {
    match v
    case Int(i) => Some(i)
    case Bool(b) => Some(if b then 1 else 0)
    case _ => None
  }

  /** Each string as a `Text` reply field, in order. */
  function Texts(ss: seq<string>): (r: seq<Value>)
    ensures |r| == |ss|
    ensures forall k :: 0 <= k < |ss| ==> r[k] == Text(ss[k])
  {
    if ss == [] then [] else [Text(ss[0])] + Texts(ss[1..])
  }

  /**
   * Python's `[i for i, y in enumerate(s) if y == x][0]`: the first position
   * holding `x`, or `None` where the empty list's `[0]` raises IndexError.
   */
  function FirstIndexOf<T(==)>(s: seq<T>, x: T): (r: Option<nat>)
    ensures r.Some? ==> r.value < |s| && s[r.value] == x
    ensures r.Some? ==> forall j :: 0 <= j < r.value ==> s[j] != x
    ensures r.None? <==> x !in s
  {
    if s == [] then None
    else if s[0] == x then Some(0)
    else match FirstIndexOf(s[1..], x)
      case None => None
      case Some(k) => Some(k + 1)
  }
}
