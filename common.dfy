/** Values shared by every module: the failure types that stand for Python's
    exceptions, the cell values of the node, link and metadata tables, the
    numbers of a layout's variables dict, and Python's `int()` and `in` on
    strings. */
module Common {

  datatype Option<T> = None | Some(value: T)

  /** The exceptions the modelled code can raise, by Python class. */
  datatype Error =
    | KeyError(key: string)
    | ValueError(what: string)
    | TypeError(what: string)
    | AttributeError(what: string)
    | IndexError(what: string)
    | UnboundLocalError(what: string)
    | NotImplementedError(what: string)
    | ZeroDivision(what: string)   // Python's ZeroDivisionError; in normalize_pos numpy's inf/nan instead

  datatype Result<T> = Ok(value: T) | Err(error: Error) {
    predicate IsFailure() { Err? }
    function PropagateFailure<U>(): Result<U> requires Err? { Err(error) }
    function Extract(): T requires Ok? { value }
  }

  /** A statement that either completes or raises. */
  datatype Outcome = Pass | Fail(error: Error)

  /** A cell of a table or a JSON value; `Null` is pandas' NaN / Python's None. */
  datatype Value =
    | Null
    | Bool(b: bool)
    | Int(i: int)
    | Float(r: real)
    | Str(s: string)
    | List(items: seq<Value>)
    | Dict(entries: map<string, Value>)

  /** A table row as a column -> cell map. */
  type Row = map<string, Value>

  /** A number of a layout's variables dict (Python int or float). */
  datatype Num = IntNum(i: int) | FloatNum(r: real)

  /** A keyword argument handed to a layout algorithm; `NoneParam` is None. */
  datatype Param = NoneParam | IntParam(i: int) | FloatParam(r: real)

  function Abs(x: real): (r: real)
    ensures r >= 0.0 && (r == x || r == -x)
  {
    if x < 0.0 then -x else x
  }

  /** Python's `int()` of a float: truncation toward zero. */
  function Trunc(x: real): (t: int)
    ensures x >= 0.0 ==> t as real <= x < t as real + 1.0
    ensures x < 0.0 ==> t as real - 1.0 < x <= t as real
  {
    if x >= 0.0 then x.Floor else -((-x).Floor)
  }

  /** Python's `float()` of a number. */
  function ToReal(n: Num): real
  {
    match n
    case IntNum(i) => i as real
    case FloatNum(r) => r
  }

  /** Python's `int()` of a number. */
  function ToInt(n: Num): (t: int)
    ensures n.IntNum? ==> t == n.i
    ensures n.FloatNum? ==> t == Trunc(n.r)
  {
    match n
    case IntNum(i) => i
    case FloatNum(r) => Trunc(r)
  }

  /** `sub` occurs in `s` starting at index `i`. */
  ghost predicate OccursAt(s: string, sub: string, i: int)
  {
    0 <= i && i + |sub| <= |s| && s[i..i + |sub|] == sub
  }

  /** Python's `sub in s` on two strings. */
  function Contains(s: string, sub: string): (b: bool)
    ensures b <==> exists i :: OccursAt(s, sub, i)
    decreases |s|
  {
    if |sub| > |s| then
      assert forall i :: !OccursAt(s, sub, i);
      false
    else if s[..|sub|] == sub then
      assert OccursAt(s, sub, 0);
      true
    else
      var rest := Contains(s[1..], sub);
      assert !OccursAt(s, sub, 0);
      assert forall i :: i >= 1 ==> (OccursAt(s, sub, i) <==> OccursAt(s[1..], sub, i - 1));
      assert rest ==> OccursAt(s, sub, (var j :| OccursAt(s[1..], sub, j); j) + 1);
      rest
  }
}
