/**
 * Python runtime values and outcomes shared by every module of the model:
 * optional values, the exceptions the wiring code raises, and the dynamic
 * values that flow through keyword arguments, entity records and node inputs.
 */
module Py {

  datatype Option<T> = None | Some(value: T)

  /** The Python exceptions the modelled code raises or lets escape. */
  datatype Error =
    | ValueError(msg: string)
    | KeyError(key: string)
    | TypeError(msg: string)
    | IndexError
    | AttributeError(msg: string)
    | FileNotFoundError(key: string)
    | NotImplementedError

  datatype Result<T> = Ok(value: T) | Err(error: Error)
  {
    predicate IsOk() { Ok? }
  }

  /**
   * A dynamic Python value as far as the wiring code looks at it:
   * `None`, a string (paths included), a boolean, an integer, or a list of strings.
   */
  datatype Value =
    | NoneV
    | Str(s: string)
    | Bool(b: bool)
    | Int(i: int)
    | List(xs: seq<string>)

  /** Python truthiness of a value. */
  predicate Truthy(v: Value)
  {
    match v
    case NoneV => false
    case Str(s) => s != ""
    case Bool(b) => b
    case Int(i) => i != 0
    case List(xs) => xs != []
  }

  /** Decimal rendering of an integer, as `str(int)` gives it. */
  function IntToString(i: int): (r: string)
    decreases if i < 0 then 1 - i else i
    ensures |r| > 0
    ensures i >= 0 ==> forall k :: 0 <= k < |r| ==> '0' <= r[k] <= '9'
    ensures i < 0 ==> r[0] == '-'
  {
    if i < 0 then "-" + IntToString(-i)
    else if i < 10 then [['0','1','2','3','4','5','6','7','8','9'][i]]
    else IntToString(i / 10) + IntToString(i % 10)
  }

  /** `repr` of a list of strings: quotes around each item, escaping left out. */
  function ListRepr(xs: seq<string>): (r: string)
    ensures |r| >= 2 && r[0] == '[' && r[|r| - 1] == ']'
  {
    "[" + ReprItems(xs) + "]"
  }

  function ReprItems(xs: seq<string>): string
  {
    if xs == [] then ""
    else if |xs| == 1 then "'" + xs[0] + "'"
    else "'" + xs[0] + "', " + ReprItems(xs[1..])
  }

  /** `str(v)`, the text an f-string interpolates. */
  function ToStr(v: Value): (r: string)
    ensures v.Str? ==> r == v.s
    ensures v.NoneV? ==> r == "None"
  {
    match v
    case NoneV => "None"
    case Str(s) => s
    case Bool(b) => if b then "True" else "False"
    case Int(i) => IntToString(i)
    case List(xs) => ListRepr(xs)
  }
}
