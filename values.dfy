/** Python values as the mission tables and builders see them, the error kinds the
    modelled code can raise, and the two look-ups of Aviary's option container
    (`AviaryValues.get_item` and `get_val`), whose own source is not part of this model. */
module Values {

  datatype Option<+T> = None | Some(value: T)

  datatype Result<+R, +E> = Success(value: R) | Failure(error: E)

  /** The exceptions the modelled code can raise. */
  datatype Error =
    | KeyError(key: string)           // a missing dictionary key
    | TypeError(reason: string)       // unpacking or `len` of an unsuitable value
    | ValueError(reason: string)      // unpacking an iterable of the wrong length
    | AttributeError(name: string)    // an attribute looked up on `None`

  /** Aviary's verbosity levels (an integer enumeration in the source). */
  datatype Verbosity = Quiet | Brief | Verbose | Debug

  /** A dynamically typed Python value as stored in option tables: numbers
      (integers and floats alike), strings, booleans, `None`, verbosity levels,
      tuples and arrays. */
  datatype Value =
    | Null
    | Num(x: real)
    | Text(s: string)
    | Bool(b: bool)
    | Level(verbosity: Verbosity)
    | Tuple(items: seq<Value>)
    | Array(elems: seq<Value>)

  /** The Python pair `(value, units)`. */
  function Pair(value: Value, units: string): (p: Value)
    ensures p.Tuple? && |p.items| == 2 && p.items[0] == value
  {
    Tuple([value, Text(units)])
  }

  /** `len(v)`: defined for strings, tuples and arrays; anything else is a TypeError. */
  function Len(v: Value): (r: Result<nat, Error>)
    ensures r.Success? <==> (v.Text? || v.Tuple? || v.Array?)
    ensures v.Text? ==> r == Success(|v.s|)
    ensures v.Tuple? ==> r == Success(|v.items|)
    ensures v.Array? ==> r == Success(|v.elems|)
  {
    match v
    case Text(s) => Success(|s|)
    case Tuple(items) => Success(|items|)
    case Array(elems) => Success(|elems|)
    case _ => Failure(TypeError("object has no len()"))
  }

  /** `first, _ = v`: unpacks a two-element iterable and keeps its first
      element. An iterable of another length is a ValueError (too many or not
      enough values), anything else a TypeError (not iterable). */
  function UnpackFirst(v: Value): (r: Result<Value, Error>)
    ensures r.Success? <==> (Len(v) == Success(2))
    ensures v.Tuple? && |v.items| == 2 ==> r == Success(v.items[0])
    ensures v.Array? && |v.elems| == 2 ==> r == Success(v.elems[0])
    ensures v.Text? && |v.s| == 2 ==> r == Success(Text([v.s[0]]))
    ensures Len(v).Success? && Len(v) != Success(2) ==> r.Failure? && r.error.ValueError?
    ensures Len(v).Failure? ==> r.Failure? && r.error.TypeError?
  {
    match v
    case Tuple(items) => if |items| == 2 then Success(items[0]) else Failure(ValueError("wrong number of values to unpack"))
    case Array(elems) => if |elems| == 2 then Success(elems[0]) else Failure(ValueError("wrong number of values to unpack"))
    case Text(s) => if |s| == 2 then Success(Text([s[0]])) else Failure(ValueError("wrong number of values to unpack"))
    case _ => Failure(TypeError("cannot unpack non-iterable object"))
  }

  /** One entry of an `AviaryValues` container: a value and its units. */
  datatype Item = Item(value: Value, units: string)

  /** The option container `AviaryValues`, keyed by hierarchical variable name. */
  type AviaryValues = map<string, Item>

  /** `get_item(key, default)`: the stored `(value, units)` pair, or `default`
      handed back unchanged when the key is absent; it never raises. */
  function GetItemOr(inputs: AviaryValues, key: string, default: Value): (r: Value)
    ensures key in inputs ==> r == Pair(inputs[key].value, inputs[key].units)
    ensures key !in inputs ==> r == default
  {
    if key in inputs then Pair(inputs[key].value, inputs[key].units) else default
  }

  /** `get_item(key)` with its own default `(None, None)`. */
  function GetItem(inputs: AviaryValues, key: string): (r: Value)
    ensures r.Tuple? && |r.items| == 2
    ensures key in inputs ==> r == Pair(inputs[key].value, inputs[key].units)
    ensures key !in inputs ==> r == Tuple([Null, Null])
    ensures key in inputs <==> r.items[1] != Null
  {
    GetItemOr(inputs, key, Tuple([Null, Null]))
  }

  /** `get_val(key)`: the stored value; a missing key is a KeyError.
      Unit conversion is not modelled. */
  function GetVal(inputs: AviaryValues, key: string): (r: Result<Value, Error>)
    ensures r.Success? <==> key in inputs
    ensures key in inputs ==> r.value == inputs[key].value
    ensures key !in inputs ==> r.error == KeyError(key)
  {
    if key in inputs then Success(inputs[key].value) else Failure(KeyError(key))
  }
}
