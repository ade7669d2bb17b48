/** Python values as the tools receive them (decoded JSON or yfinance's `info`
    dictionary), dictionary access, Python truthiness and comparisons, and the
    exceptions that the tools' `try`/`except` blocks turn into error strings. */
module Py {

  datatype Option<T> = None | Some(value: T)

  /** A Python value. `int` and `float` are both `Num`; `bool` is kept apart
      because it is an `int` subclass that some guards exclude explicitly. */
  datatype Value =
    | Num(x: real)
    | Bool(b: bool)
    | Text(s: string)
    | Null
    | Dict(entries: seq<Entry>)
    | List(items: seq<Value>)

  /** One key/value pair of a dictionary; a dictionary keeps insertion order. */
  datatype Entry = Entry(key: string, val: Value)

  /** The exceptions the modelled code can raise; what `str(e)` prints for
      them is left to `Render.error`. */
  datatype PyError =
    | NoAttribute(obj: Value, attr: string)   // AttributeError, e.g. `None.lower()`
    | Unorderable(op: string, left: Value)    // TypeError from `x > 0.15` on a non-number
    | Unformattable(v: Value)                 // TypeError/ValueError from `f"{x * 100:.2f}"`
    | BadTimestamp(v: Value)                  // TypeError from `datetime.fromtimestamp(x)`
    | NotSliceable(v: Value)                  // TypeError from `x[:500]`
    | MissingKey(key: string)                 // KeyError
    | Fetch(cause: string)                    // any failure of the quote service or the network

  /** A computation that either returns a value or raises. */
  datatype Result<T> = Ok(value: T) | Raise(error: PyError) {
    predicate IsFailure() { Raise? }
    function PropagateFailure<U>(): Result<U>
      requires Raise?
    {
      Raise(error)
    }
    function Extract(): T
      requires Ok?
    {
      value
    }
  }

  /** The text `output` grows into when the chunk `r` is appended, or the
      exception that stopped it. */
  function Emitted(output: string, r: Result<string>): Result<string> {
    match r
    case Ok(s) => Ok(output + s)
    case Raise(e) => Raise(e)
  }

  /** `dict.get(key)`: the value stored under `key`, found by its first entry. */
  function Lookup(es: seq<Entry>, key: string): (r: Option<Value>)
    ensures r.None? <==> forall i :: 0 <= i < |es| ==> es[i].key != key
    ensures r.Some? ==> exists i :: 0 <= i < |es| && es[i].key == key && es[i].val == r.value
                                    && forall j :: 0 <= j < i ==> es[j].key != key
  {
    if es == [] then None
    else if es[0].key == key then Some(es[0].val)
    else Lookup(es[1..], key)
  }

  predicate HasKey(es: seq<Entry>, key: string) {
    Lookup(es, key).Some?
  }

  /** `dict.get(key, default)`. */
  function Get(es: seq<Entry>, key: string, default: Value): Value {
    match Lookup(es, key)
    case Some(v) => v
    case None => default
  }

  /** `isinstance(v, (int, float))`, which is also true of booleans. */
  predicate IsNumber(v: Value) {
    v.Num? || v.Bool?
  }

  /** The number a numeric value stands for (`True` is 1); 0 for anything
      else, which callers only reach after testing `IsNumber`. */
  function AsReal(v: Value): real {
    match v
    case Num(x) => x
    case Bool(b) => if b then 1.0 else 0.0
    case _ => 0.0
  }

  /** Python truthiness (`if v:`). */
  predicate Truthy(v: Value) {
    match v
    case Num(x) => x != 0.0
    case Bool(b) => b
    case Text(s) => s != ""
    case Null => false
    case Dict(es) => es != []
    case List(xs) => xs != []
  }

  /** `v > c`: comparing anything but a number with a float raises TypeError. */
  function Greater(v: Value, c: real): (r: Result<bool>)
    ensures r.Ok? <==> IsNumber(v)
    ensures r.Ok? ==> (r.value <==> AsReal(v) > c)
  {
    if IsNumber(v) then Ok(AsReal(v) > c) else Raise(Unorderable(">", v))
  }

  /** `v < c`. */
  function Less(v: Value, c: real): (r: Result<bool>)
    ensures r.Ok? <==> IsNumber(v)
    ensures r.Ok? ==> (r.value <==> AsReal(v) < c)
  {
    if IsNumber(v) then Ok(AsReal(v) < c) else Raise(Unorderable("<", v))
  }

  /** Format specifications used in f-strings: `:.2f`, `:.1%`, `:,.2f`. */
  datatype NumSpec = Fixed(places: nat) | Percent(places: nat) | Grouped(places: nat)

  /** How numbers, dates, exceptions and containers print. These depend on
      floating point and on the time library, so they stay abstract. */
  datatype Render = Render(
    number: (NumSpec, real) -> string,   // f"{x:<spec>}"
    repr: real -> string,                // str(x) of an int or float
    date: real -> string,                // datetime.fromtimestamp(x).strftime('%Y-%m-%d')
    error: PyError -> string,            // str(e)
    container: Value -> string)          // str(d) of a dict or list

  /** `str(v)`, which is also what `f"{v}"` prints. */
  function Str(v: Value, r: Render): string {
    match v
    case Text(s) => s
    case Null => "None"
    case Bool(b) => if b then "True" else "False"
    case Num(x) => r.repr(x)
    case Dict(_) => r.container(v)
    case List(_) => r.container(v)
  }
}
