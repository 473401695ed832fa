/**
 * A decoded JSON value, as `json.load` hands it to the ingestion code, and the
 * handful of Python built-ins the ingestion code applies to such values:
 * `dict.get`, `in`, truthiness, `or`, `str()` and iteration.
 *
 * An object keeps its entries in insertion order, because `dict.values()` is
 * walked in that order. A decoded dict has distinct keys; `Get` takes the first
 * entry with the key, which for distinct keys is the only one.
 */
module PyJson {
  import opened Wrappers

  datatype Json =
    | Null
    | Bool(bval: bool)
    | Int(ival: int)
    | Float(fval: real)
    | Str(sval: string)
    | Array(items: seq<Json>)
    | Object(fields: seq<(string, Json)>)

  /** The Python exceptions that the modelled code can raise. */
  datatype PyException =
    | NotIterable(typeName: string)       // TypeError from iterating a scalar
    | NaiveAwareComparison                // TypeError from `<` on naive vs aware datetimes
    | MultipleResultsFound                // from `scalar_one_or_none()` on two or more rows
    | NoAttributeGet(typeName: string)    // AttributeError from `.get` on a non-dict
    | InvalidJson(file: string, detail: string)  // the ValueError that wraps JSONDecodeError
    | OSFailure(detail: string)           // any other I/O error (open, zip extraction)

  /** `str(e)` of each exception. */
  function Message(e: PyException): string
  {
    match e
    case NotIterable(t) => "'" + t + "' object is not iterable"
    case NaiveAwareComparison => "can't compare offset-naive and offset-aware datetimes"
    case MultipleResultsFound => "Multiple rows were found when one or none was required"
    case NoAttributeGet(t) => "'" + t + "' object has no attribute 'get'"
    case InvalidJson(f, d) => "Invalid JSON in " + f + ": " + d
    case OSFailure(d) => d
  }

  /** `type(v).__name__` */
  function TypeName(v: Json): string
  {
    match v
    case Null => "NoneType"
    case Bool(_) => "bool"
    case Int(_) => "int"
    case Float(_) => "float"
    case Str(_) => "str"
    case Array(_) => "list"
    case Object(_) => "dict"
  }

  /** Python truthiness of a decoded value. */
  predicate Truthy(v: Json)
  {
    match v
    case Null => false
    case Bool(b) => b
    case Int(i) => i != 0
    case Float(r) => r != 0.0
    case Str(s) => s != ""
    case Array(a) => a != []
    case Object(f) => f != []
  }

  /** `a or b`: the first operand when it is truthy, else the second, whatever it is. */
  function Or(a: Json, b: Json): (r: Json)
    ensures Truthy(a) ==> r == a
    ensures !Truthy(a) ==> r == b
  {
    if Truthy(a) then a else b
  }

  /** `a or b` is truthy exactly when one of its operands is. */
  lemma OrTruthy(a: Json, b: Json)
    ensures Truthy(Or(a, b)) <==> Truthy(a) || Truthy(b)
  {
  }

  /** A chain of `or`s may be grouped either way: `(a or b) or c` is `a or (b or c)`. */
  lemma OrAssociative(a: Json, b: Json, c: Json)
    ensures Or(Or(a, b), c) == Or(a, Or(b, c))
  {
  }

  /** `a or b` is the first truthy operand, or the last one when neither is truthy. */
  lemma OrPicksFirstTruthy(a: Json, b: Json, c: Json)
    ensures Or(Or(a, b), c) == (if Truthy(a) then a else if Truthy(b) then b else c)
  {
    OrAssociative(a, b, c);
  }

  /** `key in d` */
  predicate Has(fields: seq<(string, Json)>, key: string)
  {
    exists i :: 0 <= i < |fields| && fields[i].0 == key
  }

  /** `d.get(key, default)` */
  function GetOr(fields: seq<(string, Json)>, key: string, default: Json): Json
  {
    if fields == [] then default
    else if fields[0].0 == key then fields[0].1
    else GetOr(fields[1..], key, default)
  }

  /** A missing key gives the default; a present key gives a value bound to it. */
  lemma {:induction false} GetOrCases(fields: seq<(string, Json)>, key: string, default: Json)
    ensures !Has(fields, key) ==> GetOr(fields, key, default) == default
    ensures Has(fields, key) ==> exists i :: 0 <= i < |fields| && fields[i] == (key, GetOr(fields, key, default))
    decreases |fields|
  {
    if fields != [] && fields[0].0 != key {
      GetOrCases(fields[1..], key, default);
      if Has(fields[1..], key) {
        var i :| 0 <= i < |fields[1..]| && fields[1..][i] == (key, GetOr(fields, key, default));
        assert fields[i + 1] == (key, GetOr(fields, key, default));
      } else {
        forall i | 0 <= i < |fields| ensures fields[i].0 != key {
          if i > 0 { assert fields[1..][i - 1] == fields[i]; }
        }
      }
    } else if fields != [] {
      assert fields[0] == (key, GetOr(fields, key, default));
    }
  }

  /** `d.get(key)`: a missing key reads as None, exactly like a key bound to null. */
  function Get(fields: seq<(string, Json)>, key: string): Json
  {
    GetOr(fields, key, Null)
  }

  /** With the key present, the default passed to `get` does not matter. */
  lemma {:induction false} GetOrPresent(fields: seq<(string, Json)>, key: string, default: Json)
    requires Has(fields, key)
    ensures GetOr(fields, key, default) == Get(fields, key)
    decreases |fields|
  {
    if fields[0].0 != key {
      var i :| 0 <= i < |fields| && fields[i].0 == key;
      assert fields[1..][i - 1] == fields[i];
      GetOrPresent(fields[1..], key, default);
    }
  }

  /** The decimal text of an integer, as `str(int)` writes it. */
  function IntToDecimal(i: int): (s: string)
    ensures s != []
    decreases if i < 0 then 1 - i else i
  {
    if i < 0 then "-" + IntToDecimal(-i)
    else if i < 10 then [DigitChar(i)]
    else IntToDecimal(i / 10) + [DigitChar(i % 10)]
  }

  function DigitChar(d: int): char
    requires 0 <= d < 10
  {
    ('0' as int + d) as char
  }

  predicate IsDigits(s: string)
  {
    forall k :: 0 <= k < |s| ==> '0' <= s[k] <= '9'
  }

  /** The number a string of decimal digits stands for, most significant digit first. */
  function DigitsValue(s: string): nat
    requires IsDigits(s)
  {
    if s == [] then 0
    else 10 * DigitsValue(s[..|s| - 1]) + (s[|s| - 1] as int - '0' as int)
  }

  /**
   * `str(i)` is the canonical decimal text of `i`: for `i >= 0` digits only,
   * standing for `i`, without a leading zero unless `i` is 0; for `i < 0` a minus
   * sign before the text of `-i`.
   */
  lemma {:induction false} IntToDecimalValue(i: int)
    ensures i >= 0 ==> IsDigits(IntToDecimal(i)) && DigitsValue(IntToDecimal(i)) == i
    ensures i >= 0 ==> (IntToDecimal(i)[0] != '0' || i == 0)
    ensures i < 0 ==> IntToDecimal(i) == "-" + IntToDecimal(-i)
    decreases if i < 0 then 1 - i else i
  {
    if i >= 10 {
      IntToDecimalValue(i / 10);
      var s := IntToDecimal(i);
      assert s[..|s| - 1] == IntToDecimal(i / 10);
    }
  }

  /** Different integers are written differently: `str(i)` can be read back. */
  lemma IntToDecimalInjective(i: int, j: int)
    requires IntToDecimal(i) == IntToDecimal(j)
    ensures i == j
  {
    IntToDecimalValue(i);
    IntToDecimalValue(j);
    if i < 0 && j < 0 {
      assert IntToDecimal(-i) == IntToDecimal(i)[1..] == IntToDecimal(j)[1..] == IntToDecimal(-j);
      IntToDecimalValue(-i);
      IntToDecimalValue(-j);
    }
  }

  /**
   * `str(v)`. The text of a string is the string itself, and None, booleans and
   * integers are written out; floats, lists and dicts go through `render`, which
   * stands for CPython's repr of those values and is left abstract.
   */
  function PyStr(v: Json, render: Json -> string): (s: string)
    ensures v.Str? ==> s == v.sval
  {
    match v
    case Str(s) => s
    case Null => "None"
    case Bool(b) => if b then "True" else "False"
    case Int(i) => IntToDecimal(i)
    case _ => render(v)
  }

  /** The one-character strings of `s`, which is what iterating a Python str yields. */
  function Chars(s: string): (r: seq<Json>)
    ensures |r| == |s|
    ensures forall k :: 0 <= k < |s| ==> r[k] == Str([s[k]])
  {
    if s == [] then [] else [Str([s[0]])] + Chars(s[1..])
  }

  /** The keys of an object, which is what iterating a Python dict yields. */
  function KeysOf(fields: seq<(string, Json)>): (r: seq<Json>)
    ensures |r| == |fields|
    ensures forall k :: 0 <= k < |fields| ==> r[k] == Str(fields[k].0)
  {
    if fields == [] then [] else [Str(fields[0].0)] + KeysOf(fields[1..])
  }

  /** The values of an object in insertion order: `d.values()`. */
  function ValuesOf(fields: seq<(string, Json)>): (r: seq<Json>)
    ensures |r| == |fields|
    ensures forall k :: 0 <= k < |fields| ==> r[k] == fields[k].1
  {
    if fields == [] then [] else [fields[0].1] + ValuesOf(fields[1..])
  }

  /** `iter(v)`: lists, strings and dicts iterate; anything else raises TypeError. */
  function Iterate(v: Json): (r: Result<seq<Json>, PyException>)
    ensures r.Err? <==> (v.Null? || v.Bool? || v.Int? || v.Float?)
    ensures r.Err? ==> r.error == NotIterable(TypeName(v))
  {
    match v
    case Array(a) => Ok(a)
    case Str(s) => Ok(Chars(s))
    case Object(f) => Ok(KeysOf(f))
    case _ => Err(NotIterable(TypeName(v)))
  }
}
