/**
 Values a source record can hold once decoded, and the stock result types.
 A record is an `Obj`; `Null` stands for Python's `None`, which is also what
 reading an absent member gives. `DateTime` is never read from JSON: only the
 `parse_datetime` operator produces it, or a typed column reader.
 */
module Values {

  datatype Option<+T> = None | Some(value: T)
  {
    function GetOr(default: T): T {
      if Some? then value else default
    }
  }

  datatype Result<+T, +E> = Ok(value: T) | Err(error: E)

  /** A float, as an exact real or one of the values no real stands for. */
  datatype Number = Finite(r: real) | Infinite(negative: bool) | NaN

  datatype Value =
    | Null
    | Bool(b: bool)
    | Int(i: int)
    | Float(number: Number)
    | Str(s: string)
    | Bytes(raw: string)
    | List(items: seq<Value>)
    | Obj(fields: map<string, Value>)
    | DateTime(instant: int)

  /** `dict.get(name)` on an object: an absent member reads as `Null`. */
  function Get(fields: map<string, Value>, name: string): Value {
    if name in fields then fields[name] else Null
  }

  /** Whether a dictionary lookup or a set test with this value raises TypeError. */
  predicate Unhashable(v: Value) {
    v.List? || v.Obj?
  }

  /** What stood at a place where something else was expected. */
  function KindOf(v: Value): string {
    match v
    case Null => "null"
    case Bool(_) => "a boolean"
    case Int(_) => "a number"
    case Float(_) => "a number"
    case Str(_) => "a string"
    case Bytes(_) => "bytes"
    case List(_) => "a list"
    case Obj(_) => "an object"
    case DateTime(_) => "datetime"
  }

  /** `part in text`. */
  predicate Contains(text: string, part: string) {
    exists i, j :: 0 <= i <= j <= |text| && text[i..j] == part
  }

  function NonNull(values: seq<Value>): seq<Value> {
    if values == [] then []
    else if values[0].Null? then NonNull(values[1..])
    else [values[0]] + NonNull(values[1..])
  }

  lemma NonNullOne(v: Value)
    ensures NonNull([v]) == if v.Null? then [] else [v]
  {
    assert [v][1..] == [];
  }

  lemma NonNullConcat(a: seq<Value>, b: seq<Value>)
    ensures NonNull(a + b) == NonNull(a) + NonNull(b)
  {
    if a == [] {
      assert a + b == b;
    } else {
      assert (a + b)[1..] == a[1..] + b;
      NonNullConcat(a[1..], b);
    }
  }
}
