/** Python values as the pipeline sees them after JSON decoding, the exceptions
    the pipeline can raise, and the two mutable containers it works on: a dict
    (an article record, a section) and a list (the section list). */
module Values {

  /** A calendar timestamp with one-second resolution (a Python `datetime`). */
  datatype DateTime = DateTime(year: int, month: int, day: int, hour: int, minute: int, second: int)

  /** A decoded JSON value, plus the `datetime` objects the normaliser stores. */
  datatype Value =
    | Null
    | Bool(b: bool)
    | Int(i: int)
    | Str(s: string)
    | Time(t: DateTime)
    | List(items: seq<Value>)
    | Dict(fields: map<string, Value>)

  /** The Python exceptions that can escape the pipeline. `NotModelled` stands
      for the few Python behaviours this model does not reproduce (iterating a
      dict, formatting a list or dict as text). */
  datatype Error =
    | KeyError(key: string)
    | TypeError
    | AttributeError
    | ValueError
    | IndexError
    | NotModelled

  datatype Result<T> = Ok(value: T) | Err(error: Error)

  datatype Option<T> = None | Some(value: T)

  /** Python truthiness: `None`, `False`, `0`, `""`, `[]` and `{}` are false;
      a `datetime` is always true. */
  predicate Truthy(v: Value): (r: bool)
    ensures r <==> v !in {Null, Bool(false), Int(0), Str(""), List([]), Dict(map[])}
  {
    match v
    case Null => false
    case Bool(b) => b
    case Int(i) => i != 0
    case Str(s) => s != ""
    case Time(_) => true
    case List(items) => items != []
    case Dict(fields) => fields != map[]
  }

  /** `d.get(key, None)` */
  function Get(d: map<string, Value>, key: string): (v: Value)
    ensures key !in d ==> v == Null
    ensures key in d ==> v == d[key]
  {
    if key in d then d[key] else Null
  }

  /** The items a Python `for` loop visits: a list's elements, a string's
      one-character strings; `None`, numbers and datetimes are not iterable. */
  function Iterate(v: Value): (r: Result<seq<Value>>)
    ensures v.List? ==> r == Ok(v.items)
    ensures v.Str? ==> r.Ok? && |r.value| == |v.s| &&
                       forall k :: 0 <= k < |v.s| ==> r.value[k] == Str([v.s[k]])
    ensures (v.Null? || v.Bool? || v.Int? || v.Time?) ==> r == Err(TypeError)
  {
    match v
    case List(items) => Ok(items)
    case Str(s) => Ok(seq(|s|, k requires 0 <= k < |s| => Str([s[k]])))
    case Dict(_) => Err(NotModelled)
    case _ => Err(TypeError)
  }

  /** A Python dict the pipeline updates in place. */
  class MutableDict {
    var entries: map<string, Value>

    constructor (entries: map<string, Value>)
      ensures this.entries == entries
    {
      this.entries := entries;
    }

    /** `d[key] = v` */
    method Set(key: string, v: Value)
      modifies this
      ensures entries == old(entries)[key := v]
    {
      entries := entries[key := v];
    }

    /** `d.pop(key)`: removes and returns the entry, or raises `KeyError`. */
    method Pop(key: string) returns (r: Result<Value>)
      modifies this
      ensures key in old(entries) ==> r == Ok(old(entries)[key]) && entries == old(entries) - {key}
      ensures key !in old(entries) ==> r == Err(KeyError(key)) && entries == old(entries)
    {
      if key in entries {
        r := Ok(entries[key]);
        entries := entries - {key};
      } else {
        r := Err(KeyError(key));
      }
    }
  }

  /** A Python list the pipeline updates in place. */
  class MutableList {
    var items: seq<Value>

    constructor (items: seq<Value>)
      ensures this.items == items
    {
      this.items := items;
    }

    /** `l.append(v)` */
    method Append(v: Value)
      modifies this
      ensures items == old(items) + [v]
    {
      items := items + [v];
    }
  }
}
