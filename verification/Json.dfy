/** JSON values as the Python code holds them, shared by every module that rewrites
    or walks decoded JSON. */
module Json {

  datatype Option<+T> = None | Some(value: T)

  datatype Result<+T, +E> = Ok(value: T) | Err(error: E)

  datatype Json =
    | Null
    | Bool(b: bool)
    | Num(n: real)
    | Str(s: string)
    | Arr(items: seq<Json>)
    | Obj(fields: Fields)

  /** A dictionary in insertion order. */
  datatype Fields = Empty | Field(key: string, val: Json, rest: Fields)

  /** `dict.get`: the value stored under a key. */
  function Get(fs: Fields, key: string): (r: Option<Json>)
    ensures r.Some? ==> (fs decreases to r.value)
  {
    match fs
    case Empty => None
    case Field(k, v, rest) => if k == key then Some(v) else Get(rest, key)
  }

  predicate Has(fs: Fields, key: string) {
    Get(fs, key).Some?
  }

  /** `list(dict)`: the keys in insertion order. */
  function Names(fs: Fields): (names: seq<string>)
    ensures forall k :: k in names <==> Has(fs, k)
  {
    match fs
    case Empty => []
    case Field(k, _, rest) => [k] + Names(rest)
  }

  /** `dict.pop(key, None)`. */
  function Pop(fs: Fields, key: string): (r: Fields)
    ensures forall k :: Get(r, k) == if k == key then None else Get(fs, k)
  {
    match fs
    case Empty => Empty
    case Field(k, v, rest) => if k == key then Pop(rest, key) else Field(k, v, Pop(rest, key))
  }

  /** `dict.pop` for each key of a list. */
  function PopAll(fs: Fields, keys: seq<string>): (r: Fields)
    ensures forall k :: Get(r, k) == if k in keys then None else Get(fs, k)
    decreases |keys|
  {
    if keys == [] then fs else PopAll(Pop(fs, keys[0]), keys[1..])
  }

  /** `dict[key] = val`: in place when the key is present, appended otherwise. */
  function Put(fs: Fields, key: string, val: Json): (r: Fields)
    ensures forall k :: Get(r, k) == if k == key then Some(val) else Get(fs, k)
  {
    match fs
    case Empty => Field(key, val, Empty)
    case Field(k, v, rest) => if k == key then Field(k, val, rest) else Field(k, v, Put(rest, key, val))
  }

  /** Every dictionary inside the value has distinct keys, as Python guarantees. */
  predicate UniqueKeys(j: Json) {
    match j
    case Arr(items) => forall i | 0 <= i < |items| :: UniqueKeys(items[i])
    case Obj(fs) => UniqueFields(fs)
    case _ => true
  }

  predicate UniqueFields(fs: Fields) {
    match fs
    case Empty => true
    case Field(k, v, rest) => !Has(rest, k) && UniqueKeys(v) && UniqueFields(rest)
  }

  lemma UniqueGet(fs: Fields, key: string)
    requires UniqueFields(fs) && Has(fs, key)
    ensures UniqueKeys(Get(fs, key).value)
  {
  }
}
