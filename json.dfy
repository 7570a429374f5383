/**
  The values the template renderer produces (a tree of mappings and sequences
  over scalars) and the Python operations the scheduler applies to them:
  subscription by a string key, `len`, subscription by index 0 and
  `dict.pop`. Each operation fails with the exception Python raises.
 */
module Json {
  import opened Outcomes

  datatype Value =
    | Null
    | Bool(b: bool)
    | Num(n: int)
    | Str(s: string)
    | Arr(items: seq<Value>)
    | Obj(fields: map<string, Value>)

  /** Python's `v[key]` for a string key. */
  function GetItem(v: Value, key: string): (r: Result<Value>)
    ensures r.Success? <==> v.Obj? && key in v.fields
    ensures r.Success? ==> r.value == v.fields[key]
    ensures v.Obj? && key !in v.fields ==> r == Failure(MissingKey(key))
  {
    match v
    case Obj(fields) => if key in fields then Success(fields[key]) else Failure(MissingKey(key))
    case _ => Failure(WrongType)
  }

  /** Python's `len(v)`: defined for lists, dicts and strings only. */
  function Len(v: Value): (r: Result<nat>)
    ensures r.Success? <==> v.Arr? || v.Obj? || v.Str?
    ensures v.Arr? ==> r == Success(|v.items|)
    ensures v.Obj? ==> r == Success(|v.fields|)
    ensures v.Str? ==> r == Success(|v.s|)
  {
    match v
    case Arr(items) => Success(|items|)
    case Obj(fields) => Success(|fields|)
    case Str(s) => Success(|s|)
    case _ => Failure(WrongType)
  }

  /** Python's `v[0]`. */
  function GetFirst(v: Value): (r: Result<Value>)
    ensures r.Success? <==> (v.Arr? && |v.items| > 0) || (v.Str? && |v.s| > 0)
    ensures v.Arr? && |v.items| > 0 ==> r == Success(v.items[0])
  {
    match v
    case Arr(items) => if |items| > 0 then Success(items[0]) else Failure(IndexOutOfRange)
    case Str(s) => if |s| > 0 then Success(Str([s[0]])) else Failure(IndexOutOfRange)
    case Obj(_) => Failure(MissingIndex(0))
    case _ => Failure(WrongType)
  }

  /** What `dict.pop(key)` gives back: the removed value and the dict that remains. */
  datatype Popped = Popped(removed: Value, rest: map<string, Value>)

  /**
    Python's `v.pop(key)` for a string key: only a dict holding `key` succeeds;
    `list.pop` rejects a string argument, and the other kinds have no `pop`.
   */
  function PopKey(v: Value, key: string): (r: Result<Popped>)
    ensures r.Success? <==> v.Obj? && key in v.fields
    ensures r.Success? ==> r.value.removed == v.fields[key]
    ensures r.Success? ==> r.value.rest.Keys == v.fields.Keys - {key}
    ensures r.Success? ==> forall k :: k in r.value.rest ==> r.value.rest[k] == v.fields[k]
  {
    match v
    case Obj(fields) =>
      if key in fields then Success(Popped(fields[key], fields - {key})) else Failure(MissingKey(key))
    case Arr(_) => Failure(WrongType)
    case _ => Failure(NoSuchAttribute)
  }
}
