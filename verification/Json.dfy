/** JSON-shaped Python values: what content, observations and documents are made of. */
module Json {

  datatype Value =
    | Null
    | Bool(b: bool)
    | Int(i: int)
    | Str(s: string)
    | List(items: seq<Value>)
    | Obj(fields: Dict)

  type Dict = map<string, Value>

  /** `dict.get(key)`: an absent key reads as None. */
  function Get(d: Dict, key: string): Value {
    if key in d then d[key] else Null
  }

  /** The Python types a field may be declared with. */
  datatype PyType = StrType | IntType | BoolType | ListType | DictType | ObjectType

  /** `isinstance(v, t)`; in Python a bool is an int, and everything is an object. */
  predicate IsInstance(v: Value, t: PyType) {
    match t
    case StrType => v.Str?
    case IntType => v.Int? || v.Bool?
    case BoolType => v.Bool?
    case ListType => v.List?
    case DictType => v.Obj?
    case ObjectType => true
  }
}
