/** The JSON values that a request body can carry once it has been parsed. */
module Json {
  import opened Wrappers

  /** A parsed JSON value. Numbers are kept as exact reals. */
  datatype Value =
    | Null
    | Bool(b: bool)
    | Num(n: real)
    | Str(s: string)
    | Arr(items: seq<Value>)
    | Obj(fields: map<string, Value>)

  /** The runtime type names the validator reports as the type it received. */
  datatype JsonType =
    | UndefinedType
    | NullType
    | BooleanType
    | NumberType
    | StringType
    | ArrayType
    | ObjectType

  /** The type the validator sees for a value; `None` is an absent field. */
  function TypeOf(v: Option<Value>): (t: JsonType)
    ensures t == UndefinedType <==> v.None?
    ensures t == StringType <==> v.Some? && v.value.Str?
    ensures t == NumberType <==> v.Some? && v.value.Num?
    ensures t == ArrayType <==> v.Some? && v.value.Arr?
    ensures t == ObjectType <==> v.Some? && v.value.Obj?
  {
    match v
    case None => UndefinedType
    case Some(Null) => NullType
    case Some(Bool(_)) => BooleanType
    case Some(Num(_)) => NumberType
    case Some(Str(_)) => StringType
    case Some(Arr(_)) => ArrayType
    case Some(Obj(_)) => ObjectType
  }

  /** Reads one key of an object: `None` when the key is absent. */
  function Lookup(fields: map<string, Value>, key: string): (v: Option<Value>)
    ensures v.Some? <==> key in fields
    ensures v.Some? ==> v.value == fields[key]
  {
    if key in fields then Some(fields[key]) else None
  }
}
