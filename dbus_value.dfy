/**
  The self-describing payload of a D-Bus message, as the D-Bus Specification's
  "Type System" section defines it, reduced to the types the music bot meets.
  A reply body is the sequence of its top-level arguments.
*/
module DBusValue {

  /** One marshalled value. Containers hold their children in wire order. */
  datatype Value =
    | Str(str: string)                    // STRING, type code 's'
    | ObjectPath(path: string)            // OBJECT_PATH, type code 'o'
    | Int64(n: int)                       // stands for any other basic type
    | Array(elems: seq<Value>)            // ARRAY, type code 'a'
    | Struct(fields: seq<Value>)          // STRUCT, type code 'r'
    | DictEntry(key: Value, value: Value) // DICT_ENTRY, type code 'e'
    | Variant(inner: Value)               // VARIANT, type code 'v'

  const TYPE_INVALID: char := '\0'
  const TYPE_STRING: char := 's'
  const TYPE_OBJECT_PATH: char := 'o'
  const TYPE_INT64: char := 'x'
  const TYPE_ARRAY: char := 'a'
  const TYPE_STRUCT: char := 'r'
  const TYPE_DICT_ENTRY: char := 'e'
  const TYPE_VARIANT: char := 'v'

  /** The type code a message iterator reports for a value (dbus_message_iter_get_arg_type). */
  function TypeCode(v: Value): (c: char)
    ensures c != TYPE_INVALID
    ensures c == TYPE_STRING <==> v.Str?
    ensures c == TYPE_OBJECT_PATH <==> v.ObjectPath?
    ensures c == TYPE_ARRAY <==> v.Array?
    ensures c == TYPE_DICT_ENTRY <==> v.DictEntry?
    ensures c == TYPE_VARIANT <==> v.Variant?
  {
    match v
    case Str(_) => TYPE_STRING
    case ObjectPath(_) => TYPE_OBJECT_PATH
    case Int64(_) => TYPE_INT64
    case Array(_) => TYPE_ARRAY
    case Struct(_) => TYPE_STRUCT
    case DictEntry(_, _) => TYPE_DICT_ENTRY
    case Variant(_) => TYPE_VARIANT
  }

  /**
    The type code an iterator positioned at index i over the sibling values vs
    reports: an iterator run past the last sibling reports INVALID.
  */
  function ArgType(vs: seq<Value>, i: nat): (c: char)
    ensures c == TYPE_INVALID <==> i >= |vs|
    ensures i < |vs| ==> c == TypeCode(vs[i])
  {
    if i < |vs| then TypeCode(vs[i]) else TYPE_INVALID
  }
}
