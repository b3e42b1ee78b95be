/** JSON as clients send it, and the interpreter's values and exceptions. */
module Values {
  import opened Wrappers

  newtype Byte = n: int | 0 <= n < 256

  /** A number already parsed: a whole literal of any size, or a finite float. */
  datatype Number = IntLiteral(i: int) | FloatLiteral(f: real)

  /** An object keeps its fields in the map's iteration order. */
  datatype Json =
    | JNull
    | JBool(b: bool)
    | JNumber(n: Number)
    | JString(s: string)
    | JArray(elements: seq<Json>)
    | JObject(fields: seq<Field>)

  datatype Field = Field(key: string, value: Json)

  datatype Float = Finite(f: real) | NaN | PosInfinity | NegInfinity

  /** Interpreter values. `Opaque` stands for the kinds that have no input form (dates, types, big integers, ...). */
  datatype MontyObject =
    | PyNone
    | Bool(b: bool)
    | Int(i: int)
    | PyFloat(f: Float)
    | Str(s: string)
    | List(items: seq<MontyObject>)
    | Tuple(items: seq<MontyObject>)
    | Set(items: seq<MontyObject>)
    | FrozenSet(items: seq<MontyObject>)
    | Bytes(bytes: seq<Byte>)
    | Ellipsis
    | Dict(pairs: seq<Pair>)
    | Function(name: string, docstring: Option<string>)
    | Path(path: string)
    | Opaque(kind: string)

  datatype Pair = Pair(key: MontyObject, value: MontyObject)

  datatype MontyException = MontyException(excType: string, message: Option<string>)

  predicate IsI64(i: int) {
    -0x8000_0000_0000_0000 <= i <= 0x7FFF_FFFF_FFFF_FFFF
  }
}
