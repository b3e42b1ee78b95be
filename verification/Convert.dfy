/**
 Decoding of client JSON into interpreter values. `Decode` is the recursive decoder; the
 source fills vectors in loops for objects, byte arrays and `$dict` bodies, and those
 loops are the methods at the end, each proved against the decoder's own clause for it.
 */
module Convert {
  import opened Wrappers
  import opened Values

  /** Base64 decoding is a parameter: it either yields bytes or fails. */
  type Base64 = string -> Option<seq<Byte>>

  datatype ConvertError =
    | IntegerOutOfRange(i: int)
    | UnsupportedTag(tag: string)
    | ExpectsArray(tag: string)
    | InvalidBase64
    | NonByteValue
    | BytesShape
    | FloatShape
    | FunctionShape
    | PathShape
    | DictShape
    | DictEntryShape
    | NonStringKeyword

  type Decoded = Result<MontyObject, ConvertError>

  predicate StartsWithDollar(key: string) {
    key != "" && key[0] == '$'
  }

  /** A one-key object whose key starts with `$` is a tagged value. */
  predicate IsTagged(fields: seq<Field>) {
    |fields| == 1 && StartsWithDollar(fields[0].key)
  }

  function NumberToMonty(n: Number): Decoded {
    match n
    case IntLiteral(i) => if IsI64(i) then Ok(Int(i)) else Err(IntegerOutOfRange(i))
    case FloatLiteral(f) => Ok(PyFloat(Finite(f)))
  }

  function FloatTagToMonty(body: Json): Decoded {
    if body == JString("nan") then Ok(PyFloat(NaN))
    else if body == JString("inf") then Ok(PyFloat(PosInfinity))
    else if body == JString("-inf") then Ok(PyFloat(NegInfinity))
    else Err(FloatShape)
  }

  function FunctionTagToMonty(body: Json): Decoded {
    match body
    case JString(name) => Ok(Function(name, None))
    case _ => Err(FunctionShape)
  }

  function PathTagToMonty(body: Json): Decoded {
    match body
    case JString(path) => Ok(Path(path))
    case _ => Err(PathShape)
  }

  predicate IsByteLiteral(item: Json) {
    item.JNumber? && item.n.IntLiteral? && 0 <= item.n.i <= 255
  }

  function ByteArray(items: seq<Json>): Result<seq<Byte>, ConvertError> {
    if forall i :: 0 <= i < |items| ==> IsByteLiteral(items[i]) then
      Ok(seq(|items|, i requires 0 <= i < |items| => items[i].n.i as Byte))
    else
      Err(NonByteValue)
  }

  function BytesBody(b64: Base64, body: Json): Decoded {
    match body
    case JString(encoded) =>
      (match b64(encoded)
       case Some(bytes) => Ok(Bytes(bytes))
       case None => Err(InvalidBase64))
    case JArray(items) =>
      (match ByteArray(items)
       case Ok(bytes) => Ok(Bytes(bytes))
       case Err(e) => Err(e))
    case _ => Err(BytesShape)
  }

  function Decode(b64: Base64, v: Json): Decoded
    decreases v, 1
  {
    match v
    case JNull => Ok(PyNone)
    case JBool(b) => Ok(Bool(b))
    case JNumber(n) => NumberToMonty(n)
    case JString(s) => Ok(Str(s))
    case JArray(items) =>
      (match DecodeAll(b64, items)
       case Ok(values) => Ok(List(values))
       case Err(e) => Err(e))
    case JObject(fields) =>
      if IsTagged(fields) then Tagged(b64, fields[0].key, fields[0].value)
      else
        match DecodeFields(b64, fields)
        case Ok(pairs) => Ok(Dict(pairs))
        case Err(e) => Err(e)
  }

  function Tagged(b64: Base64, tag: string, body: Json): Decoded
    decreases body, 2
  {
    if tag in {"$tuple", "$set", "$frozenset"} then
      if body.JArray? then
        match DecodeAll(b64, body.elements)
        case Err(e) => Err(e)
        case Ok(items) =>
          Ok(if tag == "$tuple" then Tuple(items) else if tag == "$set" then Set(items) else FrozenSet(items))
      else Err(ExpectsArray(tag))
    else if tag == "$bytes" then BytesBody(b64, body)
    else if tag == "$ellipsis" then Ok(Ellipsis)
    else if tag == "$float" then FloatTagToMonty(body)
    else if tag == "$dict" then
      if body.JArray? then
        match DecodeEntries(b64, body.elements)
        case Ok(pairs) => Ok(Dict(pairs))
        case Err(e) => Err(e)
      else Err(DictShape)
    else if tag == "$function" then FunctionTagToMonty(body)
    else if tag == "$path" then PathTagToMonty(body)
    else Err(UnsupportedTag(tag))
  }

  /** Decodes a sequence; the leftmost failure is the one reported. */
  function DecodeAll(b64: Base64, items: seq<Json>): Result<seq<MontyObject>, ConvertError>
    decreases items, 0
  {
    if items == [] then Ok([])
    else
      match DecodeAll(b64, items[..|items| - 1])
      case Err(e) => Err(e)
      case Ok(values) =>
        match Decode(b64, items[|items| - 1])
        case Err(e) => Err(e)
        case Ok(value) => Ok(values + [value])
  }

  function DecodeFields(b64: Base64, fields: seq<Field>): Result<seq<Pair>, ConvertError>
    decreases fields, 0
  {
    if fields == [] then Ok([])
    else
      match DecodeFields(b64, fields[..|fields| - 1])
      case Err(e) => Err(e)
      case Ok(pairs) =>
        var last := fields[|fields| - 1];
        match Decode(b64, last.value)
        case Err(e) => Err(e)
        case Ok(value) => Ok(pairs + [Pair(Str(last.key), value)])
  }

  function DecodeEntries(b64: Base64, entries: seq<Json>): Result<seq<Pair>, ConvertError>
    decreases entries, 0
  {
    if entries == [] then Ok([])
    else
      match DecodeEntries(b64, entries[..|entries| - 1])
      case Err(e) => Err(e)
      case Ok(pairs) =>
        match DecodeEntry(b64, entries[|entries| - 1])
        case Err(e) => Err(e)
        case Ok(pair) => Ok(pairs + [pair])
  }

  function DecodeEntry(b64: Base64, entry: Json): Result<Pair, ConvertError>
    decreases entry, 2
  {
    if !(entry.JArray? && |entry.elements| == 2) then Err(DictEntryShape)
    else
      match Decode(b64, entry.elements[0])
      case Err(e) => Err(e)
      case Ok(k) =>
        match Decode(b64, entry.elements[1])
        case Err(e) => Err(e)
        case Ok(v) => Ok(Pair(k, v))
  }

  // ---------------------------------------------------------------- the loops

  method ObjectToMonty(b64: Base64, fields: seq<Field>) returns (r: Decoded)
    ensures r == Decode(b64, JObject(fields))
  {
    if IsTagged(fields) {
      return Tagged(b64, fields[0].key, fields[0].value);
    }
    var pairs: seq<Pair> := [];
    for i := 0 to |fields|
      invariant DecodeFields(b64, fields[..i]) == Ok(pairs)
    {
      assert fields[..i + 1][..i] == fields[..i];
      match Decode(b64, fields[i].value) {
        case Err(e) =>
          FieldsFailEarly(b64, fields, i + 1);
          return Err(e);
        case Ok(v) => pairs := pairs + [Pair(Str(fields[i].key), v)];
      }
    }
    assert fields[..|fields|] == fields;
    return Ok(Dict(pairs));
  }

  method BytesToMonty(b64: Base64, body: Json) returns (r: Decoded)
    ensures r == BytesBody(b64, body)
  {
    match body {
      case JString(encoded) =>
        match b64(encoded) {
          case Some(bytes) => return Ok(Bytes(bytes));
          case None => return Err(InvalidBase64);
        }
      case JArray(items) =>
        var bytes: seq<Byte> := [];
        for i := 0 to |items|
          invariant |bytes| == i
          invariant forall k :: 0 <= k < i ==> IsByteLiteral(items[k]) && bytes[k] == items[k].n.i as Byte
        {
          if !IsByteLiteral(items[i]) {
            return Err(NonByteValue);
          }
          bytes := bytes + [items[i].n.i as Byte];
        }
        assert ByteArray(items).value == bytes;
        return Ok(Bytes(bytes));
      case _ => return Err(BytesShape);
    }
  }

  method DictTagToMonty(b64: Base64, body: Json) returns (r: Decoded)
    ensures r == Tagged(b64, "$dict", body)
  {
    if !body.JArray? {
      return Err(DictShape);
    }
    var entries := body.elements;
    var pairs: seq<Pair> := [];
    for i := 0 to |entries|
      invariant DecodeEntries(b64, entries[..i]) == Ok(pairs)
    {
      assert entries[..i + 1][..i] == entries[..i];
      match DecodeEntry(b64, entries[i]) {
        case Err(e) =>
          EntriesFailEarly(b64, entries, i + 1);
          return Err(e);
        case Ok(pair) => pairs := pairs + [pair];
      }
    }
    assert entries[..|entries|] == entries;
    return Ok(Dict(pairs));
  }

  predicate StringKeyed(kwargs: seq<Pair>) {
    forall i :: 0 <= i < |kwargs| ==> kwargs[i].key.Str?
  }

  /** Keyword arguments as an object, its values left unencoded. */
  function KeywordObject(kwargs: seq<Pair>): map<string, MontyObject>
    requires StringKeyed(kwargs)
  {
    if kwargs == [] then map[]
    else
      var last := kwargs[|kwargs| - 1];
      KeywordObject(kwargs[..|kwargs| - 1])[last.key.s := last.value]
  }

  /** An entry of the object is the last pair with its name, and every pair's name has an entry. */
  lemma {:induction false} KeywordObjectKeepsLast(kwargs: seq<Pair>, name: string)
    requires StringKeyed(kwargs)
    ensures name in KeywordObject(kwargs) <==> exists i :: 0 <= i < |kwargs| && kwargs[i].key == Str(name)
    ensures name in KeywordObject(kwargs) ==>
              exists i ::
                && 0 <= i < |kwargs| && kwargs[i] == Pair(Str(name), KeywordObject(kwargs)[name])
                && forall j :: i < j < |kwargs| ==> kwargs[j].key != Str(name)
  {
    if kwargs != [] {
      var n := |kwargs| - 1;
      KeywordObjectKeepsLast(kwargs[..n], name);
      if kwargs[n].key == Str(name) {
        assert kwargs[n] == Pair(Str(name), KeywordObject(kwargs)[name]);
      } else if name in KeywordObject(kwargs) {
        var i :| 0 <= i < n && kwargs[..n][i] == Pair(Str(name), KeywordObject(kwargs[..n])[name])
                 && forall j :: i < j < n ==> kwargs[..n][j].key != Str(name);
        assert kwargs[i] == Pair(Str(name), KeywordObject(kwargs)[name]);
      } else {
        forall i | 0 <= i < |kwargs| ensures kwargs[i].key != Str(name) {
          assert i < n ==> kwargs[..n][i] == kwargs[i];
        }
      }
    }
  }

  method PairsToJson(pairs: seq<Pair>) returns (r: Result<map<string, MontyObject>, ConvertError>)
    ensures r == if StringKeyed(pairs) then Ok(KeywordObject(pairs)) else Err(NonStringKeyword)
  {
    var entries: map<string, MontyObject> := map[];
    for n := 0 to |pairs|
      invariant StringKeyed(pairs[..n]) && entries == KeywordObject(pairs[..n])
    {
      var Pair(key, value) := pairs[n];
      if !key.Str? {
        return Err(NonStringKeyword);
      }
      assert pairs[..n + 1][..n] == pairs[..n];
      entries := entries[key.s := value];
    }
    assert pairs[..|pairs|] == pairs;
    return Ok(entries);
  }

  lemma {:induction false} FieldsFailEarly(b64: Base64, fields: seq<Field>, n: nat)
    requires n <= |fields| && DecodeFields(b64, fields[..n]).Err?
    ensures DecodeFields(b64, fields) == DecodeFields(b64, fields[..n])
  {
    if n < |fields| {
      assert fields[..|fields| - 1][..n] == fields[..n];
      FieldsFailEarly(b64, fields[..|fields| - 1], n);
    } else {
      assert fields[..n] == fields;
    }
  }

  lemma {:induction false} EntriesFailEarly(b64: Base64, entries: seq<Json>, n: nat)
    requires n <= |entries| && DecodeEntries(b64, entries[..n]).Err?
    ensures DecodeEntries(b64, entries) == DecodeEntries(b64, entries[..n])
  {
    if n < |entries| {
      assert entries[..|entries| - 1][..n] == entries[..n];
      EntriesFailEarly(b64, entries[..|entries| - 1], n);
    } else {
      assert entries[..n] == entries;
    }
  }
}
