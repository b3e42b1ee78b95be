/**
 What the decoder accepts and what it means: a declarative relation between JSON and
 values, the grammar of accepted JSON, and a canonical encoder that decoding undoes.
 */
module ConvertTheorems {
  import opened Wrappers
  import opened Values
  import opened Convert

  // ---------------------------------------------------------------- meaning of accepted JSON

  /** The 64-bit signed integers. */
  predicate Fits(i: int) {
    -0x8000_0000_0000_0000 <= i <= 0x7FFF_FFFF_FFFF_FFFF
  }

  predicate OneDollarKey(fields: seq<Field>) {
    |fields| == 1 && "$" <= fields[0].key
  }

  /** `v` is the value that the JSON `j` stands for. */
  ghost predicate Denotes(b64: Base64, j: Json, v: MontyObject)
    decreases j, 1
  {
    match j
    case JNull => v == PyNone
    case JBool(b) => v == Bool(b)
    case JNumber(IntLiteral(i)) => Fits(i) && v == Int(i)
    case JNumber(FloatLiteral(f)) => v == PyFloat(Finite(f))
    case JString(s) => v == Str(s)
    case JArray(items) => v.List? && DenotesAll(b64, items, v.items)
    case JObject(fields) =>
      if OneDollarKey(fields) then DenotesTagged(b64, fields[0].key, fields[0].value, v)
      else
        && v.Dict? && |v.pairs| == |fields|
        && forall i :: 0 <= i < |fields| ==>
           v.pairs[i].key == Str(fields[i].key) && Denotes(b64, fields[i].value, v.pairs[i].value)
  }

  ghost predicate DenotesAll(b64: Base64, items: seq<Json>, vs: seq<MontyObject>)
    decreases items, 0
  {
    |vs| == |items| && forall i :: 0 <= i < |items| ==> Denotes(b64, items[i], vs[i])
  }

  ghost predicate DenotesPair(b64: Base64, entry: Json, pair: Pair)
    decreases entry, 2
  {
    && entry.JArray? && |entry.elements| == 2
    && Denotes(b64, entry.elements[0], pair.key) && Denotes(b64, entry.elements[1], pair.value)
  }

  ghost predicate DenotesTagged(b64: Base64, tag: string, body: Json, v: MontyObject)
    decreases body, 2
  {
    || (tag == "$tuple" && body.JArray? && v.Tuple? && DenotesAll(b64, body.elements, v.items))
    || (tag == "$set" && body.JArray? && v.Set? && DenotesAll(b64, body.elements, v.items))
    || (tag == "$frozenset" && body.JArray? && v.FrozenSet? && DenotesAll(b64, body.elements, v.items))
    || (tag == "$bytes" && body.JString? && v.Bytes? && b64(body.s) == Some(v.bytes))
    || (tag == "$bytes" && body.JArray? && v.Bytes? && |v.bytes| == |body.elements|
        && forall i :: 0 <= i < |v.bytes| ==> body.elements[i] == JNumber(IntLiteral(v.bytes[i] as int)))
    || (tag == "$ellipsis" && v == Ellipsis)
    || (tag == "$float" && (|| (body == JString("nan") && v == PyFloat(NaN))
                            || (body == JString("inf") && v == PyFloat(PosInfinity))
                            || (body == JString("-inf") && v == PyFloat(NegInfinity))))
    || (tag == "$dict" && body.JArray? && v.Dict? && |v.pairs| == |body.elements|
        && forall i :: 0 <= i < |v.pairs| ==> DenotesPair(b64, body.elements[i], v.pairs[i]))
    || (tag == "$function" && body.JString? && v == Function(body.s, None))
    || (tag == "$path" && body.JString? && v == Path(body.s))
  }

  /** The decoder computes exactly the meaning: it yields `v` if and only if the JSON stands for `v`. */
  lemma {:induction false} DecodesIffDenotes(b64: Base64, j: Json, v: MontyObject)
    ensures Decode(b64, j) == Ok(v) <==> Denotes(b64, j, v)
    decreases j, 1
  {
    match j
    case JArray(items) =>
      if v.List? {
        AllDecodeIffDenote(b64, items, v.items);
      }
    case JObject(fields) =>
      if OneDollarKey(fields) {
        TaggedDecodesIffDenotes(b64, fields[0].key, fields[0].value, v);
      } else if v.Dict? {
        FieldsDecodeIffDenote(b64, fields, v.pairs);
      }
    case _ =>
  }

  lemma {:induction false} AllDecodeIffDenote(b64: Base64, items: seq<Json>, vs: seq<MontyObject>)
    ensures DecodeAll(b64, items) == Ok(vs) <==> DenotesAll(b64, items, vs)
    decreases items, 0
  {
    if items != [] {
      var n := |items| - 1;
      if |vs| == n + 1 {
        AllDecodeIffDenote(b64, items[..n], vs[..n]);
        DecodesIffDenotes(b64, items[n], vs[n]);
        assert vs == vs[..n] + [vs[n]];
      }
      if DecodeAll(b64, items) == Ok(vs) {
        var head := DecodeAll(b64, items[..n]).value;
        AllDecodeIffDenote(b64, items[..n], head);
        assert vs[..n] == head;
      }
    }
  }

  ghost predicate DenotesFields(b64: Base64, fields: seq<Field>, pairs: seq<Pair>) {
    && |pairs| == |fields|
    && forall i :: 0 <= i < |fields| ==>
       pairs[i].key == Str(fields[i].key) && Denotes(b64, fields[i].value, pairs[i].value)
  }

  lemma {:induction false} FieldsDecodeIffDenote(b64: Base64, fields: seq<Field>, pairs: seq<Pair>)
    ensures DecodeFields(b64, fields) == Ok(pairs) <==> DenotesFields(b64, fields, pairs)
    decreases fields, 0
  {
    if fields != [] {
      var n := |fields| - 1;
      if |pairs| == n + 1 {
        FieldsDecodeIffDenote(b64, fields[..n], pairs[..n]);
        DecodesIffDenotes(b64, fields[n].value, pairs[n].value);
        assert pairs == pairs[..n] + [pairs[n]];
      }
      if DecodeFields(b64, fields) == Ok(pairs) {
        var head := DecodeFields(b64, fields[..n]).value;
        FieldsDecodeIffDenote(b64, fields[..n], head);
        assert pairs[..n] == head;
      }
    }
  }

  ghost predicate DenotesEntries(b64: Base64, entries: seq<Json>, pairs: seq<Pair>) {
    |pairs| == |entries| && forall i :: 0 <= i < |pairs| ==> DenotesPair(b64, entries[i], pairs[i])
  }

  lemma {:induction false} EntriesDecodeIffDenote(b64: Base64, entries: seq<Json>, pairs: seq<Pair>)
    ensures DecodeEntries(b64, entries) == Ok(pairs) <==> DenotesEntries(b64, entries, pairs)
    decreases entries, 0
  {
    if entries != [] {
      var n := |entries| - 1;
      if |pairs| == n + 1 {
        EntriesDecodeIffDenote(b64, entries[..n], pairs[..n]);
        var entry := entries[n];
        if entry.JArray? && |entry.elements| == 2 {
          DecodesIffDenotes(b64, entry.elements[0], pairs[n].key);
          DecodesIffDenotes(b64, entry.elements[1], pairs[n].value);
        }
        assert pairs == pairs[..n] + [pairs[n]];
      }
      if DecodeEntries(b64, entries) == Ok(pairs) {
        var head := DecodeEntries(b64, entries[..n]).value;
        EntriesDecodeIffDenote(b64, entries[..n], head);
        assert pairs[..n] == head;
      }
    }
  }

  lemma {:induction false} TaggedDecodesIffDenotes(b64: Base64, tag: string, body: Json, v: MontyObject)
    ensures Tagged(b64, tag, body) == Ok(v) <==> DenotesTagged(b64, tag, body, v)
    decreases body, 2
  {
    hide DecodeAll, DecodeEntries, ByteArray, DenotesAll, DenotesPair;
    if tag in {"$tuple", "$set", "$frozenset"} {
      if body.JArray? && (v.Tuple? || v.Set? || v.FrozenSet?) {
        AllDecodeIffDenote(b64, body.elements, v.items);
      }
    } else if tag == "$dict" {
      if body.JArray? && v.Dict? {
        EntriesDecodeIffDenote(b64, body.elements, v.pairs);
      }
    } else if tag == "$bytes" {
      if body.JArray? && v.Bytes? {
        ByteArrayIffLiterals(body.elements, v.bytes);
      }
    }
  }

  lemma ByteArrayIffLiterals(items: seq<Json>, bytes: seq<Byte>)
    ensures ByteArray(items) == Ok(bytes) <==>
            |bytes| == |items| && forall i :: 0 <= i < |bytes| ==> items[i] == JNumber(IntLiteral(bytes[i] as int))
  {
    if ByteArray(items).Ok? && |bytes| == |items|
       && (forall i :: 0 <= i < |bytes| ==> items[i] == JNumber(IntLiteral(bytes[i] as int))) {
      assert ByteArray(items).value == bytes;
    }
    if |bytes| == |items| && forall i :: 0 <= i < |bytes| ==> items[i] == JNumber(IntLiteral(bytes[i] as int)) {
      assert forall i :: 0 <= i < |items| ==> IsByteLiteral(items[i]);
    }
  }

  // ---------------------------------------------------------------- the grammar of accepted JSON

  predicate IsByte(item: Json) {
    match item
    case JNumber(IntLiteral(i)) => 0 <= i < 256
    case _ => false
  }

  /** The JSON that the decoder accepts, as a grammar. */
  ghost predicate Accepted(b64: Base64, j: Json)
    decreases j, 1
  {
    match j
    case JNumber(IntLiteral(i)) => Fits(i)
    case JArray(items) => AllAccepted(b64, items)
    case JObject(fields) =>
      if OneDollarKey(fields) then AcceptedTag(b64, fields[0].key, fields[0].value)
      else forall i :: 0 <= i < |fields| ==> Accepted(b64, fields[i].value)
    case _ => true
  }

  ghost predicate AllAccepted(b64: Base64, items: seq<Json>)
    decreases items, 0
  {
    forall i :: 0 <= i < |items| ==> Accepted(b64, items[i])
  }

  ghost predicate AcceptedEntry(b64: Base64, entry: Json)
    decreases entry, 2
  {
    entry.JArray? && |entry.elements| == 2 && Accepted(b64, entry.elements[0]) && Accepted(b64, entry.elements[1])
  }

  ghost predicate AcceptedTag(b64: Base64, tag: string, body: Json)
    decreases body, 2
  {
    || (tag in {"$tuple", "$set", "$frozenset"} && body.JArray? && AllAccepted(b64, body.elements))
    || (tag == "$bytes" && body.JString? && b64(body.s).Some?)
    || (tag == "$bytes" && body.JArray? && forall i :: 0 <= i < |body.elements| ==> IsByte(body.elements[i]))
    || tag == "$ellipsis"
    || (tag == "$float" && body in {JString("nan"), JString("inf"), JString("-inf")})
    || (tag == "$dict" && body.JArray? && forall i :: 0 <= i < |body.elements| ==> AcceptedEntry(b64, body.elements[i]))
    || (tag in {"$function", "$path"} && body.JString?)
  }

  /** The decoder succeeds on exactly the grammar. */
  lemma {:induction false} DecodesIffAccepted(b64: Base64, j: Json)
    ensures Decode(b64, j).Ok? <==> Accepted(b64, j)
    decreases j, 1
  {
    match j
    case JArray(items) => AllDecodeIffAccepted(b64, items);
    case JObject(fields) =>
      if OneDollarKey(fields) {
        var body := fields[0].value;
        if body.JArray? {
          BytesAreLiterals(body.elements);
          AllDecodeIffAccepted(b64, body.elements);
          EntriesDecodeIffAccepted(b64, body.elements);
        }
      } else {
        FieldsDecodeIffAccepted(b64, fields);
      }
    case _ =>
  }

  lemma {:induction false} AllDecodeIffAccepted(b64: Base64, items: seq<Json>)
    ensures DecodeAll(b64, items).Ok? <==> AllAccepted(b64, items)
    decreases items, 0
  {
    if items != [] {
      AllDecodeIffAccepted(b64, items[..|items| - 1]);
      DecodesIffAccepted(b64, items[|items| - 1]);
    }
  }

  lemma {:induction false} FieldsDecodeIffAccepted(b64: Base64, fields: seq<Field>)
    ensures DecodeFields(b64, fields).Ok? <==> forall i :: 0 <= i < |fields| ==> Accepted(b64, fields[i].value)
    decreases fields, 0
  {
    if fields != [] {
      var head := fields[..|fields| - 1];
      FieldsDecodeIffAccepted(b64, head);
      DecodesIffAccepted(b64, fields[|fields| - 1].value);
      if forall i :: 0 <= i < |fields| ==> Accepted(b64, fields[i].value) {
        forall i | 0 <= i < |head| ensures Accepted(b64, head[i].value) {
          assert Accepted(b64, fields[i].value);
        }
      }
      if DecodeFields(b64, fields).Ok? {
        forall i | 0 <= i < |fields| ensures Accepted(b64, fields[i].value) {
          assert i < |head| ==> fields[i] == head[i];
        }
      }
    }
  }

  lemma {:induction false} EntriesDecodeIffAccepted(b64: Base64, entries: seq<Json>)
    ensures DecodeEntries(b64, entries).Ok? <==> forall i :: 0 <= i < |entries| ==> AcceptedEntry(b64, entries[i])
    decreases entries, 0
  {
    if entries != [] {
      EntriesDecodeIffAccepted(b64, entries[..|entries| - 1]);
      var entry := entries[|entries| - 1];
      if entry.JArray? && |entry.elements| == 2 {
        DecodesIffAccepted(b64, entry.elements[0]);
        DecodesIffAccepted(b64, entry.elements[1]);
      }
    }
  }

  // ---------------------------------------------------------------- what is reported of the rest

  /** What is wrong with JSON that is not accepted: the first thing that is, read left to right. */
  ghost predicate Fails(b64: Base64, j: Json, e: ConvertError)
    decreases j, 1
  {
    match j
    case JNumber(IntLiteral(i)) => !Fits(i) && e == IntegerOutOfRange(i)
    case JArray(items) => FailsFirst(b64, items, e)
    case JObject(fields) =>
      if OneDollarKey(fields) then FailsTag(b64, fields[0].key, fields[0].value, e)
      else FailsFirstField(b64, fields, e)
    case _ => false
  }

  ghost predicate FailsFirst(b64: Base64, items: seq<Json>, e: ConvertError)
    decreases items, 0
  {
    exists k :: 0 <= k < |items| && Fails(b64, items[k], e) && forall i :: 0 <= i < k ==> Accepted(b64, items[i])
  }

  ghost predicate FailsFirstField(b64: Base64, fields: seq<Field>, e: ConvertError)
    decreases fields, 0
  {
    exists k ::
      && 0 <= k < |fields| && Fails(b64, fields[k].value, e)
      && forall i :: 0 <= i < k ==> Accepted(b64, fields[i].value)
  }

  ghost predicate FailsEntry(b64: Base64, entry: Json, e: ConvertError)
    decreases entry, 2
  {
    if !(entry.JArray? && |entry.elements| == 2) then e == DictEntryShape
    else
      || Fails(b64, entry.elements[0], e)
      || (Accepted(b64, entry.elements[0]) && Fails(b64, entry.elements[1], e))
  }

  ghost predicate FailsTag(b64: Base64, tag: string, body: Json, e: ConvertError)
    decreases body, 2
  {
    if tag == "$tuple" || tag == "$set" || tag == "$frozenset" then
      if body.JArray? then FailsFirst(b64, body.elements, e) else e == ExpectsArray(tag)
    else if tag == "$bytes" then
      if body.JString? then b64(body.s).None? && e == InvalidBase64
      else if body.JArray? then (exists k :: 0 <= k < |body.elements| && !IsByte(body.elements[k])) && e == NonByteValue
      else e == BytesShape
    else if tag == "$ellipsis" then false
    else if tag == "$float" then body !in {JString("nan"), JString("inf"), JString("-inf")} && e == FloatShape
    else if tag == "$dict" then
      if body.JArray? then
        exists k ::
          && 0 <= k < |body.elements| && FailsEntry(b64, body.elements[k], e)
          && forall i :: 0 <= i < k ==> AcceptedEntry(b64, body.elements[i])
      else e == DictShape
    else if tag == "$function" then !body.JString? && e == FunctionShape
    else if tag == "$path" then !body.JString? && e == PathShape
    else e == UnsupportedTag(tag)
  }

  /** The decoder reports exactly that. */
  lemma {:induction false} DecodeFailsIff(b64: Base64, j: Json, e: ConvertError)
    ensures Decode(b64, j) == Err(e) <==> Fails(b64, j, e)
    decreases j, 1
  {
    match j
    case JArray(items) => AllDecodeFailsIff(b64, items, e);
    case JObject(fields) =>
      if OneDollarKey(fields) {
        TagFailsIff(b64, fields[0].key, fields[0].value, e);
      } else {
        FieldsDecodeFailsIff(b64, fields, e);
      }
    case _ =>
  }

  /** The first failure is in front of the last element, or it is the last element. */
  lemma FailsFirstSplits(b64: Base64, items: seq<Json>, e: ConvertError)
    requires items != []
    ensures var n := |items| - 1;
            FailsFirst(b64, items, e) <==>
              FailsFirst(b64, items[..n], e) || (AllAccepted(b64, items[..n]) && Fails(b64, items[n], e))
  {
    hide Fails, Accepted;
    var n := |items| - 1;
    var head := items[..n];
    if FailsFirst(b64, items, e) {
      var k :| 0 <= k < |items| && Fails(b64, items[k], e) && forall i :: 0 <= i < k ==> Accepted(b64, items[i]);
      forall i | 0 <= i < k && i < n ensures Accepted(b64, head[i]) {
        assert head[i] == items[i];
      }
      assert k < n ==> head[k] == items[k];
    }
    if FailsFirst(b64, head, e) {
      var k :| 0 <= k < n && Fails(b64, head[k], e) && forall i :: 0 <= i < k ==> Accepted(b64, head[i]);
      forall i | 0 <= i < k ensures Accepted(b64, items[i]) {
        assert head[i] == items[i];
      }
      assert Fails(b64, items[k], e);
    }
    if AllAccepted(b64, head) {
      forall i | 0 <= i < n ensures Accepted(b64, items[i]) {
        assert head[i] == items[i];
      }
    }
  }

  lemma {:induction false} AllDecodeFailsIff(b64: Base64, items: seq<Json>, e: ConvertError)
    ensures DecodeAll(b64, items) == Err(e) <==> FailsFirst(b64, items, e)
    decreases items, 0
  {
    if items != [] {
      var n := |items| - 1;
      AllDecodeFailsIff(b64, items[..n], e);
      AllDecodeIffAccepted(b64, items[..n]);
      DecodeFailsIff(b64, items[n], e);
      FailsFirstSplits(b64, items, e);
      hide Fails, AllAccepted, Decode, FailsFirst;
    }
  }

  lemma FailsFirstFieldSplits(b64: Base64, fields: seq<Field>, e: ConvertError)
    requires fields != []
    ensures var n := |fields| - 1;
            FailsFirstField(b64, fields, e) <==>
              || FailsFirstField(b64, fields[..n], e)
              || ((forall i :: 0 <= i < n ==> Accepted(b64, fields[..n][i].value)) && Fails(b64, fields[n].value, e))
  {
    hide Fails, Accepted;
    var n := |fields| - 1;
    var head := fields[..n];
    if FailsFirstField(b64, fields, e) {
      var k :| && 0 <= k < |fields| && Fails(b64, fields[k].value, e)
               && forall i :: 0 <= i < k ==> Accepted(b64, fields[i].value);
      forall i | 0 <= i < k && i < n ensures Accepted(b64, head[i].value) {
        assert head[i] == fields[i];
      }
      assert k < n ==> head[k] == fields[k];
    }
    if FailsFirstField(b64, head, e) {
      var k :| && 0 <= k < n && Fails(b64, head[k].value, e)
               && forall i :: 0 <= i < k ==> Accepted(b64, head[i].value);
      forall i | 0 <= i < k ensures Accepted(b64, fields[i].value) {
        assert head[i] == fields[i];
      }
      assert Fails(b64, fields[k].value, e);
    }
    if forall i :: 0 <= i < n ==> Accepted(b64, head[i].value) {
      forall i | 0 <= i < n ensures Accepted(b64, fields[i].value) {
        assert head[i] == fields[i];
      }
    }
  }

  lemma {:induction false} FieldsDecodeFailsIff(b64: Base64, fields: seq<Field>, e: ConvertError)
    ensures DecodeFields(b64, fields) == Err(e) <==> FailsFirstField(b64, fields, e)
    decreases fields, 0
  {
    if fields != [] {
      var n := |fields| - 1;
      FieldsDecodeFailsIff(b64, fields[..n], e);
      FieldsDecodeIffAccepted(b64, fields[..n]);
      DecodeFailsIff(b64, fields[n].value, e);
      FailsFirstFieldSplits(b64, fields, e);
      hide Fails, Accepted, Decode, FailsFirstField;
    }
  }

  lemma {:induction false} EntryDecodeFailsIff(b64: Base64, entry: Json, e: ConvertError)
    ensures DecodeEntry(b64, entry) == Err(e) <==> FailsEntry(b64, entry, e)
    ensures DecodeEntry(b64, entry).Ok? <==> AcceptedEntry(b64, entry)
    decreases entry, 2
  {
    if entry.JArray? && |entry.elements| == 2 {
      DecodeFailsIff(b64, entry.elements[0], e);
      DecodeFailsIff(b64, entry.elements[1], e);
      DecodesIffAccepted(b64, entry.elements[0]);
      DecodesIffAccepted(b64, entry.elements[1]);
    }
  }

  lemma {:induction false} EntriesDecodeFailsIff(b64: Base64, entries: seq<Json>, e: ConvertError)
    ensures DecodeEntries(b64, entries) == Err(e) <==>
              exists k ::
                && 0 <= k < |entries| && FailsEntry(b64, entries[k], e)
                && forall i :: 0 <= i < k ==> AcceptedEntry(b64, entries[i])
    decreases entries, 0
  {
    if entries != [] {
      var n := |entries| - 1;
      var head := entries[..n];
      EntriesDecodeFailsIff(b64, head, e);
      EntriesDecodeIffAccepted(b64, head);
      EntryDecodeFailsIff(b64, entries[n], e);
      hide FailsEntry, AcceptedEntry, DecodeEntry;
      forall i | 0 <= i < n ensures head[i] == entries[i] {
      }
      if k :| 0 <= k < n && FailsEntry(b64, head[k], e) && forall i :: 0 <= i < k ==> AcceptedEntry(b64, head[i]) {
        assert FailsEntry(b64, entries[k], e) && forall i :: 0 <= i < k ==> AcceptedEntry(b64, entries[i]);
      }
      if k :| 0 <= k < n && FailsEntry(b64, entries[k], e)
              && forall i :: 0 <= i < k ==> AcceptedEntry(b64, entries[i]) {
        assert FailsEntry(b64, head[k], e) && forall i :: 0 <= i < k ==> AcceptedEntry(b64, head[i]);
      }
    }
  }

  lemma {:induction false} TagFailsIff(b64: Base64, tag: string, body: Json, e: ConvertError)
    ensures Tagged(b64, tag, body) == Err(e) <==> FailsTag(b64, tag, body, e)
    decreases body, 2
  {
    hide DecodeAll, DecodeEntries, FailsFirst, FailsEntry, AcceptedEntry;
    if body.JArray? {
      AllDecodeFailsIff(b64, body.elements, e);
      EntriesDecodeFailsIff(b64, body.elements, e);
      BytesAreLiterals(body.elements);
    }
  }

  lemma BytesAreLiterals(items: seq<Json>)
    ensures forall i :: 0 <= i < |items| ==> (IsByteLiteral(items[i]) <==> IsByte(items[i]))
  {
  }

  // ---------------------------------------------------------------- the canonical encoder

  /** Values that some JSON can stand for. */
  ghost predicate Expressible(v: MontyObject) {
    match v
    case Int(i) => Fits(i)
    case List(items) => forall i :: 0 <= i < |items| ==> Expressible(items[i])
    case Tuple(items) => forall i :: 0 <= i < |items| ==> Expressible(items[i])
    case Set(items) => forall i :: 0 <= i < |items| ==> Expressible(items[i])
    case FrozenSet(items) => forall i :: 0 <= i < |items| ==> Expressible(items[i])
    case Dict(pairs) => forall i :: 0 <= i < |pairs| ==> Expressible(pairs[i].key) && Expressible(pairs[i].value)
    case Function(_, docstring) => docstring.None?
    case Opaque(_) => false
    case _ => true
  }

  predicate StringLess(a: string, b: string) {
    if b == "" then false
    else if a == "" then true
    else a[0] < b[0] || (a[0] == b[0] && StringLess(a[1..], b[1..]))
  }

  /** A map iterates its keys in strictly ascending order. */
  ghost predicate Ascending(keys: seq<string>) {
    forall i, j :: 0 <= i < j < |keys| ==> StringLess(keys[i], keys[j])
  }

  function KeysOf(pairs: seq<Pair>): seq<string>
    requires forall i :: 0 <= i < |pairs| ==> pairs[i].key.Str?
  {
    seq(|pairs|, i requires 0 <= i < |pairs| => pairs[i].key.s)
  }

  /** Dicts that a plain JSON object can carry: string keys in map order, and not mistakable for a tag. */
  ghost predicate IsPlain(pairs: seq<Pair>) {
    && (forall i :: 0 <= i < |pairs| ==> pairs[i].key.Str?)
    && Ascending(KeysOf(pairs))
    && !(|pairs| == 1 && "$" <= pairs[0].key.s)
  }

  function Tag(tag: string, body: Json): Json {
    JObject([Field(tag, body)])
  }

  ghost function EncodeAll(items: seq<MontyObject>): (js: seq<Json>)
    requires forall i :: 0 <= i < |items| ==> Expressible(items[i])
    ensures |js| == |items|
    ensures forall i :: 0 <= i < |items| ==> js[i] == Encode(items[i])
    decreases items, 0
  {
    if items == [] then [] else [Encode(items[0])] + EncodeAll(items[1..])
  }

  /** The documented natural form of a value. */
  ghost function Encode(v: MontyObject): Json
    requires Expressible(v)
    decreases v, 1
  {
    match v
    case PyNone => JNull
    case Bool(b) => JBool(b)
    case Int(i) => JNumber(IntLiteral(i))
    case PyFloat(Finite(f)) => JNumber(FloatLiteral(f))
    case PyFloat(NaN) => Tag("$float", JString("nan"))
    case PyFloat(PosInfinity) => Tag("$float", JString("inf"))
    case PyFloat(NegInfinity) => Tag("$float", JString("-inf"))
    case Str(s) => JString(s)
    case List(items) => JArray(EncodeAll(items))
    case Tuple(items) => Tag("$tuple", JArray(EncodeAll(items)))
    case Set(items) => Tag("$set", JArray(EncodeAll(items)))
    case FrozenSet(items) => Tag("$frozenset", JArray(EncodeAll(items)))
    case Bytes(bytes) =>
      Tag("$bytes", JArray(seq(|bytes|, i requires 0 <= i < |bytes| => JNumber(IntLiteral(bytes[i] as int)))))
    case Ellipsis => Tag("$ellipsis", JString("..."))
    case Function(name, _) => Tag("$function", JString(name))
    case Path(path) => Tag("$path", JString(path))
    case Dict(pairs) =>
      if IsPlain(pairs) then JObject(EncodeFields(pairs)) else Tag("$dict", JArray(EncodeEntries(pairs)))
  }

  ghost function EncodeField(pair: Pair): Field
    requires pair.key.Str? && Expressible(pair.value)
    decreases pair, 2
  {
    Field(pair.key.s, Encode(pair.value))
  }

  ghost function EncodeFields(pairs: seq<Pair>): (fields: seq<Field>)
    requires forall i :: 0 <= i < |pairs| ==> pairs[i].key.Str? && Expressible(pairs[i].value)
    ensures |fields| == |pairs|
    ensures forall i :: 0 <= i < |pairs| ==> fields[i] == EncodeField(pairs[i])
    decreases pairs, 0
  {
    if pairs == [] then [] else [EncodeField(pairs[0])] + EncodeFields(pairs[1..])
  }

  ghost function EncodeEntry(pair: Pair): Json
    requires Expressible(pair.key) && Expressible(pair.value)
    decreases pair, 2
  {
    JArray([Encode(pair.key), Encode(pair.value)])
  }

  ghost function EncodeEntries(pairs: seq<Pair>): (entries: seq<Json>)
    requires forall i :: 0 <= i < |pairs| ==> Expressible(pairs[i].key) && Expressible(pairs[i].value)
    ensures |entries| == |pairs|
    ensures forall i :: 0 <= i < |pairs| ==> entries[i] == EncodeEntry(pairs[i])
    decreases pairs, 0
  {
    if pairs == [] then [] else [EncodeEntry(pairs[0])] + EncodeEntries(pairs[1..])
  }

  lemma {:induction false} EncodingDenotes(b64: Base64, v: MontyObject)
    requires Expressible(v)
    ensures Denotes(b64, Encode(v), v)
    decreases v, 0
  {
    match v
    case List(items) => AllEncodingsDenote(b64, items);
    case Tuple(items) => AllEncodingsDenote(b64, items);
    case Set(items) => AllEncodingsDenote(b64, items);
    case FrozenSet(items) => AllEncodingsDenote(b64, items);
    case Dict(pairs) => DictEncodingDenotes(b64, pairs);
    case _ =>
  }

  lemma {:induction false} DictEncodingDenotes(b64: Base64, pairs: seq<Pair>)
    requires Expressible(Dict(pairs))
    ensures Denotes(b64, Encode(Dict(pairs)), Dict(pairs))
    decreases pairs, 1
  {
    forall i | 0 <= i < |pairs|
      ensures Denotes(b64, Encode(pairs[i].key), pairs[i].key) && Denotes(b64, Encode(pairs[i].value), pairs[i].value)
    {
      var pair := pairs[i];
      assert pair < Dict(pairs);
      EncodingDenotes(b64, pair.key);
      EncodingDenotes(b64, pair.value);
    }
  }

  lemma {:induction false} AllEncodingsDenote(b64: Base64, items: seq<MontyObject>)
    requires forall i :: 0 <= i < |items| ==> Expressible(items[i])
    ensures DenotesAll(b64, EncodeAll(items), items)
    decreases items
  {
    forall i | 0 <= i < |items| ensures Denotes(b64, Encode(items[i]), items[i]) {
      EncodingDenotes(b64, items[i]);
    }
  }

  /** Decoding undoes the canonical encoder on every value that JSON can express. */
  lemma DecodeUndoesEncode(b64: Base64, v: MontyObject)
    requires Expressible(v)
    ensures Decode(b64, Encode(v)) == Ok(v)
  {
    EncodingDenotes(b64, v);
    DecodesIffDenotes(b64, Encode(v), v);
  }

  lemma {:induction false} DenotedIsExpressible(b64: Base64, j: Json, v: MontyObject)
    requires Denotes(b64, j, v)
    ensures Expressible(v)
    decreases j
  {
    match j
    case JArray(items) =>
      forall i | 0 <= i < |items| ensures Expressible(v.items[i]) {
        DenotedIsExpressible(b64, items[i], v.items[i]);
      }
    case JObject(fields) =>
      if OneDollarKey(fields) {
        var (tag, body) := (fields[0].key, fields[0].value);
        assert body < j;
        if v.Tuple? || v.Set? || v.FrozenSet? {
          assert DenotesAll(b64, body.elements, v.items);
          forall i | 0 <= i < |v.items| ensures Expressible(v.items[i]) {
            DenotedIsExpressible(b64, body.elements[i], v.items[i]);
          }
        } else if v.Dict? {
          forall i | 0 <= i < |v.pairs| ensures Expressible(v.pairs[i].key) && Expressible(v.pairs[i].value) {
            var entry := body.elements[i];
            assert DenotesPair(b64, entry, v.pairs[i]);
            DenotedIsExpressible(b64, entry.elements[0], v.pairs[i].key);
            DenotedIsExpressible(b64, entry.elements[1], v.pairs[i].value);
          }
        }
      } else {
        forall i | 0 <= i < |fields| ensures Expressible(v.pairs[i].key) && Expressible(v.pairs[i].value) {
          var field := fields[i];
          DenotedIsExpressible(b64, field.value, v.pairs[i].value);
        }
      }
    case _ =>
  }

  /** The decoder's range is exactly the expressible values. */
  lemma RangeIsExpressible(b64: Base64, v: MontyObject)
    ensures Expressible(v) <==> exists j :: Decode(b64, j) == Ok(v)
  {
    if Expressible(v) {
      DecodeUndoesEncode(b64, v);
    }
    if j :| Decode(b64, j) == Ok(v) {
      DecodesIffDenotes(b64, j, v);
      DenotedIsExpressible(b64, j, v);
    }
  }

  /** Every object in the JSON has its keys in map order, so the JSON can exist as a parsed document. */
  ghost predicate IsDocument(j: Json) {
    match j
    case JArray(items) => forall i :: 0 <= i < |items| ==> IsDocument(items[i])
    case JObject(fields) =>
      && (forall i, k :: 0 <= i < k < |fields| ==> StringLess(fields[i].key, fields[k].key))
      && forall i :: 0 <= i < |fields| ==> IsDocument(fields[i].value)
    case _ => true
  }

  lemma {:induction false} EncodingIsDocument(v: MontyObject)
    requires Expressible(v)
    ensures IsDocument(Encode(v))
    decreases v, 0
  {
    match v
    case List(items) => AllEncodingsAreDocuments(items);
    case Tuple(items) => AllEncodingsAreDocuments(items);
    case Set(items) => AllEncodingsAreDocuments(items);
    case FrozenSet(items) => AllEncodingsAreDocuments(items);
    case Dict(pairs) => DictEncodingIsDocument(pairs);
    case _ =>
  }

  lemma {:induction false} DictEncodingIsDocument(pairs: seq<Pair>)
    requires Expressible(Dict(pairs))
    ensures IsDocument(Encode(Dict(pairs)))
    decreases pairs, 1
  {
    forall i | 0 <= i < |pairs| ensures IsDocument(Encode(pairs[i].key)) && IsDocument(Encode(pairs[i].value)) {
      var pair := pairs[i];
      EncodingIsDocument(pair.key);
      EncodingIsDocument(pair.value);
    }
    hide IsDocument, Expressible, IsPlain;
    if IsPlain(pairs) {
      FieldsAreDocument(pairs);
    } else {
      EntriesAreDocument(pairs);
    }
  }

  lemma FieldsAreDocument(pairs: seq<Pair>)
    requires forall i :: 0 <= i < |pairs| ==> Expressible(pairs[i].value) && IsDocument(Encode(pairs[i].value))
    requires IsPlain(pairs)
    ensures IsDocument(JObject(EncodeFields(pairs)))
  {
    hide Encode, Expressible, StringLess;
    forall i, k | 0 <= i < k < |pairs| ensures StringLess(pairs[i].key.s, pairs[k].key.s) {
      assert StringLess(KeysOf(pairs)[i], KeysOf(pairs)[k]);
    }
  }

  lemma EntriesAreDocument(pairs: seq<Pair>)
    requires forall i :: 0 <= i < |pairs| ==> Expressible(pairs[i].key) && IsDocument(Encode(pairs[i].key))
    requires forall i :: 0 <= i < |pairs| ==> Expressible(pairs[i].value) && IsDocument(Encode(pairs[i].value))
    ensures IsDocument(Tag("$dict", JArray(EncodeEntries(pairs))))
  {
    hide Encode, Expressible;
  }

  lemma {:induction false} AllEncodingsAreDocuments(items: seq<MontyObject>)
    requires forall i :: 0 <= i < |items| ==> Expressible(items[i])
    ensures IsDocument(JArray(EncodeAll(items)))
    decreases items
  {
    forall i | 0 <= i < |items| ensures IsDocument(Encode(items[i])) {
      EncodingIsDocument(items[i]);
    }
  }

  /** A dict whose only key is a string starting with `$` can only be sent through `$dict`. */
  lemma DollarKeyNeedsDictTag(b64: Base64, j: Json, key: string, value: MontyObject)
    requires "$" <= key
    requires Decode(b64, j) == Ok(Dict([Pair(Str(key), value)]))
    ensures j.JObject? && |j.fields| == 1 && j.fields[0].key == "$dict"
    ensures j.fields[0].value.JArray? && |j.fields[0].value.elements| == 1
  {
    var pairs := [Pair(Str(key), value)];
    assert pairs[0].key == Str(key);
    DecodesIffDenotes(b64, j, Dict(pairs));
  }
}
