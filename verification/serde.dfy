/**
 * JSON values and the decoding rules that serde's derived implementations
 * apply to them, as far as the swap-API data layer relies on them: unsigned
 * integers of a fixed width, booleans, `Option`, externally tagged enums and
 * structs (object form and positional array form).
 */
module Serde {

  /** A JSON value. Object members keep their wire order and may repeat a key. */
  datatype Json =
    | JNull
    | JBool(b: bool)
    | JNum(n: int)
    | JStr(s: string)
    | JArr(items: seq<Json>)
    | JObj(members: seq<(string, Json)>)

  /** Why a decoder rejected its input. */
  datatype DecodeError =
    | InvalidType                  // the JSON value has the wrong shape for the target type
    | OutOfRange                   // an integer outside the target width
    | UnknownVariant(name: string) // a tag that names no variant
    | MissingField(field: string)
    | DuplicateField(field: string)
    | InvalidLength                // positional struct form with too few or too many elements
    | NoVariantMatched             // no variant of an (in part) untagged enum matched
    | ForeignError                 // reported by a codec outside this model

  datatype Option<+T> = None | Some(value: T)

  datatype Result<+T, +E> = Ok(value: T) | Err(error: E) {
    predicate IsFailure() { Err? }
    function PropagateFailure<U>(): Result<U, E> requires Err? { Err(error) }
    function Extract(): T requires Ok? { value }
  }

  type Decoded<+T> = Result<T, DecodeError>

  const U8_MAX: nat := 0xFF
  const U16_MAX: nat := 0xFFFF
  const U32_MAX: nat := 0xFFFF_FFFF
  const U64_MAX: nat := 0xFFFF_FFFF_FFFF_FFFF

  type u8 = n: nat | n <= 0xFF
  type u16 = n: nat | n <= 0xFFFF
  type u32 = n: nat | n <= 0xFFFF_FFFF
  type u64 = n: nat | n <= 0xFFFF_FFFF_FFFF_FFFF

  /** An unsigned integer no larger than `max`: a JSON number in range, nothing else. */
  function DecodeUnsigned(j: Json, max: nat): (r: Decoded<nat>)
    ensures r.Ok? <==> j.JNum? && 0 <= j.n <= max
    ensures r.Ok? ==> j == JNum(r.value) && r.value <= max
  {
    match j
    case JNum(n) => if 0 <= n <= max then Ok(n) else Err(OutOfRange)
    case _ => Err(InvalidType)
  }

  function DecodeU8(j: Json): Decoded<u8> {
    var n :- DecodeUnsigned(j, U8_MAX); Ok(n)
  }

  function DecodeU16(j: Json): Decoded<u16> {
    var n :- DecodeUnsigned(j, U16_MAX); Ok(n)
  }

  function DecodeU32(j: Json): Decoded<u32> {
    var n :- DecodeUnsigned(j, U32_MAX); Ok(n)
  }

  function DecodeU64(j: Json): Decoded<u64> {
    var n :- DecodeUnsigned(j, U64_MAX); Ok(n)
  }

  function DecodeBool(j: Json): Decoded<bool> {
    if j.JBool? then Ok(j.b) else Err(InvalidType)
  }

  /** `Option<T>`: `null` is `None`, anything else must decode as a `T`. */
  function DecodeOptional<T>(j: Json, decode: Json -> Decoded<T>): Decoded<Option<T>> {
    if j == JNull then Ok(None)
    else var v :- decode(j); Ok(Some(v))
  }

  function DecodeOptionalU8(j: Json): Decoded<Option<u8>> { DecodeOptional(j, DecodeU8) }
  function DecodeOptionalU16(j: Json): Decoded<Option<u16>> { DecodeOptional(j, DecodeU16) }
  function DecodeOptionalBool(j: Json): Decoded<Option<bool>> { DecodeOptional(j, DecodeBool) }

  /** `Vec<T>`: a JSON array whose every element decodes, in order. */
  function DecodeElements<T>(items: seq<Json>, decode: Json -> Decoded<T>): (r: Decoded<seq<T>>)
    ensures r.Ok? ==> |r.value| == |items|
  {
    if items == [] then Ok([])
    else
      var first :- decode(items[0]);
      var rest :- DecodeElements(items[1..], decode);
      Ok([first] + rest)
  }

  /** The variant name and payload that serde reads from an externally tagged enum value. */
  datatype Tagged = Tagged(variant: string, payload: Option<Json>)

  /**
   * A bare string names a variant that carries no payload; an object with
   * exactly one member names the variant by its key and carries its value.
   */
  function ExternalTag(j: Json): Decoded<Tagged> {
    match j
    case JStr(s) => Ok(Tagged(s, None))
    case JObj(ms) => if |ms| == 1 then Ok(Tagged(ms[0].0, Some(ms[0].1))) else Err(InvalidType)
    case _ => Err(InvalidType)
  }

  /** A unit variant takes no payload, or an explicit `null`. */
  predicate UnitPayload(p: Option<Json>) {
    p == None || p == Some(JNull)
  }

  /** A newtype or struct variant needs its payload. */
  function VariantPayload(p: Option<Json>): Decoded<Json> {
    match p
    case Some(v) => Ok(v)
    case None => Err(InvalidType)
  }

  /** The keys of an object's members, in wire order. */
  function Keys(ms: seq<(string, Json)>): (ks: seq<string>)
    ensures |ks| == |ms| && forall i :: 0 <= i < |ms| ==> ks[i] == ms[i].0
  {
    if ms == [] then [] else [ms[0].0] + Keys(ms[1..])
  }

  lemma KeysAppend(a: seq<(string, Json)>, b: seq<(string, Json)>)
    ensures Keys(a + b) == Keys(a) + Keys(b)
  {
  }

  /**
   * The members a derived struct decoder reads from an object, by key: a
   * member whose key is not a field is skipped, and a field that occurs twice
   * is an error.
   */
  function FieldMap(ms: seq<(string, Json)>, fields: set<string>): Decoded<map<string, Json>>
  {
    if ms == [] then Ok(map[])
    else
      var rest :- FieldMap(ms[1..], fields);
      var (k, v) := ms[0];
      if k !in fields then Ok(rest)
      else if k in rest then Err(DuplicateField(k))
      else Ok(rest[k := v])
  }

  /** No field of `fields` occurs twice among the members. */
  predicate NoRepeatedField(ms: seq<(string, Json)>, fields: set<string>) {
    forall i, j :: 0 <= i < j < |ms| && ms[i].0 in fields ==> ms[i].0 != ms[j].0
  }

  /** Once `FieldMap` succeeds it holds exactly the fields that occur among the members. */
  lemma {:induction false} FieldMapKeys(ms: seq<(string, Json)>, fields: set<string>)
    requires FieldMap(ms, fields).Ok?
    ensures forall k :: k in FieldMap(ms, fields).value <==> k in fields && k in Keys(ms)
  {
    if ms != [] {
      FieldMapKeys(ms[1..], fields);
      assert Keys(ms) == [ms[0].0] + Keys(ms[1..]);
    }
  }

  /** Once `FieldMap` succeeds, each field holds the value of the member that carries it. */
  lemma {:induction false} FieldMapValues(ms: seq<(string, Json)>, fields: set<string>)
    requires FieldMap(ms, fields).Ok?
    ensures forall i :: 0 <= i < |ms| && ms[i].0 in fields ==>
              ms[i].0 in FieldMap(ms, fields).value && FieldMap(ms, fields).value[ms[i].0] == ms[i].1
  {
    if ms != [] {
      var rest := ms[1..];
      FieldMapValues(rest, fields);
      FieldMapKeys(rest, fields);
      forall i | 1 <= i < |ms| && ms[i].0 in fields
        ensures ms[i].0 in FieldMap(ms, fields).value && FieldMap(ms, fields).value[ms[i].0] == ms[i].1
      {
        assert ms[i] == rest[i - 1];
        assert Keys(rest)[i - 1] == ms[i].0;
      }
    }
  }

  /** `FieldMap` succeeds exactly when no field occurs twice. */
  lemma {:induction false} FieldMapOk(ms: seq<(string, Json)>, fields: set<string>)
    ensures FieldMap(ms, fields).Ok? <==> NoRepeatedField(ms, fields)
  {
    if ms != [] {
      var rest := ms[1..];
      FieldMapOk(rest, fields);
      var k := ms[0].0;
      assert forall i :: 1 <= i < |ms| ==> ms[i] == rest[i - 1];
      if FieldMap(rest, fields).Ok? {
        FieldMapKeys(rest, fields);
      }
      if NoRepeatedField(ms, fields) {
        assert NoRepeatedField(rest, fields) by {
          forall i, j | 0 <= i < j < |rest| && rest[i].0 in fields ensures rest[i].0 != rest[j].0 {
            assert ms[i + 1] == rest[i] && ms[j + 1] == rest[j];
          }
        }
        if k in fields {
          assert k !in Keys(rest) by {
            forall i | 0 <= i < |rest| ensures Keys(rest)[i] != k {
              assert ms[i + 1] == rest[i];
            }
          }
        }
      } else if NoRepeatedField(rest, fields) {
        var i, j :| 0 <= i < j < |ms| && ms[i].0 in fields && ms[i].0 == ms[j].0;
        assert i == 0;
        assert Keys(rest)[j - 1] == k;
      }
    }
  }

  /**
   * `FieldMap` succeeds exactly when no field is repeated, and then holds
   * every field that occurs, with its value, and nothing else.
   */
  lemma FieldMapSpec(ms: seq<(string, Json)>, fields: set<string>)
    ensures FieldMap(ms, fields).Ok? <==> NoRepeatedField(ms, fields)
    ensures FieldMap(ms, fields).Ok? ==>
              (forall k :: k in FieldMap(ms, fields).value <==> k in fields && k in Keys(ms))
              && (forall i :: 0 <= i < |ms| && ms[i].0 in fields ==>
                                FieldMap(ms, fields).value[ms[i].0] == ms[i].1)
  {
    FieldMapOk(ms, fields);
    if FieldMap(ms, fields).Ok? {
      FieldMapKeys(ms, fields);
      FieldMapValues(ms, fields);
    }
  }

  /** No key occurs twice. */
  predicate DistinctKeys(ks: seq<string>) {
    forall i, j :: 0 <= i < j < |ks| ==> ks[i] != ks[j]
  }

  lemma DistinctKeysNoRepeat(ms: seq<(string, Json)>, fields: set<string>)
    requires DistinctKeys(Keys(ms))
    ensures NoRepeatedField(ms, fields)
  {
  }

  /** The value of the first member whose key is `k`. */
  function Lookup(ms: seq<(string, Json)>, k: string): (r: Option<Json>)
    ensures r.None? <==> k !in Keys(ms)
  {
    if ms == [] then None
    else if ms[0].0 == k then Some(ms[0].1)
    else Lookup(ms[1..], k)
  }

  /** Once `FieldMap` succeeds, a field is in it exactly when a member carries it, with that member's value. */
  lemma {:induction false} FieldMapLookup(ms: seq<(string, Json)>, fields: set<string>, k: string)
    requires FieldMap(ms, fields).Ok? && k in fields
    ensures k in FieldMap(ms, fields).value <==> Lookup(ms, k).Some?
    ensures k in FieldMap(ms, fields).value ==> FieldMap(ms, fields).value[k] == Lookup(ms, k).value
  {
    if ms != [] {
      FieldMapLookup(ms[1..], fields, k);
    }
  }

  /** A defaulted field read straight from an object's members. */
  function DefaultedMember<T>(ms: seq<(string, Json)>, name: string, decode: Json -> Decoded<T>, default: T): Decoded<T> {
    match Lookup(ms, name)
    case None => Ok(default)
    case Some(v) => decode(v)
  }

  /** A required field read straight from an object's members. */
  function RequiredMember<T>(ms: seq<(string, Json)>, name: string, decode: Json -> Decoded<T>): Decoded<T> {
    match Lookup(ms, name)
    case None => Err(MissingField(name))
    case Some(v) => decode(v)
  }

  lemma DefaultedFromMembers<T>(ms: seq<(string, Json)>, fields: set<string>, name: string,
                                decode: Json -> Decoded<T>, default: T)
    requires FieldMap(ms, fields).Ok? && name in fields
    ensures Defaulted(FieldMap(ms, fields).value, name, decode, default) == DefaultedMember(ms, name, decode, default)
  {
    FieldMapLookup(ms, fields, name);
  }

  lemma RequiredFromMembers<T>(ms: seq<(string, Json)>, fields: set<string>, name: string, decode: Json -> Decoded<T>)
    requires FieldMap(ms, fields).Ok? && name in fields
    ensures Required(FieldMap(ms, fields).value, name, decode) == RequiredMember(ms, name, decode)
  {
    FieldMapLookup(ms, fields, name);
  }

  /** The positional form: element `i` fills field `names[i]`. */
  function ZipFields(names: seq<string>, items: seq<Json>): map<string, Json>
    requires |items| <= |names|
  {
    if items == [] then map[] else ZipFields(names[1..], items[1..])[names[0] := items[0]]
  }

  function FieldSet(names: seq<string>): set<string> {
    set k | k in names
  }

  /**
   * The field values a derived struct decoder reads from `j`, keyed by field
   * name. The struct's fields are `names` in declaration order; `required` is
   * one past the last field that has no default, so a positional (array) form
   * needs at least that many elements and at most one per field.
   */
  function StructFields(j: Json, names: seq<string>, required: nat): Decoded<map<string, Json>>
    requires required <= |names|
  {
    match j
    case JObj(ms) => FieldMap(ms, FieldSet(names))
    case JArr(items) =>
      if required <= |items| <= |names| then Ok(ZipFields(names, items)) else Err(InvalidLength)
    case _ => Err(InvalidType)
  }

  /** A field with no default: absent is an error. */
  function Required<T>(fields: map<string, Json>, name: string, decode: Json -> Decoded<T>): Decoded<T> {
    if name in fields then decode(fields[name]) else Err(MissingField(name))
  }

  /** A field with a default (`#[serde(default)]`, or a struct-level default). */
  function Defaulted<T>(fields: map<string, Json>, name: string, decode: Json -> Decoded<T>, default: T): Decoded<T> {
    if name in fields then decode(fields[name]) else Ok(default)
  }
}
