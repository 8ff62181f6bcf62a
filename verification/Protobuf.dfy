/** The protobuf reflection values the gateway works on: descriptors, messages and masks. */
module Protobuf {
  import opened Wrappers
  import Names

  /** protoreflect.Kind; OtherKind stands for a number outside the defined range. */
  datatype Kind =
    | BoolKind | EnumKind
    | Int32Kind | Sint32Kind | Sfixed32Kind | Uint32Kind | Fixed32Kind
    | Int64Kind | Sint64Kind | Sfixed64Kind | Uint64Kind | Fixed64Kind
    | FloatKind | DoubleKind
    | StringKind | BytesKind
    | MessageKind | GroupKind
    | OtherKind

  predicate IsMessage(kind: Kind) { kind.MessageKind? || kind.GroupKind? }

  datatype Shape = Singular | Repeated | MapOf(key: Kind)

  /** A message's full name: one of the sixteen well-known types formatted specially, or any other. */
  datatype TypeName =
    | Ordinary(name: string)
    | Any | FieldMask | Timestamp | Duration
    | Value | ListValue | StructValue
    | BoolValue | Int32Value | Int64Value | UInt32Value | UInt64Value | FloatValue | DoubleValue
    | StringValue | BytesValue
  {
    predicate IsWellKnown() { !Ordinary? }
  }

  /** An enum: whether it is google.protobuf.NullValue, and the names of its numbers. */
  datatype Enum = Enum(isNullValue: bool, names: map<int, string>)

  /** A field; for a map field, kind, message and enum describe the map's value. */
  datatype Field = Field(
    name: string,
    jsonName: string,
    shape: Shape,
    kind: Kind,
    message: TypeName,
    enum: Enum,
    hasPresence: bool)

  /** Message descriptors by full name. */
  type Types = map<TypeName, seq<Field>>

  function FieldsOf(types: Types, typ: TypeName): seq<Field> {
    if typ in types then types[typ] else []
  }

  datatype Float = NaN | PosInf | NegInf | Finite(value: real)

  datatype Scalar =
    | BoolVal(b: bool)
    | IntVal(i: int)
    | UintVal(n: nat)
    | FloatVal(f: Float)
    | StringVal(s: string)
    | BytesVal(bytes: string)
    | EnumVal(number: int)

  datatype Element = Plain(scalar: Scalar) | Nested(msg: Msg)

  /** A field's value: one element, a list, or a map in the order it is ranged over. */
  datatype Val =
    | One(elem: Element)
    | Many(elems: seq<Element>)
    | Entries(entries: seq<(Scalar, Element)>)

  /** A message: the fields that are set, by declared name. For a well-known type, json is the JSON text
      the library conversion gives, or None when that conversion fails. */
  datatype Msg = Msg(typ: TypeName, fields: map<string, Val>, json: Option<string>)

  /** The elements of a value, in the order formatting visits them. */
  function Elements(v: Val): seq<Element> {
    match v
    case One(e) => [e]
    case Many(es) => es
    case Entries(kvs) => seq(|kvs|, i requires 0 <= i < |kvs| => kvs[i].1)
  }

  /** The value a field without presence has when it is not set. */
  function ZeroOf(f: Field): Val {
    if f.shape.MapOf? then Entries([])
    else if f.shape.Repeated? then Many([])
    else One(Plain(ZeroScalar(f.kind)))
  }

  function ZeroScalar(k: Kind): Scalar {
    match k
    case BoolKind => BoolVal(false)
    case EnumKind => EnumVal(0)
    case Int32Kind | Sint32Kind | Sfixed32Kind | Int64Kind | Sint64Kind | Sfixed64Kind => IntVal(0)
    case Uint32Kind | Fixed32Kind | Uint64Kind | Fixed64Kind => UintVal(0)
    case FloatKind | DoubleKind => FloatVal(Finite(0.0))
    case StringKind => StringVal("")
    case _ => BytesVal("")
  }

  /** What formatting sees in a field: nothing if it has presence and is unset, else its value or its zero. */
  function Present(m: Msg, f: Field): Option<Val> {
    if f.name in m.fields then Some(m.fields[f.name])
    else if f.hasPresence then None
    else Some(ZeroOf(f))
  }

  // ----- masks

  /** A relation's parameters; id is the identity of the decoded value, which batching compares. */
  datatype Params = Params(id: nat, text: string)

  datatype OnError = Unset | Catch | Throw

  datatype Mask = Mask(name: string, mask: seq<Mask>, params: Option<Params>, onError: OnError)

  function NamesOf(fields: seq<Field>): (names: seq<string>)
    ensures |names| == |fields|
  {
    seq(|fields|, i requires 0 <= i < |fields| => fields[i].name)
  }

  /** The field a mask name selects, or None when it names a relation. */
  function FieldFor(types: Types, typ: TypeName, name: string): Option<Field> {
    var fields := FieldsOf(types, typ);
    var i := Names.Lookup(NamesOf(fields), name);
    if i < 0 then None else Some(fields[i])
  }

  function Max(a: nat, b: nat): nat { if a < b then b else a }

  /** Nesting depth of a mask. */
  function Depth(mask: seq<Mask>): nat { DepthOfFirst(mask, |mask|) }

  function DepthOfFirst(mask: seq<Mask>, k: nat): nat
    requires k <= |mask|
    decreases mask, k
  {
    if k == 0 then 0 else Max(DepthOfFirst(mask, k - 1), EntryDepth(mask[k - 1]))
  }

  function EntryDepth(entry: Mask): nat { 1 + Depth(entry.mask) }

  lemma {:induction false} DepthBounds(mask: seq<Mask>, k: nat, i: nat)
    requires i < k <= |mask|
    ensures EntryDepth(mask[i]) <= DepthOfFirst(mask, k)
  {
    if i < k - 1 {
      DepthBounds(mask, k - 1, i);
    }
  }

  predicate DistinctNames(mask: seq<Mask>) {
    forall i, j :: 0 <= i < j < |mask| ==> mask[i].name != mask[j].name
  }

  /** The names of the first k entries. */
  function NamesOfFirst(mask: seq<Mask>, k: nat): set<string>
    requires k <= |mask|
  {
    set i | 0 <= i < k :: mask[i].name
  }

  function MaskNames(mask: seq<Mask>): set<string> { NamesOfFirst(mask, |mask|) }

  ghost function IndexOf(mask: seq<Mask>, name: string): (i: nat)
    requires name in MaskNames(mask)
    ensures i < |mask| && mask[i].name == name
  {
    var i :| 0 <= i < |mask| && mask[i].name == name;
    i
  }

  /** Entry names are pairwise distinct at every level. */
  predicate WellFormed(mask: seq<Mask>) {
    DistinctNames(mask) && forall entry | entry in mask :: WellFormed(entry.mask)
  }

  predicate CatchesErrors(entry: Mask, fallbackCatch: bool) {
    entry.onError.Catch? || (fallbackCatch && !entry.onError.Throw?)
  }
}
