/** Validating a mask against the descriptors and the registered relations while computing the schema of the
    response (schema.go). */
module Schemas {
  import Names
  import opened Wrappers
  import opened Protobuf
  import opened Response
  import opened Meaning

  datatype ScalarType =
    | Int32 | Uint32 | Int64 | Uint64 | Double | Float | Boolean | Str | Bytes | NullType | EnumType

  datatype ElementType = ScalarOf(scalar: ScalarType) | MessageOf(schema: Schema)

  datatype FieldType = Plainly(elem: ElementType) | RepeatedOf(elem: ElementType)
    | Mapping(key: ScalarType, elem: ElementType)

  datatype SchemaField = SchemaField(name: string, jsonName: string, typ: FieldType)

  datatype Schema = Schema(name: TypeName, fields: seq<SchemaField>)

  datatype SchemaError =
    | MaskOnWellKnown | DuplicateEntry(name: string) | NoSuchField(name: string) | ParamsNotTaken(name: string)
    | MaskOnScalar | NotPrimitive | InvalidMapKey

  function ScalarTypeOf(kind: Kind, enum: Enum): Option<ScalarType> {
    match kind
    case Int32Kind | Sint32Kind | Sfixed32Kind => Some(Int32)
    case Uint32Kind | Fixed32Kind => Some(Uint32)
    case Int64Kind | Sint64Kind | Sfixed64Kind => Some(Int64)
    case Uint64Kind | Fixed64Kind => Some(Uint64)
    case DoubleKind => Some(Double)
    case FloatKind => Some(Float)
    case BoolKind => Some(Boolean)
    case StringKind => Some(Str)
    case BytesKind => Some(Bytes)
    case EnumKind => Some(if enum.isNullValue then NullType else EnumType)
    case MessageKind | GroupKind | OtherKind => None
  }

  predicate AllowedMapKey(t: ScalarType) {
    t == Boolean || t == Int32 || t == Int64 || t == Uint32 || t == Uint64 || t == Str
  }

  /** computeScalarFieldType, for a field or for the key of a map. */
  function ScalarSchema(kind: Kind, enum: Enum, mask: seq<Mask>): Result<ScalarType, SchemaError> {
    match ScalarTypeOf(kind, enum)
    case None => Err(NotPrimitive)
    case Some(t) => if mask != [] then Err(MaskOnScalar) else Ok(t)
  }

  // ----- the schema a mask has

  function SchemaOf(w: World, typ: TypeName, mask: seq<Mask>): Result<Schema, SchemaError>
    decreases mask, 1, 0
  {
    if typ.IsWellKnown() then (if mask != [] then Err(MaskOnWellKnown) else Ok(Schema(typ, [])))
    else
      match EntrySchemas(w, typ, mask, |mask|)
      case Err(e) => Err(e)
      case Ok(fields) => Ok(Schema(typ, fields))
  }

  function EntrySchemas(w: World, typ: TypeName, mask: seq<Mask>, k: nat): (r: Result<seq<SchemaField>, SchemaError>)
    requires k <= |mask|
    ensures r.Ok? ==> |r.value| == k
    decreases mask, 0, k
  {
    if k == 0 then Ok([])
    else
      match EntrySchemas(w, typ, mask, k - 1)
      case Err(e) => Err(e)
      case Ok(before) =>
        if mask[k - 1].name in NamesOfFirst(mask, k - 1) then Err(DuplicateEntry(mask[k - 1].name))
        else
          match EntrySchema(w, typ, mask[k - 1])
          case Err(e) => Err(e)
          case Ok(field) => Ok(before + [field])
  }

  /** The field an entry selects or, failing that, the field of the relation it names. */
  function DescriptorFor(w: World, typ: TypeName, entry: Mask): Result<Field, SchemaError> {
    match FieldFor(w.types, typ, entry.name)
    case Some(f) => Ok(f)
    case None =>
      match w.RelationAt(RelationId(typ, entry.name))
      case None => Err(NoSuchField(entry.name))
      case Some(r) => if !r.takesParams && entry.params.Some? then Err(ParamsNotTaken(entry.name)) else Ok(r.descriptor)
  }

  function EntrySchema(w: World, typ: TypeName, entry: Mask): Result<SchemaField, SchemaError>
    decreases entry, 0, 0
  {
    match DescriptorFor(w, typ, entry)
    case Err(e) => Err(e)
    case Ok(f) =>
      match FieldTypeOf(w, f, entry.mask)
      case Err(e) => Err(e)
      case Ok(t) => Ok(FieldNamed(entry.name, f.jsonName, t))
  }

  /** The JSON name is only given where it differs from the name. */
  function FieldNamed(name: string, jsonName: string, t: FieldType): SchemaField {
    var camel := Names.Camel(name);
    SchemaField(camel, if jsonName == camel then "" else jsonName, t)
  }

  function FieldTypeOf(w: World, f: Field, mask: seq<Mask>): Result<FieldType, SchemaError>
    decreases mask, 3, 0
  {
    match f.shape
    case MapOf(key) =>
      (match ScalarSchema(key, f.enum, [])
       case Err(e) => Err(e)
       case Ok(k) =>
         if !AllowedMapKey(k) then Err(InvalidMapKey)
         else
           match ElementTypeOf(w, f, mask)
           case Err(e) => Err(e)
           case Ok(t) => Ok(Mapping(k, t)))
    case Repeated =>
      (match ElementTypeOf(w, f, mask)
       case Err(e) => Err(e)
       case Ok(t) => Ok(RepeatedOf(t)))
    case Singular =>
      match ElementTypeOf(w, f, mask)
      case Err(e) => Err(e)
      case Ok(t) => Ok(Plainly(t))
  }

  function ElementTypeOf(w: World, f: Field, mask: seq<Mask>): Result<ElementType, SchemaError>
    decreases mask, 2, 0
  {
    if IsMessage(f.kind) then
      match SchemaOf(w, f.message, mask)
      case Err(e) => Err(e)
      case Ok(s) => Ok(MessageOf(s))
    else
      match ScalarSchema(f.kind, f.enum, mask)
      case Err(e) => Err(e)
      case Ok(t) => Ok(ScalarOf(t))
  }

  // ----- computing it

  lemma {:induction false} EntrySchemasFail(w: World, typ: TypeName, mask: seq<Mask>, i: nat, k: nat)
    requires i <= k <= |mask| && EntrySchemas(w, typ, mask, i).Err?
    ensures EntrySchemas(w, typ, mask, k) == EntrySchemas(w, typ, mask, i)
  {
    if i < k {
      EntrySchemasFail(w, typ, mask, i, k - 1);
    }
  }

  lemma NoNames(mask: seq<Mask>)
    ensures NamesOfFirst(mask, 0) == {}
  {
  }

  lemma OneMoreName(mask: seq<Mask>, i: nat)
    requires i < |mask|
    ensures NamesOfFirst(mask, i + 1) == NamesOfFirst(mask, i) + {mask[i].name}
  {
  }

  method ComputeSchema(w: World, typ: TypeName, mask: seq<Mask>) returns (r: Result<Schema, SchemaError>)
    ensures r == SchemaOf(w, typ, mask)
    decreases mask, 1, 0
  {
    hide EntrySchema, NamesOfFirst;
    if typ.IsWellKnown() {
      return if |mask| > 0 then Err(MaskOnWellKnown) else Ok(Schema(typ, []));
    }
    if |mask| == 0 {
      return Ok(Schema(typ, []));
    }
    var fields: seq<SchemaField> := [];
    var names: set<string> := {};
    NoNames(mask);
    for i := 0 to |mask|
      invariant EntrySchemas(w, typ, mask, i) == Ok(fields)
      invariant names == NamesOfFirst(mask, i)
    {
      var entry := mask[i];
      if entry.name in names {
        EntrySchemasFail(w, typ, mask, i + 1, |mask|);
        return Err(DuplicateEntry(entry.name));
      }
      OneMoreName(mask, i);
      names := names + {entry.name};
      var field := ComputeEntry(w, typ, entry);
      if field.Err? {
        EntrySchemasFail(w, typ, mask, i + 1, |mask|);
        return Err(field.error);
      }
      fields := fields + [field.value];
    }
    r := Ok(Schema(typ, fields));
  }

  method ComputeEntry(w: World, typ: TypeName, entry: Mask) returns (r: Result<SchemaField, SchemaError>)
    ensures r == EntrySchema(w, typ, entry)
    decreases entry, 0, 0
  {
    var fields := FieldsOf(w.types, typ);
    var at := Names.FieldWithCamelCaseName(NamesOf(fields), entry.name);
    var descriptor;
    if at >= 0 {
      descriptor := fields[at];
    } else {
      var conf := w.RelationAt(RelationId(typ, entry.name));
      if conf.None? {
        return Err(NoSuchField(entry.name));
      }
      if !conf.value.takesParams && entry.params.Some? {
        return Err(ParamsNotTaken(entry.name));
      }
      descriptor := conf.value.descriptor;
    }
    assert DescriptorFor(w, typ, entry) == Ok(descriptor);
    var t := ComputeFieldType(w, descriptor, entry.mask);
    if t.Err? {
      return Err(t.error);
    }
    var camel := Names.CamelCase(entry.name);
    r := Ok(SchemaField(camel, if descriptor.jsonName == camel then "" else descriptor.jsonName, t.value));
  }

  method ComputeFieldType(w: World, f: Field, mask: seq<Mask>) returns (r: Result<FieldType, SchemaError>)
    ensures r == FieldTypeOf(w, f, mask)
    decreases mask, 3, 0
  {
    var key := None;
    if f.shape.MapOf? {
      var k := ScalarSchema(f.shape.key, f.enum, []);
      if k.Err? {
        return Err(k.error);
      }
      if !AllowedMapKey(k.value) {
        return Err(InvalidMapKey);
      }
      key := Some(k.value);
    }
    var t: ElementType;
    if IsMessage(f.kind) {
      var schema := ComputeSchema(w, f.message, mask);
      if schema.Err? {
        return Err(schema.error);
      }
      t := MessageOf(schema.value);
    } else {
      var scalar := ScalarSchema(f.kind, f.enum, mask);
      if scalar.Err? {
        return Err(scalar.error);
      }
      t := ScalarOf(scalar.value);
    }
    r := Ok(if key.Some? then Mapping(key.value, t) else if f.shape.Repeated? then RepeatedOf(t) else Plainly(t));
  }

  // ----- what acceptance means for the mask alone

  predicate Accepts(w: World, typ: TypeName, mask: seq<Mask>) { SchemaOf(w, typ, mask).Ok? }

  lemma {:induction false} AcceptedEntries(w: World, typ: TypeName, mask: seq<Mask>, k: nat)
    requires k <= |mask| && EntrySchemas(w, typ, mask, k).Ok?
    ensures forall i, j :: 0 <= i < j < k ==> mask[i].name != mask[j].name
    ensures forall i :: 0 <= i < k ==> EntrySchema(w, typ, mask[i]) == Ok(EntrySchemas(w, typ, mask, k).value[i])
  {
    hide EntrySchema;
    if k != 0 {
      AcceptedEntries(w, typ, mask, k - 1);
      forall i | 0 <= i < k - 1 ensures mask[i].name != mask[k - 1].name {
        assert mask[i].name in NamesOfFirst(mask, k - 1);
      }
    }
  }

  lemma {:induction false} AcceptedWellFormed(w: World, typ: TypeName, mask: seq<Mask>)
    requires Accepts(w, typ, mask)
    ensures WellFormed(mask)
    decreases mask, 1
  {
    hide FieldFor, EntrySchema;
    if !typ.IsWellKnown() {
      AcceptedEntries(w, typ, mask, |mask|);
      forall entry | entry in mask ensures WellFormed(entry.mask) {
        var i :| 0 <= i < |mask| && mask[i] == entry;
        AcceptedEntryWellFormed(w, typ, mask[i]);
      }
    }
  }

  lemma {:induction false} AcceptedEntryWellFormed(w: World, typ: TypeName, entry: Mask)
    requires EntrySchema(w, typ, entry).Ok?
    ensures WellFormed(entry.mask)
    decreases entry, 0
  {
    hide DescriptorFor;
    var f := DescriptorFor(w, typ, entry).value;
    assert ElementTypeOf(w, f, entry.mask).Ok?;
    if IsMessage(f.kind) {
      AcceptedWellFormed(w, f.message, entry.mask);
    }
  }
}
