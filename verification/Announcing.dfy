/** What a computed schema announces of the fields and relations a mask selects, and what a refusal blames
    (schema.go:148-322). */
module Announcing {
  import Names
  import opened Protobuf
  import opened Meaning
  import opened Schemas
  import opened Validation

  // ----- what is announced

  /** The kinds of field a scalar type stands for. */
  function KindsOf(t: ScalarType): set<Kind> {
    match t
    case Int32 => {Int32Kind, Sint32Kind, Sfixed32Kind}
    case Uint32 => {Uint32Kind, Fixed32Kind}
    case Int64 => {Int64Kind, Sint64Kind, Sfixed64Kind}
    case Uint64 => {Uint64Kind, Fixed64Kind}
    case Double => {DoubleKind}
    case Float => {FloatKind}
    case Boolean => {BoolKind}
    case Str => {StringKind}
    case Bytes => {BytesKind}
    case NullType | EnumType => {EnumKind}
  }

  /** Kinds that map keys can have. */
  const KEY_KINDS := {Int32Kind, Sint32Kind, Sfixed32Kind, Uint32Kind, Fixed32Kind, Int64Kind, Sint64Kind,
                      Sfixed64Kind, Uint64Kind, Fixed64Kind, BoolKind, StringKind}

  predicate AnnouncesScalar(f: Field, t: ScalarType) {
    f.kind in KindsOf(t) && (f.kind.EnumKind? ==> (t == NullType <==> f.enum.isNullValue))
  }

  /** The type's own name and, in mask order, one field for each entry; a well-known type has none. */
  ghost predicate SchemaAnnounces(w: World, typ: TypeName, mask: seq<Mask>, schema: Schema)
    decreases mask, 1
  {
    && schema.name == typ
    && if !typ.Ordinary? then schema.fields == []
       else
         && |schema.fields| == |mask|
         && forall i :: 0 <= i < |mask| ==> EntryAnnounced(w, typ, mask[i], schema.fields[i])
  }

  /** An entry is announced with the descriptor of the field it selects or of the relation registered under its name:
      its camel-case name, the type, and the JSON name, left out exactly where it is the name itself. */
  ghost predicate EntryAnnounced(w: World, typ: TypeName, entry: Mask, field: SchemaField)
    decreases entry, 0
  {
    match FieldFor(w.types, typ, entry.name)
    case Some(f) => FieldAnnounced(entry.name, f, field) && TypeAnnounced(w, f, entry.mask, field.typ)
    case None =>
      && typ in w.relations && entry.name in w.relations[typ]
      && var r := w.relations[typ][entry.name];
         && (entry.params.Some? ==> r.takesParams)
         && FieldAnnounced(entry.name, r.descriptor, field)
         && TypeAnnounced(w, r.descriptor, entry.mask, field.typ)
  }

  /** A client finds the field's JSON name in jsonName or, if that is empty, in name. */
  predicate FieldAnnounced(name: string, f: Field, field: SchemaField) {
    && field.name == Names.Camel(name)
    && (f.jsonName != "" ==> (if field.jsonName == "" then field.name else field.jsonName) == f.jsonName)
    && (field.jsonName == field.name ==> field.name == "")
  }

  /** The announced type tells single fields, lists and maps apart, and the kind of the key and of the elements. */
  ghost predicate TypeAnnounced(w: World, f: Field, mask: seq<Mask>, t: FieldType)
    decreases mask, 3
  {
    && (t.Plainly? <==> f.shape.Singular?) && (t.RepeatedOf? <==> f.shape.Repeated?)
    && (t.Mapping? <==> f.shape.MapOf?)
    && (f.shape.MapOf? ==> f.shape.key in KindsOf(t.key) && f.shape.key in KEY_KINDS)
    && match t.elem
       case ScalarOf(s) => AnnouncesScalar(f, s) && mask == []
       case MessageOf(schema) => f.kind in {MessageKind, GroupKind} && SchemaAnnounces(w, f.message, mask, schema)
  }

  /** No kind is announced by two types, but for enums, where the type tells google.protobuf.NullValue apart. */
  lemma KindAnnounced(f: Field, a: ScalarType, b: ScalarType)
    requires AnnouncesScalar(f, a) && AnnouncesScalar(f, b)
    ensures a == b
  {
  }

  /** A computed schema announces what the mask selects. */
  lemma {:induction false} SchemaAnnounced(w: World, typ: TypeName, mask: seq<Mask>)
    requires Accepts(w, typ, mask)
    ensures SchemaAnnounces(w, typ, mask, SchemaOf(w, typ, mask).value)
    decreases mask, 1
  {
    hide EntrySchema, EntryAnnounced;
    if !typ.IsWellKnown() {
      AcceptedEntries(w, typ, mask, |mask|);
      forall i | 0 <= i < |mask|
        ensures EntryAnnounced(w, typ, mask[i], EntrySchemas(w, typ, mask, |mask|).value[i])
      {
        AcceptedEntryAnnounced(w, typ, mask[i]);
      }
    }
  }

  lemma {:induction false} AcceptedEntryAnnounced(w: World, typ: TypeName, entry: Mask)
    requires EntrySchema(w, typ, entry).Ok?
    ensures EntryAnnounced(w, typ, entry, EntrySchema(w, typ, entry).value)
    decreases entry, 0
  {
    hide FieldFor, FieldTypeOf, TypeAnnounced, Names.Camel;
    AcceptedTypeAnnounced(w, DescriptorFor(w, typ, entry).value, entry.mask);
  }

  lemma {:induction false} AcceptedTypeAnnounced(w: World, f: Field, mask: seq<Mask>)
    requires FieldTypeOf(w, f, mask).Ok?
    ensures TypeAnnounced(w, f, mask, FieldTypeOf(w, f, mask).value)
    decreases mask, 3
  {
    hide SchemaOf, SchemaAnnounces;
    if IsMessage(f.kind) {
      SchemaAnnounced(w, f.message, mask);
    }
  }

  // ----- what a refusal blames

  /** The first entry that is wrong: everything before it is a valid mask, and its name has come before, or else the
      entry itself is to blame. */
  ghost predicate Blames(w: World, typ: TypeName, mask: seq<Mask>, error: SchemaError)
    decreases mask, 1
  {
    if !typ.Ordinary? then mask != [] && error == MaskOnWellKnown
    else
      exists i :: 0 <= i < |mask|
        && ValidMask(w, typ, mask[..i])
        && if exists j :: 0 <= j < i && mask[j].name == mask[i].name then error == DuplicateEntry(mask[i].name)
           else EntryBlamed(w, typ, mask[i], error)
  }

  /** The entry names neither field nor relation, brings parameters its relation does not take, or its field is to
      blame. */
  ghost predicate EntryBlamed(w: World, typ: TypeName, entry: Mask, error: SchemaError)
    decreases entry, 0
  {
    match FieldFor(w.types, typ, entry.name)
    case Some(f) => FieldBlamed(w, f, entry.mask, error)
    case None =>
      if typ !in w.relations || entry.name !in w.relations[typ] then error == NoSuchField(entry.name)
      else
        var r := w.relations[typ][entry.name];
        if entry.params.Some? && !r.takesParams then error == ParamsNotTaken(entry.name)
        else FieldBlamed(w, r.descriptor, entry.mask, error)
  }

  /** A map key of a kind no key has, a mask that the field's message does not take, a mask on a scalar, or a field
      of unknown kind. */
  ghost predicate FieldBlamed(w: World, f: Field, mask: seq<Mask>, error: SchemaError)
    decreases mask, 3
  {
    if f.shape.MapOf? && f.shape.key !in KEY_KINDS then
      error == if f.shape.key in {MessageKind, GroupKind, OtherKind} then NotPrimitive else InvalidMapKey
    else if f.kind in {MessageKind, GroupKind} then Blames(w, f.message, mask, error)
    else if f.kind == OtherKind then error == NotPrimitive
    else mask != [] && error == MaskOnScalar
  }

  /** A refused mask is refused for the first entry that is wrong. */
  lemma {:induction false} RefusalBlames(w: World, typ: TypeName, mask: seq<Mask>)
    requires SchemaOf(w, typ, mask).Err?
    ensures Blames(w, typ, mask, SchemaOf(w, typ, mask).error)
    decreases mask, 1
  {
    hide EntrySchema, EntryBlamed, ValidMask;
    if !typ.IsWellKnown() {
      var i := FirstRefusedEntry(w, typ, mask, |mask|);
      NameTaken(mask, i);
      if mask[i].name !in NamesOfFirst(mask, i) {
        RefusedEntryBlamed(w, typ, mask[i]);
      }
    }
  }

  lemma {:induction false} FirstRefusedEntry(w: World, typ: TypeName, mask: seq<Mask>, k: nat) returns (i: nat)
    requires !typ.IsWellKnown() && k <= |mask| && EntrySchemas(w, typ, mask, k).Err?
    ensures i < k && ValidMask(w, typ, mask[..i])
    ensures mask[i].name in NamesOfFirst(mask, i) || EntrySchema(w, typ, mask[i]).Err?
    ensures EntrySchemas(w, typ, mask, k).error
         == if mask[i].name in NamesOfFirst(mask, i) then DuplicateEntry(mask[i].name)
            else EntrySchema(w, typ, mask[i]).error
  {
    hide EntrySchema, ValidEntry, NamesOfFirst;
    if EntrySchemas(w, typ, mask, k - 1).Err? {
      i := FirstRefusedEntry(w, typ, mask, k - 1);
    } else {
      i := k - 1;
      AcceptedPrefix(w, typ, mask, i);
    }
  }

  lemma AcceptedPrefix(w: World, typ: TypeName, mask: seq<Mask>, k: nat)
    requires !typ.IsWellKnown() && k <= |mask| && EntrySchemas(w, typ, mask, k).Ok?
    ensures ValidMask(w, typ, mask[..k])
  {
    hide EntrySchema, ValidEntry;
    AcceptedEntries(w, typ, mask, k);
    forall entry | entry in mask[..k] ensures ValidEntry(w, typ, entry) {
      var i :| 0 <= i < k && mask[i] == entry;
      EntryExactly(w, typ, mask[i]);
    }
  }

  lemma {:induction false} RefusedEntryBlamed(w: World, typ: TypeName, entry: Mask)
    requires EntrySchema(w, typ, entry).Err?
    ensures EntryBlamed(w, typ, entry, EntrySchema(w, typ, entry).error)
    decreases entry, 0
  {
    hide FieldFor, FieldTypeOf, FieldBlamed;
    var f := DescriptorFor(w, typ, entry);
    if f.Ok? {
      RefusedFieldBlamed(w, f.value, entry.mask);
    }
  }

  lemma {:induction false} RefusedFieldBlamed(w: World, f: Field, mask: seq<Mask>)
    requires FieldTypeOf(w, f, mask).Err?
    ensures FieldBlamed(w, f, mask, FieldTypeOf(w, f, mask).error)
    decreases mask, 3
  {
    hide SchemaOf, Blames;
    if IsMessage(f.kind) && SchemaOf(w, f.message, mask).Err? {
      RefusalBlames(w, f.message, mask);
    }
  }
}
