/** Messages that conform to their descriptors, and why a validated mask can then no longer go wrong: no
    relation turns out unknown, no kind unformattable (schema.go:148-322 against format.go and stitcher.go). */
module Conformance {
  import opened Wrappers
  import opened Protobuf
  import opened Response
  import opened Format
  import opened Meaning
  import opened Schemas

  predicate InInt32(i: int) { -0x8000_0000 <= i < 0x8000_0000 }

  predicate InInt64(i: int) { -0x8000_0000_0000_0000 <= i < 0x8000_0000_0000_0000 }

  predicate InUint32(n: int) { 0 <= n < 0x1_0000_0000 }

  predicate InUint64(n: int) { 0 <= n < 0x1_0000_0000_0000_0000 }

  predicate ScalarFits(kind: Kind, s: Scalar) {
    match kind
    case BoolKind => s.BoolVal?
    case EnumKind => s.EnumVal? && InInt32(s.number)
    case Int32Kind | Sint32Kind | Sfixed32Kind => s.IntVal? && InInt32(s.i)
    case Int64Kind | Sint64Kind | Sfixed64Kind => s.IntVal? && InInt64(s.i)
    case Uint32Kind | Fixed32Kind => s.UintVal? && InUint32(s.n)
    case Uint64Kind | Fixed64Kind => s.UintVal? && InUint64(s.n)
    case FloatKind | DoubleKind => s.FloatVal?
    case StringKind => s.StringVal?
    case BytesKind => s.BytesVal?
    case MessageKind | GroupKind | OtherKind => false
  }

  /** A message value as protobuf reflection lets it be: of this type, each set field of its descriptor's shape and
      kind. */
  ghost predicate Conforms(types: Types, m: Msg, typ: TypeName)
    decreases m, 0
  {
    m.typ == typ
    && forall f :: f in FieldsOf(types, typ) && f.name in m.fields ==> ValConforms(types, f, m.fields[f.name])
  }

  ghost predicate ValConforms(types: Types, f: Field, v: Val)
    decreases v, 1
  {
    match v
    case One(e) => f.shape.Singular? && ElementConforms(types, f, e)
    case Many(es) => f.shape.Repeated? && forall e :: e in es ==> ElementConforms(types, f, e)
    case Entries(kvs) =>
      && f.shape.MapOf?
      && (forall kv :: kv in kvs ==> ScalarFits(f.shape.key, kv.0) && ElementConforms(types, f, kv.1))
      && forall i, j :: 0 <= i < j < |kvs| ==> kvs[i].0 != kvs[j].0
  }

  ghost predicate ElementConforms(types: Types, f: Field, e: Element)
    decreases e, 0
  {
    if IsMessage(f.kind) then e.Nested? && Conforms(types, e.msg, f.message)
    else e.Plain? && ScalarFits(f.kind, e.scalar)
  }

  /** Descriptors as protobuf builds them: a singular message field has presence. */
  ghost predicate TypesSound(types: Types) {
    forall t, f :: t in types && f in types[t] && f.shape.Singular? && IsMessage(f.kind) ==> f.hasPresence
  }

  /** Resolvers answer with values of the relation's field. */
  ghost predicate AnswersConform(w: World) {
    forall key: GroupKey, m: Msg :: w.RelationAt(key.relation).Some? && w.one(key, m).Some? ==>
      ValConforms(w.types, w.RelationAt(key.relation).value.descriptor, w.one(key, m).value)
  }

  ghost predicate WorldSound(w: World) { TypesSound(w.types) && AnswersConform(w) }

  lemma ElementsConform(types: Types, f: Field, v: Val)
    requires ValConforms(types, f, v)
    ensures forall e :: e in Elements(v) ==> ElementConforms(types, f, e)
  {
    if v.Entries? {
      forall e | e in Elements(v) ensures ElementConforms(types, f, e) {
        var i :| 0 <= i < |v.entries| && v.entries[i].1 == e;
        assert v.entries[i] in v.entries;
      }
    }
  }

  lemma FieldForKnown(types: Types, typ: TypeName, name: string)
    requires FieldFor(types, typ, name).Some?
    ensures FieldFor(types, typ, name).value in FieldsOf(types, typ)
  {
  }

  lemma ZeroConforms(w: World, f: Field, mask: seq<Mask>)
    requires FieldTypeOf(w, f, mask).Ok? && !(f.shape.Singular? && IsMessage(f.kind))
    ensures ValConforms(w.types, f, ZeroOf(f))
  {
    hide SchemaOf;
    assert ElementTypeOf(w, f, mask).Ok?;
  }

  /** What formatting reads from a field conforms to it, be it set or its zero, when the schema accepts the field. */
  lemma PresentConforms(w: World, m: Msg, f: Field, mask: seq<Mask>)
    requires TypesSound(w.types) && Conforms(w.types, m, m.typ) && f in FieldsOf(w.types, m.typ)
    requires FieldTypeOf(w, f, mask).Ok? && Present(m, f).Some?
    ensures ValConforms(w.types, f, Present(m, f).value)
  {
    hide FieldTypeOf;
    if f.name !in m.fields {
      ZeroConforms(w, f, mask);
    }
  }

  // ----- validated sites

  /** A relation entry the schema has accepted, at a message that conforms. */
  ghost predicate Validated(w: World, s: Site) {
    && Conforms(w.types, s.msg, s.msg.typ)
    && w.RelationAt(RelationId(s.msg.typ, s.entry.name)).Some?
    && FieldTypeOf(w, w.RelationAt(RelationId(s.msg.typ, s.entry.name)).value.descriptor, s.entry.mask).Ok?
  }

  lemma {:induction false} ReachValidated(w: World, m: Msg, mask: seq<Mask>)
    requires TypesSound(w.types) && Conforms(w.types, m, m.typ) && Accepts(w, m.typ, mask)
    ensures forall s :: s in Reach(w.types, m, mask) ==> Validated(w, s)
    ensures MessageFault(w.types, m, mask) in {None, Some(NotConvertible)}
    decreases mask, 1, 0
  {
    if !m.typ.IsWellKnown() {
      ReachEntriesValidated(w, m, mask, |mask|);
    }
  }

  lemma {:induction false} ReachEntriesValidated(w: World, m: Msg, mask: seq<Mask>, k: nat)
    requires TypesSound(w.types) && Conforms(w.types, m, m.typ)
    requires k <= |mask| && EntrySchemas(w, m.typ, mask, k).Ok?
    ensures forall s :: s in ReachEntries(w.types, m, mask, k) ==> Validated(w, s)
    ensures EntriesFault(w.types, m, mask, k) in {None, Some(NotConvertible)}
    decreases mask, 0, k
  {
    hide FieldFor, EntrySchema, Validated, ReachEntry, EntryFault;
    if k != 0 {
      ReachEntriesValidated(w, m, mask, k - 1);
      ReachEntryValidated(w, m, mask[k - 1]);
    }
  }

  lemma {:induction false} ReachEntryValidated(w: World, m: Msg, entry: Mask)
    requires TypesSound(w.types) && Conforms(w.types, m, m.typ) && EntrySchema(w, m.typ, entry).Ok?
    ensures forall s :: s in ReachEntry(w.types, m, entry) ==> Validated(w, s)
    ensures EntryFault(w.types, m, entry) in {None, Some(NotConvertible)}
    decreases entry, 0, 0
  {
    hide FieldFor, Validated;
    var f := FieldFor(w.types, m.typ, entry.name);
    if f.None? {
      ValidatedHere(w, m, entry);
    } else if Present(m, f.value).Some? {
      FieldForKnown(w.types, m.typ, entry.name);
      PresentConforms(w, m, f.value, entry.mask);
      ReachValueValidated(w, f.value, Present(m, f.value).value, entry.mask);
    }
  }

  lemma ValidatedHere(w: World, m: Msg, entry: Mask)
    requires Conforms(w.types, m, m.typ) && EntrySchema(w, m.typ, entry).Ok?
    requires FieldFor(w.types, m.typ, entry.name).None?
    ensures Validated(w, Site(m, entry))
  {
    hide FieldFor, Conforms;
  }

  lemma {:induction false} ReachValueValidated(w: World, f: Field, v: Val, mask: seq<Mask>)
    requires TypesSound(w.types) && ValConforms(w.types, f, v) && FieldTypeOf(w, f, mask).Ok?
    ensures forall s :: s in ReachValue(w.types, f, v, mask) ==> Validated(w, s)
    ensures ValueFault(w.types, f, v, mask) in {None, Some(NotConvertible)}
    decreases mask, 4, 0
  {
    hide Validated;
    ElementsConform(w.types, f, v);
    ReachElementsValidated(w, f, Elements(v), |Elements(v)|, mask);
    if f.shape.MapOf? {
      assert IsKeyKind(f.shape.key);
    }
  }

  lemma {:induction false} ReachElementsValidated(w: World, f: Field, es: seq<Element>, k: nat, mask: seq<Mask>)
    requires TypesSound(w.types) && k <= |es| && (forall e :: e in es ==> ElementConforms(w.types, f, e))
    requires ElementTypeOf(w, f, mask).Ok?
    ensures forall s :: s in ReachElements(w.types, f, es, k, mask) ==> Validated(w, s)
    ensures ElementsFault(w.types, f, es, k, mask) in {None, Some(NotConvertible)}
    decreases mask, 3, k
  {
    hide Validated;
    if k != 0 {
      ReachElementsValidated(w, f, es, k - 1, mask);
      assert ElementConforms(w.types, f, es[k - 1]);
      if IsMessage(f.kind) {
        var m := es[k - 1].msg;
        assert Conforms(w.types, m, f.message) && m.typ == f.message;
        assert SchemaOf(w, f.message, mask).Ok?;
        ReachValidated(w, m, mask);
      }
    }
  }

  /** Past validation the only reasons to abort are a failing resolver, parameters it cannot take, and a
      well-known value without a JSON form: never an unknown relation, kind or key kind. */
  lemma {:induction false} ValidationSuffices(w: World, fails: Failures, s: Site, meta: Meta, above: bool)
    requires WorldSound(w) && Validated(w, s)
    ensures forall x :: x in Aborts(w, fails, s, meta, above) ==>
              x.cause.ResolverFailed? || x.cause == ParamsRejected || x.cause == NotConvertible
    decreases EntryDepth(s.entry)
  {
    hide Validated, Conforms, ValConforms, FieldTypeOf;
    var key := KeyOf(s, meta);
    var r := Resolution(w, fails, s, meta);
    ValidatedRelation(w, s);
    if w.Rejection(key).None? && key !in fails && r.Some? {
      AnswerConforms(w, key, s.msg);
      ReachValueValidated(w, r.value.0, r.value.1, s.entry.mask);
      if ValueFault(w.types, r.value.0, r.value.1, s.entry.mask).None? {
        var caught := above || w.Catches(s.entry);
        forall x | x in Aborts(w, fails, s, meta, above)
          ensures x.cause.ResolverFailed? || x.cause == ParamsRejected || x.cause == NotConvertible
        {
          assert x in AbortsValue(w, fails, r.value.0, r.value.1, s.entry.mask, w.Next(key), caught);
          var t :| t in ReachValue(w.types, r.value.0, r.value.1, s.entry.mask) && x in Aborts(w, fails, t,
                                   w.Next(key), caught);
          ValidationSuffices(w, fails, t, w.Next(key), caught);
        }
      }
    }
  }

  lemma ValidatedRelation(w: World, s: Site)
    requires Validated(w, s)
    ensures var r := w.RelationAt(RelationId(s.msg.typ, s.entry.name));
            r.Some? && FieldTypeOf(w, r.value.descriptor, s.entry.mask).Ok?
  {
  }

  lemma AnswerConforms(w: World, key: GroupKey, m: Msg)
    requires WorldSound(w) && w.RelationAt(key.relation).Some? && w.one(key, m).Some?
    ensures TypesSound(w.types)
    ensures ValConforms(w.types, w.RelationAt(key.relation).value.descriptor, w.one(key, m).value)
  {
  }
}
