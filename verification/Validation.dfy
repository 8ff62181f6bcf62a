/** What validating a mask accepts (schema.go:148-322), said without the order in which it is checked. */
module Validation {
  import opened Protobuf
  import opened Response
  import opened Meaning
  import opened Schemas

  /** Names are distinct, and each selects a field or a registered relation that its parameters and mask fit; a
      well-known type takes no mask. */
  ghost predicate ValidMask(w: World, typ: TypeName, mask: seq<Mask>)
    decreases mask, 1
  {
    if !typ.Ordinary? then mask == []
    else DistinctNames(mask) && forall entry :: entry in mask ==> ValidEntry(w, typ, entry)
  }

  ghost predicate ValidEntry(w: World, typ: TypeName, entry: Mask)
    decreases entry, 0
  {
    match FieldFor(w.types, typ, entry.name)
    case Some(f) => ValidField(w, f, entry.mask)
    case None =>
      var r := w.RelationAt(RelationId(typ, entry.name));
      r.Some? && (entry.params.Some? ==> r.value.takesParams) && ValidField(w, r.value.descriptor, entry.mask)
  }

  /** A field that can be formatted; only messages take a mask, and map keys are of the kinds protobuf allows. */
  ghost predicate ValidField(w: World, f: Field, mask: seq<Mask>)
    decreases mask, 2
  {
    && (f.shape.MapOf? ==>
          f.shape.key !in {FloatKind, DoubleKind, BytesKind, EnumKind, MessageKind, GroupKind, OtherKind})
    && if f.kind in {MessageKind, GroupKind} then ValidMask(w, f.message, mask) else !f.kind.OtherKind? && mask == []
  }

  lemma {:induction false} EntriesExactly(w: World, typ: TypeName, mask: seq<Mask>, k: nat)
    requires k <= |mask|
    ensures EntrySchemas(w, typ, mask, k).Ok? <==>
              && (forall i, j :: 0 <= i < j < k ==> mask[i].name != mask[j].name)
              && (forall i :: 0 <= i < k ==> EntrySchema(w, typ, mask[i]).Ok?)
  {
    hide EntrySchema, NamesOfFirst;
    if k != 0 {
      EntriesExactly(w, typ, mask, k - 1);
      NameTaken(mask, k - 1);
    }
  }

  lemma NameTaken(mask: seq<Mask>, k: nat)
    requires k < |mask|
    ensures mask[k].name in NamesOfFirst(mask, k) <==> exists i :: 0 <= i < k && mask[i].name == mask[k].name
  {
  }

  /** The masks for which a schema is computed are exactly these. */
  lemma {:induction false} AcceptsExactly(w: World, typ: TypeName, mask: seq<Mask>)
    ensures Accepts(w, typ, mask) <==> ValidMask(w, typ, mask)
    decreases mask, 1
  {
    hide EntrySchema, ValidEntry, EntrySchemas;
    if !typ.IsWellKnown() {
      EntriesExactly(w, typ, mask, |mask|);
      forall i | 0 <= i < |mask| ensures EntrySchema(w, typ, mask[i]).Ok? <==> ValidEntry(w, typ, mask[i]) {
        EntryExactly(w, typ, mask[i]);
      }
      if Accepts(w, typ, mask) {
        forall entry | entry in mask ensures ValidEntry(w, typ, entry) {
          var i :| 0 <= i < |mask| && mask[i] == entry;
          assert EntrySchema(w, typ, mask[i]).Ok?;
        }
      } else if DistinctNames(mask) {
        var i :| 0 <= i < |mask| && EntrySchema(w, typ, mask[i]).Err?;
        assert mask[i] in mask;
      }
    }
  }

  lemma {:induction false} EntryExactly(w: World, typ: TypeName, entry: Mask)
    ensures EntrySchema(w, typ, entry).Ok? <==> ValidEntry(w, typ, entry)
    decreases entry, 0
  {
    hide FieldFor, FieldTypeOf, ValidField;
    var d := DescriptorFor(w, typ, entry);
    if d.Ok? {
      FieldExactly(w, d.value, entry.mask);
    }
  }

  lemma {:induction false} FieldExactly(w: World, f: Field, mask: seq<Mask>)
    ensures FieldTypeOf(w, f, mask).Ok? <==> ValidField(w, f, mask)
    decreases mask, 2
  {
    hide SchemaOf, ValidMask;
    if IsMessage(f.kind) {
      AcceptsExactly(w, f.message, mask);
    }
  }
}
