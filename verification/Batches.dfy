/** Which batches a query can cause at all: they are fixed by the mask and the descriptors, one for each
    relation entry, however many entities the data holds. */
module Batches {
  import opened Protobuf
  import opened Response
  import opened Format
  import opened Meaning
  import opened Schemas
  import opened Conformance

  /** The batches the relation entries in a mask over messages of this type use, and whether errors are caught there;
      above says whether something further up catches. */
  ghost function Uses(w: World, typ: TypeName, mask: seq<Mask>, k: nat, meta: Meta, above: bool): set<Visit>
    requires k <= |mask|
    decreases mask, 0, k
  {
    if k == 0 then {} else Uses(w, typ, mask, k - 1, meta, above) + EntryUses(w, typ, mask[k - 1], meta, above)
  }

  ghost function EntryUses(w: World, typ: TypeName, entry: Mask, meta: Meta, above: bool): set<Visit>
    decreases entry, 0, 0
  {
    match FieldFor(w.types, typ, entry.name)
    case Some(f) => FieldUses(w, f, entry.mask, meta, above)
    case None =>
      var key := GroupKey(entry.params, RelationId(typ, entry.name), meta);
      var r := w.RelationAt(key.relation);
      {Visit(key, above || w.Catches(entry))}
      + if r.None? then {} else FieldUses(w, r.value.descriptor, entry.mask, w.Next(key), above || w.Catches(entry))
  }

  ghost function FieldUses(w: World, f: Field, mask: seq<Mask>, meta: Meta, above: bool): set<Visit>
    decreases mask, 1, 0
  {
    if IsMessage(f.kind) && !f.message.IsWellKnown() then Uses(w, f.message, mask, |mask|, meta, above) else {}
  }

  /** The number of relation entries in a mask. */
  function CountRelations(w: World, typ: TypeName, mask: seq<Mask>, k: nat): nat
    requires k <= |mask|
    decreases mask, 0, k
  {
    if k == 0 then 0 else CountRelations(w, typ, mask, k - 1) + CountEntry(w, typ, mask[k - 1])
  }

  function CountEntry(w: World, typ: TypeName, entry: Mask): nat
    decreases entry, 0, 0
  {
    match FieldFor(w.types, typ, entry.name)
    case Some(f) => CountField(w, f, entry.mask)
    case None =>
      var r := w.RelationAt(RelationId(typ, entry.name));
      1 + if r.None? then 0 else CountField(w, r.value.descriptor, entry.mask)
  }

  function CountField(w: World, f: Field, mask: seq<Mask>): nat
    decreases mask, 1, 0
  {
    if IsMessage(f.kind) && !f.message.IsWellKnown() then CountRelations(w, f.message, mask, |mask|) else 0
  }

  lemma UnionSize<T>(a: set<T>, b: set<T>)
    ensures |a + b| <= |a| + |b|
  {
    assert a + b == a + (b - a) && |a + (b - a)| == |a| + |b - a|;
    assert b == (b - a) + (b * a);
  }

  lemma {:induction false} UsesCounted(w: World, typ: TypeName, mask: seq<Mask>, k: nat, meta: Meta, above: bool)
    requires k <= |mask|
    ensures |Uses(w, typ, mask, k, meta, above)| <= CountRelations(w, typ, mask, k)
    decreases mask, 0, k
  {
    hide FieldFor;
    if k != 0 {
      UsesCounted(w, typ, mask, k - 1, meta, above);
      EntryUsesCounted(w, typ, mask[k - 1], meta, above);
      UnionSize(Uses(w, typ, mask, k - 1, meta, above), EntryUses(w, typ, mask[k - 1], meta, above));
    }
  }

  lemma {:induction false} EntryUsesCounted(w: World, typ: TypeName, entry: Mask, meta: Meta, above: bool)
    ensures |EntryUses(w, typ, entry, meta, above)| <= CountEntry(w, typ, entry)
    decreases entry, 0, 0
  {
    hide FieldFor;
    var f := FieldFor(w.types, typ, entry.name);
    if f.Some? {
      FieldUsesCounted(w, f.value, entry.mask, meta, above);
    } else {
      var key := GroupKey(entry.params, RelationId(typ, entry.name), meta);
      var r := w.RelationAt(key.relation);
      if r.Some? {
        var caught := above || w.Catches(entry);
        FieldUsesCounted(w, r.value.descriptor, entry.mask, w.Next(key), caught);
        UnionSize({Visit(key, caught)}, FieldUses(w, r.value.descriptor, entry.mask, w.Next(key), caught));
      }
    }
  }

  lemma {:induction false} FieldUsesCounted(w: World, f: Field, mask: seq<Mask>, meta: Meta, above: bool)
    ensures |FieldUses(w, f, mask, meta, above)| <= CountField(w, f, mask)
    decreases mask, 1, 0
  {
    if IsMessage(f.kind) && !f.message.IsWellKnown() {
      UsesCounted(w, f.message, mask, |mask|, meta, above);
    }
  }

  /** How deep relation entries are nested in each other. */
  function NestingOf(w: World, typ: TypeName, mask: seq<Mask>, k: nat): nat
    requires k <= |mask|
    decreases mask, 0, k
  {
    if k == 0 then 0 else Max(NestingOf(w, typ, mask, k - 1), EntryNesting(w, typ, mask[k - 1]))
  }

  function EntryNesting(w: World, typ: TypeName, entry: Mask): nat
    decreases entry, 0, 0
  {
    match FieldFor(w.types, typ, entry.name)
    case Some(f) => FieldNesting(w, f, entry.mask)
    case None =>
      var r := w.RelationAt(RelationId(typ, entry.name));
      1 + if r.None? then 0 else FieldNesting(w, r.value.descriptor, entry.mask)
  }

  function FieldNesting(w: World, f: Field, mask: seq<Mask>): nat
    decreases mask, 1, 0
  {
    if IsMessage(f.kind) && !f.message.IsWellKnown() then NestingOf(w, f.message, mask, |mask|) else 0
  }

  /** The rounds of the batches used stay within the nesting of relation entries. */
  lemma {:induction false} UsesNested(w: World, typ: TypeName, mask: seq<Mask>, k: nat, meta: Meta, above: bool)
    requires k <= |mask|
    ensures forall v :: v in Uses(w, typ, mask, k, meta, above) ==>
              RoundOf(v.key.meta) < RoundOf(meta) + NestingOf(w, typ, mask, k)
    decreases mask, 0, k
  {
    hide FieldFor;
    if k != 0 {
      UsesNested(w, typ, mask, k - 1, meta, above);
      EntryUsesNested(w, typ, mask[k - 1], meta, above);
    }
  }

  lemma {:induction false} EntryUsesNested(w: World, typ: TypeName, entry: Mask, meta: Meta, above: bool)
    ensures forall v :: v in EntryUses(w, typ, entry, meta, above) ==>
              RoundOf(v.key.meta) < RoundOf(meta) + EntryNesting(w, typ, entry)
    decreases entry, 0, 0
  {
    hide FieldFor;
    var f := FieldFor(w.types, typ, entry.name);
    if f.Some? {
      FieldUsesNested(w, f.value, entry.mask, meta, above);
    } else {
      var key := GroupKey(entry.params, RelationId(typ, entry.name), meta);
      var r := w.RelationAt(key.relation);
      if r.Some? {
        FieldUsesNested(w, r.value.descriptor, entry.mask, w.Next(key), above || w.Catches(entry));
      }
    }
  }

  lemma {:induction false} FieldUsesNested(w: World, f: Field, mask: seq<Mask>, meta: Meta, above: bool)
    ensures forall v :: v in FieldUses(w, f, mask, meta, above) ==>
              RoundOf(v.key.meta) < RoundOf(meta) + FieldNesting(w, f, mask)
    decreases mask, 1, 0
  {
    if IsMessage(f.kind) && !f.message.IsWellKnown() {
      UsesNested(w, f.message, mask, |mask|, meta, above);
    }
  }

  // ----- every batch a query uses is one of these

  /** The batches a relation entry and everything below it use, statically. */
  ghost function SiteUses(w: World, s: Site, meta: Meta, above: bool): set<Visit> {
    var key := KeyOf(s, meta);
    var r := w.RelationAt(key.relation);
    {Visit(key, above || w.Catches(s.entry))}
    + if r.None? then {} else FieldUses(w, r.value.descriptor, s.entry.mask, w.Next(key), above || w.Catches(s.entry))
  }

  lemma {:induction false} ReachUses(w: World, m: Msg, mask: seq<Mask>, k: nat, meta: Meta, above: bool)
    requires k <= |mask| && TypesSound(w.types) && Conforms(w.types, m, m.typ) && EntrySchemas(w, m.typ, mask, k).Ok?
    ensures forall s :: s in ReachEntries(w.types, m, mask, k) ==>
              SiteUses(w, s, meta, above) <= Uses(w, m.typ, mask, k, meta, above)
    decreases mask, 0, k
  {
    hide FieldFor, EntrySchema, ReachEntry, EntryUses, SiteUses;
    if k != 0 {
      ReachUses(w, m, mask, k - 1, meta, above);
      ReachEntryUses(w, m, mask[k - 1], meta, above);
    }
  }

  lemma {:induction false} ReachEntryUses(w: World, m: Msg, entry: Mask, meta: Meta, above: bool)
    requires TypesSound(w.types) && Conforms(w.types, m, m.typ) && EntrySchema(w, m.typ, entry).Ok?
    ensures forall s :: s in ReachEntry(w.types, m, entry) ==>
              SiteUses(w, s, meta, above) <= EntryUses(w, m.typ, entry, meta, above)
    decreases entry, 0, 0
  {
    hide FieldFor;
    var f := FieldFor(w.types, m.typ, entry.name);
    if f.Some? && Present(m, f.value).Some? {
      FieldForKnown(w.types, m.typ, entry.name);
      PresentConforms(w, m, f.value, entry.mask);
      ReachValueUses(w, f.value, Present(m, f.value).value, entry.mask, meta, above);
    }
  }

  lemma {:induction false} ReachValueUses(w: World, f: Field, v: Val, mask: seq<Mask>, meta: Meta, above: bool)
    requires TypesSound(w.types) && ValConforms(w.types, f, v) && FieldTypeOf(w, f, mask).Ok?
    ensures forall s :: s in ReachValue(w.types, f, v, mask) ==>
              SiteUses(w, s, meta, above) <= FieldUses(w, f, mask, meta, above)
    decreases mask, 4, 0
  {
    hide SiteUses, FieldUses;
    ElementsConform(w.types, f, v);
    assert ElementTypeOf(w, f, mask).Ok?;
    ReachElementsUses(w, f, Elements(v), |Elements(v)|, mask, meta, above);
  }

  lemma {:induction false} ReachElementsUses(w: World, f: Field, es: seq<Element>, k: nat, mask: seq<Mask>,
                                             meta: Meta, above: bool)
    requires TypesSound(w.types) && k <= |es| && (forall e :: e in es ==> ElementConforms(w.types, f, e))
    requires ElementTypeOf(w, f, mask).Ok?
    ensures forall s :: s in ReachElements(w.types, f, es, k, mask) ==>
              SiteUses(w, s, meta, above) <= FieldUses(w, f, mask, meta, above)
    decreases mask, 3, k
  {
    hide SiteUses, FieldUses, ReachElement, ElementConforms, ElementTypeOf;
    if k != 0 {
      ReachElementsUses(w, f, es, k - 1, mask, meta, above);
      ReachElementUses(w, f, es[k - 1], mask, meta, above);
    }
  }

  lemma {:induction false} ReachElementUses(w: World, f: Field, e: Element, mask: seq<Mask>, meta: Meta, above: bool)
    requires TypesSound(w.types) && ElementConforms(w.types, f, e) && ElementTypeOf(w, f, mask).Ok?
    ensures forall s :: s in ReachElement(w.types, f, e, mask) ==>
              SiteUses(w, s, meta, above) <= FieldUses(w, f, mask, meta, above)
    decreases mask, 2, 0
  {
    hide SiteUses, EntrySchemas, Uses;
    if IsMessage(f.kind) && !f.message.IsWellKnown() {
      assert Conforms(w.types, e.msg, f.message) && e.msg.typ == f.message;
      SchemaEntries(w, f.message, mask);
      ReachUses(w, e.msg, mask, |mask|, meta, above);
    }
  }

  lemma {:induction false} VisitKeysSize(visits: set<Visit>)
    ensures |VisitKeys(visits)| <= |visits|
  {
    if visits != {} {
      var v :| v in visits;
      VisitKeysSize(visits - {v});
      assert VisitKeys(visits) == VisitKeys(visits - {v}) + {v.key};
    }
  }

  /** Whatever the data and the failures, a validated relation entry uses no batch but its static ones. */
  lemma {:induction false} VisitsStatic(w: World, fails: Failures, s: Site, meta: Meta, above: bool)
    requires WorldSound(w) && Validated(w, s)
    ensures Visits(w, fails, s, meta, above) <= SiteUses(w, s, meta, above)
    decreases EntryDepth(s.entry)
  {
    hide Validated, Conforms, ValConforms, FieldTypeOf;
    var key := KeyOf(s, meta);
    var r := Resolution(w, fails, s, meta);
    ValidatedRelation(w, s);
    if r.Some? {
      AnswerConforms(w, key, s.msg);
      ReachValueValidated(w, r.value.0, r.value.1, s.entry.mask);
      var caught := above || w.Catches(s.entry);
      ReachValueUses(w, r.value.0, r.value.1, s.entry.mask, w.Next(key), caught);
      forall x | x in VisitsValue(w, fails, r.value.0, r.value.1, s.entry.mask, w.Next(key), caught)
        ensures x in SiteUses(w, s, meta, above)
      {
        var t :| t in ReachValue(w.types, r.value.0, r.value.1, s.entry.mask) && x in Visits(w, fails, t, w.Next(key),
                                 caught);
        VisitsStatic(w, fails, t, w.Next(key), caught);
      }
    }
  }

  /** The static uses of a query over messages of this type. */
  ghost function QueryUses(w: World, typ: TypeName, mask: seq<Mask>, meta: Meta, above: bool): set<Visit> {
    if typ.IsWellKnown() then {} else Uses(w, typ, mask, |mask|, meta, above)
  }

  /** All batches a validated query over one message uses are static, in number at most its relation entries. */
  lemma MessageBatches(w: World, fails: Failures, m: Msg, mask: seq<Mask>, meta: Meta, above: bool)
    requires WorldSound(w) && Conforms(w.types, m, m.typ) && Accepts(w, m.typ, mask)
    ensures VisitsOfSites(w, fails, Reach(w.types, m, mask), meta, above) <= QueryUses(w, m.typ, mask, meta, above)
    ensures |QueryUses(w, m.typ, mask, meta, above)| <= CountRelations(w, m.typ, mask, |mask|)
  {
    hide Validated, EntrySchemas, SiteUses;
    ReachValidated(w, m, mask);
    if !m.typ.IsWellKnown() {
      SchemaEntries(w, m.typ, mask);
      UsesCounted(w, m.typ, mask, |mask|, meta, above);
      ReachUses(w, m, mask, |mask|, meta, above);
      var sites := Reach(w.types, m, mask);
      forall x | x in VisitsOfSites(w, fails, sites, meta, above)
        ensures x in Uses(w, m.typ, mask, |mask|, meta, above)
      {
        var t :| t in sites && x in Visits(w, fails, t, meta, above);
        VisitsStatic(w, fails, t, meta, above);
      }
    }
  }

  lemma SchemaEntries(w: World, typ: TypeName, mask: seq<Mask>)
    requires Accepts(w, typ, mask) && !typ.IsWellKnown()
    ensures EntrySchemas(w, typ, mask, |mask|).Ok?
  {
  }
}
