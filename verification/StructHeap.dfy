/** The formatting operations as the gateway runs them: they allocate structs and fill them in place. */
module StructHeaps {
  import Names
  import opened Wrappers
  import opened Protobuf
  import opened Response
  import opened Format
  import opened Scalars

  /** A failure met at one entry is the failure of the whole mask. */
  lemma {:induction false} EntriesFaultStays(types: Types, m: Msg, mask: seq<Mask>, i: nat, k: nat)
    requires i <= k <= |mask| && EntriesFault(types, m, mask, i).Some?
    ensures EntriesFault(types, m, mask, k) == EntriesFault(types, m, mask, i)
  {
    if i < k {
      EntriesFaultStays(types, m, mask, i, k - 1);
    }
  }

  lemma {:induction false} ElementsFaultStays(types: Types, f: Field, es: seq<Element>, i: nat, k: nat, mask: seq<Mask>)
    requires i <= k <= |es| && ElementsFault(types, f, es, i, mask).Some?
    ensures ElementsFault(types, f, es, k, mask) == ElementsFault(types, f, es, i, mask)
  {
    if i < k {
      ElementsFaultStays(types, f, es, i, k - 1, mask);
    }
  }

  lemma Associative(a: Store, b: Store, c: Store)
    ensures a + b + c == a + (b + c)
  {
  }

  lemma NoElements(c: Ctx, next: nat, f: Field, es: seq<Element>, mask: seq<Mask>)
    ensures ElementsFault(c.types, f, es, 0, mask).None?
    ensures FormattedElements(c, next, f, es, 0, mask) == Formatted([], [], [])
  {
  }

  lemma OneMoreElement(c: Ctx, next: nat, f: Field, es: seq<Element>, i: nat, mask: seq<Mask>)
    requires i < |es| && ElementsFault(c.types, f, es, i, mask).None?
    ensures ElementsFault(c.types, f, es, i + 1, mask) == ElementFault(c.types, f, es[i], mask)
    ensures var before := FormattedElements(c, next, f, es, i, mask);
            var r := FormattedElement(c, next + |before.structs|, f, es[i], mask);
            FormattedElements(c, next, f, es, i + 1, mask)
            == Formatted(before.out + [r.out], before.structs + r.structs, before.patches + r.patches)
  {
    hide FormattedElement, ElementFault;
  }

  /** A map part way through its entries. */
  ghost predicate MapSoFar(c: Ctx, f: Field, v: Val, mask: seq<Mask>, i: nat,
                           base: Store, now: Store, obj: map<string, Ref>, patches: seq<Patch>)
    requires v.Entries?
  {
    && i <= |v.entries|
    && ElementsFault(c.types, f, Elements(v), i, mask).None?
    && var r := FormattedElements(c, |base|, f, Elements(v), i, mask);
       now == base + r.structs && patches == r.patches && obj == Zip(KeyTexts(v)[..i], r.out)
  }

  lemma MapGoesOn(c: Ctx, f: Field, v: Val, mask: seq<Mask>, i: nat, base: Store, now: Store,
                  obj: map<string, Ref>, patches: seq<Patch>, r: Formatted<Ref>)
    requires v.Entries? && i < |v.entries| && MapSoFar(c, f, v, mask, i, base, now, obj, patches)
    requires ElementFault(c.types, f, v.entries[i].1, mask).None?
    requires r == FormattedElement(c, |now|, f, v.entries[i].1, mask)
    ensures MapSoFar(c, f, v, mask, i + 1, base, now + r.structs, obj[KeyText(v.entries[i].0) := r.out],
                     patches + r.patches)
  {
    hide FormattedElements, FormattedElement, ElementsFault, ElementFault, KeyText;
    var before, keys := FormattedElements(c, |base|, f, Elements(v), i, mask), KeyTexts(v);
    OneMoreElement(c, |base|, f, Elements(v), i, mask);
    Associative(base, before.structs, r.structs);
    ZipAppend(keys[..i], before.out, keys[i], r.out);
    assert keys[..i + 1] == keys[..i] + [keys[i]];
  }

  /** The store while a struct allocated on top of base is part way through its mask. */
  ghost function Above(base: Store, r: Formatted<Fields>): Store {
    base + ([r.out] + r.structs)
  }

  lemma StructGoesOn(base: Store, before: Formatted<Fields>, r: Formatted<Content<Ref>>, name: string)
    ensures StoreField(Above(base, before) + r.structs, |base|, name, Filled(r.out))
         == Above(base, WithField(before, name, r))
  {
  }

  lemma NoEntries(c: Ctx, own: nat, m: Msg, mask: seq<Mask>)
    ensures EntriesFault(c.types, m, mask, 0).None? && FormattedEntries(c, own, m, mask, 0) == Formatted(map[], [], [])
  {
  }

  lemma OneMoreEntry(c: Ctx, own: nat, m: Msg, mask: seq<Mask>, i: nat)
    requires i < |mask| && EntriesFault(c.types, m, mask, i).None?
    ensures EntriesFault(c.types, m, mask, i + 1) == EntryFault(c.types, m, mask[i])
    ensures FormattedEntries(c, own, m, mask, i + 1)
         == AddEntry(c, own, m, mask[i], FormattedEntries(c, own, m, mask, i))
  {
    hide AddEntry, EntryFault;
  }

  lemma EntryByKind(c: Ctx, own: nat, m: Msg, entry: Mask, before: Formatted<Fields>)
    ensures match FieldFor(c.types, m.typ, entry.name)
            case None =>
              EntryFault(c.types, m, entry) == None
              && AddEntry(c, own, m, entry, before) == WithPatch(before, PatchFor(c, own, m, entry))
            case Some(f) =>
              match Present(m, f)
              case None => EntryFault(c.types, m, entry) == None && AddEntry(c, own, m, entry, before) == before
              case Some(v) =>
                EntryFault(c.types, m, entry) == ValueFault(c.types, f, v, entry.mask)
                && AddEntry(c, own, m, entry, before)
                   == WithField(before, entry.name, FormattedValue(c, own + 1 + |before.structs|, f, v, entry.mask))
  {
    hide FieldFor, ValueFault, FormattedValue;
  }

  class StructHeap {
    var structs: Store

    constructor ()
      ensures structs == []
    {
      structs := [];
    }

    /** Allocates an empty struct. */
    method New() returns (addr: nat)
      modifies this
      ensures addr == |old(structs)| && structs == old(structs) + [map[]]
    {
      addr := |structs|;
      structs := structs + [map[]];
    }

    /** formatTarget.Fields[name] = cell */
    method Set(slot: Slot, cell: Cell)
      requires slot.addr < |structs|
      modifies this
      ensures structs == StoreField(old(structs), slot.addr, slot.name, cell)
    {
      structs := structs[slot.addr := structs[slot.addr][slot.name := cell]];
    }

    method FormatMessage(c: Ctx, m: Msg, mask: seq<Mask>) returns (out: Result<Ref, Cause>, patches: seq<Patch>)
      modifies this
      ensures old(structs) <= structs
      ensures MessageFault(c.types, m, mask).Some? ==> out == Err(MessageFault(c.types, m, mask).value)
      ensures MessageFault(c.types, m, mask).None? ==>
                var r := FormattedMessage(c, |old(structs)|, m, mask);
                out == Ok(r.out) && patches == r.patches && structs == old(structs) + r.structs
      decreases mask, 1, 0
    {
      patches := [];
      if m.typ.IsWellKnown() {
        out := if m.json.None? then Err(NotConvertible) else Ok(Ref.Plain(MessageLeaf(m)));
      } else {
        out, patches := FormatNormalMessage(c, m, mask);
      }
    }

    method FormatNormalMessage(c: Ctx, m: Msg, mask: seq<Mask>) returns (out: Result<Ref, Cause>, patches: seq<Patch>)
      modifies this
      ensures old(structs) <= structs
      ensures var fault := EntriesFault(c.types, m, mask, |mask|);
              fault.Some? ==> out == Err(fault.value)
      ensures EntriesFault(c.types, m, mask, |mask|).None? ==>
                var r := FormattedEntries(c, |old(structs)|, m, mask, |mask|);
                out == Ok(Struct(|old(structs)|)) && patches == r.patches && structs == Above(old(structs), r)
      decreases mask, 0, 0
    {
      hide FormattedEntries, EntriesFault, AddEntry, EntryFault;
      var own := New();
      patches := [];
      NoEntries(c, own, m, mask);
      for i := 0 to |mask|
        invariant EntriesFault(c.types, m, mask, i).None?
        invariant var r := FormattedEntries(c, own, m, mask, i);
                  structs == Above(old(structs), r) && patches == r.patches
      {
        ghost var before := FormattedEntries(c, own, m, mask, i);
        OneMoreEntry(c, own, m, mask, i);
        var fault, more := FormatEntry(c, own, m, mask[i], old(structs), before);
        if fault.Some? {
          EntriesFaultStays(c.types, m, mask, i + 1, |mask|);
          return Err(fault.value), [];
        }
        patches := patches + more;
      }
      out := Ok(Struct(own));
    }

    /** One entry of the mask of the struct at address own. */
    method FormatEntry(c: Ctx, own: nat, m: Msg, entry: Mask, ghost base: Store, ghost before: Formatted<Fields>)
      returns (fault: Option<Cause>, patches: seq<Patch>)
      requires own == |base| && structs == Above(base, before)
      modifies this
      ensures base <= structs
      ensures fault == EntryFault(c.types, m, entry)
      ensures fault.None? ==>
                var r := AddEntry(c, own, m, entry, before);
                structs == Above(base, r) && before.patches + patches == r.patches
      decreases entry, 0, 0
    {
      hide AddEntry, EntryFault, ValueFault, FormattedValue, Names.Lookup;
      patches := [];
      fault := None;
      EntryByKind(c, own, m, entry, before);
      var fields := FieldsOf(c.types, m.typ);
      var at := Names.FieldWithCamelCaseName(NamesOf(fields), entry.name);
      ghost var after := AddEntry(c, own, m, entry, before);
      if at < 0 {
        patches := [PatchFor(c, own, m, entry)];
        assert after == WithPatch(before, patches[0]);
        return;
      }
      var v := Present(m, fields[at]);
      if v.None? {
        assert after == before && before.patches + patches == before.patches;
        return;
      }
      var value;
      value, patches := FormatValue(c, fields[at], v.value, entry.mask);
      if value.Err? {
        return Some(value.error), [];
      }
      ghost var r := FormattedValue(c, own + 1 + |before.structs|, fields[at], v.value, entry.mask);
      assert after == WithField(before, entry.name, r);
      assert structs == Above(base, before) + r.structs;
      StructGoesOn(base, before, r, entry.name);
      Set(Slot(own, entry.name), Filled(value.value));
    }

    method FormatValue(c: Ctx, f: Field, v: Val, mask: seq<Mask>) returns (out: Result<Content<Ref>, Cause>,
                       patches: seq<Patch>)
      modifies this
      ensures old(structs) <= structs
      ensures ValueFault(c.types, f, v, mask).Some? ==> out == Err(ValueFault(c.types, f, v, mask).value)
      ensures ValueFault(c.types, f, v, mask).None? ==>
                var r := FormattedValue(c, |old(structs)|, f, v, mask);
                out == Ok(r.out) && patches == r.patches && structs == old(structs) + r.structs
      decreases mask, 4, 0
    {
      match v
      case Entries(entries) =>
        var fault, obj;
        fault, obj, patches := FormatMap(c, f, v, mask);
        assert KeyTexts(v)[..|entries|] == KeyTexts(v);
        out := if fault.Some? then Err(fault.value) else Ok(Object(obj));
      case Many(es) =>
        out, patches := FormatList(c, f, v, mask);
      case One(e) =>
        var item;
        ghost var none := FormattedElements(c, |structs|, f, [e], 0, mask);
        assert FormattedElements(c, |structs|, f, [e], 1, mask) == AddElement(c, |structs|, f, e, mask, none);
        assert ElementsFault(c.types, f, [e], 1, mask) == ElementFault(c.types, f, e, mask);
        item, patches := FormatSingularValue(c, f, e, mask);
        out := if item.Err? then Err(item.error) else Ok(Single(item.value));
    }

    method FormatMap(c: Ctx, f: Field, v: Val, mask: seq<Mask>)
      returns (fault: Option<Cause>, obj: map<string, Ref>, patches: seq<Patch>)
      requires v.Entries?
      modifies this
      ensures old(structs) <= structs
      ensures fault == ValueFault(c.types, f, v, mask)
      ensures fault.None? ==> MapSoFar(c, f, v, mask, |v.entries|, old(structs), structs, obj, patches)
      decreases mask, 3, 1
    {
      obj, patches := map[], [];
      for i := 0 to |v.entries|
        invariant i == 0 || (f.shape.MapOf? && IsKeyKind(f.shape.key))
        invariant MapSoFar(c, f, v, mask, i, old(structs), structs, obj, patches)
      {
        ghost var now := structs;
        var key, item, more := FormatMapEntry(c, f, v.entries[i], mask);
        if key.Err? {
          return Some(key.error), obj, [];
        }
        if item.Err? {
          ElementsFaultStays(c.types, f, Elements(v), i + 1, |v.entries|, mask);
          return Some(item.error), obj, [];
        }
        MapGoesOn(c, f, v, mask, i, old(structs), now, obj, patches, FormattedElement(c, |now|, f, v.entries[i].1,
                  mask));
        obj := obj[key.value := item.value];
        patches := patches + more;
      }
      fault := None;
    }

    method FormatMapEntry(c: Ctx, f: Field, entry: (Scalar, Element), mask: seq<Mask>)
      returns (key: Result<string, Cause>, item: Result<Ref, Cause>, patches: seq<Patch>)
      modifies this
      ensures old(structs) <= structs
      ensures key == if f.shape.MapOf? && IsKeyKind(f.shape.key) then Ok(KeyText(entry.0)) else Err(UnknownKeyKind)
      ensures key.Ok? && ElementFault(c.types, f, entry.1, mask).Some? ==>
                item == Err(ElementFault(c.types, f, entry.1, mask).value)
      ensures key.Ok? && ElementFault(c.types, f, entry.1, mask).None? ==>
                var r := FormattedElement(c, |old(structs)|, f, entry.1, mask);
                item == Ok(r.out) && patches == r.patches && structs == old(structs) + r.structs
      decreases mask, 3, 0
    {
      key := FormatMapKeyValue(f, entry.0);
      if key.Err? {
        return key, Err(key.error), [];
      }
      item, patches := FormatSingularValue(c, f, entry.1, mask);
    }

    method FormatList(c: Ctx, f: Field, v: Val, mask: seq<Mask>) returns (out: Result<Content<Ref>, Cause>,
                      patches: seq<Patch>)
      requires v.Many?
      modifies this
      ensures old(structs) <= structs
      ensures ValueFault(c.types, f, v, mask).Some? ==> out == Err(ValueFault(c.types, f, v, mask).value)
      ensures ValueFault(c.types, f, v, mask).None? ==>
                var r := FormattedValue(c, |old(structs)|, f, v, mask);
                out == Ok(r.out) && patches == r.patches && structs == old(structs) + r.structs
      decreases mask, 3, 0
    {
      hide FormattedElements, FormattedElement, ElementsFault, ElementFault;
      var es := v.elems;
      NoElements(c, |structs|, f, es, mask);
      var vals: seq<Ref> := [];
      patches := [];
      for i := 0 to |es|
        invariant ElementsFault(c.types, f, es, i, mask).None?
        invariant var r := FormattedElements(c, |old(structs)|, f, es, i, mask);
                  structs == old(structs) + r.structs && patches == r.patches && vals == r.out
      {
        OneMoreElement(c, |old(structs)|, f, es, i, mask);
        var item, more := FormatSingularValue(c, f, es[i], mask);
        if item.Err? {
          ElementsFaultStays(c.types, f, es, i + 1, |es|, mask);
          return Err(item.error), [];
        }
        vals := vals + [item.value];
        patches := patches + more;
      }
      out := Ok(Items(vals));
    }

    method FormatSingularValue(c: Ctx, f: Field, e: Element, mask: seq<Mask>) returns (out: Result<Ref, Cause>,
                               patches: seq<Patch>)
      modifies this
      ensures old(structs) <= structs
      ensures ElementFault(c.types, f, e, mask).Some? ==> out == Err(ElementFault(c.types, f, e, mask).value)
      ensures ElementFault(c.types, f, e, mask).None? ==>
                var r := FormattedElement(c, |old(structs)|, f, e, mask);
                out == Ok(r.out) && patches == r.patches && structs == old(structs) + r.structs
      ensures !IsMessage(f.kind) && e.Plain? && out.Ok? ==>
                out.value.Plain? && ReadsBack(f, e.scalar, out.value.leaf)
      decreases mask, 2, 0
    {
      hide ScalarLeaf, ReadsBack;
      patches := [];
      if IsMessage(f.kind) {
        if e.Nested? {
          out, patches := FormatMessage(c, e.msg, mask);
        } else {
          out := Ok(Ref.Plain(Null));
        }
      } else if f.kind.OtherKind? {
        out := Err(UnknownKind);
      } else {
        out := Ok(Ref.Plain(if e.Plain? then ScalarLeaf(f, e.scalar) else Null));
        if e.Plain? {
          FormattedReadsBack(f, e.scalar);
        }
      }
    }
  }

  /** The text of a key, by the kind of the map's keys. */
  method FormatMapKeyValue(f: Field, key: Scalar) returns (text: Result<string, Cause>)
    ensures text == if f.shape.MapOf? && IsKeyKind(f.shape.key) then Ok(KeyText(key)) else Err(UnknownKeyKind)
    ensures text.Ok? ==> KeyReadsBack(f.shape.key, key, text.value)
  {
    hide KeyText, KeyReadsBack;
    if !f.shape.MapOf? {
      return Err(UnknownKeyKind);
    }
    if IsKeyKind(f.shape.key) {
      FormattedKeyReadsBack(f.shape.key, key);
    }
    match f.shape.key
    case Int32Kind | Sint32Kind | Sfixed32Kind | Int64Kind | Sint64Kind | Sfixed64Kind => text := Ok(KeyText(key));
    case Uint32Kind | Fixed32Kind | Uint64Kind | Fixed64Kind => text := Ok(KeyText(key));
    case BoolKind | StringKind => text := Ok(KeyText(key));
    case _ => text := Err(UnknownKeyKind);
  }
}
