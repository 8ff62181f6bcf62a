/** Where the patches that formatting leaves point to: one for every relation instance the mask reaches, in
    order, each into its own still empty slot of a struct that this formatting allocated. */
module Placement {
  import opened Protobuf
  import opened Response
  import opened Format

  /** One patch per site, in order, describing that site. */
  ghost predicate Follows(c: Ctx, patches: seq<Patch>, sites: seq<Site>) {
    && |patches| == |sites|
    && forall i :: 0 <= i < |patches| ==>
         patches[i] == PatchFor(c, patches[i].slot.addr, sites[i].msg, sites[i].entry)
  }

  /** Patches point to pairwise different slots, not yet filled, of the structs at addresses lo and up; these
      structs refer to no address beyond them. */
  ghost predicate Placed(lo: nat, structs: Store, patches: seq<Patch>) {
    && (forall p :: p in patches ==> lo <= p.slot.addr < lo + |structs| && p.slot.name !in structs[p.slot.addr - lo])
    && (forall i, j :: 0 <= i < j < |patches| ==> patches[i].slot != patches[j].slot)
    && StoreBelow(structs, lo + |structs|)
  }

  lemma BelowMonotone(st: Store, b1: nat, b2: nat)
    requires StoreBelow(st, b1) && b1 <= b2
    ensures StoreBelow(st, b2)
  {
  }

  lemma PlacedConcat(lo: nat, s1: Store, s2: Store, p1: seq<Patch>, p2: seq<Patch>)
    requires Placed(lo, s1, p1) && Placed(lo + |s1|, s2, p2)
    ensures Placed(lo, s1 + s2, p1 + p2)
  {
    var s, p := s1 + s2, p1 + p2;
    BelowMonotone(s1, lo + |s1|, lo + |s|);
    forall i, j | 0 <= i < j < |p| ensures p[i].slot != p[j].slot {
      if i < |p1| <= j {
        assert p[i] in p1 && p[j] in p2;
      } else if |p1| <= i {
        assert p[i] == p2[i - |p1|] && p[j] == p2[j - |p1|];
      }
    }
    forall q | q in p ensures lo <= q.slot.addr < lo + |s| && q.slot.name !in s[q.slot.addr - lo] {
      if q in p1 {
        assert s[q.slot.addr - lo] == s1[q.slot.addr - lo];
      } else {
        assert s[q.slot.addr - lo] == s2[q.slot.addr - lo - |s1|];
      }
    }
  }

  lemma FollowsConcat(c: Ctx, p1: seq<Patch>, p2: seq<Patch>, s1: seq<Site>, s2: seq<Site>)
    requires Follows(c, p1, s1) && Follows(c, p2, s2)
    ensures Follows(c, p1 + p2, s1 + s2)
  {
  }

  lemma {:induction false} MessagePlaced(c: Ctx, next: nat, m: Msg, mask: seq<Mask>)
    requires WellFormed(mask)
    ensures var r := FormattedMessage(c, next, m, mask);
            && Follows(c, r.patches, Reach(c.types, m, mask))
            && Placed(next, r.structs, r.patches) && RefBelow(r.out, next + |r.structs|)
    decreases mask, 1, 0
  {
    if !m.typ.IsWellKnown() {
      EntriesPlaced(c, next, m, mask, |mask|);
    }
  }

  /** The state of one struct part way through its mask: its fields, the structs nested in them, its patches. */
  ghost predicate Laid(c: Ctx, own: nat, r: Formatted<Fields>, sites: seq<Site>, names: set<string>) {
    && Follows(c, r.patches, sites)
    && Placed(own, [r.out] + r.structs, r.patches)
    && r.out.Keys <= names
    && forall p :: p in r.patches && p.slot.addr == own ==> p.slot.name in names
  }

  lemma LaidRelation(c: Ctx, own: nat, r: Formatted<Fields>, sites: seq<Site>, names: set<string>, m: Msg, entry: Mask)
    requires Laid(c, own, r, sites, names) && entry.name !in names
    ensures Laid(c, own, WithPatch(r, PatchFor(c, own, m, entry)), sites + [Site(m, entry)], names + {entry.name})
  {
    var p := PatchFor(c, own, m, entry);
    assert [r.out] + r.structs + [] == [r.out] + r.structs;
    forall i | 0 <= i < |r.patches| ensures r.patches[i].slot != p.slot {
      assert r.patches[i] in r.patches;
    }
  }

  /** A formatted value: its patches, and that it refers to nothing beyond what it allocated. */
  ghost predicate ValueLaid(c: Ctx, next: nat, v: Formatted<Content<Ref>>, sites: seq<Site>) {
    Follows(c, v.patches, sites) && Placed(next, v.structs, v.patches) && ContentBelow(v.out, next + |v.structs|)
  }

  /** Filling a field that no patch waits for keeps patches placed. */
  lemma PlacedFill(own: nat, fields: Fields, rest: Store, patches: seq<Patch>, name: string, cell: Cell)
    requires Placed(own, [fields] + rest, patches)
    requires forall p :: p in patches && p.slot.addr == own ==> p.slot.name != name
    requires cell.Filled? ==> ContentBelow(cell.content, own + 1 + |rest|)
    ensures Placed(own, [fields[name := cell]] + rest, patches)
  {
    var before, after := [fields] + rest, [fields[name := cell]] + rest;
    forall g | g in after ensures CellsBelow(g, own + |after|) {
      if g in rest {
        assert g in before;
      } else {
        assert fields in before;
      }
    }
  }

  lemma LaidField(c: Ctx, own: nat, r: Formatted<Fields>, sites: seq<Site>, names: set<string>,
                  name: string, v: Formatted<Content<Ref>>, more: seq<Site>)
    requires Laid(c, own, r, sites, names) && name !in names
    requires ValueLaid(c, own + 1 + |r.structs|, v, more)
    ensures Laid(c, own, WithField(r, name, v), sites + more, names + {name})
  {
    PlacedConcat(own, [r.out] + r.structs, v.structs, r.patches, v.patches);
    assert [r.out] + r.structs + v.structs == [r.out] + (r.structs + v.structs);
    PlacedFill(own, r.out, r.structs + v.structs, r.patches + v.patches, name, Filled(v.out));
  }

  lemma {:induction false} EntriesPlaced(c: Ctx, own: nat, m: Msg, mask: seq<Mask>, k: nat)
    requires WellFormed(mask) && k <= |mask|
    ensures Laid(c, own, FormattedEntries(c, own, m, mask, k), ReachEntries(c.types, m, mask, k), NamesOfFirst(mask, k))
    decreases mask, 0, k
  {
    if k != 0 {
      EntriesPlaced(c, own, m, mask, k - 1);
      assert mask[k - 1] in mask;
      EntryPlaced(c, own, m, mask[k - 1], FormattedEntries(c, own, m, mask, k - 1),
                  ReachEntries(c.types, m, mask, k - 1), NamesOfFirst(mask, k - 1));
      assert NamesOfFirst(mask, k) == NamesOfFirst(mask, k - 1) + {mask[k - 1].name};
    }
  }

  lemma {:induction false} EntryPlaced(
    c: Ctx, own: nat, m: Msg, entry: Mask, before: Formatted<Fields>, sites: seq<Site>, names: set<string>)
    requires WellFormed(entry.mask)
    requires Laid(c, own, before, sites, names) && entry.name !in names
    ensures Laid(c, own, AddEntry(c, own, m, entry, before), sites + ReachEntry(c.types, m, entry),
                 names + {entry.name})
    decreases entry, 0, 1
  {
    if FieldFor(c.types, m.typ, entry.name).None? {
      LaidRelation(c, own, before, sites, names, m, entry);
    } else if Present(m, FieldFor(c.types, m.typ, entry.name).value).None? {
      assert sites + [] == sites;
    } else {
      FieldPlaced(c, own, m, entry, before, sites, names);
    }
  }

  lemma {:induction false} FieldPlaced(
    c: Ctx, own: nat, m: Msg, entry: Mask, before: Formatted<Fields>, sites: seq<Site>, names: set<string>)
    requires WellFormed(entry.mask)
    requires Laid(c, own, before, sites, names) && entry.name !in names
    requires FieldFor(c.types, m.typ, entry.name).Some? && Present(m, FieldFor(c.types, m.typ, entry.name).value).Some?
    ensures Laid(c, own, AddEntry(c, own, m, entry, before), sites + ReachEntry(c.types, m, entry),
                 names + {entry.name})
    decreases entry, 0, 0
  {
    hide FieldFor;
    var f, next := FieldFor(c.types, m.typ, entry.name).value, own + 1 + |before.structs|;
    var v := Present(m, f).value;
    ValuePlaced(c, next, f, v, entry.mask);
    var r, more := FormattedValue(c, next, f, v, entry.mask), ReachValue(c.types, f, v, entry.mask);
    LaidField(c, own, before, sites, names, entry.name, r, more);
    assert AddEntry(c, own, m, entry, before) == WithField(before, entry.name, r);
    assert ReachEntry(c.types, m, entry) == more;
  }

  lemma {:induction false} ValuePlaced(c: Ctx, next: nat, f: Field, v: Val, mask: seq<Mask>)
    requires WellFormed(mask)
    ensures ValueLaid(c, next, FormattedValue(c, next, f, v, mask), ReachValue(c.types, f, v, mask))
    decreases mask, 4, 0
  {
    var es := Elements(v);
    ElementsPlaced(c, next, f, es, |es|, mask);
    var r := FormattedElements(c, next, f, es, |es|, mask);
    ArrangeBelow(v, KeyTexts(v), r.out, next + |r.structs|);
  }

  lemma {:induction false} ElementsPlaced(c: Ctx, next: nat, f: Field, es: seq<Element>, k: nat, mask: seq<Mask>)
    requires WellFormed(mask) && k <= |es|
    ensures var r := FormattedElements(c, next, f, es, k, mask);
            && Follows(c, r.patches, ReachElements(c.types, f, es, k, mask))
            && Placed(next, r.structs, r.patches) && forall ref :: ref in r.out ==> RefBelow(ref, next + |r.structs|)
    decreases mask, 3, k
  {
    if k != 0 {
      ElementsPlaced(c, next, f, es, k - 1, mask);
      NextElementPlaced(c, next, f, es[k - 1], mask, FormattedElements(c, next, f, es, k - 1, mask),
                        ReachElements(c.types, f, es, k - 1, mask));
    }
  }

  lemma {:induction false} NextElementPlaced(
    c: Ctx, next: nat, f: Field, e: Element, mask: seq<Mask>, before: Formatted<seq<Ref>>, sites: seq<Site>)
    requires WellFormed(mask) && Follows(c, before.patches, sites) && Placed(next, before.structs, before.patches)
    requires forall ref :: ref in before.out ==> RefBelow(ref, next + |before.structs|)
    ensures var r := AddElement(c, next, f, e, mask, before);
            && Follows(c, r.patches, sites + ReachElement(c.types, f, e, mask))
            && Placed(next, r.structs, r.patches) && forall ref :: ref in r.out ==> RefBelow(ref, next + |r.structs|)
    decreases mask, 2, 1
  {
    hide FormattedElement, ReachElement, Placed, Follows;
    var at := next + |before.structs|;
    ElementPlaced(c, at, f, e, mask);
    var r := FormattedElement(c, at, f, e, mask);
    FollowsConcat(c, before.patches, r.patches, sites, ReachElement(c.types, f, e, mask));
    PlacedConcat(next, before.structs, r.structs, before.patches, r.patches);
  }

  lemma {:induction false} ElementPlaced(c: Ctx, next: nat, f: Field, e: Element, mask: seq<Mask>)
    requires WellFormed(mask)
    ensures var r := FormattedElement(c, next, f, e, mask);
            && Follows(c, r.patches, ReachElement(c.types, f, e, mask))
            && Placed(next, r.structs, r.patches) && RefBelow(r.out, next + |r.structs|)
    decreases mask, 2, 0
  {
    if IsMessage(f.kind) && e.Nested? {
      MessagePlaced(c, next, e.msg, mask);
    }
  }

  // ----- what masks reach is as well formed as they are

  lemma {:induction false} ReachWellFormed(types: Types, m: Msg, mask: seq<Mask>)
    requires WellFormed(mask)
    ensures forall s :: s in Reach(types, m, mask) ==> WellFormed(s.entry.mask)
    decreases mask, 1, 0
  {
    if !m.typ.IsWellKnown() {
      ReachWellFormedEntries(types, m, mask, |mask|);
    }
  }

  lemma {:induction false} ReachWellFormedEntries(types: Types, m: Msg, mask: seq<Mask>, k: nat)
    requires WellFormed(mask) && k <= |mask|
    ensures forall s :: s in ReachEntries(types, m, mask, k) ==> WellFormed(s.entry.mask)
    decreases mask, 0, k
  {
    hide FieldFor;
    if k != 0 {
      ReachWellFormedEntries(types, m, mask, k - 1);
      var entry := mask[k - 1];
      assert entry in mask;
      var f := FieldFor(types, m.typ, entry.name);
      if f.Some? && Present(m, f.value).Some? {
        ReachWellFormedValue(types, f.value, Present(m, f.value).value, entry.mask);
      }
    }
  }

  lemma {:induction false} ReachWellFormedValue(types: Types, f: Field, v: Val, mask: seq<Mask>)
    requires WellFormed(mask)
    ensures forall s :: s in ReachValue(types, f, v, mask) ==> WellFormed(s.entry.mask)
    decreases mask, 3, 0
  {
    ReachWellFormedElements(types, f, Elements(v), |Elements(v)|, mask);
  }

  lemma {:induction false} ReachWellFormedElements(types: Types, f: Field, es: seq<Element>, k: nat, mask: seq<Mask>)
    requires WellFormed(mask) && k <= |es|
    ensures forall s :: s in ReachElements(types, f, es, k, mask) ==> WellFormed(s.entry.mask)
    decreases mask, 2, k
  {
    if k != 0 {
      ReachWellFormedElements(types, f, es, k - 1, mask);
      if IsMessage(f.kind) && es[k - 1].Nested? {
        ReachWellFormed(types, es[k - 1].msg, mask);
      }
    }
  }
}
