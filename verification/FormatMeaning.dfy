/** Formatting means what the depth-first evaluation says: read with its patches pending, what formatting
    leaves is the tree of the message under the mask. */
module FormatMeaning {
  import opened Wrappers
  import opened Protobuf
  import opened Response
  import opened Format
  import opened Meaning
  import opened Placement
  import opened Reading

  /** These structs stand at addresses lo and up; the patches pending there are among these, all of which are
      pending; and no errors from elsewhere are headed there. */
  ghost predicate Window(st: Store, pend: set<Patch>, lo: nat, structs: Store, patches: seq<Patch>) {
    && lo + |structs| <= |st| && st[lo..lo + |structs|] == structs
    && (forall p :: p in pend && lo <= p.slot.addr < lo + |structs| ==> p in patches)
    && (forall p :: p in patches ==> p in pend)
    && (forall p :: p in pend && p.catcher.Some? && lo <= p.catcher.value.addr < lo + |structs| ==>
          p.catcher.value == p.slot)
  }

  lemma WindowSplit(st: Store, pend: set<Patch>, lo: nat, s1: Store, p1: seq<Patch>, s2: Store, p2: seq<Patch>)
    requires Window(st, pend, lo, s1 + s2, p1 + p2)
    requires forall p :: p in p1 ==> p.slot.addr < lo + |s1|
    requires forall p :: p in p2 ==> lo + |s1| <= p.slot.addr
    ensures Window(st, pend, lo, s1, p1) && Window(st, pend, lo + |s1|, s2, p2)
  {
    assert st[lo..lo + |s1|] == (s1 + s2)[..|s1|];
    assert st[lo + |s1|..lo + |s1| + |s2|] == (s1 + s2)[|s1|..];
  }

  /** The context belongs to this world, and its catcher is outside what is allocated from address next on. */
  ghost predicate Fits(w: World, c: Ctx, next: nat) {
    && c.types == w.types && c.fallbackCatch == w.fallbackCatch
    && (c.catcher.Some? ==> c.catcher.value.addr < next)
  }

  /** One mask entry is shown as its meaning in the struct at address own, as far as r describes that struct. */
  ghost predicate EntryShown(w: World, fails: Failures, st: Store, pend: set<Patch>, c: Ctx, own: nat,
                             m: Msg, entry: Mask, r: Formatted<Fields>)
    requires own < |st|
  {
    var f := FieldFor(w.types, m.typ, entry.name);
    if f.None? then
      entry.name !in r.out && PatchFor(c, own, m, entry) in r.patches
    else
      && (forall p :: p in r.patches ==> p.slot != Slot(own, entry.name))
      && var v := Present(m, f.value);
         if v.None? then entry.name !in r.out
         else
           && entry.name in r.out && r.out[entry.name].Filled?
           && ReadContent(w, fails, st, pend, own, r.out[entry.name].content)
              == TreeValue(w, fails, f.value, v.value, entry.mask, c.meta)
  }

  lemma {:induction false} MessageShown(w: World, fails: Failures, st: Store, pend: set<Patch>, c: Ctx,
                                        next: nat, m: Msg, mask: seq<Mask>, from: int)
    requires Fits(w, c, next) && WellFormed(mask) && -1 <= from < next && from < |st|
    requires var r := FormattedMessage(c, next, m, mask); Window(st, pend, next, r.structs, r.patches)
    ensures ReadRef(w, fails, st, pend, from, FormattedMessage(c, next, m, mask).out)
         == TreeMessage(w, fails, m, mask, c.meta)
    decreases mask, 1, 0
  {
    hide FieldFor, EntryShown, TreeEntry, NodeAt;
    if !m.typ.IsWellKnown() {
      var r := FormattedEntries(c, next, m, mask, |mask|);
      EntriesPlaced(c, next, m, mask, |mask|);
      WindowInside(st, pend, next, r.out, r.structs, r.patches);
      EntriesShown(w, fails, st, pend, c, next, m, mask, |mask|);
      OwnStruct(w, fails, st, pend, c, next, m, mask, r);
    }
  }

  lemma WindowInside(st: Store, pend: set<Patch>, lo: nat, fields: Fields, rest: Store, patches: seq<Patch>)
    requires Window(st, pend, lo, [fields] + rest, patches)
    ensures st[lo] == fields && Window(st, pend, lo + 1, rest, patches)
  {
    var all := [fields] + rest;
    assert st[lo] == st[lo..lo + |all|][0];
    assert st[lo + 1..lo + 1 + |rest|] == st[lo..lo + |all|][1..];
    assert all[1..] == rest;
  }

  lemma {:induction false} EntriesShown(w: World, fails: Failures, st: Store, pend: set<Patch>, c: Ctx,
                                        own: nat, m: Msg, mask: seq<Mask>, k: nat)
    requires Fits(w, c, own) && WellFormed(mask) && k <= |mask| && own < |st|
    requires var r := FormattedEntries(c, own, m, mask, k); Window(st, pend, own + 1, r.structs, r.patches)
    ensures forall i :: 0 <= i < k ==>
              EntryShown(w, fails, st, pend, c, own, m, mask[i], FormattedEntries(c, own, m, mask, k))
    decreases mask, 0, k
  {
    hide FieldFor;
    if k != 0 {
      var before, entry := FormattedEntries(c, own, m, mask, k - 1), mask[k - 1];
      EntriesPlaced(c, own, m, mask, k - 1);
      assert entry in mask && entry.name !in NamesOfFirst(mask, k - 1);
      EntryAdded(w, fails, st, pend, c, own, m, entry, before, ReachEntries(c.types, m, mask, k - 1),
                 NamesOfFirst(mask, k - 1));
      EntriesShown(w, fails, st, pend, c, own, m, mask, k - 1);
      forall i | 0 <= i < k
        ensures EntryShown(w, fails, st, pend, c, own, m, mask[i], AddEntry(c, own, m, entry, before))
      {
        if i < k - 1 {
          EntryStillShown(w, fails, st, pend, c, own, m, mask[i], entry, before);
        }
      }
    }
  }

  /** The entry just added is shown, and what was there before is still in a window of its own. */
  lemma {:induction false} EntryAdded(w: World, fails: Failures, st: Store, pend: set<Patch>, c: Ctx, own: nat,
                                      m: Msg, entry: Mask,
                                      before: Formatted<Fields>, sites: seq<Site>, names: set<string>)
    requires Fits(w, c, own) && WellFormed(entry.mask) && own < |st|
    requires Laid(c, own, before, sites, names) && entry.name !in names
    requires var r := AddEntry(c, own, m, entry, before); Window(st, pend, own + 1, r.structs, r.patches)
    ensures Window(st, pend, own + 1, before.structs, before.patches)
    ensures EntryShown(w, fails, st, pend, c, own, m, entry, AddEntry(c, own, m, entry, before))
    decreases entry, 0, 1
  {
    hide FieldFor;
    var f := FieldFor(c.types, m.typ, entry.name);
    if f.None? {
      assert PatchFor(c, own, m, entry).slot.addr == own;
    } else if Present(m, f.value).Some? {
      FieldAdded(w, fails, st, pend, c, own, m, entry, before, sites, names, f.value, Present(m, f.value).value);
    }
  }

  lemma {:induction false} FieldAdded(w: World, fails: Failures, st: Store, pend: set<Patch>, c: Ctx, own: nat,
                                      m: Msg, entry: Mask,
                                      before: Formatted<Fields>, sites: seq<Site>, names: set<string>, f: Field, v: Val)
    requires Fits(w, c, own) && WellFormed(entry.mask) && own < |st|
    requires Laid(c, own, before, sites, names) && entry.name !in names
    requires FieldFor(c.types, m.typ, entry.name) == Some(f) && Present(m, f) == Some(v)
    requires var r := AddEntry(c, own, m, entry, before); Window(st, pend, own + 1, r.structs, r.patches)
    ensures Window(st, pend, own + 1, before.structs, before.patches)
    ensures EntryShown(w, fails, st, pend, c, own, m, entry, AddEntry(c, own, m, entry, before))
    decreases entry, 0, 0
  {
    hide FieldFor, Present, FormattedValue, TreeValue, ReadContent;
    var next := own + 1 + |before.structs|;
    ValuePlaced(c, next, f, v, entry.mask);
    var r := FormattedValue(c, next, f, v, entry.mask);
    assert AddEntry(c, own, m, entry, before) == WithField(before, entry.name, r);
    WindowSplit(st, pend, own + 1, before.structs, before.patches, r.structs, r.patches);
    ValueShown(w, fails, st, pend, c, next, f, v, entry.mask, own);
  }

  /** Adding an entry of another name leaves an entry shown. */
  lemma EntryStillShown(w: World, fails: Failures, st: Store, pend: set<Patch>, c: Ctx, own: nat, m: Msg, other: Mask,
                        entry: Mask,
                        before: Formatted<Fields>)
    requires own < |st| && WellFormed(entry.mask) && other.name != entry.name
    requires EntryShown(w, fails, st, pend, c, own, m, other, before)
    ensures EntryShown(w, fails, st, pend, c, own, m, other, AddEntry(c, own, m, entry, before))
  {
    hide FieldFor;
    var f := FieldFor(c.types, m.typ, entry.name);
    if f.Some? && Present(m, f.value).Some? {
      ValuePlaced(c, own + 1 + |before.structs|, f.value, Present(m, f.value).value, entry.mask);
    }
  }

  lemma {:induction false} ValueShown(w: World, fails: Failures, st: Store, pend: set<Patch>, c: Ctx,
                                      next: nat, f: Field, v: Val, mask: seq<Mask>, from: int)
    requires Fits(w, c, next) && WellFormed(mask) && -1 <= from < next && from < |st|
    requires var r := FormattedValue(c, next, f, v, mask); Window(st, pend, next, r.structs, r.patches)
    ensures ReadContent(w, fails, st, pend, from, FormattedValue(c, next, f, v, mask).out)
         == TreeValue(w, fails, f, v, mask, c.meta)
    decreases mask, 4, 0
  {
    var es := Elements(v);
    var r := FormattedElements(c, next, f, es, |es|, mask);
    ElementsShown(w, fails, st, pend, c, next, f, es, |es|, mask, from);
    ReadArrange(w, fails, st, pend, from, v, KeyTexts(v), r.out);
    assert ReadRefs(w, fails, st, pend, from, r.out) == TreeElements(w, fails, f, es, mask, c.meta);
  }

  lemma {:induction false} ElementsShown(w: World, fails: Failures, st: Store, pend: set<Patch>, c: Ctx,
                                         next: nat, f: Field, es: seq<Element>, k: nat, mask: seq<Mask>, from: int)
    requires Fits(w, c, next) && WellFormed(mask) && k <= |es| && -1 <= from < next && from < |st|
    requires var r := FormattedElements(c, next, f, es, k, mask); Window(st, pend, next, r.structs, r.patches)
    ensures forall i :: 0 <= i < k ==>
              ReadRef(w, fails, st, pend, from, FormattedElements(c, next, f, es, k, mask).out[i])
              == TreeElement(w, fails, f, es[i], mask, c.meta)
    decreases mask, 3, k
  {
    hide FormattedElement, TreeElement, ReadRef, Window, Placed, Follows, ReachElements, ReachElement;
    if k != 0 {
      var before := FormattedElements(c, next, f, es, k - 1, mask);
      var at := next + |before.structs|;
      var r := FormattedElement(c, at, f, es[k - 1], mask);
      ElementsPlaced(c, next, f, es, k - 1, mask);
      ElementPlaced(c, at, f, es[k - 1], mask);
      assert FormattedElements(c, next, f, es, k, mask) == AddElement(c, next, f, es[k - 1], mask, before);
      WindowSplit(st, pend, next, before.structs, before.patches, r.structs, r.patches);
      ElementsShown(w, fails, st, pend, c, next, f, es, k - 1, mask, from);
      ElementShown(w, fails, st, pend, c, at, f, es[k - 1], mask, from);
    }
  }

  lemma {:induction false} ElementShown(w: World, fails: Failures, st: Store, pend: set<Patch>, c: Ctx,
                                        next: nat, f: Field, e: Element, mask: seq<Mask>, from: int)
    requires Fits(w, c, next) && WellFormed(mask) && -1 <= from < next && from < |st|
    requires var r := FormattedElement(c, next, f, e, mask); Window(st, pend, next, r.structs, r.patches)
    ensures ReadRef(w, fails, st, pend, from, FormattedElement(c, next, f, e, mask).out)
         == TreeElement(w, fails, f, e, mask, c.meta)
    decreases mask, 2, 0
  {
    if IsMessage(f.kind) && e.Nested? {
      MessageShown(w, fails, st, pend, c, next, e.msg, mask, from);
    }
  }

  // ----- a message's own struct

  /** The facts about a message's own struct that decide how its slots are read. */
  ghost predicate Settled(w: World, fails: Failures, st: Store, pend: set<Patch>, c: Ctx, own: nat, m: Msg,
                          mask: seq<Mask>, r: Formatted<Fields>)
  {
    && Fits(w, c, own) && DistinctNames(mask)
    && Window(st, pend, own, [r.out] + r.structs, r.patches) && st[own] == r.out
    && Placed(own, [r.out] + r.structs, r.patches) && r.out.Keys <= MaskNames(mask)
    && (forall p :: p in r.patches && p.slot.addr == own ==> p.slot.name in MaskNames(mask))
    && (forall i :: 0 <= i < |mask| ==> EntryShown(w, fails, st, pend, c, own, m, mask[i], r))
  }

  /** Whatever is pending at an own slot is one of the message's patches, and only that one can bring errors there. */
  lemma OwnPatches(w: World, fails: Failures, st: Store, pend: set<Patch>, c: Ctx, own: nat, m: Msg, mask: seq<Mask>,
                   r: Formatted<Fields>, q: Patch, slot: Slot)
    requires Settled(w, fails, st, pend, c, own, m, mask, r)
    requires q in pend && slot.addr == own && (q.slot == slot || q.catcher == Some(slot))
    ensures q.slot == slot && q in r.patches && slot.name in MaskNames(mask)
    ensures forall p :: p in r.patches && p.slot == slot ==> p == q
  {
    forall p | p in r.patches && p.slot == slot ensures p == q {
      var i :| 0 <= i < |r.patches| && r.patches[i] == p;
      var j :| 0 <= j < |r.patches| && r.patches[j] == q;
      assert i == j;
    }
  }

  lemma OwnRelation(w: World, fails: Failures, st: Store, pend: set<Patch>, c: Ctx, own: nat, m: Msg, mask: seq<Mask>,
                    r: Formatted<Fields>, i: nat)
    requires Settled(w, fails, st, pend, c, own, m, mask, r) && i < |mask|
    requires FieldFor(w.types, m.typ, mask[i].name).None?
    ensures NodeAt(w, fails, st, pend, Slot(own, mask[i].name)) == TreeEntry(w, fails, m, mask[i], c.meta)
  {
    hide FieldFor, Escapes, TreeRelation, Latest;
    var entry := mask[i];
    var slot, p := Slot(own, entry.name), PatchFor(c, own, m, entry);
    assert EntryShown(w, fails, st, pend, c, own, m, entry, r);
    OwnPatches(w, fails, st, pend, c, own, m, mask, r, p, slot);
    forall q | q in pend && (q.slot == slot || q.catcher == Some(slot)) ensures q == p {
      OwnPatches(w, fails, st, pend, c, own, m, mask, r, q, slot);
    }
    assert SiteOf(p) == Site(m, entry) && p in pend;
    if w.Catches(entry) {
      assert p.catcher == Some(slot);
      assert forall x :: x in Escapes(w, fails, SiteOf(p), p.meta) ==> x in Incoming(w, fails, pend, slot);
      assert Incoming(w, fails, pend, slot) == Escapes(w, fails, Site(m, entry), c.meta);
    } else {
      assert p.catcher == c.catcher && c.catcher != Some(slot);
      assert Incoming(w, fails, pend, slot) == {};
    }
    assert Awaited(pend, slot);
    OwnPatches(w, fails, st, pend, c, own, m, mask, r, Awaiting(pend, slot), slot);
  }

  lemma OwnField(w: World, fails: Failures, st: Store, pend: set<Patch>, c: Ctx, own: nat, m: Msg, mask: seq<Mask>,
                 r: Formatted<Fields>, i: nat)
    requires Settled(w, fails, st, pend, c, own, m, mask, r) && i < |mask|
    requires FieldFor(w.types, m.typ, mask[i].name).Some?
    ensures NodeAt(w, fails, st, pend, Slot(own, mask[i].name)) == TreeEntry(w, fails, m, mask[i], c.meta)
  {
    hide FieldFor;
    var entry := mask[i];
    var slot := Slot(own, entry.name);
    assert EntryShown(w, fails, st, pend, c, own, m, entry, r);
    forall q | q in pend ensures q.slot != slot && q.catcher != Some(slot) {
      if q.slot == slot || q.catcher == Some(slot) {
        OwnPatches(w, fails, st, pend, c, own, m, mask, r, q, slot);
      }
    }
    assert Incoming(w, fails, pend, slot) == {} && !Awaited(pend, slot);
  }

  /** A slot of the own struct that no mask entry names is empty. */
  lemma OwnOther(w: World, fails: Failures, st: Store, pend: set<Patch>, c: Ctx, own: nat, m: Msg, mask: seq<Mask>,
                 r: Formatted<Fields>, name: string)
    requires Settled(w, fails, st, pend, c, own, m, mask, r) && name !in MaskNames(mask)
    ensures NodeAt(w, fails, st, pend, Slot(own, name)) == None
  {
    hide FieldFor;
    var slot := Slot(own, name);
    forall q | q in pend ensures q.slot != slot && q.catcher != Some(slot) {
      if q.slot == slot || q.catcher == Some(slot) {
        OwnPatches(w, fails, st, pend, c, own, m, mask, r, q, slot);
      }
    }
    assert Incoming(w, fails, pend, slot) == {} && !Awaited(pend, slot);
  }

  lemma OwnStruct(w: World, fails: Failures, st: Store, pend: set<Patch>, c: Ctx, own: nat, m: Msg, mask: seq<Mask>,
                  r: Formatted<Fields>)
    requires Settled(w, fails, st, pend, c, own, m, mask, r) && !m.typ.IsWellKnown()
    ensures Read(w, fails, st, pend, own) == TreeMessage(w, fails, m, mask, c.meta)
  {
    hide FieldFor, NodeAt, TreeEntry, EntryShown, Candidates;
    forall name
      ensures NodeAt(w, fails, st, pend, Slot(own, name)) ==
              if name in MaskNames(mask) then TreeEntry(w, fails, m, mask[IndexOf(mask, name)], c.meta) else None
    {
      if name in MaskNames(mask) {
        var i := IndexOf(mask, name);
        if FieldFor(w.types, m.typ, mask[i].name).None? {
          OwnRelation(w, fails, st, pend, c, own, m, mask, r, i);
        } else {
          OwnField(w, fails, st, pend, c, own, m, mask, r, i);
        }
      } else {
        OwnOther(w, fails, st, pend, c, own, m, mask, r, name);
      }
    }
    forall name | NodeAt(w, fails, st, pend, Slot(own, name)).Some? ensures name in Candidates(st, pend, own) {
      NodeCandidates(w, fails, st, pend, Slot(own, name));
    }
  }
}
