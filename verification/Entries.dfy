/** The responses of the entry-point calls, formatted and waiting to be stitched (handler.go:95-165). */
module Entries {
  import opened Wrappers
  import opened Protobuf
  import opened Response
  import opened Format
  import opened Meaning
  import opened Placement
  import opened Reading
  import opened FormatMeaning
  import opened Steps
  import opened Grouping

  const ERROR_NAME := "error"

  /** The separate struct a catching request gives to its response for errors. */
  ghost predicate ErrorRoot(st: Store, pend: set<Patch>, a: nat, patches: seq<Patch>)
    requires a < |st|
  {
    && st[a] == map[]
    && forall p :: p in pend ==>
         && p.slot.addr != a
         && (p.catcher.Some? && p.catcher.value.addr == a ==> p.catcher.value.name == ERROR_NAME && p in patches)
  }

  /** One entry response stands in the store as formatting left it, its patches pending. */
  ghost predicate Ready(w: World, st: Store, pend: set<Patch>, meta: Meta, mask: seq<Mask>, m: Msg,
                        base: nat, errSlot: Option<Slot>, ref: Ref, patches: seq<Patch>)
  {
    var r := FormattedMessage(Ctx(w.types, w.fallbackCatch, meta, errSlot), base, m, mask);
    && WellFormed(mask) && ref == r.out && patches == r.patches && Window(st, pend, base, r.structs, r.patches)
    && (errSlot.Some? ==> base >= 1 && base - 1 < |st| && errSlot.value == Slot(base - 1, ERROR_NAME)
                          && ErrorRoot(st, pend, base - 1, patches))
  }

  lemma MatchingMessage(w: World, meta: Meta, mask: seq<Mask>, m: Msg, base: nat, up: Option<Slot>)
    requires WellFormed(mask)
    ensures var r := FormattedMessage(Ctx(w.types, w.fallbackCatch, meta, up), base, m, mask);
            Matching(w, r.patches, Reach(w.types, m, mask), meta, up, base) && DistinctSlots(r.patches)
  {
    hide FormattedMessage, Reach;
    var c := Ctx(w.types, w.fallbackCatch, meta, up);
    MessagePlaced(c, base, m, mask);
    var r := FormattedMessage(c, base, m, mask);
    forall i | 0 <= i < |r.patches| ensures r.patches[i].slot.addr >= base {
      assert r.patches[i] in r.patches;
    }
  }

  /** Read with its patches pending, an entry response is the tree its query means, and its error struct is headed
      for the faults nothing inside the response catches. */
  lemma ReadyMeans(w: World, fails: Failures, st: Store, pend: set<Patch>, meta: Meta, mask: seq<Mask>, m: Msg,
                   base: nat, errSlot: Option<Slot>, ref: Ref, patches: seq<Patch>)
    requires Ready(w, st, pend, meta, mask, m, base, errSlot, ref, patches)
    ensures ReadRef(w, fails, st, pend, -1, ref) == TreeMessage(w, fails, m, mask, meta)
    ensures errSlot.Some? ==>
              && Incoming(w, fails, pend, errSlot.value) == EscapesOfSites(w, fails, Reach(w.types, m, mask), meta)
              && Incoming(w, fails, pend, errSlot.value) == Incoming(w, fails, PatchSet(patches), errSlot.value)
    ensures AbortsOf(w, fails, PatchSet(patches))
         == AbortsOfSites(w, fails, Reach(w.types, m, mask), meta, errSlot.Some?)
    ensures VisitsOf(w, fails, PatchSet(patches))
         == VisitsOfSites(w, fails, Reach(w.types, m, mask), meta, errSlot.Some?)
  {
    hide FormattedMessage, Reach, TreeMessage, ReadRef, AbortsOf, VisitsOf, EscapesOfSites;
    var c := Ctx(w.types, w.fallbackCatch, meta, errSlot);
    MatchingMessage(w, meta, mask, m, base, errSlot);
    MessageShown(w, fails, st, pend, c, base, m, mask, -1);
    var sites := Reach(w.types, m, mask);
    AbortsOfMatching(w, fails, patches, sites, meta, errSlot, base);
    VisitsOfMatching(w, fails, patches, sites, meta, errSlot, base);
    if errSlot.Some? {
      IncomingOfMatching(w, fails, patches, sites, meta, errSlot, base, errSlot.value);
      assert Incoming(w, fails, pend, errSlot.value) == Incoming(w, fails, PatchSet(patches), errSlot.value);
    }
  }

  /** The error struct itself: one key, exactly when faults reach it. */
  lemma ErrorRootMeans(w: World, fails: Failures, st: Store, pend: set<Patch>, a: nat, patches: seq<Patch>)
    requires a < |st| && ErrorRoot(st, pend, a, patches)
    ensures var faults := Incoming(w, fails, pend, Slot(a, ERROR_NAME));
            Read(w, fails, st, pend, a) == Obj(if faults == {} then map[] else map[ERROR_NAME := OneOf(Latest(faults))])
  {
    hide Escapes, Latest;
    forall n
      ensures NodeAt(w, fails, st, pend, Slot(a, n))
           == if n == ERROR_NAME && Incoming(w, fails, pend, Slot(a, n)) != {}
              then Some(OneOf(Latest(Incoming(w, fails, pend, Slot(a, n))))) else None
    {
      assert !Awaited(pend, Slot(a, n));
      if n != ERROR_NAME {
        assert Incoming(w, fails, pend, Slot(a, n)) == {};
      }
    }
    if Incoming(w, fails, pend, Slot(a, ERROR_NAME)) != {} {
      NodeCandidates(w, fails, st, pend, Slot(a, ERROR_NAME));
    }
  }

  /** A later entry response only adds structs, and patches that keep to them. */
  ghost predicate Adds(st: Store, pend: set<Patch>, st2: Store, pend2: set<Patch>) {
    && |st| <= |st2| && st2[..|st|] == st && pend <= pend2
    && forall p :: p in pend2 && p !in pend ==>
         p.slot.addr >= |st| && (p.catcher.Some? ==> p.catcher.value.addr >= |st|)
  }

  lemma SliceOfPrefix(st: Store, st2: Store, a: nat, b: nat)
    requires a <= b <= |st| <= |st2| && st2[..|st|] == st
    ensures st2[a..b] == st[a..b]
  {
    assert forall i :: 0 <= i < |st| ==> st2[i] == st2[..|st|][i];
  }

  lemma ReadyStays(w: World, st: Store, pend: set<Patch>, st2: Store, pend2: set<Patch>, meta: Meta, mask: seq<Mask>,
                   m: Msg,
                   base: nat, errSlot: Option<Slot>, ref: Ref, patches: seq<Patch>)
    requires Ready(w, st, pend, meta, mask, m, base, errSlot, ref, patches) && Adds(st, pend, st2, pend2)
    ensures Ready(w, st2, pend2, meta, mask, m, base, errSlot, ref, patches)
  {
    hide FormattedMessage;
    var r := FormattedMessage(Ctx(w.types, w.fallbackCatch, meta, errSlot), base, m, mask);
    SliceOfPrefix(st, st2, base, base + |r.structs|);
    if errSlot.Some? {
      assert st2[base - 1] == st2[..|st|][base - 1];
    }
  }

  /** Formatting an entry response, with a fresh error struct before it if the request catches. */
  ghost function OpenedStore(w: World, st: Store, meta: Meta, mask: seq<Mask>, m: Msg, errSlot: Option<Slot>): Store {
    var before := if errSlot.Some? then st + [map[]] else st;
    before + FormattedMessage(Ctx(w.types, w.fallbackCatch, meta, errSlot), |before|, m, mask).structs
  }

  lemma OpeningAdds(w: World, st: Store, pend: set<Patch>, meta: Meta, mask: seq<Mask>, m: Msg, errSlot: Option<Slot>)
    requires Sound(w, st, pend) && WellFormed(mask)
    requires errSlot.Some? ==> errSlot.value == Slot(|st|, ERROR_NAME)
    ensures var base := |st| + if errSlot.Some? then 1 else 0;
            var r := FormattedMessage(Ctx(w.types, w.fallbackCatch, meta, errSlot), base, m, mask);
            var st2 := OpenedStore(w, st, meta, mask, m, errSlot);
            && Sound(w, st2, pend + PatchSet(r.patches)) && Adds(st, pend, st2, pend + PatchSet(r.patches))
            && Ready(w, st2, pend + PatchSet(r.patches), meta, mask, m, base, errSlot, r.out, r.patches)
            && RefBelow(r.out, |st2|)
  {
    hide FormattedMessage, Reach, Sound, Ready, Follows;
    var base := |st| + if errSlot.Some? then 1 else 0;
    var c := Ctx(w.types, w.fallbackCatch, meta, errSlot);
    var r := FormattedMessage(c, base, m, mask);
    var st2 := OpenedStore(w, st, meta, mask, m, errSlot);
    MessagePlaced(c, base, m, mask);
    NewMessagePatches(w, c, base, m, mask);
    var before := if errSlot.Some? then st + [map[]] else st;
    assert st2 == before + r.structs;
    AppendSlices(st, before, r.structs);
    OpeningSound(w, st, pend, before, r.structs, r.patches, errSlot);
    SoundFacts(w, st, pend);
    OpeningReady(w, st, pend, meta, mask, m, errSlot, r, st2);
  }

  lemma AppendSlices(st: Store, before: Store, structs: Store)
    requires before == st || before == st + [map[]]
    ensures var all := before + structs;
            all[|before|..|before| + |structs|] == structs && all[..|st|] == st && (before != st ==> all[|st|] == map[])
  {
  }

  lemma OpeningReady(w: World, st: Store, pend: set<Patch>, meta: Meta, mask: seq<Mask>, m: Msg, errSlot: Option<Slot>,
                     r: Formatted<Ref>, st2: Store)
    requires WellFormed(mask) && (errSlot.Some? ==> errSlot.value == Slot(|st|, ERROR_NAME))
    requires var base := |st| + if errSlot.Some? then 1 else 0;
             && r == FormattedMessage(Ctx(w.types, w.fallbackCatch, meta, errSlot), base, m, mask)
             && |st2| == base + |r.structs| && st2[base..base + |r.structs|] == r.structs
             && (errSlot.Some? ==> st2[|st|] == map[])
             && forall q :: q in r.patches ==>
                  q.slot.addr >= base && q.catcher == if w.Catches(q.mask) then Some(q.slot) else errSlot
    requires forall p :: p in pend ==> p.slot.addr < |st| && (p.catcher.Some? ==> p.catcher.value.addr < |st|)
    ensures var base := |st| + if errSlot.Some? then 1 else 0;
            Ready(w, st2, pend + PatchSet(r.patches), meta, mask, m, base, errSlot, r.out, r.patches)
  {
    hide FormattedMessage;
  }

  lemma SoundFacts(w: World, st: Store, pend: set<Patch>)
    requires Sound(w, st, pend)
    ensures forall p :: p in pend ==> p.slot.addr < |st| && (p.catcher.Some? ==> p.catcher.value.addr < |st|)
  {
  }

  lemma OpeningSound(w: World, st: Store, pend: set<Patch>, before: Store, structs: Store, patches: seq<Patch>,
                     up: Option<Slot>)
    requires Sound(w, st, pend) && Placed(|before|, structs, patches)
    requires before == if up.Some? then st + [map[]] else st
    requires up.Some? ==> up.value.addr == |st|
    requires forall q :: q in patches ==>
               && q.slot.name == q.mask.name && WellFormed(q.mask.mask)
               && q.catcher == if w.Catches(q.mask) then Some(q.slot) else up
    ensures Sound(w, before + structs, pend + PatchSet(patches))
  {
    StoreGrowsBelow(st, before, structs);
    var st2, pend2 := before + structs, pend + PatchSet(patches);
    assert forall a :: |before| <= a < |st2| ==> st2[a] == structs[a - |before|];
    assert forall a :: 0 <= a < |st| ==> st2[a] == st[a];
    forall p, q | p in pend2 && q in pend2 && p.slot == q.slot ensures p == q {
      if p in patches && q in patches {
        var i :| 0 <= i < |patches| && patches[i] == p;
        var j :| 0 <= j < |patches| && patches[j] == q;
        assert i == j;
      }
    }
  }

  lemma StoreGrowsBelow(st: Store, before: Store, structs: Store)
    requires StoreBelow(st, |st|) && (before == st || before == st + [map[]])
    requires StoreBelow(structs, |before| + |structs|)
    ensures StoreBelow(before + structs, |before| + |structs|)
  {
    BelowMonotone(st, |st|, |before| + |structs|);
  }

  lemma NewMessagePatches(w: World, c: Ctx, next: nat, m: Msg, mask: seq<Mask>)
    requires WellFormed(mask) && c.types == w.types && c.fallbackCatch == w.fallbackCatch
    ensures forall q :: q in FormattedMessage(c, next, m, mask).patches ==>
              && q.slot.name == q.mask.name && WellFormed(q.mask.mask) && q.meta == c.meta
              && EntryDepth(q.mask) <= Depth(mask)
              && q.catcher == if w.Catches(q.mask) then Some(q.slot) else c.catcher
  {
    hide FormattedMessage;
    MessagePlaced(c, next, m, mask);
    ReachWellFormed(c.types, m, mask);
    var patches, sites := FormattedMessage(c, next, m, mask).patches, Reach(c.types, m, mask);
    forall q | q in patches
      ensures q.slot.name == q.mask.name && WellFormed(q.mask.mask) && q.meta == c.meta
      ensures EntryDepth(q.mask) <= Depth(mask)
      ensures q.catcher == if w.Catches(q.mask) then Some(q.slot) else c.catcher
    {
      var i :| 0 <= i < |patches| && patches[i] == q;
      assert sites[i] in sites;
    }
  }
}
