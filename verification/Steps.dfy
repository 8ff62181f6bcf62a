/** The atomic steps of stitching (stitcher.go:159-189): what each does to the response as it is being read,
    and to the faults that will abort the call. */
module Steps {
  import opened Wrappers
  import opened Protobuf
  import opened Response
  import opened Format
  import opened Meaning
  import opened Placement
  import opened Reading
  import opened FormatMeaning

  /** Pending patches wait for different, still empty slots; the slot errors of a patch go to is its own or one
      that nothing waits for. */
  ghost predicate Sound(w: World, st: Store, pend: set<Patch>) {
    && StoreBelow(st, |st|)
    && (forall p :: p in pend ==>
         && p.slot.addr < |st| && p.slot.name == p.mask.name && p.slot.name !in st[p.slot.addr]
         && (p.catcher.Some? ==> p.catcher.value.addr < |st|)
         && (w.Catches(p.mask) ==> p.catcher.Some?)
         && WellFormed(p.mask.mask))
    && (forall p, q :: p in pend && q in pend && p.slot == q.slot ==> p == q)
    && (forall p, q :: p in pend && q in pend && p.catcher == Some(q.slot) ==> p == q)
  }

  /** Every struct of the first response is read in the second as a refinement of what it was. */
  ghost predicate Refined(w: World, fails: Failures, st1: Store, pend1: set<Patch>, st2: Store, pend2: set<Patch>) {
    && |st1| <= |st2|
    && forall a :: 0 <= a < |st1| ==> Refines(Read(w, fails, st2, pend2, a), Read(w, fails, st1, pend1, a))
  }

  /** The faults of pending patches that will abort the call. */
  ghost function AbortsOf(w: World, fails: Failures, pend: set<Patch>): set<Fault> {
    set p, x | p in pend && x in Aborts(w, fails, SiteOf(p), p.meta, p.catcher.Some?) :: x
  }

  /** The batches pending patches will use. */
  ghost function VisitsOf(w: World, fails: Failures, pend: set<Patch>): set<Visit> {
    set p, x | p in pend && x in Visits(w, fails, SiteOf(p), p.meta, p.catcher.Some?) :: x
  }

  /** What every step keeps: trees are only refined, the faults that will abort the call are the same, and no
      batch comes up that was not headed for before. */
  ghost predicate Keeps(w: World, fails: Failures, st1: Store, pend1: set<Patch>, st2: Store, pend2: set<Patch>) {
    && Refined(w, fails, st1, pend1, st2, pend2)
    && AbortsOf(w, fails, pend2) == AbortsOf(w, fails, pend1)
    && VisitsOf(w, fails, pend2) <= VisitsOf(w, fails, pend1)
  }

  /** No use of a batch is dropped: it is still pending, or the batch is among those done. */
  ghost predicate NoneDropped(w: World, fails: Failures, done: set<GroupKey>, pend1: set<Patch>, pend2: set<Patch>) {
    forall v :: v in VisitsOf(w, fails, pend1) ==> v in VisitsOf(w, fails, pend2) || v.key in done
  }

  /** A patch whose uses are its own batch and those of the patches that replace it. */
  lemma OneDone(w: World, fails: Failures, pend: set<Patch>, p: Patch, news: set<Patch>)
    requires p in pend
    requires forall v :: v in Visits(w, fails, SiteOf(p), p.meta, p.catcher.Some?) ==>
              v.key == p.Key() || v in VisitsOf(w, fails, news)
    ensures NoneDropped(w, fails, {p.Key()}, pend, pend - {p} + news)
  {
    hide Visits;
    forall v | v in VisitsOf(w, fails, pend) && v.key != p.Key() ensures v in VisitsOf(w, fails, pend - {p} + news) {
      var q :| q in pend && v in Visits(w, fails, SiteOf(q), q.meta, q.catcher.Some?);
      if q == p {
        var n :| n in news && v in Visits(w, fails, SiteOf(n), n.meta, n.catcher.Some?);
        assert n in pend - {p} + news;
      } else {
        assert q in pend - {p} + news;
      }
    }
  }

  lemma KeepsReflexive(w: World, fails: Failures, st: Store, pend: set<Patch>)
    ensures Keeps(w, fails, st, pend, st, pend)
  {
    forall a: nat | a < |st| ensures Refines(Read(w, fails, st, pend, a), Read(w, fails, st, pend, a)) {
      RefinesReflexive(Read(w, fails, st, pend, a));
    }
  }

  lemma KeepsTransitive(w: World, fails: Failures, st1: Store, pend1: set<Patch>, st2: Store, pend2: set<Patch>,
                        st3: Store, pend3: set<Patch>)
    requires Keeps(w, fails, st1, pend1, st2, pend2) && Keeps(w, fails, st2, pend2, st3, pend3)
    ensures Keeps(w, fails, st1, pend1, st3, pend3)
  {
    hide Read, AbortsOf, VisitsOf;
    forall a: nat | a < |st1| ensures Refines(Read(w, fails, st3, pend3, a), Read(w, fails, st1, pend1, a)) {
      RefinesTransitive(Read(w, fails, st3, pend3, a), Read(w, fails, st2, pend2, a), Read(w, fails, st1, pend1, a));
    }
  }

  // ----- from slots to trees

  /** A slot looks the same, or leaves fewer faults to choose from, or now holds what it was waiting for. */
  ghost predicate LooksRefined(w: World, fails: Failures, st1: Store, pend1: set<Patch>, st2: Store,
                               pend2: set<Patch>, slot: Slot)
    requires slot.addr < |st1| <= |st2|
  {
    var l1, l2 := LookAt(w, fails, st1, pend1, slot), LookAt(w, fails, st2, pend2, slot);
    || l1 == l2
    || (l1.Shows? && l2.Shows? && l1.node.OneOf? && l2.node.OneOf? && l2.node.faults <= l1.node.faults)
    || (l1.Shows? && l1.node.Shown? && l2.Holds?
        && ReadContent(w, fails, st2, pend2, slot.addr, l2.content) == l1.node.content)
  }

  lemma {:induction false} SlotsRefineTree(w: World, fails: Failures, st1: Store, pend1: set<Patch>, st2: Store,
                                           pend2: set<Patch>, a: nat)
    requires StoreBelow(st1, |st1|) && a < |st1| <= |st2|
    requires forall s: Slot :: s.addr < |st1| ==> LooksRefined(w, fails, st1, pend1, st2, pend2, s)
    ensures Refines(Read(w, fails, st2, pend2, a), Read(w, fails, st1, pend1, a))
    decreases |st1| - a, 2
  {
    hide LooksRefined, NodeAt, Candidates;
    var f1, f2 := Read(w, fails, st1, pend1, a).fields, Read(w, fails, st2, pend2, a).fields;
    forall n ensures var n1, n2 := NodeAt(w, fails, st1, pend1, Slot(a, n)), NodeAt(w, fails, st2, pend2, Slot(a, n));
                     n1.Some? == n2.Some? && (n1.Some? ==> NodeRefines(n2.value, n1.value))
    {
      SlotRefinesNode(w, fails, st1, pend1, st2, pend2, Slot(a, n));
    }
    forall n ensures n in f1 <==> n in f2 {
      if NodeAt(w, fails, st1, pend1, Slot(a, n)).Some? {
        NodeCandidates(w, fails, st1, pend1, Slot(a, n));
        NodeCandidates(w, fails, st2, pend2, Slot(a, n));
      }
    }
  }

  lemma {:induction false} SlotRefinesNode(w: World, fails: Failures, st1: Store, pend1: set<Patch>, st2: Store,
                                           pend2: set<Patch>, slot: Slot)
    requires StoreBelow(st1, |st1|) && slot.addr < |st1| <= |st2|
    requires forall s: Slot :: s.addr < |st1| ==> LooksRefined(w, fails, st1, pend1, st2, pend2, s)
    ensures var n1, n2 := NodeAt(w, fails, st1, pend1, slot), NodeAt(w, fails, st2, pend2, slot);
            n1.Some? == n2.Some? && (n1.Some? ==> NodeRefines(n2.value, n1.value))
    decreases |st1| - slot.addr, 1
  {
    assert LooksRefined(w, fails, st1, pend1, st2, pend2, slot);
    var l1, l2 := LookAt(w, fails, st1, pend1, slot), LookAt(w, fails, st2, pend2, slot);
    if l1 == l2 && l1.Holds? {
      assert st1[slot.addr] in st1;
      ContentRefinesInPlace(w, fails, st1, pend1, st2, pend2, slot.addr, l1.content);
    } else if l1.Shows? && l1.node.Shown? {
      ContentRefinesReflexive(l1.node.content);
    }
  }

  lemma {:induction false} ContentRefinesInPlace(w: World, fails: Failures, st1: Store, pend1: set<Patch>, st2: Store,
                                                 pend2: set<Patch>,
                                                 from: nat, c: Content<Ref>)
    requires StoreBelow(st1, |st1|) && from < |st1| <= |st2| && ContentBelow(c, |st1|)
    requires forall s: Slot :: s.addr < |st1| ==> LooksRefined(w, fails, st1, pend1, st2, pend2, s)
    ensures ContentRefines(ReadContent(w, fails, st2, pend2, from, c), ReadContent(w, fails, st1, pend1, from, c))
    decreases |st1| - from, 0
  {
    hide LooksRefined;
    match c
    case Single(r) => RefRefines(w, fails, st1, pend1, st2, pend2, from, r);
    case Items(rs) =>
      forall i | 0 <= i < |rs|
        ensures Refines(ReadRef(w, fails, st2, pend2, from, rs[i]), ReadRef(w, fails, st1, pend1, from, rs[i]))
      {
        RefRefines(w, fails, st1, pend1, st2, pend2, from, rs[i]);
      }
    case Object(m) =>
      forall k | k in m
        ensures Refines(ReadRef(w, fails, st2, pend2, from, m[k]), ReadRef(w, fails, st1, pend1, from, m[k]))
      {
        RefRefines(w, fails, st1, pend1, st2, pend2, from, m[k]);
      }
  }

  lemma {:induction false} RefRefines(w: World, fails: Failures, st1: Store, pend1: set<Patch>, st2: Store,
                                      pend2: set<Patch>,
                                      from: nat, r: Ref)
    requires StoreBelow(st1, |st1|) && from < |st1| <= |st2| && RefBelow(r, |st1|)
    requires forall s: Slot :: s.addr < |st1| ==> LooksRefined(w, fails, st1, pend1, st2, pend2, s)
    ensures Refines(ReadRef(w, fails, st2, pend2, from, r), ReadRef(w, fails, st1, pend1, from, r))
    decreases |st1| - from, 0, 0
  {
    hide LooksRefined;
    if r.Struct? && from < r.addr {
      SlotsRefineTree(w, fails, st1, pend1, st2, pend2, r.addr);
    }
  }

  /** A slot nothing happened to. */
  lemma LookUnchanged(w: World, fails: Failures, st1: Store, pend1: set<Patch>, st2: Store, pend2: set<Patch>,
                      slot: Slot)
    requires slot.addr < |st1| <= |st2|
    requires Incoming(w, fails, pend1, slot) == Incoming(w, fails, pend2, slot)
    requires forall p: Patch :: p.slot == slot ==> (p in pend1 <==> p in pend2)
    requires forall p, q :: p in pend1 && q in pend1 && p.slot == q.slot ==> p == q
    requires slot.name in st1[slot.addr] <==> slot.name in st2[slot.addr]
    requires slot.name in st1[slot.addr] ==> st1[slot.addr][slot.name] == st2[slot.addr][slot.name]
    ensures LookAt(w, fails, st1, pend1, slot) == LookAt(w, fails, st2, pend2, slot)
  {
    hide Incoming, TreeRelation;
    if Awaited(pend1, slot) {
      var p := Awaiting(pend1, slot);
      assert p in pend2;
      assert Awaited(pend2, slot) && Awaiting(pend2, slot) in pend1;
    }
  }

  // ----- rounds only go up

  /** Faults below a relation entry belong to its own round or a later one. */
  lemma {:induction false} EscapesLater(w: World, fails: Failures, s: Site, meta: Meta)
    ensures forall x :: x in Escapes(w, fails, s, meta) ==> x.Round() >= RoundOf(meta)
    decreases EntryDepth(s.entry)
  {
    var key := KeyOf(s, meta);
    var r := Resolution(w, fails, s, meta);
    if key !in fails && r.Some? {
      forall x | x in Escapes(w, fails, s, meta) ensures x.Round() >= RoundOf(meta) {
        assert x in EscapesValue(w, fails, r.value.0, r.value.1, s.entry.mask, w.Next(key));
        var t :| t in ReachValue(w.types, r.value.0, r.value.1, s.entry.mask) && !w.Catches(t.entry)
                 && x in Escapes(w, fails, t, w.Next(key));
        EscapesLater(w, fails, t, w.Next(key));
      }
    }
  }

  lemma {:induction false} AbortsLater(w: World, fails: Failures, s: Site, meta: Meta, above: bool)
    ensures forall x :: x in Aborts(w, fails, s, meta, above) ==> x.Round() >= RoundOf(meta)
    decreases EntryDepth(s.entry)
  {
    var key := KeyOf(s, meta);
    var r := Resolution(w, fails, s, meta);
    if w.Rejection(key).None? && key !in fails && r.Some?
       && ValueFault(w.types, r.value.0, r.value.1, s.entry.mask).None? {
      forall x | x in Aborts(w, fails, s, meta, above) ensures x.Round() >= RoundOf(meta) {
        var caught := above || w.Catches(s.entry);
        assert x in AbortsValue(w, fails, r.value.0, r.value.1, s.entry.mask, w.Next(key), caught);
        var t :| t in ReachValue(w.types, r.value.0, r.value.1, s.entry.mask)
                 && x in Aborts(w, fails, t, w.Next(key), caught);
        AbortsLater(w, fails, t, w.Next(key), caught);
      }
    }
  }

  // ----- a relation that is absent

  /** A relation that failed or is absent uses only its own batch. */
  lemma NothingBelow(w: World, fails: Failures, pend: set<Patch>, p: Patch)
    requires p in pend && (p.Key() in fails || w.one(p.Key(), p.target).None?)
    ensures NoneDropped(w, fails, {p.Key()}, pend, pend - {p})
  {
    hide VisitsOf, NoneDropped;
    assert KeyOf(SiteOf(p), p.meta) == p.Key() && Resolution(w, fails, SiteOf(p), p.meta).None?;
    OneDone(w, fails, pend, p, {});
    assert pend - {p} + {} == pend - {p};
  }

  lemma AbsentStep(w: World, fails: Failures, st: Store, pend: set<Patch>, p: Patch)
    requires Sound(w, st, pend) && p in pend && p.Key() !in fails && w.one(p.Key(), p.target).None?
    requires w.Rejection(p.Key()).None?
    ensures Sound(w, st, pend - {p}) && Keeps(w, fails, st, pend, st, pend - {p})
    ensures NoneDropped(w, fails, {p.Key()}, pend, pend - {p})
  {
    var rest := pend - {p};
    assert KeyOf(SiteOf(p), p.meta) == p.Key();
    NothingBelow(w, fails, pend, p);
    assert Escapes(w, fails, SiteOf(p), p.meta) == {} && Aborts(w, fails, SiteOf(p), p.meta, p.catcher.Some?) == {};
    forall s: Slot | s.addr < |st| ensures LooksRefined(w, fails, st, pend, st, rest, s) {
      assert Incoming(w, fails, pend, s) == Incoming(w, fails, rest, s);
      if s == p.slot {
        assert Awaited(pend, s) && Awaiting(pend, s) == p && !Awaited(rest, s);
      } else {
        LookUnchanged(w, fails, st, pend, st, rest, s);
      }
    }
    forall a: nat | a < |st| ensures Refines(Read(w, fails, st, rest, a), Read(w, fails, st, pend, a)) {
      SlotsRefineTree(w, fails, st, pend, st, rest, a);
    }
  }

  // ----- an error is written

  lemma FaultStep(w: World, fails: Failures, st: Store, pend: set<Patch>, p: Patch)
    requires Sound(w, st, pend) && p in pend && p.Key() in fails && p.catcher.Some?
    requires w.Rejection(p.Key()).None?
    requires forall q :: q in pend ==> RoundOf(q.meta) >= RoundOf(p.meta)
    ensures var to, fault := p.catcher.value, FailureFault(fails, p.Key());
            var st2 := StoreField(st, to.addr, to.name, Failed(fault));
            Sound(w, st2, pend - {p}) && Keeps(w, fails, st, pend, st2, pend - {p})
    ensures NoneDropped(w, fails, {p.Key()}, pend, pend - {p})
  {
    var to, fault := p.catcher.value, FailureFault(fails, p.Key());
    var st2, rest := StoreField(st, to.addr, to.name, Failed(fault)), pend - {p};
    assert KeyOf(SiteOf(p), p.meta) == p.Key();
    NothingBelow(w, fails, pend, p);
    assert Escapes(w, fails, SiteOf(p), p.meta) == {fault} && Aborts(w, fails, SiteOf(p), p.meta, true) == {};
    FaultStepSound(w, st, pend, p, fault);
    forall s: Slot | s.addr < |st| ensures LooksRefined(w, fails, st, pend, st2, rest, s) {
      if s == to {
        FaultArrives(w, fails, st, pend, p, fault);
      } else {
        assert Incoming(w, fails, pend, s) == Incoming(w, fails, rest, s);
        if s == p.slot {
          assert Awaited(pend, s) && Awaiting(pend, s) == p && !Awaited(rest, s);
        } else {
          LookUnchanged(w, fails, st, pend, st2, rest, s);
        }
      }
    }
    forall a: nat | a < |st| ensures Refines(Read(w, fails, st2, rest, a), Read(w, fails, st, pend, a)) {
      SlotsRefineTree(w, fails, st, pend, st2, rest, a);
    }
  }

  lemma FaultStepSound(w: World, st: Store, pend: set<Patch>, p: Patch, fault: Fault)
    requires Sound(w, st, pend) && p in pend && p.catcher.Some?
    ensures Sound(w, StoreField(st, p.catcher.value.addr, p.catcher.value.name, Failed(fault)), pend - {p})
  {
    var to := p.catcher.value;
    var st2 := StoreField(st, to.addr, to.name, Failed(fault));
    forall fields | fields in st2 ensures CellsBelow(fields, |st2|) {
      var i :| 0 <= i < |st2| && st2[i] == fields;
      assert st[i] in st;
    }
  }

  /** The slot an error is written to: what it was headed for before already allowed the error, or still has a
      later one on its way. */
  lemma FaultArrives(w: World, fails: Failures, st: Store, pend: set<Patch>, p: Patch, fault: Fault)
    requires Sound(w, st, pend) && p in pend && p.catcher.Some?
    requires Escapes(w, fails, SiteOf(p), p.meta) == {fault} && fault.Round() == RoundOf(p.meta)
    requires forall q :: q in pend ==> RoundOf(q.meta) >= RoundOf(p.meta)
    ensures var to := p.catcher.value;
            LooksRefined(w, fails, st, pend, StoreField(st, to.addr, to.name, Failed(fault)), pend - {p}, to)
  {
    hide Escapes, TreeRelation;
    var to, rest := p.catcher.value, pend - {p};
    var before, after := Incoming(w, fails, pend, to), Incoming(w, fails, rest, to);
    assert before == after + {fault} by {
      assert fault in before;
    }
    assert !Awaited(rest, to);
    forall x | x in after ensures x.Round() >= fault.Round() {
      var q :| q in rest && q.catcher == Some(to) && x in Escapes(w, fails, SiteOf(q), q.meta);
      EscapesLater(w, fails, SiteOf(q), q.meta);
    }
    if after == {} {
      assert before == {fault} && Latest(before) == {fault};
    } else {
      assert Latest(after) <= Latest(before);
    }
  }

  // ----- a result is formatted and written

  function PatchSet(patches: seq<Patch>): set<Patch> { set q | q in patches }

  /** A patch for which a value has been resolved, with what formatting that value gives. */
  ghost predicate Resolves(w: World, fails: Failures, st: Store, p: Patch, c: Ctx, f: Field, v: Val,
                           r: Formatted<Content<Ref>>) {
    && w.Rejection(p.Key()).None? && p.Key() !in fails
    && w.RelationAt(p.Key().relation).value.descriptor == f && w.one(p.Key(), p.target) == Some(v)
    && ValueFault(w.types, f, v, p.mask.mask).None?
    && c == Ctx(w.types, w.fallbackCatch, w.Next(p.Key()), p.catcher)
    && r == FormattedValue(c, |st|, f, v, p.mask.mask)
  }

  ghost function AfterValue(st: Store, p: Patch, r: Formatted<Content<Ref>>): Store
    requires p.slot.addr < |st|
  {
    StoreField(st + r.structs, p.slot.addr, p.slot.name, Filled(r.out))
  }

  /** Patches made for these sites under one meta, with the given catcher above them and own slots from bound up. */
  ghost predicate Matching(w: World, patches: seq<Patch>, sites: seq<Site>, meta: Meta, up: Option<Slot>, bound: nat) {
    && |patches| == |sites|
    && forall i :: 0 <= i < |patches| ==>
         && SiteOf(patches[i]) == sites[i] && patches[i].meta == meta && patches[i].slot.addr >= bound
         && patches[i].catcher == if w.Catches(sites[i].entry) then Some(patches[i].slot) else up
  }

  lemma MatchingPatches(w: World, fails: Failures, st: Store, p: Patch, c: Ctx, f: Field, v: Val,
                        r: Formatted<Content<Ref>>)
    requires Resolves(w, fails, st, p, c, f, v, r) && WellFormed(p.mask.mask)
    ensures Matching(w, r.patches, ReachValue(w.types, f, v, p.mask.mask), w.Next(p.Key()), p.catcher, |st|)
  {
    hide FormattedValue, ReachValue, Resolution;
    ValuePlaced(c, |st|, f, v, p.mask.mask);
    forall i | 0 <= i < |r.patches| ensures r.patches[i].slot.addr >= |st| {
      assert r.patches[i] in r.patches;
    }
  }

  lemma IncomingOfMatching(w: World, fails: Failures, patches: seq<Patch>, sites: seq<Site>, meta: Meta,
                           up: Option<Slot>, bound: nat, s: Slot)
    requires Matching(w, patches, sites, meta, up, bound) && s.addr < bound
    ensures Incoming(w, fails, PatchSet(patches), s)
         == if up == Some(s) then EscapesOfSites(w, fails, sites, meta) else {}
  {
    hide Escapes;
    var news := PatchSet(patches);
    forall q | q in news && q.catcher == Some(s)
      ensures up == Some(s) && SiteOf(q) in sites && !w.Catches(q.mask) && q.meta == meta
    {
      var i :| 0 <= i < |patches| && patches[i] == q;
    }
    if up == Some(s) {
      forall x | x in EscapesOfSites(w, fails, sites, meta) ensures x in Incoming(w, fails, news, s) {
        var t :| t in sites && !w.Catches(t.entry) && x in Escapes(w, fails, t, meta);
        var i :| 0 <= i < |sites| && sites[i] == t;
        assert patches[i] in news && patches[i].catcher
             == Some(s) && x in Escapes(w, fails, SiteOf(patches[i]), patches[i].meta);
      }
    }
  }

  lemma AbortsOfMatching(w: World, fails: Failures, patches: seq<Patch>, sites: seq<Site>, meta: Meta,
                         up: Option<Slot>, bound: nat)
    requires Matching(w, patches, sites, meta, up, bound)
    ensures AbortsOf(w, fails, PatchSet(patches)) == AbortsOfSites(w, fails, sites, meta, up.Some?)
  {
    hide Aborts;
    var news := PatchSet(patches);
    forall q | q in news
      ensures SiteOf(q) in sites
      ensures Aborts(w, fails, SiteOf(q), q.meta, q.catcher.Some?) == Aborts(w, fails, SiteOf(q), meta, up.Some?)
    {
      var i :| 0 <= i < |patches| && patches[i] == q;
      AbortsFromEither(w, fails, SiteOf(q), meta, q.catcher.Some?, up.Some?);
    }
    forall x | x in AbortsOfSites(w, fails, sites, meta, up.Some?) ensures x in AbortsOf(w, fails, news) {
      var t :| t in sites && x in Aborts(w, fails, t, meta, up.Some?);
      var i :| 0 <= i < |sites| && sites[i] == t;
      assert patches[i] in news && x in Aborts(w, fails, SiteOf(patches[i]), patches[i].meta, patches[i].catcher.Some?);
    }
  }

  /** The new patches bring errors to the catcher of the resolved one exactly as it did, and to no other old slot. */
  lemma NewIncoming(w: World, fails: Failures, st: Store, p: Patch, c: Ctx, f: Field, v: Val,
                    r: Formatted<Content<Ref>>, s: Slot)
    requires Resolves(w, fails, st, p, c, f, v, r) && WellFormed(p.mask.mask) && s.addr < |st|
    ensures Incoming(w, fails, PatchSet(r.patches), s)
         == if p.catcher == Some(s) then Escapes(w, fails, SiteOf(p), p.meta) else {}
  {
    hide FormattedValue, ReachValue, Incoming;
    MatchingPatches(w, fails, st, p, c, f, v, r);
    var sites := ReachValue(w.types, f, v, p.mask.mask);
    IncomingOfMatching(w, fails, r.patches, sites, c.meta, p.catcher, |st|, s);
    assert EscapesOfSites(w, fails, sites, c.meta) == EscapesValue(w, fails, f, v, p.mask.mask, c.meta);
    assert KeyOf(SiteOf(p), p.meta) == p.Key();
    assert Escapes(w, fails, SiteOf(p), p.meta) == EscapesValue(w, fails, f, v, p.mask.mask, c.meta);
  }

  /** The new patches abort the call for exactly the faults the resolved one would have. */
  lemma NewAborts(w: World, fails: Failures, st: Store, p: Patch, c: Ctx, f: Field, v: Val, r: Formatted<Content<Ref>>)
    requires Resolves(w, fails, st, p, c, f, v, r) && WellFormed(p.mask.mask) && (w.Catches(p.mask) ==> p.catcher.Some?)
    ensures AbortsOf(w, fails, PatchSet(r.patches)) == Aborts(w, fails, SiteOf(p), p.meta, p.catcher.Some?)
  {
    hide FormattedValue, ReachValue, AbortsOf;
    MatchingPatches(w, fails, st, p, c, f, v, r);
    var sites, up := ReachValue(w.types, f, v, p.mask.mask), p.catcher.Some?;
    AbortsOfMatching(w, fails, r.patches, sites, c.meta, p.catcher, |st|);
    assert AbortsOfSites(w, fails, sites, c.meta, up) == AbortsValue(w, fails, f, v, p.mask.mask, c.meta, up);
    assert KeyOf(SiteOf(p), p.meta) == p.Key();
    assert Aborts(w, fails, SiteOf(p), p.meta, p.catcher.Some?)
        == AbortsValue(w, fails, f, v, p.mask.mask, c.meta, p.catcher.Some?);
  }

  lemma VisitsOfMatching(w: World, fails: Failures, patches: seq<Patch>, sites: seq<Site>, meta: Meta,
                         up: Option<Slot>, bound: nat)
    requires Matching(w, patches, sites, meta, up, bound)
    ensures VisitsOf(w, fails, PatchSet(patches)) == VisitsOfSites(w, fails, sites, meta, up.Some?)
  {
    hide Visits;
    forall s | s in sites ensures exists q :: q in PatchSet(patches) && SiteOf(q) == s {
      var i :| 0 <= i < |sites| && sites[i] == s;
      assert patches[i] in PatchSet(patches);
    }
    forall q | q in PatchSet(patches)
      ensures SiteOf(q) in sites
      ensures Visits(w, fails, SiteOf(q), q.meta, q.catcher.Some?) == Visits(w, fails, SiteOf(q), meta, up.Some?)
    {
      var i :| 0 <= i < |patches| && patches[i] == q;
      VisitsFromEither(w, fails, SiteOf(q), meta, q.catcher.Some?, up.Some?);
    }
  }

  lemma VisitsFromEither(w: World, fails: Failures, s: Site, meta: Meta, a: bool, b: bool)
    requires (a || w.Catches(s.entry)) == (b || w.Catches(s.entry))
    ensures Visits(w, fails, s, meta, a) == Visits(w, fails, s, meta, b)
  {
    hide VisitsValue;
  }

  lemma NewVisits(w: World, fails: Failures, st: Store, p: Patch, c: Ctx, f: Field, v: Val, r: Formatted<Content<Ref>>)
    requires Resolves(w, fails, st, p, c, f, v, r) && WellFormed(p.mask.mask) && (w.Catches(p.mask) ==> p.catcher.Some?)
    ensures Visits(w, fails, SiteOf(p), p.meta, p.catcher.Some?)
         == {Visit(p.Key(), p.catcher.Some?)} + VisitsOf(w, fails, PatchSet(r.patches))
  {
    hide FormattedValue, ReachValue, VisitsOf;
    MatchingPatches(w, fails, st, p, c, f, v, r);
    var sites, up := ReachValue(w.types, f, v, p.mask.mask), p.catcher.Some?;
    VisitsOfMatching(w, fails, r.patches, sites, c.meta, p.catcher, |st|);
    assert VisitsOfSites(w, fails, sites, c.meta, up) == VisitsValue(w, fails, f, v, p.mask.mask, c.meta, up);
    assert KeyOf(SiteOf(p), p.meta) == p.Key();
  }

  /** It makes no difference whether an entry's own catch is already counted as one further up. */
  lemma AbortsFromEither(w: World, fails: Failures, s: Site, meta: Meta, a: bool, b: bool)
    requires (a || w.Catches(s.entry)) == (b || w.Catches(s.entry))
    ensures Aborts(w, fails, s, meta, a) == Aborts(w, fails, s, meta, b)
  {
    hide AbortsValue;
  }

  lemma ValueStepSound(w: World, fails: Failures, st: Store, pend: set<Patch>, p: Patch, c: Ctx, f: Field, v: Val,
                       r: Formatted<Content<Ref>>)
    requires Sound(w, st, pend) && p in pend && Resolves(w, fails, st, p, c, f, v, r)
    ensures Sound(w, AfterValue(st, p, r), pend - {p} + PatchSet(r.patches))
    ensures Window(AfterValue(st, p, r), pend - {p} + PatchSet(r.patches), |st|, r.structs, r.patches)
  {
    hide FormattedValue, ReachValue, Resolution;
    var st2, pend2 := AfterValue(st, p, r), pend - {p} + PatchSet(r.patches);
    var sites := ReachValue(w.types, f, v, p.mask.mask);
    ValuePlaced(c, |st|, f, v, p.mask.mask);
    StoreStaysBelow(st, p, r);
    NewPatches(c, |st|, p.mask.mask, r.patches, sites, w, f, v);
    assert forall a :: |st| <= a < |st2| ==> st2[a] == r.structs[a - |st|];
    assert st2[|st|..|st| + |r.structs|] == r.structs;
  }

  lemma StoreStaysBelow(st: Store, p: Patch, r: Formatted<Content<Ref>>)
    requires StoreBelow(st, |st|) && StoreBelow(r.structs, |st| + |r.structs|)
    requires p.slot.addr < |st| && ContentBelow(r.out, |st| + |r.structs|)
    ensures StoreBelow(AfterValue(st, p, r), |st| + |r.structs|)
  {
    var st2, bound := AfterValue(st, p, r), |st| + |r.structs|;
    BelowMonotone(st, |st|, bound);
    forall fields | fields in st2 ensures CellsBelow(fields, bound) {
      var i :| 0 <= i < |st2| && st2[i] == fields;
      if i < |st| {
        assert st[i] in st;
      } else {
        assert r.structs[i - |st|] in r.structs;
      }
    }
  }

  /** The patches formatting leaves have well-formed masks and catchers of their own or the given one. */
  lemma NewPatches(c: Ctx, next: nat, mask: seq<Mask>, patches: seq<Patch>, sites: seq<Site>, w: World, f: Field,
                   v: Val)
    requires WellFormed(mask) && Follows(c, patches, sites) && sites == ReachValue(c.types, f, v, mask)
    requires c.fallbackCatch == w.fallbackCatch
    ensures forall q :: q in patches ==>
              && q.slot.name == q.mask.name && WellFormed(q.mask.mask) && q.meta == c.meta
              && q.catcher == if w.Catches(q.mask) then Some(q.slot) else c.catcher
  {
    hide ReachValue;
    forall q | q in patches
      ensures q.slot.name == q.mask.name && WellFormed(q.mask.mask) && q.meta == c.meta
      ensures q.catcher == if w.Catches(q.mask) then Some(q.slot) else c.catcher
    {
      var i :| 0 <= i < |patches| && patches[i] == q;
      assert sites[i] in sites;
      ReachWellFormedValue(c.types, f, v, mask);
    }
  }

  lemma AbortsReplaced(w: World, fails: Failures, pend: set<Patch>, p: Patch, news: set<Patch>)
    requires p in pend && AbortsOf(w, fails, news) == Aborts(w, fails, SiteOf(p), p.meta, p.catcher.Some?)
    ensures AbortsOf(w, fails, pend - {p} + news) == AbortsOf(w, fails, pend)
  {
    hide Aborts;
    var rest := AbortsOf(w, fails, pend - {p});
    assert AbortsOf(w, fails, pend - {p} + news) == rest + AbortsOf(w, fails, news);
    assert AbortsOf(w, fails, pend) == rest + Aborts(w, fails, SiteOf(p), p.meta, p.catcher.Some?);
  }

  lemma VisitsReplaced(w: World, fails: Failures, pend: set<Patch>, p: Patch, news: set<Patch>)
    requires p in pend && VisitsOf(w, fails, news) <= Visits(w, fails, SiteOf(p), p.meta, p.catcher.Some?)
    ensures VisitsOf(w, fails, pend - {p} + news) <= VisitsOf(w, fails, pend)
  {
    hide Visits;
    assert VisitsOf(w, fails, pend - {p} + news) == VisitsOf(w, fails, pend - {p}) + VisitsOf(w, fails, news);
  }

  lemma ValueStep(w: World, fails: Failures, st: Store, pend: set<Patch>, p: Patch, c: Ctx, f: Field, v: Val,
                  r: Formatted<Content<Ref>>)
    requires Sound(w, st, pend) && p in pend && Resolves(w, fails, st, p, c, f, v, r)
    ensures var st2, pend2 := AfterValue(st, p, r), pend - {p} + PatchSet(r.patches);
            Sound(w, st2, pend2) && Keeps(w, fails, st, pend, st2, pend2)
              && NoneDropped(w, fails, {p.Key()}, pend, pend2)
  {
    hide NoneDropped, AbortsOf, VisitsOf, Aborts, Visits, Resolves, Window, LooksRefined, Read;
    var st2, news := AfterValue(st, p, r), PatchSet(r.patches);
    var pend2 := pend - {p} + news;
    ValueStepSound(w, fails, st, pend, p, c, f, v, r);
    NewAborts(w, fails, st, p, c, f, v, r);
    NewVisits(w, fails, st, p, c, f, v, r);
    AbortsReplaced(w, fails, pend, p, news);
    VisitsReplaced(w, fails, pend, p, news);
    OneDone(w, fails, pend, p, news);
    forall s: Slot | s.addr < |st| ensures LooksRefined(w, fails, st, pend, st2, pend2, s) {
      ValueStepSlot(w, fails, st, pend, p, c, f, v, r, s);
    }
    forall a: nat | a < |st| ensures Refines(Read(w, fails, st2, pend2, a), Read(w, fails, st, pend, a)) {
      SlotsRefineTree(w, fails, st, pend, st2, pend2, a);
    }
  }

  lemma ValueStepSlot(w: World, fails: Failures, st: Store, pend: set<Patch>, p: Patch, c: Ctx, f: Field, v: Val,
                      r: Formatted<Content<Ref>>, s: Slot)
    requires Sound(w, st, pend) && p in pend && Resolves(w, fails, st, p, c, f, v, r) && s.addr < |st|
    ensures LooksRefined(w, fails, st, pend, AfterValue(st, p, r), pend - {p} + PatchSet(r.patches), s)
  {
    hide FormattedValue, ReachValue, Escapes, TreeValue, ReadContent;
    var st2, news := AfterValue(st, p, r), PatchSet(r.patches);
    var pend2 := pend - {p} + news;
    ValueStepSound(w, fails, st, pend, p, c, f, v, r);
    ValuePlaced(c, |st|, f, v, p.mask.mask);
    NewIncoming(w, fails, st, p, c, f, v, r, s);
    IncomingReplaced(w, fails, pend, p, news, s);
    if s == p.slot {
      ValueShown(w, fails, st2, pend2, c, |st|, f, v, p.mask.mask, s.addr);
      ValueArrives(w, fails, st, pend, p, c, f, v, r);
    } else {
      LookUnchanged(w, fails, st, pend, st2, pend2, s);
    }
  }

  lemma IncomingReplaced(w: World, fails: Failures, pend: set<Patch>, p: Patch, news: set<Patch>, s: Slot)
    requires p in pend
    requires Incoming(w, fails, news, s) == if p.catcher == Some(s) then Escapes(w, fails, SiteOf(p), p.meta) else {}
    ensures Incoming(w, fails, pend - {p} + news, s) == Incoming(w, fails, pend, s)
  {
    hide Escapes;
    var rest := Incoming(w, fails, pend - {p}, s);
    assert Incoming(w, fails, pend - {p} + news, s) == rest + Incoming(w, fails, news, s);
    assert Incoming(w, fails, pend, s)
         == rest + if p.catcher == Some(s) then Escapes(w, fails, SiteOf(p), p.meta) else {};
  }

  /** The slot of the resolved relation now holds what it was waiting for. */
  lemma ValueArrives(w: World, fails: Failures, st: Store, pend: set<Patch>, p: Patch, c: Ctx, f: Field, v: Val,
                     r: Formatted<Content<Ref>>)
    requires Sound(w, st, pend) && p in pend && Resolves(w, fails, st, p, c, f, v, r)
    requires var st2, pend2 := AfterValue(st, p, r), pend - {p} + PatchSet(r.patches);
             && Incoming(w, fails, pend2, p.slot) == Incoming(w, fails, pend, p.slot)
             && p.slot.addr < |st2|
             && ReadContent(w, fails, st2, pend2, p.slot.addr, r.out) == TreeValue(w, fails, f, v, p.mask.mask, c.meta)
    requires forall q :: q in r.patches ==> q.slot.addr >= |st|
    ensures LooksRefined(w, fails, st, pend, AfterValue(st, p, r), pend - {p} + PatchSet(r.patches), p.slot)
  {
    hide FormattedValue, Incoming, TreeValue, ReadContent;
    var pend2 := pend - {p} + PatchSet(r.patches);
    assert KeyOf(SiteOf(p), p.meta) == p.Key();
    assert TreeRelation(w, fails, p.target, p.mask, p.meta) == Some(Shown(TreeValue(w, fails, f, v, p.mask.mask,
                        c.meta)));
    assert Awaited(pend, p.slot) && Awaiting(pend, p.slot) == p && !Awaited(pend2, p.slot);
  }
}
