/** Queries in which every relation catches errors, or none does: what a Do call without throw and a Fetch call
    without catch come down to. */
module ErrorModes {
  import opened Wrappers
  import opened Protobuf
  import opened Response
  import opened Format
  import opened Meaning

  /** Every entry of the mask, at every level, catches errors (or, if caught is false, none does). */
  predicate Uniform(mask: seq<Mask>, fallbackCatch: bool, caught: bool) {
    forall entry | entry in mask ::
      CatchesErrors(entry, fallbackCatch) == caught && Uniform(entry.mask, fallbackCatch, caught)
  }

  predicate NoThrow(mask: seq<Mask>) {
    forall entry | entry in mask :: !entry.onError.Throw? && NoThrow(entry.mask)
  }

  predicate NoCatch(mask: seq<Mask>) {
    forall entry | entry in mask :: !entry.onError.Catch? && NoCatch(entry.mask)
  }

  /** In Do, which catches by default, every entry catches exactly when nothing says throw. */
  lemma {:induction false} CaughtInDo(mask: seq<Mask>)
    ensures Uniform(mask, true, true) <==> NoThrow(mask)
  {
    forall entry | entry in mask ensures Uniform(entry.mask, true, true) <==> NoThrow(entry.mask) {
      CaughtInDo(entry.mask);
    }
  }

  /** In Fetch, which does not, none catches exactly when nothing says catch. */
  lemma {:induction false} UncaughtInFetch(mask: seq<Mask>)
    ensures Uniform(mask, false, false) <==> NoCatch(mask)
  {
    forall entry | entry in mask ensures Uniform(entry.mask, false, false) <==> NoCatch(entry.mask) {
      UncaughtInFetch(entry.mask);
    }
  }

  predicate UniformSite(s: Site, fallbackCatch: bool, caught: bool) {
    CatchesErrors(s.entry, fallbackCatch) == caught && Uniform(s.entry.mask, fallbackCatch, caught)
  }

  // ----- the relation entries such a mask reaches are such entries

  lemma {:induction false} ReachUniform(w: World, m: Msg, mask: seq<Mask>, caught: bool)
    requires Uniform(mask, w.fallbackCatch, caught)
    ensures forall s :: s in Reach(w.types, m, mask) ==> UniformSite(s, w.fallbackCatch, caught)
    decreases mask, 1, 0
  {
    if !m.typ.IsWellKnown() {
      ReachUniformEntries(w, m, mask, |mask|, caught);
    }
  }

  lemma {:induction false} ReachUniformEntries(w: World, m: Msg, mask: seq<Mask>, k: nat, caught: bool)
    requires Uniform(mask, w.fallbackCatch, caught) && k <= |mask|
    ensures forall s :: s in ReachEntries(w.types, m, mask, k) ==> UniformSite(s, w.fallbackCatch, caught)
    decreases mask, 0, k
  {
    hide FieldFor;
    if k != 0 {
      ReachUniformEntries(w, m, mask, k - 1, caught);
      var entry := mask[k - 1];
      assert entry in mask;
      var f := FieldFor(w.types, m.typ, entry.name);
      if f.Some? && Present(m, f.value).Some? {
        ReachUniformValue(w, f.value, Present(m, f.value).value, entry.mask, caught);
      }
    }
  }

  lemma {:induction false} ReachUniformValue(w: World, f: Field, v: Val, mask: seq<Mask>, caught: bool)
    requires Uniform(mask, w.fallbackCatch, caught)
    ensures forall s :: s in ReachValue(w.types, f, v, mask) ==> UniformSite(s, w.fallbackCatch, caught)
    decreases mask, 3, 0
  {
    ReachUniformElements(w, f, Elements(v), |Elements(v)|, mask, caught);
  }

  lemma {:induction false} ReachUniformElements(w: World, f: Field, es: seq<Element>, k: nat, mask: seq<Mask>,
                                                caught: bool)
    requires Uniform(mask, w.fallbackCatch, caught) && k <= |es|
    ensures forall s :: s in ReachElements(w.types, f, es, k, mask) ==> UniformSite(s, w.fallbackCatch, caught)
    decreases mask, 2, k
  {
    if k != 0 {
      ReachUniformElements(w, f, es, k - 1, mask, caught);
      if IsMessage(f.kind) && es[k - 1].Nested? {
        ReachUniform(w, es[k - 1].msg, mask, caught);
      }
    }
  }

  // ----- what that means for faults

  /** Where every relation catches, an error goes no further than its own relation: it leaves only the failing
      entry's own slot headed for exactly that error. */
  lemma EscapesOwn(w: World, fails: Failures, s: Site, meta: Meta)
    requires UniformSite(s, w.fallbackCatch, true)
    ensures Escapes(w, fails, s, meta) == if KeyOf(s, meta) in fails then {FailureFault(fails, KeyOf(s, meta))} else {}
  {
    hide ReachValue;
    var key := KeyOf(s, meta);
    var r := Resolution(w, fails, s, meta);
    if key !in fails && r.Some? {
      ReachUniformValue(w, r.value.0, r.value.1, s.entry.mask, true);
      assert EscapesValue(w, fails, r.value.0, r.value.1, s.entry.mask, w.Next(key)) == {};
    }
  }

  /** So a failing relation shows its own error in its own place. */
  lemma ErrorInOwnSlot(w: World, fails: Failures, m: Msg, entry: Mask, meta: Meta)
    requires UniformSite(Site(m, entry), w.fallbackCatch, true) && FieldFor(w.types, m.typ, entry.name).None?
    ensures TreeEntry(w, fails, m, entry, meta)
         == if KeyOf(Site(m, entry), meta) in fails then Some(OneOf({FailureFault(fails, KeyOf(Site(m, entry), meta))}))
            else TreeRelation(w, fails, m, entry, meta)
  {
    hide FieldFor, Escapes;
    EscapesOwn(w, fails, Site(m, entry), meta);
    if KeyOf(Site(m, entry), meta) in fails {
      var x := FailureFault(fails, KeyOf(Site(m, entry), meta));
      assert Latest({x}) == {x};
    }
  }

  /** No resolver failure aborts a call in which every relation catches. */
  lemma {:induction false} CaughtNeverAborts(w: World, fails: Failures, s: Site, meta: Meta, above: bool)
    requires UniformSite(s, w.fallbackCatch, true)
    ensures forall x :: x in Aborts(w, fails, s, meta, above) ==> !x.cause.ResolverFailed?
    ensures forall v :: v in Visits(w, fails, s, meta, above) ==> v.caught
    decreases EntryDepth(s.entry)
  {
    hide ReachValue;
    var key := KeyOf(s, meta);
    var r := Resolution(w, fails, s, meta);
    if key !in fails && r.Some? {
      var sites := ReachValue(w.types, r.value.0, r.value.1, s.entry.mask);
      ReachUniformValue(w, r.value.0, r.value.1, s.entry.mask, true);
      forall t | t in sites
        ensures forall x :: x in Aborts(w, fails, t, w.Next(key), true) ==> !x.cause.ResolverFailed?
        ensures forall v :: v in Visits(w, fails, t, w.Next(key), true) ==> v.caught
      {
        CaughtNeverAborts(w, fails, t, w.Next(key), true);
      }
    }
  }

  /** Where no relation catches, every use of a batch is one whose failure aborts the call. */
  lemma {:induction false} UncaughtAborts(w: World, fails: Failures, s: Site, meta: Meta)
    requires UniformSite(s, w.fallbackCatch, false)
    ensures forall v :: v in Visits(w, fails, s, meta, false) ==>
              !v.caught && (v.key in fails ==> Aborts(w, fails, s, meta, false) != {})
    decreases EntryDepth(s.entry)
  {
    hide ReachValue;
    var key := KeyOf(s, meta);
    var r := Resolution(w, fails, s, meta);
    forall v | v in Visits(w, fails, s, meta, false)
      ensures !v.caught && (v.key in fails ==> Aborts(w, fails, s, meta, false) != {})
    {
      if v != Visit(key, false) {
        assert v in VisitsValue(w, fails, r.value.0, r.value.1, s.entry.mask, w.Next(key), false);
        var t :| t in ReachValue(w.types, r.value.0, r.value.1, s.entry.mask) && v in Visits(w, fails, t, w.Next(key),
                                 false);
        ReachUniformValue(w, r.value.0, r.value.1, s.entry.mask, false);
        UncaughtAborts(w, fails, t, w.Next(key));
        if v.key in fails {
          AbortsBelow(w, fails, s, meta, t);
        }
      }
    }
  }

  /** What aborts at a relation entry below aborts here, if this entry does not abort for another reason already. */
  lemma AbortsBelow(w: World, fails: Failures, s: Site, meta: Meta, t: Site)
    requires !w.Catches(s.entry) && Resolution(w, fails, s, meta).Some?
    requires var r := Resolution(w, fails, s, meta).value; t in ReachValue(w.types, r.0, r.1, s.entry.mask)
    requires Aborts(w, fails, t, w.Next(KeyOf(s, meta)), false) != {}
    ensures Aborts(w, fails, s, meta, false) != {}
  {
    hide ReachValue, ValueFault;
    var key := KeyOf(s, meta);
    var r := Resolution(w, fails, s, meta).value;
    var x :| x in Aborts(w, fails, t, w.Next(key), false);
    assert x in AbortsValue(w, fails, r.0, r.1, s.entry.mask, w.Next(key), false);
  }

  /** A relation entry that nothing catches aborts the call if any fault escapes it. */
  lemma {:induction false} EscapesAbort(w: World, fails: Failures, s: Site, meta: Meta)
    requires !w.Catches(s.entry) && Aborts(w, fails, s, meta, false) == {}
    ensures Escapes(w, fails, s, meta) == {}
    decreases EntryDepth(s.entry)
  {
    hide ReachValue, ValueFault;
    var key := KeyOf(s, meta);
    var r := Resolution(w, fails, s, meta);
    if r.Some? {
      var sites := ReachValue(w.types, r.value.0, r.value.1, s.entry.mask);
      forall t | t in sites && !w.Catches(t.entry) ensures Escapes(w, fails, t, w.Next(key)) == {} {
        if Aborts(w, fails, t, w.Next(key), false) != {} {
          AbortsBelow(w, fails, s, meta, t);
        }
        EscapesAbort(w, fails, t, w.Next(key));
      }
      assert EscapesValue(w, fails, r.value.0, r.value.1, s.entry.mask, w.Next(key)) == {};
    }
  }
}
