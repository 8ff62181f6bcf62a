/** A failing batch changes nothing outside the relations that catch it. */
module Isolation {
  import opened Wrappers
  import opened Protobuf
  import opened Response
  import opened Format
  import opened Meaning

  /** x is y except where x has error objects; no key of y is missing in x. */
  ghost predicate Spares(x: Tree, y: Tree) {
    match (x, y)
    case (LeafTree(a), LeafTree(b)) => a == b
    case (Obj(f), Obj(g)) =>
      && (forall k :: k in g ==> k in f)
      && forall k :: k in f && f[k].Shown? ==> k in g && g[k].Shown? && ContentSpares(f[k].content, g[k].content)
    case _ => false
  }

  ghost predicate ContentSpares(x: Content<Tree>, y: Content<Tree>) {
    match (x, y)
    case (Single(a), Single(b)) => Spares(a, b)
    case (Items(a), Items(b)) => |a| == |b| && forall i :: 0 <= i < |a| ==> Spares(a[i], b[i])
    case (Object(f), Object(g)) => f.Keys == g.Keys && forall k :: k in f ==> Spares(f[k], g[k])
    case _ => false
  }

  ghost predicate NothingEscapes(w: World, fails: Failures, sites: seq<Site>, meta: Meta) {
    forall s :: s in sites && !w.Catches(s.entry) ==> Escapes(w, fails, s, meta) == {}
  }

  lemma {:induction false} MessageSpared(w: World, fails: Failures, m: Msg, mask: seq<Mask>, meta: Meta)
    requires NothingEscapes(w, fails, Reach(w.types, m, mask), meta)
    ensures Spares(TreeMessage(w, fails, m, mask, meta), TreeMessage(w, map[], m, mask, meta))
    decreases mask, 1, 0
  {
    hide FieldFor, TreeEntry, ReachEntry;
    if !m.typ.IsWellKnown() {
      var x, y := TreeMessage(w, fails, m, mask, meta), TreeMessage(w, map[], m, mask, meta);
      forall name | name in MaskNames(mask)
        ensures var i := IndexOf(mask, name);
                NodeSpares(TreeEntry(w, fails, m, mask[i], meta), TreeEntry(w, map[], m, mask[i], meta))
      {
        var i := IndexOf(mask, name);
        EntryReached(w.types, m, mask, |mask|, i);
        EntrySpared(w, fails, m, mask[i], meta);
      }
      forall k ensures k in x.fields && x.fields[k].Shown? ==>
                         k in y.fields && y.fields[k].Shown? && ContentSpares(x.fields[k].content, y.fields[k].content)
      {
        if k in MaskNames(mask) {
          assert NodeSpares(TreeEntry(w, fails, m, mask[IndexOf(mask, k)], meta), TreeEntry(w, map[], m,
                            mask[IndexOf(mask, k)], meta));
        }
      }
    }
  }

  ghost predicate NodeSpares(x: Option<Node>, y: Option<Node>) {
    && (y.Some? ==> x.Some?)
    && (x.Some? && x.value.Shown? ==> y.Some? && y.value.Shown? && ContentSpares(x.value.content, y.value.content))
  }

  lemma {:induction false} EntryReached(types: Types, m: Msg, mask: seq<Mask>, k: nat, i: nat)
    requires i < k <= |mask|
    ensures forall s :: s in ReachEntry(types, m, mask[i]) ==> s in ReachEntries(types, m, mask, k)
  {
    hide ReachEntry;
    if i < k - 1 {
      EntryReached(types, m, mask, k - 1, i);
    }
  }

  lemma {:induction false} EntrySpared(w: World, fails: Failures, m: Msg, entry: Mask, meta: Meta)
    requires NothingEscapes(w, fails, ReachEntry(w.types, m, entry), meta)
    ensures NodeSpares(TreeEntry(w, fails, m, entry, meta), TreeEntry(w, map[], m, entry, meta))
    decreases entry, 0, 0
  {
    hide FieldFor, TreeValue;
    var f, s := FieldFor(w.types, m.typ, entry.name), Site(m, entry);
    if f.Some? {
      if Present(m, f.value).Some? {
        ValueSpared(w, fails, f.value, Present(m, f.value).value, entry.mask, meta);
      }
    } else {
      assert s in ReachEntry(w.types, m, entry);
      NoFailuresNoFaults(w, s, meta);
      var key := KeyOf(s, meta);
      var r := Resolution(w, fails, s, meta);
      if Escapes(w, fails, s, meta) == {} && r.Some? {
        assert NothingEscapes(w, fails, ReachValue(w.types, r.value.0, r.value.1, entry.mask), w.Next(key)) by {
          SubEscapes(w, fails, s, meta);
        }
        ValueSpared(w, fails, r.value.0, r.value.1, entry.mask, w.Next(key));
      }
    }
  }

  /** What nothing escapes from, nothing below escapes from. */
  lemma SubEscapes(w: World, fails: Failures, s: Site, meta: Meta)
    requires Escapes(w, fails, s, meta) == {} && Resolution(w, fails, s, meta).Some?
    ensures var r := Resolution(w, fails, s, meta).value;
            NothingEscapes(w, fails, ReachValue(w.types, r.0, r.1, s.entry.mask), w.Next(KeyOf(s, meta)))
  {
    hide ReachValue;
    var key := KeyOf(s, meta);
    var r := Resolution(w, fails, s, meta).value;
    var sites := ReachValue(w.types, r.0, r.1, s.entry.mask);
    assert EscapesValue(w, fails, r.0, r.1, s.entry.mask, w.Next(key)) == {};
    forall t | t in sites && !w.Catches(t.entry) ensures Escapes(w, fails, t, w.Next(key)) == {} {
      forall x | x in Escapes(w, fails, t, w.Next(key))
        ensures x in EscapesValue(w, fails, r.0, r.1, s.entry.mask, w.Next(key))
      {
      }
    }
  }

  lemma {:induction false} NoFailuresNoFaults(w: World, s: Site, meta: Meta)
    ensures Escapes(w, map[], s, meta) == {}
    decreases EntryDepth(s.entry)
  {
    hide ReachValue;
    var key := KeyOf(s, meta);
    var r := Resolution(w, map[], s, meta);
    if r.Some? {
      forall t | t in ReachValue(w.types, r.value.0, r.value.1, s.entry.mask)
        ensures Escapes(w, map[], t, w.Next(key)) == {}
      {
        NoFailuresNoFaults(w, t, w.Next(key));
      }
      assert EscapesValue(w, map[], r.value.0, r.value.1, s.entry.mask, w.Next(key)) == {};
    }
  }

  lemma {:induction false} ValueSpared(w: World, fails: Failures, f: Field, v: Val, mask: seq<Mask>, meta: Meta)
    requires NothingEscapes(w, fails, ReachValue(w.types, f, v, mask), meta)
    ensures ContentSpares(TreeValue(w, fails, f, v, mask, meta), TreeValue(w, map[], f, v, mask, meta))
    decreases mask, 4, 0
  {
    hide TreeElement, ReachElement, Spares;
    var es := Elements(v);
    var xs, ys := TreeElements(w, fails, f, es, mask, meta), TreeElements(w, map[], f, es, mask, meta);
    forall i | 0 <= i < |es| ensures Spares(xs[i], ys[i]) {
      ElementReached(w.types, f, es, |es|, i, mask);
      ElementSpared(w, fails, f, es[i], mask, meta);
    }
    if v.Entries? {
      ZipSpared(KeyTexts(v), xs, ys);
    }
  }

  lemma {:induction false} ZipSpared(keys: seq<string>, xs: seq<Tree>, ys: seq<Tree>)
    requires |keys| == |xs| == |ys| && forall i :: 0 <= i < |xs| ==> Spares(xs[i], ys[i])
    ensures ContentSpares(Object(Zip(keys, xs)), Object(Zip(keys, ys)))
  {
    hide Spares;
    if keys != [] {
      ZipSpared(keys[..|keys| - 1], xs[..|keys| - 1], ys[..|keys| - 1]);
    }
  }

  lemma {:induction false} ElementReached(types: Types, f: Field, es: seq<Element>, k: nat, i: nat, mask: seq<Mask>)
    requires i < k <= |es|
    ensures forall s :: s in ReachElement(types, f, es[i], mask) ==> s in ReachElements(types, f, es, k, mask)
  {
    hide ReachElement;
    if i < k - 1 {
      ElementReached(types, f, es, k - 1, i, mask);
    }
  }

  lemma {:induction false} ElementSpared(w: World, fails: Failures, f: Field, e: Element, mask: seq<Mask>, meta: Meta)
    requires NothingEscapes(w, fails, ReachElement(w.types, f, e, mask), meta)
    ensures Spares(TreeElement(w, fails, f, e, mask, meta), TreeElement(w, map[], f, e, mask, meta))
    decreases mask, 2, 0
  {
    if IsMessage(f.kind) && e.Nested? {
      MessageSpared(w, fails, e.msg, mask, meta);
    }
  }

  // ----- without failures

  lemma {:induction false} MessageFaultFree(w: World, m: Msg, mask: seq<Mask>, meta: Meta)
    ensures FaultFree(TreeMessage(w, map[], m, mask, meta))
    decreases mask, 1, 0
  {
    hide FieldFor, TreeEntry;
    if !m.typ.IsWellKnown() {
      forall name | name in MaskNames(mask)
        ensures var n := TreeEntry(w, map[], m, mask[IndexOf(mask, name)], meta);
                n.Some? ==> n.value.Shown? && ContentFaultFree(n.value.content)
      {
        EntryFaultFree(w, m, mask[IndexOf(mask, name)], meta);
      }
    }
  }

  lemma {:induction false} EntryFaultFree(w: World, m: Msg, entry: Mask, meta: Meta)
    ensures var n := TreeEntry(w, map[], m, entry, meta); n.Some? ==>
              n.value.Shown? && ContentFaultFree(n.value.content)
    decreases entry, 0, 0
  {
    hide FieldFor, TreeValue;
    var f, s := FieldFor(w.types, m.typ, entry.name), Site(m, entry);
    if f.Some? {
      if Present(m, f.value).Some? {
        ValueFaultFree(w, f.value, Present(m, f.value).value, entry.mask, meta);
      }
    } else {
      NoFailuresNoFaults(w, s, meta);
      var r := Resolution(w, map[], s, meta);
      if r.Some? {
        ValueFaultFree(w, r.value.0, r.value.1, entry.mask, w.Next(KeyOf(s, meta)));
      }
    }
  }

  lemma {:induction false} ValueFaultFree(w: World, f: Field, v: Val, mask: seq<Mask>, meta: Meta)
    ensures ContentFaultFree(TreeValue(w, map[], f, v, mask, meta))
    decreases mask, 4, 0
  {
    hide TreeElement, FaultFree;
    var es, xs := Elements(v), TreeElements(w, map[], f, Elements(v), mask, meta);
    forall i | 0 <= i < |es| ensures FaultFree(xs[i]) {
      if IsMessage(f.kind) && es[i].Nested? {
        MessageFaultFree(w, es[i].msg, mask, meta);
      }
      ElementFaultFree(w, f, es[i], mask, meta);
    }
    if v.Entries? {
      ZipFaultFree(KeyTexts(v), xs);
    }
  }

  lemma {:induction false} ElementFaultFree(w: World, f: Field, e: Element, mask: seq<Mask>, meta: Meta)
    requires IsMessage(f.kind) && e.Nested? ==> FaultFree(TreeMessage(w, map[], e.msg, mask, meta))
    ensures FaultFree(TreeElement(w, map[], f, e, mask, meta))
  {
    hide TreeMessage;
  }

  lemma {:induction false} ZipFaultFree(keys: seq<string>, xs: seq<Tree>)
    requires |keys| == |xs| && forall i :: 0 <= i < |xs| ==> FaultFree(xs[i])
    ensures ContentFaultFree(Object(Zip(keys, xs)))
  {
    hide FaultFree;
    if keys != [] {
      ZipFaultFree(keys[..|keys| - 1], xs[..|keys| - 1]);
    }
  }
}
