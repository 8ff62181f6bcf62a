/** Grouping the queued patches by batch key (stitcher.go:48-84). */
module Grouping {
  import opened Wrappers
  import opened Response
  import opened Meaning

  function Flatten(queue: seq<seq<Patch>>): seq<Patch> {
    if queue == [] then [] else Flatten(queue[..|queue| - 1]) + queue[|queue| - 1]
  }

  lemma FlattenAppend(queue: seq<seq<Patch>>, more: seq<Patch>)
    ensures Flatten(queue + [more]) == Flatten(queue) + more
  {
    assert (queue + [more])[..|queue|] == queue;
  }

  lemma {:induction false} FlattenConcat(a: seq<seq<Patch>>, b: seq<seq<Patch>>)
    ensures Flatten(a + b) == Flatten(a) + Flatten(b)
  {
    if b == [] {
      assert a + b == a;
    } else {
      hide Flatten;
      var init, last := b[..|b| - 1], b[|b| - 1];
      FlattenConcat(a, init);
      assert a + b == (a + init) + [last];
      FlattenAppend(a + init, last);
      assert b == init + [last];
      FlattenAppend(init, last);
      Associative(Flatten(a), Flatten(init), last);
    }
  }

  lemma Associative(x: seq<Patch>, y: seq<Patch>, z: seq<Patch>)
    ensures x + y + z == x + (y + z)
  {
  }

  /** Filling an empty place of the queue inserts the patches there. */
  lemma FlattenFill(queue: seq<seq<Patch>>, i: nat, more: seq<Patch>)
    requires i < |queue| && queue[i] == []
    ensures Flatten(queue) == Flatten(queue[..i]) + Flatten(queue[i + 1..])
    ensures Flatten(queue[i := more]) == Flatten(queue[..i]) + more + Flatten(queue[i + 1..])
  {
    var a, b := queue[..i], queue[i + 1..];
    assert queue == (a + [[]]) + b && queue[i := more] == (a + [more]) + b;
    FlattenConcat(a + [[]], b);
    FlattenConcat(a + [more], b);
    FlattenAppend(a, []);
    FlattenAppend(a, more);
  }

  /** The patches of one batch, in queue order. */
  function Select(patches: seq<Patch>, key: GroupKey): seq<Patch> {
    if patches == [] then []
    else
      var p := patches[|patches| - 1];
      Select(patches[..|patches| - 1], key) + (if p.Key() == key then [p] else [])
  }

  lemma SelectAppend(patches: seq<Patch>, p: Patch, key: GroupKey)
    ensures Select(patches + [p], key) == Select(patches, key) + (if p.Key() == key then [p] else [])
  {
    assert (patches + [p])[..|patches|] == patches;
  }

  predicate DistinctSlots(patches: seq<Patch>) {
    forall i, j :: 0 <= i < j < |patches| ==> patches[i].slot != patches[j].slot
  }

  lemma {:induction false} SelectMembers(patches: seq<Patch>, key: GroupKey)
    ensures forall p: Patch :: p in Select(patches, key) <==> p in patches && p.Key() == key
    ensures DistinctSlots(patches) ==> DistinctSlots(Select(patches, key))
  {
    if patches != [] {
      var init, last := patches[..|patches| - 1], patches[|patches| - 1];
      SelectMembers(init, key);
      assert patches == init + [last];
      if DistinctSlots(patches) {
        forall p | p in init ensures p.slot != last.slot {
        }
      }
    }
  }

  lemma {:induction false} SelectNone(patches: seq<Patch>, key: GroupKey)
    requires forall p: Patch :: p in patches ==> p.Key() != key
    ensures Select(patches, key) == []
  {
    if patches != [] {
      SelectNone(patches[..|patches| - 1], key);
    }
  }

  type Groups = map<GroupKey, seq<Patch>>

  /** Every patch is in the group of its key, once for each time it is queued, in order; no group is empty. */
  ghost predicate IsGrouping(patches: seq<Patch>, groups: Groups) {
    && (forall p: Patch :: p in patches ==> p.Key() in groups)
    && (forall key :: key in groups ==> groups[key] == Select(patches, key) && groups[key] != [])
  }

  /** groupedPatches[key] = append(groupedPatches[key], patch) */
  method AddToGroup(groups: Groups, p: Patch, ghost before: seq<Patch>) returns (r: Groups)
    requires IsGrouping(before, groups)
    ensures IsGrouping(before + [p], r)
  {
    var key := p.Key();
    r := groups[key := (if key in groups then groups[key] else []) + [p]];
    if key !in groups {
      SelectNone(before, key);
    }
    forall k | k in r ensures r[k] == Select(before + [p], k) {
      SelectAppend(before, p, k);
    }
  }

  /** Groups the queue, or gives a patch whose relation is not registered. */
  method Group(w: World, queue: seq<seq<Patch>>) returns (groups: Groups, unknown: Option<Patch>)
    ensures unknown.None? ==> IsGrouping(Flatten(queue), groups)
    ensures unknown.None? ==> forall p: Patch :: p in Flatten(queue) ==> w.RelationAt(p.Key().relation).Some?
    ensures unknown.Some? ==> unknown.value in Flatten(queue) && w.RelationAt(unknown.value.Key().relation).None?
  {
    groups := map[];
    for i := 0 to |queue|
      invariant IsGrouping(Flatten(queue[..i]), groups)
      invariant forall p: Patch :: p in Flatten(queue[..i]) ==> w.RelationAt(p.Key().relation).Some?
    {
      ghost var before := Flatten(queue[..i]);
      FlattenAppend(queue[..i], queue[i]);
      assert queue[..i + 1] == queue[..i] + [queue[i]];
      assert before + queue[i][..0] == before;
      for j := 0 to |queue[i]|
        invariant IsGrouping(before + queue[i][..j], groups)
        invariant forall p: Patch :: p in before + queue[i][..j] ==> w.RelationAt(p.Key().relation).Some?
      {
        hide IsGrouping, Select, Flatten;
        var p := queue[i][j];
        assert before + queue[i][..j + 1] == before + queue[i][..j] + [p];
        if w.RelationAt(p.Key().relation).None? {
          FlattenContains(queue, i, p);
          return groups, Some(p);
        }
        groups := AddToGroup(groups, p, before + queue[i][..j]);
      }
      assert queue[i][..|queue[i]|] == queue[i];
    }
    assert queue[..|queue|] == queue;
    unknown := None;
  }

  lemma {:induction false} FlattenContains(queue: seq<seq<Patch>>, i: nat, p: Patch)
    requires i < |queue| && p in queue[i]
    ensures p in Flatten(queue)
  {
    if i < |queue| - 1 {
      FlattenContains(queue[..|queue| - 1], i, p);
    }
  }

  /** Looks for a batch whose parameters cannot be parsed as the resolver's request (stitcher.go:89-113). */
  method FindRejectedParams(w: World, groups: Groups) returns (rejected: Option<GroupKey>)
    ensures rejected.Some? <==>
              exists key :: key in groups && key.params.Some? && !w.acceptsParams(key.relation, key.params.value)
    ensures rejected.Some? ==>
              var key := rejected.value;
              key in groups && key.params.Some? && !w.acceptsParams(key.relation, key.params.value)
  {
    var keys := groups.Keys;
    while keys != {}
      invariant keys <= groups.Keys
      invariant forall key :: key in groups && key !in keys && key.params.Some? ==>
                  w.acceptsParams(key.relation, key.params.value)
      decreases keys
    {
      var key :| key in keys;
      if key.params.Some? && !w.acceptsParams(key.relation, key.params.value) {
        return Some(key);
      }
      keys := keys - {key};
    }
    rejected := None;
  }

  // ----- what a group holds

  /** Patches of the same parameters, relation and origin share a group. */
  predicate SameBatch(p: Patch, q: Patch) {
    && p.mask.params == q.mask.params && p.target.typ == q.target.typ && p.mask.name == q.mask.name
    && p.meta == q.meta
  }

  /** Two queued patches are in one group exactly if they have the same parameters, the same relation of the same
      message type, and the same origin; so each is in exactly one. */
  lemma GroupsOfPatches(patches: seq<Patch>, groups: Groups, p: Patch)
    requires IsGrouping(patches, groups) && p in patches
    ensures exists key :: key in groups && p in groups[key]
    ensures forall key, q :: key in groups && p in groups[key] ==>
              (q in groups[key] <==> q in patches && SameBatch(p, q))
  {
    hide Select;
    SelectMembers(patches, p.Key());
    assert p in groups[p.Key()];
    forall key, q | key in groups && p in groups[key]
      ensures q in groups[key] <==> q in patches && SameBatch(p, q)
    {
      SelectMembers(patches, key);
    }
  }

  /** A group holds the patches of its key in queue order, each as often as it is queued: they are the patches at an
      increasing sequence of positions, and no other position has one. */
  lemma {:induction false} SelectInOrder(patches: seq<Patch>, key: GroupKey) returns (at: seq<nat>)
    ensures |at| == |Select(patches, key)|
    ensures forall i :: 0 <= i < |at| ==> at[i] < |patches| && patches[at[i]] == Select(patches, key)[i]
    ensures forall i, j :: 0 <= i < j < |at| ==> at[i] < at[j]
    ensures forall k :: 0 <= k < |patches| && patches[k].Key() == key ==> k in at
  {
    at := [];
    if patches != [] {
      var n := |patches| - 1;
      at := SelectInOrder(patches[..n], key);
      if patches[n].Key() == key {
        at := at + [n];
      }
    }
  }
}
