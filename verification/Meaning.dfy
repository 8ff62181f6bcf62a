/** What a query means, said without batches, rounds or mutation: a depth-first evaluation that resolves
    one relation of one entity at a time, given which batches fail. */
module Meaning {
  import opened Wrappers
  import opened Protobuf
  import opened Response
  import opened Format

  /** A registered relation: the field its resolver fills in, and the RPC that resolves it. */
  datatype Relation = Relation(name: string, rpc: string, descriptor: Field, takesParams: bool)

  type Relations = map<TypeName, map<string, Relation>>

  /** The gateway's configuration and, as the resolvers' contract, the value each relation has for one entity.
      A resolver is told the operations so far through the key's meta. */
  datatype World = World(
    types: Types,
    relations: Relations,
    acceptsParams: (RelationId, Params) -> bool,
    fallbackCatch: bool,
    one: (GroupKey, Msg) -> Option<Val>)
  {
    function RelationAt(id: RelationId): Option<Relation> {
      if id.base in relations && id.name in relations[id.base] then Some(relations[id.base][id.name]) else None
    }

    /** The meta that patches found in the results of a batch carry: one more operation on the stack. */
    function Next(key: GroupKey): Meta {
      var r := RelationAt(key.relation);
      Resolved(key.meta.operations + (if r.Some? then [r.value.rpc] else []), key)
    }

    /** Why a whole request is refused when it comes to this batch, before any resolver is called. */
    function Rejection(key: GroupKey): Option<Cause> {
      if RelationAt(key.relation).None? then Some(UnknownRelation)
      else if key.params.Some? && !acceptsParams(key.relation, key.params.value) then Some(ParamsRejected)
      else None
    }

    predicate Catches(entry: Mask) { CatchesErrors(entry, fallbackCatch) }
  }

  /** The batches whose resolver fails, with the error. */
  type Failures = map<GroupKey, string>

  function KeyOf(s: Site, meta: Meta): GroupKey {
    GroupKey(s.entry.params, RelationId(s.msg.typ, s.entry.name), meta)
  }

  function FailureFault(fails: Failures, key: GroupKey): Fault
    requires key in fails
  {
    Fault(key, ResolverFailed(fails[key]))
  }

  /** The value of a relation for one entity, with the field it is formatted as; None if failed or absent. */
  function Resolution(w: World, fails: Failures, s: Site, meta: Meta): Option<(Field, Val)> {
    var key := KeyOf(s, meta);
    var r := w.RelationAt(key.relation);
    if key in fails || r.None? then None
    else
      var v := w.one(key, s.msg);
      if v.None? then None else Some((r.value.descriptor, v.value))
  }

  // ----- errors

  /** The faults that leave a relation entry upwards: its own, and those no relation entry below it catches. */
  ghost function Escapes(w: World, fails: Failures, s: Site, meta: Meta): set<Fault>
    decreases EntryDepth(s.entry), 0
  {
    var key := KeyOf(s, meta);
    if key in fails then {FailureFault(fails, key)}
    else
      var r := Resolution(w, fails, s, meta);
      if r.None? then {} else EscapesValue(w, fails, r.value.0, r.value.1, s.entry.mask, w.Next(key))
  }

  ghost function EscapesValue(w: World, fails: Failures, f: Field, v: Val, mask: seq<Mask>, meta: Meta): set<Fault>
    decreases Depth(mask), 1
  {
    set s, x | s in ReachValue(w.types, f, v, mask) && !w.Catches(s.entry) && x in Escapes(w, fails, s, meta) :: x
  }

  /** The faults no relation entry among these catches. */
  ghost function EscapesOfSites(w: World, fails: Failures, sites: seq<Site>, meta: Meta): set<Fault> {
    set s, x | s in sites && !w.Catches(s.entry) && x in Escapes(w, fails, s, meta) :: x
  }

  /** The faults that make the whole call fail: a refused batch, a result that cannot be formatted, or a failed
      batch where nothing catches (above says whether something further up does). */
  ghost function Aborts(w: World, fails: Failures, s: Site, meta: Meta, above: bool): set<Fault>
    decreases EntryDepth(s.entry), 0
  {
    var key := KeyOf(s, meta);
    if w.Rejection(key).Some? then {Fault(key, w.Rejection(key).value)}
    else if key in fails then (if above || w.Catches(s.entry) then {} else {FailureFault(fails, key)})
    else
      var r := Resolution(w, fails, s, meta);
      if r.None? then {}
      else
        var fault := ValueFault(w.types, r.value.0, r.value.1, s.entry.mask);
        if fault.Some? then {Fault(key, fault.value)}
        else AbortsValue(w, fails, r.value.0, r.value.1, s.entry.mask, w.Next(key), above || w.Catches(s.entry))
  }

  ghost function AbortsValue(w: World, fails: Failures, f: Field, v: Val, mask: seq<Mask>, meta: Meta,
                             above: bool): set<Fault>
    decreases Depth(mask), 1
  {
    set s, x | s in ReachValue(w.types, f, v, mask) && x in Aborts(w, fails, s, meta, above) :: x
  }

  ghost function AbortsOfSites(w: World, fails: Failures, sites: seq<Site>, meta: Meta, above: bool): set<Fault> {
    set s, x | s in sites && x in Aborts(w, fails, s, meta, above) :: x
  }

  // ----- batches

  /** A batch a query makes use of, and whether something catches its errors for this use. */
  datatype Visit = Visit(key: GroupKey, caught: bool)

  ghost function Visits(w: World, fails: Failures, s: Site, meta: Meta, above: bool): set<Visit>
    decreases EntryDepth(s.entry), 0
  {
    var key, caught := KeyOf(s, meta), above || w.Catches(s.entry);
    var r := Resolution(w, fails, s, meta);
    {Visit(key, caught)}
    + if r.None? then {} else VisitsValue(w, fails, r.value.0, r.value.1, s.entry.mask, w.Next(key), caught)
  }

  ghost function VisitsValue(w: World, fails: Failures, f: Field, v: Val, mask: seq<Mask>, meta: Meta,
                             above: bool): set<Visit>
    decreases Depth(mask), 1
  {
    set s, x | s in ReachValue(w.types, f, v, mask) && x in Visits(w, fails, s, meta, above) :: x
  }

  ghost function VisitsOfSites(w: World, fails: Failures, sites: seq<Site>, meta: Meta, above: bool): set<Visit> {
    set s, x | s in sites && x in Visits(w, fails, s, meta, above) :: x
  }

  ghost function VisitKeys(visits: set<Visit>): set<GroupKey> { set v | v in visits :: v.key }

  // ----- the tree

  ghost function TreeMessage(w: World, fails: Failures, m: Msg, mask: seq<Mask>, meta: Meta): Tree
    decreases mask, 1, 0
  {
    if m.typ.IsWellKnown() then LeafTree(MessageLeaf(m))
    else
      Obj(map name | name in MaskNames(mask) && TreeEntry(w, fails, m, mask[IndexOf(mask, name)], meta).Some?
            :: TreeEntry(w, fails, m, mask[IndexOf(mask, name)], meta).value)
  }

  /** What one mask entry puts into the object: nothing, a field's or relation's content, or an error object
      in the place of a catching relation that faults reach. */
  ghost function TreeEntry(w: World, fails: Failures, m: Msg, entry: Mask, meta: Meta): Option<Node>
    decreases entry, 1, 0
  {
    match FieldFor(w.types, m.typ, entry.name)
    case Some(f) =>
      var v := Present(m, f);
      if v.None? then None else Some(Shown(TreeValue(w, fails, f, v.value, entry.mask, meta)))
    case None =>
      var s := Site(m, entry);
      if w.Catches(entry) && Escapes(w, fails, s, meta) != {} then Some(OneOf(Latest(Escapes(w, fails, s, meta))))
      else TreeRelation(w, fails, m, entry, meta)
  }

  ghost function TreeRelation(w: World, fails: Failures, m: Msg, entry: Mask, meta: Meta): Option<Node>
    decreases entry, 0, 0
  {
    var r := Resolution(w, fails, Site(m, entry), meta);
    if r.None? then None
    else Some(Shown(TreeValue(w, fails, r.value.0, r.value.1, entry.mask, w.Next(KeyOf(Site(m, entry), meta)))))
  }

  ghost function TreeValue(w: World, fails: Failures, f: Field, v: Val, mask: seq<Mask>, meta: Meta): Content<Tree>
    decreases mask, 4, 0
  {
    Arrange(v, KeyTexts(v), TreeElements(w, fails, f, Elements(v), mask, meta))
  }

  ghost function TreeElements(w: World, fails: Failures, f: Field, es: seq<Element>, mask: seq<Mask>,
                              meta: Meta): seq<Tree>
    decreases mask, 3, 0
  {
    seq(|es|, i requires 0 <= i < |es| => TreeElement(w, fails, f, es[i], mask, meta))
  }

  ghost function TreeElement(w: World, fails: Failures, f: Field, e: Element, mask: seq<Mask>, meta: Meta): Tree
    decreases mask, 2, 0
  {
    if IsMessage(f.kind) then (if e.Nested? then TreeMessage(w, fails, e.msg, mask, meta) else LeafTree(Null))
    else LeafTree(if e.Plain? then ScalarLeaf(f, e.scalar) else Null)
  }
}
