/** The JSON response under construction: structs that are filled in place, the patches that point
    into them, and the finished trees they are read back as. */
module Response {
  import opened Wrappers
  import opened Protobuf

  // ----- identities of batches

  datatype RelationId = RelationId(base: TypeName, name: string)

  /** The resolveMeta a patch was made under: the operations so far, and where it comes from, which stands
      for the identity of the pointer (each entry request and each resolved batch makes exactly one). */
  datatype Meta =
    | Entry(request: nat, operations: seq<string>)
    | Resolved(operations: seq<string>, via: GroupKey)

  /** The key patches are grouped by. */
  datatype GroupKey = GroupKey(params: Option<Params>, relation: RelationId, meta: Meta)

  /** How many resolver batches lie between the entry response and this point: the round it belongs to. */
  function RoundOf(meta: Meta): nat {
    match meta
    case Entry(_, _) => 0
    case Resolved(_, via) => 1 + RoundOf(via.meta)
  }

  datatype Cause =
    | ResolverFailed(error: string)
    | UnknownRelation
    | ParamsRejected
    | UnknownKind
    | UnknownKeyKind
    | NotConvertible

  datatype Fault = Fault(at: GroupKey, cause: Cause) {
    function Round(): nat { RoundOf(at.meta) }
  }

  /** The latest of a set of faults. */
  ghost function Latest(faults: set<Fault>): set<Fault> {
    set f | f in faults && forall g :: g in faults ==> g.Round() <= f.Round()
  }

  // ----- structs under construction

  datatype Leaf = Null | Bool(b: bool) | Number(value: real) | Text(text: string) | Base64(bytes: string)
    | Library(json: string)

  datatype Content<+T> = Single(item: T) | Items(items: seq<T>) | Object(members: map<string, T>)

  datatype Ref = Plain(leaf: Leaf) | Struct(addr: nat)

  datatype Cell = Filled(content: Content<Ref>) | Failed(fault: Fault)

  type Fields = map<string, Cell>

  /** The structs allocated so far; an address is a position. */
  type Store = seq<Fields>

  predicate RefBelow(r: Ref, bound: nat) { r.Struct? ==> r.addr < bound }

  /** Every struct the content refers to has an address below the bound. */
  predicate ContentBelow(c: Content<Ref>, bound: nat) {
    match c
    case Single(r) => RefBelow(r, bound)
    case Items(rs) => forall r :: r in rs ==> RefBelow(r, bound)
    case Object(m) => forall k :: k in m ==> RefBelow(m[k], bound)
  }

  predicate CellsBelow(fields: Fields, bound: nat) {
    forall n :: n in fields && fields[n].Filled? ==> ContentBelow(fields[n].content, bound)
  }

  predicate StoreBelow(st: Store, bound: nat) {
    forall fields :: fields in st ==> CellsBelow(fields, bound)
  }

  /** The store after formatTarget.Fields[name] = cell. */
  function StoreField(st: Store, addr: nat, name: string, cell: Cell): Store
    requires addr < |st|
  {
    st[addr := st[addr][name := cell]]
  }

  datatype Slot = Slot(addr: nat, name: string)

  /** A relation still to be resolved: slot is formatTarget and the mask entry's name, catcher is errPatch. */
  datatype Patch = Patch(target: Msg, mask: Mask, slot: Slot, meta: Meta, catcher: Option<Slot>) {
    function Key(): GroupKey {
      GroupKey(mask.params, RelationId(target.typ, mask.name), meta)
    }
  }

  // ----- finished trees

  datatype Tree = LeafTree(leaf: Leaf) | Obj(fields: map<string, Node>)

  /** What stands in a field: content, or one of these faults as an error object. */
  datatype Node = Shown(content: Content<Tree>) | OneOf(faults: set<Fault>)

  /** x is y except that where y leaves a choice of faults, x may leave fewer. */
  ghost predicate Refines(x: Tree, y: Tree) {
    match (x, y)
    case (LeafTree(a), LeafTree(b)) => a == b
    case (Obj(f), Obj(g)) => f.Keys == g.Keys && forall k | k in f.Keys :: NodeRefines(f[k], g[k])
    case _ => false
  }

  ghost predicate NodeRefines(x: Node, y: Node) {
    match (x, y)
    case (Shown(a), Shown(b)) => ContentRefines(a, b)
    case (OneOf(a), OneOf(b)) => a <= b
    case _ => false
  }

  ghost predicate ContentRefines(x: Content<Tree>, y: Content<Tree>) {
    match (x, y)
    case (Single(a), Single(b)) => Refines(a, b)
    case (Items(a), Items(b)) => |a| == |b| && forall i | 0 <= i < |a| :: Refines(a[i], b[i])
    case (Object(f), Object(g)) => f.Keys == g.Keys && forall k | k in f.Keys :: Refines(f[k], g[k])
    case _ => false
  }

  lemma {:induction false} RefinesReflexive(x: Tree)
    ensures Refines(x, x)
  {
    if x.Obj? {
      forall k | k in x.fields.Keys ensures NodeRefines(x.fields[k], x.fields[k]) {
        if x.fields[k].Shown? {
          ContentRefinesReflexive(x.fields[k].content);
        }
      }
    }
  }

  lemma {:induction false} ContentRefinesReflexive(x: Content<Tree>)
    ensures ContentRefines(x, x)
  {
    match x
    case Single(a) => RefinesReflexive(a);
    case Items(a) => forall i | 0 <= i < |a| ensures Refines(a[i], a[i]) { RefinesReflexive(a[i]); }
    case Object(f) => forall k | k in f.Keys ensures Refines(f[k], f[k]) { RefinesReflexive(f[k]); }
  }

  lemma {:induction false} RefinesTransitive(x: Tree, y: Tree, z: Tree)
    requires Refines(x, y) && Refines(y, z)
    ensures Refines(x, z)
  {
    if x.Obj? {
      forall k | k in x.fields.Keys ensures NodeRefines(x.fields[k], z.fields[k]) {
        if x.fields[k].Shown? {
          ContentRefinesTransitive(x.fields[k].content, y.fields[k].content, z.fields[k].content);
        }
      }
    }
  }

  lemma {:induction false} ContentRefinesTransitive(x: Content<Tree>, y: Content<Tree>, z: Content<Tree>)
    requires ContentRefines(x, y) && ContentRefines(y, z)
    ensures ContentRefines(x, z)
  {
    match x
    case Single(a) => RefinesTransitive(a, y.item, z.item);
    case Items(a) =>
      forall i | 0 <= i < |a| ensures Refines(a[i], z.items[i]) { RefinesTransitive(a[i], y.items[i], z.items[i]); }
    case Object(f) =>
      forall k | k in f.Keys ensures Refines(f[k], z.members[k]) {
        RefinesTransitive(f[k], y.members[k], z.members[k]);
      }
  }

  /** No error object anywhere. */
  ghost predicate FaultFree(x: Tree) {
    x.Obj? ==> forall k | k in x.fields.Keys :: x.fields[k].Shown? && ContentFaultFree(x.fields[k].content)
  }

  ghost predicate ContentFaultFree(x: Content<Tree>) {
    match x
    case Single(a) => FaultFree(a)
    case Items(a) => forall t | t in a :: FaultFree(t)
    case Object(f) => forall k | k in f.Keys :: FaultFree(f[k])
  }

  /** Refining a tree without faults leaves no freedom. */
  lemma {:induction false} RefinesFaultFree(x: Tree, y: Tree)
    requires Refines(x, y) && FaultFree(y)
    ensures x == y
  {
    if x.Obj? {
      forall k | k in x.fields.Keys ensures x.fields[k] == y.fields[k] {
        ContentRefinesFaultFree(x.fields[k].content, y.fields[k].content);
      }
      assert x.fields == y.fields;
    }
  }

  lemma {:induction false} ContentRefinesFaultFree(x: Content<Tree>, y: Content<Tree>)
    requires ContentRefines(x, y) && ContentFaultFree(y)
    ensures x == y
  {
    match x
    case Single(a) => RefinesFaultFree(a, y.item);
    case Items(a) =>
      forall i | 0 <= i < |a| ensures a[i] == y.items[i] { RefinesFaultFree(a[i], y.items[i]); }
      assert a == y.items;
    case Object(f) =>
      forall k | k in f.Keys ensures f[k] == y.members[k] { RefinesFaultFree(f[k], y.members[k]); }
      assert f == y.members;
  }

  // ----- laying out elements as list, map or single value

  /** Adds key/value pairs to a map in order. */
  function Zip<T>(keys: seq<string>, items: seq<T>): (m: map<string, T>)
    requires |keys| == |items|
  {
    if keys == [] then map[]
    else Zip(keys[..|keys| - 1], items[..|keys| - 1])[keys[|keys| - 1] := items[|keys| - 1]]
  }

  /** The formatted counterpart of a value, given the formatted counterparts of its elements. */
  function Arrange<T>(v: Val, keys: seq<string>, items: seq<T>): Content<T>
    requires |items| == |Elements(v)|
    requires v.Entries? ==> |keys| == |items|
  {
    match v
    case One(_) => Single(items[0])
    case Many(_) => Items(items)
    case Entries(_) => Object(Zip(keys, items))
  }

  lemma ZipAppend<T>(keys: seq<string>, items: seq<T>, key: string, item: T)
    requires |keys| == |items|
    ensures Zip(keys + [key], items + [item]) == Zip(keys, items)[key := item]
  {
    assert (keys + [key])[..|keys|] == keys && (items + [item])[..|items|] == items;
  }

  lemma {:induction false} ZipLookup<T>(keys: seq<string>, items: seq<T>, i: nat)
    requires |keys| == |items| && i < |keys|
    requires forall j :: i < j < |keys| ==> keys[j] != keys[i]
    ensures keys[i] in Zip(keys, items) && Zip(keys, items)[keys[i]] == items[i]
  {
    if i < |keys| - 1 {
      ZipLookup(keys[..|keys| - 1], items[..|keys| - 1], i);
    }
  }

  lemma {:induction false} ZipBelow(keys: seq<string>, items: seq<Ref>, bound: nat)
    requires |keys| == |items| && forall r :: r in items ==> RefBelow(r, bound)
    ensures ContentBelow(Object(Zip(keys, items)), bound)
  {
    if keys != [] {
      ZipBelow(keys[..|keys| - 1], items[..|keys| - 1], bound);
    }
  }

  lemma ArrangeBelow(v: Val, keys: seq<string>, items: seq<Ref>, bound: nat)
    requires |items| == |Elements(v)| && (v.Entries? ==> |keys| == |items|)
    requires forall r :: r in items ==> RefBelow(r, bound)
    ensures ContentBelow(Arrange(v, keys, items), bound)
  {
    if v.Entries? {
      ZipBelow(keys, items, bound);
    } else if v.One? {
      assert items[0] in items;
    }
  }

  lemma {:induction false} ZipKeys<T>(keys: seq<string>, items: seq<T>)
    requires |keys| == |items|
    ensures forall k :: k in Zip(keys, items) <==> k in keys
  {
    if keys != [] {
      ZipKeys(keys[..|keys| - 1], items[..|keys| - 1]);
    }
  }
}
