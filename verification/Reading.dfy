/** Reading a response that is still being stitched as the tree it will end up as: slots with a pending patch
    are read as what the depth-first meaning says will come, including the errors on their way. */
module Reading {
  import opened Wrappers
  import opened Protobuf
  import opened Response
  import opened Format
  import opened Meaning

  function SiteOf(p: Patch): Site { Site(p.target, p.mask) }

  /** The faults pending patches will write into a slot. */
  ghost function Incoming(w: World, fails: Failures, pend: set<Patch>, slot: Slot): set<Fault> {
    set p, x | p in pend && p.catcher == Some(slot) && x in Escapes(w, fails, SiteOf(p), p.meta) :: x
  }

  datatype Look = Empty | Shows(node: Node) | Holds(content: Content<Ref>)

  ghost predicate Awaited(pend: set<Patch>, slot: Slot) { exists p :: p in pend && p.slot == slot }

  ghost function Awaiting(pend: set<Patch>, slot: Slot): (p: Patch)
    requires Awaited(pend, slot)
    ensures p in pend && p.slot == slot
  {
    var p :| p in pend && p.slot == slot;
    p
  }

  /** What a slot is headed for: errors on their way win over everything, then the value of a relation still to
      be resolved, then what is stored. */
  ghost function LookAt(w: World, fails: Failures, st: Store, pend: set<Patch>, slot: Slot): Look
    requires slot.addr < |st|
  {
    var faults := Incoming(w, fails, pend, slot);
    if faults != {} then Shows(OneOf(Latest(faults)))
    else if Awaited(pend, slot) then
      var p := Awaiting(pend, slot);
      var node := TreeRelation(w, fails, p.target, p.mask, p.meta);
      if node.None? then Empty else Shows(node.value)
    else if slot.name !in st[slot.addr] then Empty
    else
      match st[slot.addr][slot.name]
      case Failed(fault) => Shows(OneOf({fault}))
      case Filled(content) => Holds(content)
  }

  /** The names that can be anything but empty in a struct. */
  ghost function Candidates(st: Store, pend: set<Patch>, addr: nat): set<string>
    requires addr < |st|
  {
    st[addr].Keys
    + (set p | p in pend && p.slot.addr == addr :: p.slot.name)
    + (set p | p in pend && p.catcher.Some? && p.catcher.value.addr == addr :: p.catcher.value.name)
  }

  lemma LookCandidates(w: World, fails: Failures, st: Store, pend: set<Patch>, slot: Slot)
    requires slot.addr < |st| && !LookAt(w, fails, st, pend, slot).Empty?
    ensures slot.name in Candidates(st, pend, slot.addr)
  {
    if Incoming(w, fails, pend, slot) != {} {
      var x :| x in Incoming(w, fails, pend, slot);
      var p :| p in pend && p.catcher == Some(slot) && x in Escapes(w, fails, SiteOf(p), p.meta);
    }
  }

  /** A look as the node it is read as. */
  ghost function NodeAt(w: World, fails: Failures, st: Store, pend: set<Patch>, slot: Slot): Option<Node>
    requires slot.addr < |st|
    decreases |st| - slot.addr, 1, 1
  {
    match LookAt(w, fails, st, pend, slot)
    case Empty => None
    case Shows(node) => Some(node)
    case Holds(content) => Some(Shown(ReadContent(w, fails, st, pend, slot.addr, content)))
  }

  lemma NodeCandidates(w: World, fails: Failures, st: Store, pend: set<Patch>, slot: Slot)
    requires slot.addr < |st| && NodeAt(w, fails, st, pend, slot).Some?
    ensures slot.name in Candidates(st, pend, slot.addr)
  {
    LookCandidates(w, fails, st, pend, slot);
  }

  ghost function Read(w: World, fails: Failures, st: Store, pend: set<Patch>, addr: nat): Tree
    requires addr < |st|
    decreases |st| - addr, 2
  {
    Obj(map n | n in Candidates(st, pend, addr) && NodeAt(w, fails, st, pend, Slot(addr, n)).Some?
          :: NodeAt(w, fails, st, pend, Slot(addr, n)).value)
  }

  /** Content found in the struct at address from; references in it always lead to later addresses. */
  ghost function ReadContent(w: World, fails: Failures, st: Store, pend: set<Patch>, from: int,
                             c: Content<Ref>): Content<Tree>
    requires -1 <= from < |st|
    decreases |st| - from, 1, 0
  {
    match c
    case Single(r) => Single(ReadRef(w, fails, st, pend, from, r))
    case Items(rs) => Items(ReadRefs(w, fails, st, pend, from, rs))
    case Object(m) => Object(map k | k in m :: ReadRef(w, fails, st, pend, from, m[k]))
  }

  ghost function ReadRefs(w: World, fails: Failures, st: Store, pend: set<Patch>, from: int, rs: seq<Ref>): seq<Tree>
    requires -1 <= from < |st|
    decreases |st| - from, 0, 1
  {
    seq(|rs|, i requires 0 <= i < |rs| => ReadRef(w, fails, st, pend, from, rs[i]))
  }

  ghost function ReadRef(w: World, fails: Failures, st: Store, pend: set<Patch>, from: int, r: Ref): Tree
    requires -1 <= from < |st|
    decreases |st| - from, 0, 0
  {
    match r
    case Plain(leaf) => LeafTree(leaf)
    case Struct(addr) => if from < addr < |st| then Read(w, fails, st, pend, addr) else LeafTree(Null)
  }

  /** Reading commutes with laying out elements. */
  lemma {:induction false} ReadZip(w: World, fails: Failures, st: Store, pend: set<Patch>, from: int,
                                   keys: seq<string>, rs: seq<Ref>, ts: seq<Tree>)
    requires -1 <= from < |st| && |keys| == |rs|
    requires ts == ReadRefs(w, fails, st, pend, from, rs)
    ensures ReadContent(w, fails, st, pend, from, Object(Zip(keys, rs))) == Object(Zip(keys, ts))
  {
    hide Read;
    if keys != [] {
      var k := |keys| - 1;
      ReadZip(w, fails, st, pend, from, keys[..k], rs[..k], ts[..k]);
      assert ts[k] == ReadRef(w, fails, st, pend, from, rs[k]);
    }
  }

  lemma ReadArrange(w: World, fails: Failures, st: Store, pend: set<Patch>, from: int,
                    v: Val, keys: seq<string>, rs: seq<Ref>)
    requires -1 <= from < |st| && |rs| == |Elements(v)| && (v.Entries? ==> |keys| == |rs|)
    ensures |ReadRefs(w, fails, st, pend, from, rs)| == |rs|
    ensures ReadContent(w, fails, st, pend, from, Arrange(v, keys, rs))
         == Arrange(v, keys, ReadRefs(w, fails, st, pend, from, rs))
  {
    if v.Entries? {
      ReadZip(w, fails, st, pend, from, keys, rs, ReadRefs(w, fails, st, pend, from, rs));
    }
  }

  // ----- a finished response

  /** A struct with nothing pending, read as it stands. */
  ghost function Finished(st: Store, addr: nat): Tree
    requires addr < |st|
    decreases |st| - addr, 2
  {
    Obj(map n | n in st[addr] :: FinishedCell(st, addr, st[addr][n]))
  }

  ghost function FinishedCell(st: Store, from: int, c: Cell): Node
    requires -1 <= from < |st|
    decreases |st| - from, 1
  {
    match c
    case Failed(fault) => OneOf({fault})
    case Filled(Single(r)) => Shown(Single(FinishedRef(st, from, r)))
    case Filled(Items(rs)) => Shown(Items(seq(|rs|, i requires 0 <= i < |rs| => FinishedRef(st, from, rs[i]))))
    case Filled(Object(m)) => Shown(Object(map k | k in m :: FinishedRef(st, from, m[k])))
  }

  ghost function FinishedRef(st: Store, from: int, r: Ref): Tree
    requires -1 <= from < |st|
    decreases |st| - from, 0
  {
    match r
    case Plain(leaf) => LeafTree(leaf)
    case Struct(addr) => if from < addr < |st| then Finished(st, addr) else LeafTree(Null)
  }

  lemma {:induction false} ReadFinished(w: World, fails: Failures, st: Store, addr: nat)
    requires addr < |st|
    ensures Read(w, fails, st, {}, addr) == Finished(st, addr)
    decreases |st| - addr, 2
  {
    hide NodeAt, FinishedCell;
    forall n ensures NodeAt(w, fails, st, {}, Slot(addr, n))
                  == if n in st[addr] then Some(FinishedCell(st, addr, st[addr][n])) else None
    {
      SlotFinished(w, fails, st, addr, n);
    }
    assert Candidates(st, {}, addr) == st[addr].Keys;
  }

  lemma {:induction false} SlotFinished(w: World, fails: Failures, st: Store, addr: nat, n: string)
    requires addr < |st|
    ensures NodeAt(w, fails, st, {}, Slot(addr, n))
         == if n in st[addr] then Some(FinishedCell(st, addr, st[addr][n])) else None
    decreases |st| - addr, 1, 1
  {
    hide ReadContent, FinishedCell;
    var slot := Slot(addr, n);
    assert Incoming(w, fails, {}, slot) == {} && !Awaited({}, slot);
    if n in st[addr] && st[addr][n].Failed? {
      FinishedFault(st, addr, st[addr][n]);
    } else if n in st[addr] {
      ReadFinishedContent(w, fails, st, addr, st[addr][n].content);
    }
  }

  lemma FinishedFault(st: Store, from: nat, c: Cell)
    requires from < |st| && c.Failed?
    ensures FinishedCell(st, from, c) == OneOf({c.fault})
  {
  }

  lemma {:induction false} ReadFinishedContent(w: World, fails: Failures, st: Store, from: nat, c: Content<Ref>)
    requires from < |st|
    ensures Shown(ReadContent(w, fails, st, {}, from, c)) == FinishedCell(st, from, Filled(c))
    decreases |st| - from, 1, 0
  {
    match c
    case Single(r) => ReadFinishedRef(w, fails, st, from, r);
    case Items(rs) =>
      forall i | 0 <= i < |rs| ensures ReadRef(w, fails, st, {}, from, rs[i]) == FinishedRef(st, from, rs[i]) {
        ReadFinishedRef(w, fails, st, from, rs[i]);
      }
      assert ReadContent(w, fails, st, {}, from, c).items == FinishedCell(st, from, Filled(c)).content.items;
    case Object(m) =>
      forall k | k in m ensures ReadRef(w, fails, st, {}, from, m[k]) == FinishedRef(st, from, m[k]) {
        ReadFinishedRef(w, fails, st, from, m[k]);
      }
      assert ReadContent(w, fails, st, {}, from, c).members == FinishedCell(st, from, Filled(c)).content.members;
  }

  lemma {:induction false} ReadFinishedRef(w: World, fails: Failures, st: Store, from: int, r: Ref)
    requires -1 <= from < |st|
    ensures ReadRef(w, fails, st, {}, from, r) == FinishedRef(st, from, r)
    decreases |st| - from, 0
  {
    if r.Struct? && from < r.addr < |st| {
      ReadFinished(w, fails, st, r.addr);
    }
  }
}
