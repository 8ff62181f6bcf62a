/** Projecting a message through a mask (format.go): the JSON it gives, with a patch for every relation
    that has still to be resolved. */
module Format {
  import opened Wrappers
  import opened Protobuf
  import opened Response

  // ----- scalars and map keys

  function Digits(n: nat): string {
    if n < 10 then [('0' as int + n) as char] else Digits(n / 10) + [('0' as int + n % 10) as char]
  }

  /** strconv.FormatInt and FormatUint in base ten. */
  function Decimal(i: int): string {
    if i < 0 then ['-'] + Digits(-i) else Digits(i)
  }

  function FloatLeaf(f: Float): Leaf {
    match f
    case NaN => Text("NaN")
    case PosInf => Text("Infinity")
    case NegInf => Text("-Infinity")
    case Finite(x) => Number(x)
  }

  function EnumLeaf(f: Field, number: int): Leaf {
    if f.enum.isNullValue then Null
    else if number in f.enum.names then Text(f.enum.names[number])
    else Number(number as real)
  }

  /** The JSON form of a scalar: numbers for 32-bit kinds, text for 64-bit kinds. A scalar that does not
      belong to the kind never reaches formatting; it reads as Null here. */
  function ScalarLeaf(f: Field, s: Scalar): Leaf {
    match f.kind
    case EnumKind => if s.EnumVal? then EnumLeaf(f, s.number) else Null
    case Int32Kind | Sint32Kind | Sfixed32Kind => if s.IntVal? then Number(s.i as real) else Null
    case Int64Kind | Sint64Kind | Sfixed64Kind => if s.IntVal? then Text(Decimal(s.i)) else Null
    case Uint32Kind | Fixed32Kind => if s.UintVal? then Number(s.n as real) else Null
    case Uint64Kind | Fixed64Kind => if s.UintVal? then Text(Decimal(s.n)) else Null
    case FloatKind | DoubleKind => if s.FloatVal? then FloatLeaf(s.f) else Null
    case BoolKind => if s.BoolVal? then Bool(s.b) else Null
    case StringKind => if s.StringVal? then Text(s.s) else Null
    case BytesKind => if s.BytesVal? then Base64(s.bytes) else Null
    case _ => Null
  }

  function MessageLeaf(m: Msg): Leaf {
    if m.json.Some? then Library(m.json.value) else Null
  }

  predicate IsKeyKind(kind: Kind) {
    match kind
    case Int32Kind | Sint32Kind | Sfixed32Kind | Int64Kind | Sint64Kind | Sfixed64Kind => true
    case Uint32Kind | Fixed32Kind | Uint64Kind | Fixed64Kind => true
    case BoolKind | StringKind => true
    case _ => false
  }

  function KeyText(key: Scalar): string {
    match key
    case IntVal(i) => Decimal(i)
    case UintVal(n) => Decimal(n)
    case BoolVal(b) => if b then "true" else "false"
    case StringVal(s) => s
    case _ => ""
  }

  function KeyTexts(v: Val): (keys: seq<string>)
    ensures v.Entries? ==> |keys| == |v.entries|
  {
    if v.Entries? then seq(|v.entries|, i requires 0 <= i < |v.entries| => KeyText(v.entries[i].0)) else []
  }

  // ----- which relations a mask reaches, and whether formatting fails

  /** A relation entry of a mask together with a message instance it applies to. */
  datatype Site = Site(msg: Msg, entry: Mask)

  /** The relation entries a mask reaches inside a message without passing through a relation. */
  function Reach(types: Types, m: Msg, mask: seq<Mask>): (sites: seq<Site>)
    ensures forall s :: s in sites ==> EntryDepth(s.entry) <= Depth(mask)
    decreases mask, 1, 0
  {
    if m.typ.IsWellKnown() then [] else ReachEntries(types, m, mask, |mask|)
  }

  function ReachEntries(types: Types, m: Msg, mask: seq<Mask>, k: nat): (sites: seq<Site>)
    requires k <= |mask|
    ensures forall s :: s in sites ==> EntryDepth(s.entry) <= DepthOfFirst(mask, k)
    decreases mask, 0, k
  {
    if k == 0 then [] else ReachEntries(types, m, mask, k - 1) + ReachEntry(types, m, mask[k - 1])
  }

  function ReachEntry(types: Types, m: Msg, entry: Mask): (sites: seq<Site>)
    ensures forall s :: s in sites ==> EntryDepth(s.entry) <= EntryDepth(entry)
    decreases entry, 0, 0
  {
    match FieldFor(types, m.typ, entry.name)
    case None => [Site(m, entry)]
    case Some(f) => var v := Present(m, f); if v.None? then [] else ReachValue(types, f, v.value, entry.mask)
  }

  function ReachValue(types: Types, f: Field, v: Val, mask: seq<Mask>): (sites: seq<Site>)
    ensures forall s :: s in sites ==> EntryDepth(s.entry) <= Depth(mask)
    decreases mask, 4, 0
  {
    ReachElements(types, f, Elements(v), |Elements(v)|, mask)
  }

  function ReachElements(types: Types, f: Field, es: seq<Element>, k: nat, mask: seq<Mask>): (sites: seq<Site>)
    requires k <= |es|
    ensures forall s :: s in sites ==> EntryDepth(s.entry) <= Depth(mask)
    decreases mask, 3, k
  {
    if k == 0 then [] else ReachElements(types, f, es, k - 1, mask) + ReachElement(types, f, es[k - 1], mask)
  }

  function ReachElement(types: Types, f: Field, e: Element, mask: seq<Mask>): (sites: seq<Site>)
    ensures forall s :: s in sites ==> EntryDepth(s.entry) <= Depth(mask)
    decreases mask, 2, 0
  {
    if IsMessage(f.kind) && e.Nested? then Reach(types, e.msg, mask) else []
  }

  predicate FormatCause(cause: Cause) { cause.UnknownKind? || cause.UnknownKeyKind? || cause.NotConvertible? }

  /** The first failure met while formatting, in mask, list and map order. */
  function MessageFault(types: Types, m: Msg, mask: seq<Mask>): (cause: Option<Cause>)
    ensures cause.Some? ==> FormatCause(cause.value)
    decreases mask, 1, 0
  {
    if m.typ.IsWellKnown() then (if m.json.None? then Some(NotConvertible) else None)
    else EntriesFault(types, m, mask, |mask|)
  }

  function EntriesFault(types: Types, m: Msg, mask: seq<Mask>, k: nat): (cause: Option<Cause>)
    requires k <= |mask|
    ensures cause.Some? ==> FormatCause(cause.value)
    decreases mask, 0, k
  {
    if k == 0 then None
    else
      var before := EntriesFault(types, m, mask, k - 1);
      if before.Some? then before else EntryFault(types, m, mask[k - 1])
  }

  function EntryFault(types: Types, m: Msg, entry: Mask): (cause: Option<Cause>)
    ensures cause.Some? ==> FormatCause(cause.value)
    decreases entry, 0, 0
  {
    match FieldFor(types, m.typ, entry.name)
    case None => None
    case Some(f) => var v := Present(m, f); if v.None? then None else ValueFault(types, f, v.value, entry.mask)
  }

  function ValueFault(types: Types, f: Field, v: Val, mask: seq<Mask>): (cause: Option<Cause>)
    ensures cause.Some? ==> FormatCause(cause.value)
    decreases mask, 4, 0
  {
    if v.Entries? && v.entries != [] && !(f.shape.MapOf? && IsKeyKind(f.shape.key)) then Some(UnknownKeyKind)
    else ElementsFault(types, f, Elements(v), |Elements(v)|, mask)
  }

  function ElementsFault(types: Types, f: Field, es: seq<Element>, k: nat, mask: seq<Mask>): (cause: Option<Cause>)
    requires k <= |es|
    ensures cause.Some? ==> FormatCause(cause.value)
    decreases mask, 3, k
  {
    if k == 0 then None
    else
      var before := ElementsFault(types, f, es, k - 1, mask);
      if before.Some? then before else ElementFault(types, f, es[k - 1], mask)
  }

  function ElementFault(types: Types, f: Field, e: Element, mask: seq<Mask>): (cause: Option<Cause>)
    ensures cause.Some? ==> FormatCause(cause.value)
    decreases mask, 2, 0
  {
    if IsMessage(f.kind) then (if e.Nested? then MessageFault(types, e.msg, mask) else None)
    else if f.kind.OtherKind? then Some(UnknownKind)
    else None
  }

  // ----- what formatting builds

  /** What stays fixed while one response or one resolved value is formatted. */
  datatype Ctx = Ctx(types: Types, fallbackCatch: bool, meta: Meta, catcher: Option<Slot>)

  /** What formatting gives: its result, the structs it allocates, in order, and the patches it leaves. */
  datatype Formatted<+T> = Formatted(out: T, structs: Store, patches: seq<Patch>)

  function PatchFor(c: Ctx, own: nat, m: Msg, entry: Mask): Patch {
    var slot := Slot(own, entry.name);
    Patch(m, entry, slot, c.meta, if CatchesErrors(entry, c.fallbackCatch) then Some(slot) else c.catcher)
  }

  function FormattedMessage(c: Ctx, next: nat, m: Msg, mask: seq<Mask>): Formatted<Ref>
    decreases mask, 1, 0
  {
    if m.typ.IsWellKnown() then Formatted(Ref.Plain(MessageLeaf(m)), [], [])
    else
      var r := FormattedEntries(c, next, m, mask, |mask|);
      Formatted(Struct(next), [r.out] + r.structs, r.patches)
  }

  /** The fields the first k entries give the struct at address own; structs nested in them follow it. */
  function FormattedEntries(c: Ctx, own: nat, m: Msg, mask: seq<Mask>, k: nat): Formatted<Fields>
    requires k <= |mask|
    decreases mask, 0, k
  {
    if k == 0 then Formatted(map[], [], [])
    else AddEntry(c, own, m, mask[k - 1], FormattedEntries(c, own, m, mask, k - 1))
  }

  /** One more mask entry: a relation leaves a patch, a field that is present is formatted and stored. */
  function AddEntry(c: Ctx, own: nat, m: Msg, entry: Mask, before: Formatted<Fields>): Formatted<Fields>
    decreases entry, 0, 0
  {
    match FieldFor(c.types, m.typ, entry.name)
    case None => WithPatch(before, PatchFor(c, own, m, entry))
    case Some(f) =>
      var v := Present(m, f);
      if v.None? then before
      else WithField(before, entry.name, FormattedValue(c, own + 1 + |before.structs|, f, v.value, entry.mask))
  }

  function WithPatch(r: Formatted<Fields>, p: Patch): Formatted<Fields> {
    Formatted(r.out, r.structs, r.patches + [p])
  }

  function WithField(r: Formatted<Fields>, name: string, v: Formatted<Content<Ref>>): Formatted<Fields> {
    Formatted(r.out[name := Filled(v.out)], r.structs + v.structs, r.patches + v.patches)
  }

  function FormattedValue(c: Ctx, next: nat, f: Field, v: Val, mask: seq<Mask>): Formatted<Content<Ref>>
    decreases mask, 4, 0
  {
    var es := Elements(v);
    var r := FormattedElements(c, next, f, es, |es|, mask);
    Formatted(Arrange(v, KeyTexts(v), r.out), r.structs, r.patches)
  }

  /** The first k elements, one after the other. */
  function FormattedElements(c: Ctx, next: nat, f: Field, es: seq<Element>, k: nat,
                             mask: seq<Mask>): (r: Formatted<seq<Ref>>)
    requires k <= |es|
    ensures |r.out| == k
    decreases mask, 3, k
  {
    if k == 0 then Formatted([], [], [])
    else AddElement(c, next, f, es[k - 1], mask, FormattedElements(c, next, f, es, k - 1, mask))
  }

  function AddElement(c: Ctx, next: nat, f: Field, e: Element, mask: seq<Mask>,
                      before: Formatted<seq<Ref>>): (r: Formatted<seq<Ref>>)
    ensures |r.out| == |before.out| + 1
    decreases mask, 2, 1
  {
    var r := FormattedElement(c, next + |before.structs|, f, e, mask);
    Formatted(before.out + [r.out], before.structs + r.structs, before.patches + r.patches)
  }

  function FormattedElement(c: Ctx, next: nat, f: Field, e: Element, mask: seq<Mask>): Formatted<Ref>
    decreases mask, 2, 0
  {
    if IsMessage(f.kind) then
      (if e.Nested? then FormattedMessage(c, next, e.msg, mask) else Formatted(Ref.Plain(Null), [], []))
    else
      Formatted(Ref.Plain(if e.Plain? then ScalarLeaf(f, e.scalar) else Null), [], [])
  }
}
