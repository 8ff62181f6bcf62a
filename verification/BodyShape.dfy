/** The body a query gives has the shape its schema announces (schema.go:162-283 against format.go:290 and
    stitcher.go:182), provided mask names are in camel case. */
module BodyShape {
  import Names
  import opened Wrappers
  import opened Protobuf
  import opened Response
  import opened Format
  import opened Meaning
  import opened Schemas
  import opened Conformance
  import opened Scalars

  /** The JSON values of a scalar type: 64-bit integers are canonical decimal text, enum values may be unknown. */
  predicate LeafFits(t: ScalarType, leaf: Leaf) {
    match t
    case Int32 => leaf.Number? && IsInteger(leaf.value) && InInt32(leaf.value.Floor)
    case Uint32 => leaf.Number? && IsInteger(leaf.value) && InUint32(leaf.value.Floor)
    case Int64 => leaf.Text? && CanonicalDecimal(leaf.text) && InInt64(ParseDecimal(leaf.text))
    case Uint64 => leaf.Text? && CanonicalDecimal(leaf.text) && InUint64(ParseDecimal(leaf.text))
    case Double | Float => leaf.Number? || leaf in {Text("NaN"), Text("Infinity"), Text("-Infinity")}
    case Boolean => leaf.Bool?
    case Str => leaf.Text?
    case Bytes => leaf.Base64?
    case NullType => leaf.Null?
    case EnumType => leaf.Text? || (leaf.Number? && IsInteger(leaf.value) && InInt32(leaf.value.Floor))
  }

  /** The member names of a map with keys of this type. */
  predicate KeyFits(t: ScalarType, text: string) {
    match t
    case Boolean => text in {"true", "false"}
    case Int32 => CanonicalDecimal(text) && InInt32(ParseDecimal(text))
    case Uint32 => CanonicalDecimal(text) && InUint32(ParseDecimal(text))
    case Int64 => CanonicalDecimal(text) && InInt64(ParseDecimal(text))
    case Uint64 => CanonicalDecimal(text) && InUint64(ParseDecimal(text))
    case Str => true
    case Double | Float | Bytes | NullType | EnumType => false
  }

  /** Every key of every object is announced by the schema, and what it holds has the announced shape or is an
      error object; a well-known type is a leaf. */
  ghost predicate TreeFits(x: Tree, schema: Schema)
    decreases x, 1
  {
    match x
    case LeafTree(_) => schema.name.IsWellKnown()
    case Obj(fields) =>
      !schema.name.IsWellKnown() && forall k :: k in fields ==> NodeAnnounced(k, fields[k], schema.fields)
  }

  ghost predicate NodeAnnounced(key: string, n: Node, announced: seq<SchemaField>)
    decreases n, 3
  {
    exists i :: 0 <= i < |announced| && announced[i].name == key && NodeFits(n, announced[i].typ)
  }

  ghost predicate NodeFits(n: Node, t: FieldType)
    decreases n, 2
  {
    n.Shown? ==> ContentFits(n.content, t)
  }

  ghost predicate ContentFits(c: Content<Tree>, t: FieldType)
    decreases c, 1
  {
    match (c, t)
    case (Single(x), Plainly(e)) => ElementFits(x, e)
    case (Items(xs), RepeatedOf(e)) => forall x :: x in xs ==> ElementFits(x, e)
    case (Object(m), Mapping(t, e)) => forall k :: k in m ==> KeyFits(t, k) && ElementFits(m[k], e)
    case _ => false
  }

  ghost predicate ElementFits(x: Tree, e: ElementType)
    decreases x, 2
  {
    match e
    case ScalarOf(t) => x.LeafTree? && LeafFits(t, x.leaf)
    case MessageOf(s) => TreeFits(x, s)
  }

  predicate UnderscoreFreeMask(mask: seq<Mask>) {
    forall entry | entry in mask :: Names.UnderscoreFree(entry.name) && UnderscoreFreeMask(entry.mask)
  }

  /** No key of any object in the tree has an underscore; the members of map fields are data, not keys. */
  ghost predicate KeysUnderscoreFree(x: Tree) {
    x.Obj? ==> forall k | k in x.fields.Keys :: Names.UnderscoreFree(k) && NodeKeysUnderscoreFree(x.fields[k])
  }

  ghost predicate NodeKeysUnderscoreFree(n: Node) { n.Shown? ==> ContentKeysUnderscoreFree(n.content) }

  ghost predicate ContentKeysUnderscoreFree(c: Content<Tree>) {
    match c
    case Single(x) => KeysUnderscoreFree(x)
    case Items(xs) => forall x | x in xs :: KeysUnderscoreFree(x)
    case Object(m) => forall k | k in m.Keys :: KeysUnderscoreFree(m[k])
  }

  // ----- the tree of a message fits its schema

  /** If the mask has no underscores, or at least what the tree shows of it has none, the tree fits. */
  lemma {:induction false} MessageFits(w: World, fails: Failures, m: Msg, mask: seq<Mask>, meta: Meta)
    requires WorldSound(w) && Conforms(w.types, m, m.typ) && Accepts(w, m.typ, mask)
    requires UnderscoreFreeMask(mask) || KeysUnderscoreFree(TreeMessage(w, fails, m, mask, meta))
    ensures TreeFits(TreeMessage(w, fails, m, mask, meta), SchemaOf(w, m.typ, mask).value)
    decreases mask, 1, 0
  {
    hide TreeEntry, EntrySchema, NodeAnnounced, Conforms, UnderscoreFreeMask, WorldSound, NodeKeysUnderscoreFree;
    if !m.typ.IsWellKnown() {
      var announced := EntrySchemas(w, m.typ, mask, |mask|).value;
      AcceptedEntries(w, m.typ, mask, |mask|);
      var x := TreeMessage(w, fails, m, mask, meta);
      forall k | k in x.fields ensures NodeAnnounced(k, x.fields[k], announced) {
        var i := IndexOf(mask, k);
        if UnderscoreFreeMask(mask) {
          EntriesUnderscoreFree(mask, i);
        }
        EntryFits(w, fails, m, mask[i], meta);
        Announced(k, x.fields[k], announced, i);
      }
    }
  }

  lemma EntriesUnderscoreFree(mask: seq<Mask>, i: nat)
    requires UnderscoreFreeMask(mask) && i < |mask|
    ensures Names.UnderscoreFree(mask[i].name) && UnderscoreFreeMask(mask[i].mask)
  {
    assert mask[i] in mask;
  }

  lemma Announced(key: string, n: Node, announced: seq<SchemaField>, i: nat)
    requires i < |announced| && announced[i].name == key && NodeFits(n, announced[i].typ)
    ensures NodeAnnounced(key, n, announced)
  {
  }

  lemma {:induction false} EntryFits(w: World, fails: Failures, m: Msg, entry: Mask, meta: Meta)
    requires WorldSound(w) && Conforms(w.types, m, m.typ) && EntrySchema(w, m.typ, entry).Ok?
    requires TreeEntry(w, fails, m, entry, meta).Some? && Names.UnderscoreFree(entry.name)
    requires UnderscoreFreeMask(entry.mask) || NodeKeysUnderscoreFree(TreeEntry(w, fails, m, entry, meta).value)
    ensures EntrySchema(w, m.typ, entry).value.name == entry.name
    ensures NodeFits(TreeEntry(w, fails, m, entry, meta).value, EntrySchema(w, m.typ, entry).value.typ)
    decreases entry, 0, 0
  {
    hide FieldFor, Conforms, ValConforms, Names.Camel, UnderscoreFreeMask, TreeValue, FieldTypeOf, Escapes;
    hide AnswersConform, ContentKeysUnderscoreFree;
    Names.CamelOfUnderscoreFree(entry.name);
    var f := FieldFor(w.types, m.typ, entry.name);
    if f.Some? {
      FieldForKnown(w.types, m.typ, entry.name);
      PresentConforms(w, m, f.value, entry.mask);
      ValueFits(w, fails, f.value, Present(m, f.value).value, entry.mask, meta);
    } else if TreeEntry(w, fails, m, entry, meta).value.Shown? {
      var s := Site(m, entry);
      var r := Resolution(w, fails, s, meta);
      AnswerConforms(w, KeyOf(s, meta), m);
      ValueFits(w, fails, r.value.0, r.value.1, entry.mask, w.Next(KeyOf(s, meta)));
    }
  }

  lemma {:induction false} ValueFits(w: World, fails: Failures, f: Field, v: Val, mask: seq<Mask>, meta: Meta)
    requires WorldSound(w) && ValConforms(w.types, f, v) && FieldTypeOf(w, f, mask).Ok?
    requires UnderscoreFreeMask(mask) || ContentKeysUnderscoreFree(TreeValue(w, fails, f, v, mask, meta))
    ensures ContentFits(TreeValue(w, fails, f, v, mask, meta), FieldTypeOf(w, f, mask).value)
    decreases mask, 4, 0
  {
    hide TreeElement, ElementTypeOf, ElementConforms, UnderscoreFreeMask, AnswersConform;
    hide ElementFits, KeysUnderscoreFree;
    var t := ElementTypeOf(w, f, mask).value;
    var es, xs := Elements(v), TreeElements(w, fails, f, Elements(v), mask, meta);
    ElementsConform(w.types, f, v);
    forall i | 0 <= i < |es| && (UnderscoreFreeMask(mask) || KeysUnderscoreFree(xs[i])) ensures ElementFits(xs[i], t) {
      ElementFitsType(w, fails, f, es[i], mask, meta);
    }
    match v
    case One(_) => assert xs[0] == TreeValue(w, fails, f, v, mask, meta).item;
    case Many(_) => assert forall i :: 0 <= i < |xs| ==> xs[i] in xs;
    case Entries(_) =>
      var members := Zip(KeyTexts(v), xs);
      forall k | k in members ensures KeyFits(FieldTypeOf(w, f, mask).value.key, k) && ElementFits(members[k], t) {
        var i := ZipFrom(KeyTexts(v), xs, k);
        assert v.entries[i] in v.entries;
        KeyFitsType(w, f, mask, v.entries[i].0);
      }
  }

  lemma KeyFitsType(w: World, f: Field, mask: seq<Mask>, key: Scalar)
    requires f.shape.MapOf? && FieldTypeOf(w, f, mask).Ok? && ScalarFits(f.shape.key, key)
    ensures KeyFits(FieldTypeOf(w, f, mask).value.key, KeyText(key))
  {
    hide ElementTypeOf, Decimal, ParseDecimal, CanonicalDecimal;
    if key.IntVal? || key.UintVal? {
      var i := if key.IntVal? then key.i else key.n;
      DecimalRoundTrip(i);
      DecimalCanonical(i, "");
    }
  }

  lemma LeafFitsType(f: Field, s: Scalar)
    requires ScalarTypeOf(f.kind, f.enum).Some? && ScalarFits(f.kind, s)
    ensures LeafFits(ScalarTypeOf(f.kind, f.enum).value, ScalarLeaf(f, s))
  {
    hide Decimal, ParseDecimal, CanonicalDecimal;
    match s
    case IntVal(i) =>
      DecimalRoundTrip(i);
      DecimalCanonical(i, "");
      assert (i as real).Floor == i;
    case UintVal(n) =>
      DecimalRoundTrip(n);
      DecimalCanonical(n, "");
      assert (n as real).Floor == n;
    case EnumVal(number) => assert (number as real).Floor == number;
    case _ =>
  }

  lemma {:induction false} ZipFrom(keys: seq<string>, xs: seq<Tree>, k: string) returns (i: nat)
    requires |keys| == |xs| && k in Zip(keys, xs)
    ensures i < |xs| && keys[i] == k && Zip(keys, xs)[k] == xs[i]
  {
    var n := |keys| - 1;
    if keys[n] == k {
      i := n;
    } else {
      i := ZipFrom(keys[..n], xs[..n], k);
    }
  }

  lemma {:induction false} ElementFitsType(w: World, fails: Failures, f: Field, e: Element, mask: seq<Mask>, meta: Meta)
    requires WorldSound(w) && ElementConforms(w.types, f, e) && ElementTypeOf(w, f, mask).Ok?
    requires UnderscoreFreeMask(mask) || KeysUnderscoreFree(TreeElement(w, fails, f, e, mask, meta))
    ensures ElementFits(TreeElement(w, fails, f, e, mask, meta), ElementTypeOf(w, f, mask).value)
    decreases mask, 2, 0
  {
    hide TreeMessage, SchemaOf, UnderscoreFreeMask, AnswersConform, KeysUnderscoreFree, LeafFits, ScalarLeaf;
    if IsMessage(f.kind) {
      assert e.msg.typ == f.message;
      MessageFits(w, fails, e.msg, mask, meta);
    } else {
      LeafFitsType(f, e.scalar);
    }
  }

  // ----- and only then

  /** No announced name, at any level, has an underscore. */
  predicate NamesUnderscoreFree(schema: Schema) {
    forall field | field in schema.fields :: Names.UnderscoreFree(field.name) && TypeUnderscoreFree(field.typ)
  }

  predicate TypeUnderscoreFree(t: FieldType) {
    t.elem.MessageOf? ==> NamesUnderscoreFree(t.elem.schema)
  }

  lemma {:induction false} SchemaUnderscoreFree(w: World, typ: TypeName, mask: seq<Mask>)
    requires Accepts(w, typ, mask)
    ensures NamesUnderscoreFree(SchemaOf(w, typ, mask).value)
    decreases mask, 1
  {
    hide EntrySchema, TypeUnderscoreFree;
    if !typ.IsWellKnown() {
      AcceptedEntries(w, typ, mask, |mask|);
      var fields := EntrySchemas(w, typ, mask, |mask|).value;
      forall field | field in fields ensures Names.UnderscoreFree(field.name) && TypeUnderscoreFree(field.typ) {
        var i :| 0 <= i < |fields| && fields[i] == field;
        EntryUnderscoreFree(w, typ, mask[i]);
      }
    }
  }

  lemma {:induction false} EntryUnderscoreFree(w: World, typ: TypeName, entry: Mask)
    requires EntrySchema(w, typ, entry).Ok?
    ensures Names.UnderscoreFree(EntrySchema(w, typ, entry).value.name)
    ensures TypeUnderscoreFree(EntrySchema(w, typ, entry).value.typ)
    decreases entry, 0
  {
    hide DescriptorFor, Names.Camel, NamesUnderscoreFree;
    Names.CamelHasNoUnderscore(entry.name);
    var f := DescriptorFor(w, typ, entry).value;
    assert ElementTypeOf(w, f, entry.mask).Ok?;
    if IsMessage(f.kind) {
      SchemaUnderscoreFree(w, f.message, entry.mask);
    }
  }

  lemma {:induction false} FittingKeys(x: Tree, schema: Schema)
    requires TreeFits(x, schema) && NamesUnderscoreFree(schema)
    ensures KeysUnderscoreFree(x)
    decreases x, 1
  {
    if x.Obj? {
      forall k | k in x.fields.Keys ensures Names.UnderscoreFree(k) && NodeKeysUnderscoreFree(x.fields[k]) {
        assert NodeAnnounced(k, x.fields[k], schema.fields);
        var i :| 0 <= i < |schema.fields| && schema.fields[i].name == k && NodeFits(x.fields[k], schema.fields[i].typ);
        assert schema.fields[i] in schema.fields;
        if x.fields[k].Shown? {
          FittingContentKeys(x.fields[k].content, schema.fields[i].typ);
        }
      }
    }
  }

  lemma {:induction false} FittingContentKeys(c: Content<Tree>, t: FieldType)
    requires ContentFits(c, t) && TypeUnderscoreFree(t)
    ensures ContentKeysUnderscoreFree(c)
    decreases c, 1
  {
    match c
    case Single(x) => FittingElementKeys(x, t.elem);
    case Items(xs) =>
      forall x | x in xs ensures KeysUnderscoreFree(x) {
        FittingElementKeys(x, t.elem);
      }
    case Object(m) =>
      forall k | k in m.Keys ensures KeysUnderscoreFree(m[k]) {
        FittingElementKeys(m[k], t.elem);
      }
  }

  lemma {:induction false} FittingElementKeys(x: Tree, e: ElementType)
    requires ElementFits(x, e) && (e.MessageOf? ==> NamesUnderscoreFree(e.schema))
    ensures KeysUnderscoreFree(x)
    decreases x, 2
  {
    if e.MessageOf? {
      FittingKeys(x, e.schema);
    }
  }

  /** A response fits its schema exactly if it shows no key with an underscore, at any level. */
  lemma MessageFitsExactly(w: World, fails: Failures, m: Msg, mask: seq<Mask>, meta: Meta)
    requires WorldSound(w) && Conforms(w.types, m, m.typ) && Accepts(w, m.typ, mask)
    ensures TreeFits(TreeMessage(w, fails, m, mask, meta), SchemaOf(w, m.typ, mask).value)
       <==> KeysUnderscoreFree(TreeMessage(w, fails, m, mask, meta))
  {
    hide TreeMessage, SchemaOf, TreeFits, KeysUnderscoreFree, NamesUnderscoreFree, Conforms, WorldSound;
    SchemaUnderscoreFree(w, m.typ, mask);
    if TreeFits(TreeMessage(w, fails, m, mask, meta), SchemaOf(w, m.typ, mask).value) {
      FittingKeys(TreeMessage(w, fails, m, mask, meta), SchemaOf(w, m.typ, mask).value);
    } else if KeysUnderscoreFree(TreeMessage(w, fails, m, mask, meta)) {
      MessageFits(w, fails, m, mask, meta);
    }
  }

  /** So an entry whose name has an underscore breaks the schema as soon as it shows anything. */
  lemma UnderscoreBreaksSchema(w: World, fails: Failures, m: Msg, mask: seq<Mask>, meta: Meta, entry: Mask)
    requires Accepts(w, m.typ, mask) && !m.typ.IsWellKnown()
    requires entry in mask && !Names.UnderscoreFree(entry.name) && TreeEntry(w, fails, m, entry, meta).Some?
    ensures !TreeFits(TreeMessage(w, fails, m, mask, meta), SchemaOf(w, m.typ, mask).value)
  {
    hide TreeEntry, SchemaOf, TreeFits, NamesUnderscoreFree, NodeKeysUnderscoreFree;
    SchemaUnderscoreFree(w, m.typ, mask);
    AcceptedWellFormed(w, m.typ, mask);
    var x := TreeMessage(w, fails, m, mask, meta);
    var i :| 0 <= i < |mask| && mask[i] == entry;
    assert entry.name in MaskNames(mask) && IndexOf(mask, entry.name) == i;
    assert entry.name in x.fields.Keys;
    if TreeFits(x, SchemaOf(w, m.typ, mask).value) {
      FittingKeys(x, SchemaOf(w, m.typ, mask).value);
    }
  }

  // ----- a response that does not fit

  const ROOT := Ordinary("Root")
  const FOO_BAR := Field("foo_bar", "fooBar", Singular, BoolKind, ROOT, Enum(false, map[]), false)
  const UNDERSCORED := Mask("foo_bar", [], None, Unset)

  /** A message type with one field, named foo_bar. */
  function ExampleWorld(): World {
    World(map[ROOT := [FOO_BAR]], map[], (_, _) => true, true, (_, _) => None)
  }

  /** The accepted query for its field foo_bar, by that name, is answered under a key the schema does not announce. */
  lemma UnannouncedExample(meta: Meta)
    ensures var w, m := ExampleWorld(), Msg(ROOT, map[], None);
            && WorldSound(w) && Conforms(w.types, m, ROOT) && Accepts(w, ROOT, [UNDERSCORED])
            && !TreeFits(TreeMessage(w, map[], m, [UNDERSCORED], meta), SchemaOf(w, ROOT, [UNDERSCORED]).value)
  {
    hide Names.Camel, Names.Snake, Names.Lookup;
    var w, m := ExampleWorld(), Msg(ROOT, map[], None);
    FooBarFound();
    assert ElementTypeOf(w, FOO_BAR, []).Ok? && FieldTypeOf(w, FOO_BAR, []).Ok?;
    assert EntrySchema(w, ROOT, UNDERSCORED).Ok?;
    assert EntrySchemas(w, ROOT, [UNDERSCORED], 0) == Ok([]);
    assert EntrySchemas(w, ROOT, [UNDERSCORED], 1).Ok?;
    assert Present(m, FOO_BAR).Some? && TreeEntry(w, map[], m, UNDERSCORED, meta).Some?;
    assert UNDERSCORED.name[3] == '_';
    UnderscoreBreaksSchema(w, map[], m, [UNDERSCORED], meta, UNDERSCORED);
  }

  lemma FooBarFound()
    ensures FieldFor(ExampleWorld().types, ROOT, "foo_bar") == Some(FOO_BAR)
  {
    hide Names.Scan, Names.Snake;
    assert NamesOf([FOO_BAR]) == ["foo_bar"];
    Names.SnakeOfLower("foo_bar");
  }

  // ----- and so does whatever it is refined to

  lemma {:induction false} RefinedFits(x: Tree, y: Tree, schema: Schema)
    requires Refines(x, y) && TreeFits(y, schema)
    ensures TreeFits(x, schema)
    decreases x, 1
  {
    if x.Obj? {
      forall k | k in x.fields ensures NodeAnnounced(k, x.fields[k], schema.fields) {
        assert NodeAnnounced(k, y.fields[k], schema.fields);
        var i :| 0 <= i < |schema.fields| && schema.fields[i].name == k && NodeFits(y.fields[k], schema.fields[i].typ);
        if x.fields[k].Shown? {
          RefinedContentFits(x.fields[k].content, y.fields[k].content, schema.fields[i].typ);
        }
        Announced(k, x.fields[k], schema.fields, i);
      }
    }
  }

  lemma {:induction false} RefinedContentFits(x: Content<Tree>, y: Content<Tree>, t: FieldType)
    requires ContentRefines(x, y) && ContentFits(y, t)
    ensures ContentFits(x, t)
    decreases x, 1
  {
    match x
    case Single(a) => RefinedElementFits(a, y.item, t.elem);
    case Items(xs) =>
      forall i | 0 <= i < |xs| ensures ElementFits(xs[i], t.elem) {
        assert y.items[i] in y.items;
        RefinedElementFits(xs[i], y.items[i], t.elem);
      }
    case Object(m) =>
      forall k | k in m ensures ElementFits(m[k], t.elem) {
        RefinedElementFits(m[k], y.members[k], t.elem);
      }
  }

  lemma {:induction false} RefinedElementFits(x: Tree, y: Tree, e: ElementType)
    requires Refines(x, y) && ElementFits(y, e)
    ensures ElementFits(x, e)
    decreases x, 2
  {
    if e.MessageOf? {
      RefinedFits(x, y, e.schema);
    }
  }

  /** A refined tree has the same keys. */
  lemma {:induction false} RefinedKeys(x: Tree, y: Tree)
    requires Refines(x, y) && KeysUnderscoreFree(x)
    ensures KeysUnderscoreFree(y)
  {
    if y.Obj? {
      forall k | k in y.fields.Keys ensures Names.UnderscoreFree(k) && NodeKeysUnderscoreFree(y.fields[k]) {
        assert k in x.fields.Keys && NodeRefines(x.fields[k], y.fields[k]);
        if y.fields[k].Shown? {
          RefinedContentKeys(x.fields[k].content, y.fields[k].content);
        }
      }
    }
  }

  lemma {:induction false} RefinedContentKeys(x: Content<Tree>, y: Content<Tree>)
    requires ContentRefines(x, y) && ContentKeysUnderscoreFree(x)
    ensures ContentKeysUnderscoreFree(y)
  {
    match x
    case Single(a) => RefinedKeys(a, y.item);
    case Items(xs) =>
      forall i | 0 <= i < |y.items| ensures KeysUnderscoreFree(y.items[i]) {
        assert xs[i] in xs;
        RefinedKeys(xs[i], y.items[i]);
      }
    case Object(m) =>
      forall k | k in y.members.Keys ensures KeysUnderscoreFree(y.members[k]) {
        assert k in m.Keys;
        RefinedKeys(m[k], y.members[k]);
      }
  }

  // ----- names

  function SchemaNames(schema: Schema): set<string> { set field | field in schema.fields :: field.name }

  /** Body keys are the raw mask names, schema names their camel-case forms: every entry of an accepted mask is
      announced under its own key exactly when all entry names are free of underscores. */
  lemma KeysAnnouncedExactly(w: World, typ: TypeName, mask: seq<Mask>)
    requires Accepts(w, typ, mask)
    ensures (forall entry :: entry in mask ==> entry.name in SchemaNames(SchemaOf(w, typ, mask).value))
       <==> (forall entry :: entry in mask ==> Names.UnderscoreFree(entry.name))
  {
    hide EntrySchema;
    if !typ.IsWellKnown() {
      var fields := SchemaOf(w, typ, mask).value.fields;
      forall i | 0 <= i < |mask|
        ensures fields[i].name == Names.Camel(mask[i].name) && Names.UnderscoreFree(fields[i].name)
      {
        EntryName(w, typ, mask, i);
        Names.CamelHasNoUnderscore(mask[i].name);
      }
      forall entry | entry in mask && Names.UnderscoreFree(entry.name)
        ensures entry.name in SchemaNames(SchemaOf(w, typ, mask).value)
      {
        var i :| 0 <= i < |mask| && mask[i] == entry;
        Names.CamelOfUnderscoreFree(entry.name);
        assert fields[i] in fields;
      }
      forall name | name in SchemaNames(SchemaOf(w, typ, mask).value) ensures Names.UnderscoreFree(name) {
        var field :| field in fields && field.name == name;
        var i :| 0 <= i < |fields| && fields[i] == field;
        assert |fields| == |mask|;
      }
    }
  }

  lemma EntryName(w: World, typ: TypeName, mask: seq<Mask>, i: nat)
    requires Accepts(w, typ, mask) && !typ.IsWellKnown() && i < |mask|
    ensures |SchemaOf(w, typ, mask).value.fields| == |mask|
    ensures SchemaOf(w, typ, mask).value.fields[i].name == Names.Camel(mask[i].name)
  {
    hide Names.Camel, FieldFor, FieldTypeOf;
    AcceptedEntries(w, typ, mask, |mask|);
  }

  /** For such masks the announced names are pairwise different. */
  lemma NamesDistinct(w: World, typ: TypeName, mask: seq<Mask>)
    requires Accepts(w, typ, mask) && forall entry :: entry in mask ==> Names.UnderscoreFree(entry.name)
    ensures var fields := SchemaOf(w, typ, mask).value.fields;
            forall i, j :: 0 <= i < j < |fields| ==> fields[i].name != fields[j].name
  {
    hide EntrySchema, EntrySchemas;
    if !typ.IsWellKnown() {
      AcceptedWellFormed(w, typ, mask);
      var fields := SchemaOf(w, typ, mask).value.fields;
      forall i, j | 0 <= i < j < |fields| ensures fields[i].name != fields[j].name {
        EntryName(w, typ, mask, i);
        EntryName(w, typ, mask, j);
        assert mask[i] in mask && mask[j] in mask;
        Names.CamelOfUnderscoreFree(mask[i].name);
        Names.CamelOfUnderscoreFree(mask[j].name);
      }
    }
  }
}
