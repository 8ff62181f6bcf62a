/** What a query's tree shows, entry by entry, and when formatting fails, said of the messages alone: which fields are
    set, what their JSON values read back as, what resolvers answer (format.go:139-418). */
module Shows {
  import Names
  import opened Wrappers
  import opened Protobuf
  import opened Response
  import opened Format
  import opened Meaning
  import opened Conformance
  import opened Scalars

  /** The field a name selects has that camel-case name or, if the name has an underscore, its snake form as declared
      name; a name that selects none is no field's camel-case name, and its snake form is not declared. */
  lemma FieldSelected(types: Types, typ: TypeName, name: string)
    ensures match FieldFor(types, typ, name)
            case Some(f) =>
              && f in FieldsOf(types, typ)
              && if '_' in name then f.name == Names.Snake(name) else Names.Camel(f.name) == name
            case None =>
              forall f :: f in FieldsOf(types, typ) ==> f.name != Names.Snake(name) && Names.Camel(f.name) != name
  {
    hide Names.Camel, Names.Snake;
    var fields := FieldsOf(types, typ);
    var names := NamesOf(fields);
    if '_' in name {
      Names.LookupWithUnderscore(names, name);
    } else {
      Names.LookupAgreesWithScan(names, name);
    }
    if FieldFor(types, typ, name).None? {
      forall f | f in fields ensures f.name != Names.Snake(name) && Names.Camel(f.name) != name {
        var i :| 0 <= i < |fields| && fields[i] == f;
        assert names[i] == f.name;
      }
    }
  }

  // ----- the tree

  /** The object of a message has, for each mask entry, what that entry shows, and nothing else. */
  ghost predicate ShowsMessage(w: World, fails: Failures, m: Msg, mask: seq<Mask>, meta: Meta, x: Tree)
    decreases mask, 2
  {
    if !m.typ.Ordinary? then m.json.Some? ==> x == LeafTree(Library(m.json.value))
    else
      && x.Obj?
      && (forall name :: name in x.fields ==> name in MaskNames(mask))
      && forall entry | entry in mask ::
           ShowsEntry(w, fails, m, entry, meta, if entry.name in x.fields then Some(x.fields[entry.name]) else None)
  }

  /** A set field shows its value. An unset field shows nothing if it has presence, else its zero. A relation shows what
      its resolver answers for this message, under a meta with one more operation, and nothing if that is absent. If its
      resolver failed, a catching entry shows the error and another one nothing. Errors from below show only at a
      catching entry, and come from failed batches. */
  ghost predicate ShowsEntry(w: World, fails: Failures, m: Msg, entry: Mask, meta: Meta, shown: Option<Node>)
    decreases entry, 1
  {
    match FieldFor(w.types, m.typ, entry.name)
    case Some(f) =>
      if f.name in m.fields then
        && shown.Some? && shown.value.Shown?
        && ShowsValue(w, fails, f, m.fields[f.name], entry.mask, meta, shown.value.content)
      else if f.hasPresence then shown.None?
      else shown.Some? && shown.value.Shown? && ShowsUnset(f, shown.value.content)
    case None =>
      var key := GroupKey(entry.params, RelationId(m.typ, entry.name), meta);
      var catches := entry.onError.Catch? || (entry.onError.Unset? && w.fallbackCatch);
      if key in fails then
        shown == if catches then Some(OneOf({Fault(key, ResolverFailed(fails[key]))})) else None
      else if m.typ !in w.relations || entry.name !in w.relations[m.typ] || w.one(key, m).None? then shown.None?
      else
        && shown.Some?
        && var r := w.relations[m.typ][entry.name];
           match shown.value
           case Shown(content) =>
             ShowsValue(w, fails, r.descriptor, w.one(key, m).value, entry.mask,
                        Resolved(meta.operations + [r.rpc], key), content)
           case OneOf(faults) =>
             catches && forall x :: x in faults ==> x.at in fails && x.cause == ResolverFailed(fails[x.at])
  }

  /** A list shows as many items as it has elements, in order; a map one member for each key, by its text. */
  ghost predicate ShowsValue(w: World, fails: Failures, f: Field, v: Val, mask: seq<Mask>, meta: Meta, c: Content<Tree>)
    decreases mask, 4
  {
    match v
    case One(e) => c.Single? && ShowsElement(w, fails, f, e, mask, meta, c.item)
    case Many(es) =>
      && c.Items? && |c.items| == |es|
      && forall i :: 0 <= i < |es| ==> ShowsElement(w, fails, f, es[i], mask, meta, c.items[i])
    case Entries(kvs) =>
      && c.Object?
      && (forall text :: text in c.members ==> exists i :: 0 <= i < |kvs| && text == KeyText(kvs[i].0))
      && forall i :: 0 <= i < |kvs| && (forall j :: i < j < |kvs| ==> KeyText(kvs[j].0) != KeyText(kvs[i].0)) ==>
           && KeyText(kvs[i].0) in c.members
           && ShowsElement(w, fails, f, kvs[i].1, mask, meta, c.members[KeyText(kvs[i].0)])
  }

  ghost predicate ShowsElement(w: World, fails: Failures, f: Field, e: Element, mask: seq<Mask>, meta: Meta, x: Tree)
    decreases mask, 3
  {
    if f.kind in {MessageKind, GroupKind} then e.Nested? ==> ShowsMessage(w, fails, e.msg, mask, meta, x)
    else e.Plain? ==> x.LeafTree? && ReadsBack(f, e.scalar, x.leaf)
  }

  /** What an unset field without presence shows: an empty map or list, or its kind's zero. */
  predicate ShowsUnset(f: Field, c: Content<Tree>) {
    match f.shape
    case MapOf(_) => c == Object(map[])
    case Repeated => c == Items([])
    case Singular => c.Single? && (f.kind !in {MessageKind, GroupKind} ==> c.item.LeafTree? && IsZero(f, c.item.leaf))
  }

  predicate IsZero(f: Field, leaf: Leaf) {
    match f.kind
    case BoolKind => leaf == Bool(false)
    case EnumKind =>
      leaf == if f.enum.isNullValue then Null else if 0 in f.enum.names then Text(f.enum.names[0]) else Number(0.0)
    case Int32Kind | Sint32Kind | Sfixed32Kind | Uint32Kind | Fixed32Kind | FloatKind | DoubleKind =>
      leaf == Number(0.0)
    case Int64Kind | Sint64Kind | Sfixed64Kind | Uint64Kind | Fixed64Kind => leaf == Text("0")
    case StringKind => leaf == Text("")
    case BytesKind => leaf == Base64("")
    case MessageKind | GroupKind | OtherKind => true
  }

  /** What escapes a relation entry are errors of failed batches. */
  lemma {:induction false} EscapesFailed(w: World, fails: Failures, s: Site, meta: Meta)
    ensures forall x :: x in Escapes(w, fails, s, meta) ==> x.at in fails && x.cause == ResolverFailed(fails[x.at])
    decreases EntryDepth(s.entry)
  {
    hide ReachValue;
    var key := KeyOf(s, meta);
    var r := Resolution(w, fails, s, meta);
    if key !in fails && r.Some? {
      forall t | t in ReachValue(w.types, r.value.0, r.value.1, s.entry.mask)
        ensures forall x :: x in Escapes(w, fails, t, w.Next(key)) ==>
                  x.at in fails && x.cause == ResolverFailed(fails[x.at])
      {
        EscapesFailed(w, fails, t, w.Next(key));
      }
    }
  }

  /** What a query means shows exactly this. */
  lemma {:induction false} MessageShows(w: World, fails: Failures, m: Msg, mask: seq<Mask>, meta: Meta)
    requires WellFormed(mask)
    ensures ShowsMessage(w, fails, m, mask, meta, TreeMessage(w, fails, m, mask, meta))
    decreases mask, 2
  {
    hide TreeEntry, ShowsEntry;
    if !m.typ.IsWellKnown() {
      var x := TreeMessage(w, fails, m, mask, meta);
      forall entry | entry in mask
        ensures ShowsEntry(w, fails, m, entry, meta,
                           if entry.name in x.fields then Some(x.fields[entry.name]) else None)
      {
        var i :| 0 <= i < |mask| && mask[i] == entry;
        assert entry.name in MaskNames(mask) && IndexOf(mask, entry.name) == i;
        assert TreeEntry(w, fails, m, entry, meta)
            == if entry.name in x.fields then Some(x.fields[entry.name]) else None;
        EntryShows(w, fails, m, entry, meta);
      }
    }
  }

  lemma {:induction false} EntryShows(w: World, fails: Failures, m: Msg, entry: Mask, meta: Meta)
    requires WellFormed(entry.mask)
    ensures ShowsEntry(w, fails, m, entry, meta, TreeEntry(w, fails, m, entry, meta))
    decreases entry, 1
  {
    hide FieldFor, TreeValue, ShowsValue, WellFormed, Escapes, ScalarLeaf;
    match FieldFor(w.types, m.typ, entry.name)
    case Some(f) =>
      if f.name in m.fields {
        ValueShows(w, fails, f, m.fields[f.name], entry.mask, meta);
      } else if !f.hasPresence {
        UnsetShows(w, fails, f, entry.mask, meta);
      }
    case None => RelationShows(w, fails, m, entry, meta);
  }

  lemma {:induction false} RelationShows(w: World, fails: Failures, m: Msg, entry: Mask, meta: Meta)
    requires WellFormed(entry.mask) && FieldFor(w.types, m.typ, entry.name).None?
    ensures ShowsEntry(w, fails, m, entry, meta, TreeEntry(w, fails, m, entry, meta))
    decreases entry, 0
  {
    hide FieldFor, TreeValue, ShowsValue, WellFormed, EscapesValue;
    var s := Site(m, entry);
    var key, r := KeyOf(s, meta), Resolution(w, fails, s, meta);
    EscapesFailed(w, fails, s, meta);
    if key in fails {
      OwnFault(fails, key);
    } else if r.Some? {
      ValueShows(w, fails, r.value.0, r.value.1, entry.mask, w.Next(key));
    }
  }

  lemma OwnFault(fails: Failures, key: GroupKey)
    requires key in fails
    ensures Latest({FailureFault(fails, key)}) == {FailureFault(fails, key)}
  {
  }

  lemma {:induction false} ValueShows(w: World, fails: Failures, f: Field, v: Val, mask: seq<Mask>, meta: Meta)
    requires WellFormed(mask)
    ensures ShowsValue(w, fails, f, v, mask, meta, TreeValue(w, fails, f, v, mask, meta))
    decreases mask, 4
  {
    hide TreeElement, ShowsElement, WellFormed, KeyText, Zip;
    var es, xs := Elements(v), TreeElements(w, fails, f, Elements(v), mask, meta);
    forall i | 0 <= i < |es| ensures ShowsElement(w, fails, f, es[i], mask, meta, xs[i]) {
      ElementShows(w, fails, f, es[i], mask, meta);
    }
    if v.Entries? {
      LastEntryKept(KeyTexts(v), xs);
    }
  }

  lemma LastEntryKept(keys: seq<string>, xs: seq<Tree>)
    requires |keys| == |xs|
    ensures forall k :: k in Zip(keys, xs) <==> k in keys
    ensures forall i :: 0 <= i < |keys| && (forall j :: i < j < |keys| ==> keys[j] != keys[i]) ==>
              Zip(keys, xs)[keys[i]] == xs[i]
  {
    hide Zip;
    ZipKeys(keys, xs);
    forall i | 0 <= i < |keys| && (forall j :: i < j < |keys| ==> keys[j] != keys[i])
      ensures Zip(keys, xs)[keys[i]] == xs[i]
    {
      ZipLookup(keys, xs, i);
    }
  }

  lemma {:induction false} ElementShows(w: World, fails: Failures, f: Field, e: Element, mask: seq<Mask>, meta: Meta)
    requires WellFormed(mask)
    ensures ShowsElement(w, fails, f, e, mask, meta, TreeElement(w, fails, f, e, mask, meta))
    decreases mask, 3
  {
    hide TreeMessage, ShowsMessage, WellFormed, ScalarLeaf, ReadScalar, DistinctlyNamed, ScalarFits;
    if IsMessage(f.kind) {
      if e.Nested? {
        MessageShows(w, fails, e.msg, mask, meta);
      }
    } else if e.Plain? && ScalarFits(f.kind, e.scalar) && (f.kind.EnumKind? ==> DistinctlyNamed(f.enum)) {
      ScalarRoundTrip(f, e.scalar);
    }
  }

  lemma UnsetShows(w: World, fails: Failures, f: Field, mask: seq<Mask>, meta: Meta)
    ensures ShowsUnset(f, TreeValue(w, fails, f, ZeroOf(f), mask, meta))
  {
    hide TreeMessage;
    if f.shape.Singular? && !IsMessage(f.kind) {
      var e := Element.Plain(ZeroScalar(f.kind));
      assert Elements(ZeroOf(f)) == [e];
      assert TreeElements(w, fails, f, [e], mask, meta) == [TreeElement(w, fails, f, e, mask, meta)];
    }
  }

  // ----- when formatting fails

  /** Somewhere the mask reaches a well-known value without JSON form, a value of an unknown kind, or a map whose keys
      are of no kind that keys can have. */
  ghost predicate FailsWith(types: Types, m: Msg, mask: seq<Mask>, cause: Cause)
    decreases mask, 1
  {
    if !m.typ.Ordinary? then m.json.None? && cause == NotConvertible
    else exists entry :: entry in mask && EntryFailsWith(types, m, entry, cause)
  }

  ghost predicate EntryFailsWith(types: Types, m: Msg, entry: Mask, cause: Cause)
    decreases entry, 0
  {
    match FieldFor(types, m.typ, entry.name)
    case None => false
    case Some(f) =>
      if f.name in m.fields then ValueFailsWith(types, f, m.fields[f.name], entry.mask, cause)
      else !f.hasPresence && f.shape.Singular? && f.kind.OtherKind? && cause == UnknownKind
  }

  ghost predicate ValueFailsWith(types: Types, f: Field, v: Val, mask: seq<Mask>, cause: Cause)
    decreases mask, 3
  {
    match v
    case One(e) => ElementFailsWith(types, f, e, mask, cause)
    case Many(es) => exists e :: e in es && ElementFailsWith(types, f, e, mask, cause)
    case Entries(kvs) =>
      || (kvs != [] && cause == UnknownKeyKind
          && !(f.shape.MapOf? && f.shape.key in {BoolKind, StringKind, Int32Kind, Sint32Kind, Sfixed32Kind, Uint32Kind,
                                                 Fixed32Kind, Int64Kind, Sint64Kind, Sfixed64Kind, Uint64Kind,
                                                 Fixed64Kind}))
      || exists kv :: kv in kvs && ElementFailsWith(types, f, kv.1, mask, cause)
  }

  ghost predicate ElementFailsWith(types: Types, f: Field, e: Element, mask: seq<Mask>, cause: Cause)
    decreases mask, 2
  {
    if f.kind in {MessageKind, GroupKind} then e.Nested? && FailsWith(types, e.msg, mask, cause)
    else f.kind.OtherKind? && cause == UnknownKind
  }

  /** Formatting fails exactly if there is such a place, and then for the cause found at one. */
  lemma {:induction false} FormattingFails(types: Types, m: Msg, mask: seq<Mask>)
    ensures match MessageFault(types, m, mask)
            case Some(cause) => FailsWith(types, m, mask, cause)
            case None => forall cause :: !FailsWith(types, m, mask, cause)
    decreases mask, 1
  {
    hide EntryFault, EntryFailsWith;
    if !m.typ.IsWellKnown() {
      forall i | 0 <= i < |mask|
        ensures match EntryFault(types, m, mask[i])
                case Some(cause) => EntryFailsWith(types, m, mask[i], cause)
                case None => forall cause :: !EntryFailsWith(types, m, mask[i], cause)
      {
        EntryFormattingFails(types, m, mask[i]);
      }
      FirstEntryFault(types, m, mask, |mask|);
    }
  }

  lemma {:induction false} FirstEntryFault(types: Types, m: Msg, mask: seq<Mask>, k: nat)
    requires k <= |mask|
    ensures match EntriesFault(types, m, mask, k)
            case Some(cause) => exists i :: 0 <= i < k && EntryFault(types, m, mask[i]) == Some(cause)
            case None => forall i :: 0 <= i < k ==> EntryFault(types, m, mask[i]).None?
  {
    hide EntryFault;
    if k > 0 {
      FirstEntryFault(types, m, mask, k - 1);
    }
  }

  lemma {:induction false} EntryFormattingFails(types: Types, m: Msg, entry: Mask)
    ensures match EntryFault(types, m, entry)
            case Some(cause) => EntryFailsWith(types, m, entry, cause)
            case None => forall cause :: !EntryFailsWith(types, m, entry, cause)
    decreases entry, 0
  {
    hide FieldFor, ValueFault, ValueFailsWith;
    var f := FieldFor(types, m.typ, entry.name);
    if f.Some? {
      if f.value.name in m.fields {
        ValueFormattingFails(types, f.value, m.fields[f.value.name], entry.mask);
      } else {
        ZeroFails(types, f.value, entry.mask);
      }
    }
  }

  lemma ZeroFails(types: Types, f: Field, mask: seq<Mask>)
    ensures ValueFault(types, f, ZeroOf(f), mask)
         == if f.shape.Singular? && f.kind.OtherKind? then Some(UnknownKind) else None
  {
    var es := Elements(ZeroOf(f));
    assert ElementsFault(types, f, es, 0, mask).None?;
    if f.shape.Singular? {
      assert es == [Element.Plain(ZeroScalar(f.kind))];
      assert ElementsFault(types, f, es, 1, mask) == ElementFault(types, f, es[0], mask);
    }
  }

  lemma {:induction false} ValueFormattingFails(types: Types, f: Field, v: Val, mask: seq<Mask>)
    ensures match ValueFault(types, f, v, mask)
            case Some(cause) => ValueFailsWith(types, f, v, mask, cause)
            case None => forall cause :: !ValueFailsWith(types, f, v, mask, cause)
    decreases mask, 3
  {
    hide ElementFault, ElementFailsWith;
    var es := Elements(v);
    forall e
      ensures match ElementFault(types, f, e, mask)
              case Some(cause) => ElementFailsWith(types, f, e, mask, cause)
              case None => forall cause :: !ElementFailsWith(types, f, e, mask, cause)
    {
      ElementFormattingFails(types, f, e, mask);
    }
    FirstElementFault(types, f, es, |es|, mask);
    if v.Entries? {
      forall i | 0 <= i < |es| ensures v.entries[i] in v.entries && es[i] == v.entries[i].1 {
      }
    }
  }

  lemma {:induction false} FirstElementFault(types: Types, f: Field, es: seq<Element>, k: nat, mask: seq<Mask>)
    requires k <= |es|
    ensures match ElementsFault(types, f, es, k, mask)
            case Some(cause) => exists i :: 0 <= i < k && ElementFault(types, f, es[i], mask) == Some(cause)
            case None => forall i :: 0 <= i < k ==> ElementFault(types, f, es[i], mask).None?
  {
    hide ElementFault;
    if k > 0 {
      FirstElementFault(types, f, es, k - 1, mask);
    }
  }

  lemma {:induction false} ElementFormattingFails(types: Types, f: Field, e: Element, mask: seq<Mask>)
    ensures match ElementFault(types, f, e, mask)
            case Some(cause) => ElementFailsWith(types, f, e, mask, cause)
            case None => forall cause :: !ElementFailsWith(types, f, e, mask, cause)
    decreases mask, 2
  {
    hide MessageFault, FailsWith;
    if IsMessage(f.kind) && e.Nested? {
      FormattingFails(types, e.msg, mask);
    }
  }

  // ----- why a call is aborted

  /** Every fault that aborts has its reason: an error on record for the batch, a relation that is not registered,
      parameters its resolver does not take, or a result that cannot be formatted. */
  lemma {:induction false} AbortsForReason(w: World, fails: Failures, s: Site, meta: Meta, above: bool)
    ensures forall x :: x in Aborts(w, fails, s, meta, above) ==> HasReason(w, fails, x)
    decreases EntryDepth(s.entry)
  {
    hide ReachValue, ValueFault, HasReason;
    var key, r := KeyOf(s, meta), Resolution(w, fails, s, meta);
    OwnReason(w, fails, s, meta);
    if r.Some? {
      var caught := above || w.Catches(s.entry);
      forall t | t in ReachValue(w.types, r.value.0, r.value.1, s.entry.mask)
        ensures forall x :: x in Aborts(w, fails, t, w.Next(key), caught) ==> HasReason(w, fails, x)
      {
        AbortsForReason(w, fails, t, w.Next(key), caught);
      }
    }
  }

  ghost predicate HasReason(w: World, fails: Failures, x: Fault) {
    var id := x.at.relation;
    match x.cause
    case ResolverFailed(e) => x.at in fails && fails[x.at] == e
    case UnknownRelation => id.base !in w.relations || id.name !in w.relations[id.base]
    case ParamsRejected => x.at.params.Some? && !w.acceptsParams(id, x.at.params.value)
    case _ =>
      && id.base in w.relations && id.name in w.relations[id.base]
      && exists m, mask ::
           w.one(x.at, m).Some? &&
           ValueFailsWith(w.types, w.relations[id.base][id.name].descriptor, w.one(x.at, m).value, mask, x.cause)
  }

  lemma OwnReason(w: World, fails: Failures, s: Site, meta: Meta)
    ensures var key, r := KeyOf(s, meta), Resolution(w, fails, s, meta);
            && (w.Rejection(key).Some? ==> HasReason(w, fails, Fault(key, w.Rejection(key).value)))
            && (key in fails ==> HasReason(w, fails, FailureFault(fails, key)))
            && (r.Some? && ValueFault(w.types, r.value.0, r.value.1, s.entry.mask).Some? ==>
                  HasReason(w, fails, Fault(key, ValueFault(w.types, r.value.0, r.value.1, s.entry.mask).value)))
  {
    hide ValueFault, ValueFailsWith;
    var r := Resolution(w, fails, s, meta);
    if r.Some? {
      ValueFormattingFails(w.types, r.value.0, r.value.1, s.entry.mask);
    }
  }
}
