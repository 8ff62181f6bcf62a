/** A validated query on which stitching crashes (stitcher.go:146 against stitcher.go:162): two relation entries
    without parameters share a batch, the first catches errors, the second does not, and the resolver fails. */
module Crashes {
  import Names
  import opened Wrappers
  import opened Protobuf
  import opened Response
  import opened Format
  import opened Meaning
  import opened Entries
  import opened StructHeaps
  import opened Steps
  import opened Grouping
  import opened Stitching
  import opened Schemas
  import Parallelism

  /** The resolver of this batch fails, or returns the wrong number of results. */
  predicate Fails(resolver: Resolver, groups: Groups, key: GroupKey) {
    key in groups && Checked(resolver(key, Targets(groups[key])), |groups[key]|).Err?
  }

  /** The first patch of a failing batch has somewhere to put the error, another has not. */
  predicate Mixed(resolver: Resolver, groups: Groups, key: GroupKey) {
    Fails(resolver, groups, key) && groups[key] != [] && groups[key][0].catcher.Some? && SomeUncaught(groups[key])
  }

  /** How a round can end, from what it ensures: it is only completed if no failing batch has a patch without a catch,
      crashes only on a mixed batch, and stops on a resolver's error only at a batch whose first patch has no catch.
      If every error is caught, nothing but a result that cannot be formatted stops it. */
  lemma FailedRound(w: World, resolver: Resolver, calls: Calls, start: set<Patch>, groups: Groups, waiting: Groups,
                    round: nat, outcome: Outcome)
    requires CalledOnce(resolver, groups, waiting, calls)
    requires outcome.Done? ==> waiting == map[] && ErrorsCaught(groups, calls)
    requires !outcome.Done? ==> Stops(w, calls, start, groups, round, outcome)
    ensures outcome.Done? ==> forall key :: Fails(resolver, groups, key) ==> !SomeUncaught(groups[key])
    ensures outcome.Panicked? ==> Mixed(resolver, groups, outcome.key)
    ensures outcome.Aborted? && Fails(resolver, groups, outcome.fault.at) ==> groups[outcome.fault.at][0].catcher.None?
    ensures (forall key :: Fails(resolver, groups, key) ==> !SomeUncaught(groups[key])) ==>
              outcome.Done? || (outcome.Aborted? && !Fails(resolver, groups, outcome.fault.at))
  {
    hide WillAbort, Used, Checked;
    if outcome.Aborted? && Fails(resolver, groups, outcome.fault.at) {
      assert groups[outcome.fault.at][0] in groups[outcome.fault.at];
    }
  }

  /** Of a batch that is alone in its round the outcome is determined. */
  lemma FailedBatch(w: World, resolver: Resolver, calls: Calls, start: set<Patch>, groups: Groups, waiting: Groups,
                    key: GroupKey,
                    round: nat, outcome: Outcome)
    requires groups.Keys == {key} && groups[key] != [] && Fails(resolver, groups, key)
    requires CalledOnce(resolver, groups, waiting, calls)
    requires outcome.Done? ==> waiting == map[] && ErrorsCaught(groups, calls)
    requires !outcome.Done? ==> Stops(w, calls, start, groups, round, outcome)
    ensures outcome.Done? <==> !SomeUncaught(groups[key])
    ensures outcome.Aborted? <==> groups[key][0].catcher.None?
    ensures outcome.Panicked? <==> Mixed(resolver, groups, key)
    ensures outcome.Panicked? ==> outcome.key == key
  {
    hide CalledOnce, Stops, ErrorsCaught;
    FailedRound(w, resolver, calls, start, groups, waiting, round, outcome);
    StopsInGroups(w, calls, start, groups, round, outcome);
    assert groups[key][0] in groups[key];
  }

  lemma StopsInGroups(w: World, calls: Calls, start: set<Patch>, groups: Groups, round: nat, outcome: Outcome)
    requires !outcome.Done? ==> Stops(w, calls, start, groups, round, outcome)
    ensures outcome.Aborted? ==> outcome.fault.at in groups
    ensures outcome.Panicked? ==> outcome.key in groups
  {
    hide WillAbort, Used;
  }

  const ROOT := Ordinary("Root")
  const PART := Ordinary("Part")
  const NO_ENUM := Enum(false, map[])
  const PART_A := Field("a", "a", Singular, MessageKind, PART, NO_ENUM, true)
  const PART_B := Field("b", "b", Singular, MessageKind, PART, NO_ENUM, true)
  const SCORE := Relation("r", "Parts.GetR", Field("r", "r", Singular, StringKind, PART, NO_ENUM, true), false)
  const CATCHING := Mask("r", [], None, Catch)
  const PLAIN := Mask("r", [], None, Unset)
  const QUERY := [Mask("a", [CATCHING], None, Unset), Mask("b", [PLAIN], None, Unset)]
  const A_PART := Msg(PART, map[], None)
  const A_ROOT := Msg(ROOT, map["a" := One(Nested(A_PART)), "b" := One(Nested(A_PART))], None)
  const META := Entry(0, ["Fetch", "Roots.GetRoot"])
  const KEY := GroupKey(None, RelationId(PART, "r"), META)

  /** A gateway serving Fetch, so that nothing is caught unless a mask says so. */
  function ExampleWorld(): World {
    World(map[ROOT := [PART_A, PART_B], PART := []], map[PART := map["r" := SCORE]],
          (_, _) => true, false, (_, _) => None)
  }

  lemma LetterFound(names: seq<string>, c: char)
    requires Names.IsLower(c) && Names.ByName(names, [c]) >= 0
    ensures Names.Lookup(names, [c]) == Names.ByName(names, [c])
  {
    hide Names.Scan, Names.ByName;
    assert [c][..0] == "" && Names.Snake([c]) == [c];
  }

  lemma Lookups()
    ensures FieldFor(ExampleWorld().types, ROOT, "a") == Some(PART_A)
    ensures FieldFor(ExampleWorld().types, ROOT, "b") == Some(PART_B)
    ensures FieldFor(ExampleWorld().types, PART, "r") == None
  {
    hide Names.Lookup;
    assert NamesOf([PART_A, PART_B]) == ["a", "b"] && NamesOf([]) == [];
    assert ["a", "b"][1..] == ["b"];
    LetterFound(["a", "b"], 'a');
    LetterFound(["a", "b"], 'b');
  }

  lemma PartAccepted(entry: Mask)
    requires entry == CATCHING || entry == PLAIN
    ensures Accepts(ExampleWorld(), PART, [entry])
  {
    hide Names.Camel, FieldFor;
    Lookups();
    var w := ExampleWorld();
    assert w.RelationAt(RelationId(PART, "r")) == Some(SCORE);
    assert ElementTypeOf(w, SCORE.descriptor, []).Ok? && FieldTypeOf(w, SCORE.descriptor, []).Ok?;
    assert EntrySchema(w, PART, entry).Ok?;
    assert EntrySchemas(w, PART, [entry], 0) == Ok([]);
    assert EntrySchemas(w, PART, [entry], 1).Ok?;
  }

  /** The query passes validation. */
  lemma QueryAccepted()
    ensures Accepts(ExampleWorld(), ROOT, QUERY)
  {
    hide Names.Camel, FieldFor, SchemaOf;
    Lookups();
    PartAccepted(CATCHING);
    PartAccepted(PLAIN);
    var w := ExampleWorld();
    assert ElementTypeOf(w, PART_A, [CATCHING]).Ok? && ElementTypeOf(w, PART_B, [PLAIN]).Ok?;
    assert FieldTypeOf(w, PART_A, [CATCHING]).Ok? && FieldTypeOf(w, PART_B, [PLAIN]).Ok?;
    EntriesAccepted();
  }

  lemma EntriesAccepted()
    requires FieldTypeOf(ExampleWorld(), PART_A, [CATCHING]).Ok? && FieldTypeOf(ExampleWorld(), PART_B, [PLAIN]).Ok?
    ensures Accepts(ExampleWorld(), ROOT, QUERY)
  {
    hide Names.Camel, FieldFor, FieldTypeOf;
    Lookups();
    var w := ExampleWorld();
    assert EntrySchema(w, ROOT, QUERY[0]).Ok? && EntrySchema(w, ROOT, QUERY[1]).Ok?;
    assert EntrySchemas(w, ROOT, QUERY, 0) == Ok([]);
    assert EntrySchemas(w, ROOT, QUERY, 1).Ok?;
    assert NamesOfFirst(QUERY, 1) == {"a"} by { assert QUERY[0].name == "a"; }
    assert EntrySchemas(w, ROOT, QUERY, 2).Ok?;
  }

  function ExampleCtx(): Ctx { Ctx(ExampleWorld().types, false, META, None) }

  const FIRST := Patch(A_PART, CATCHING, Slot(1, "r"), META, Some(Slot(1, "r")))
  const SECOND := Patch(A_PART, PLAIN, Slot(2, "r"), META, None)

  lemma PartFormatted(next: nat, f: Field, entry: Mask)
    requires f == PART_A || f == PART_B
    requires entry == CATCHING || entry == PLAIN
    ensures FormattedValue(ExampleCtx(), next, f, One(Nested(A_PART)), [entry])
         == Formatted(Single(Struct(next)), [map[]], [PatchFor(ExampleCtx(), next, A_PART, entry)])
    ensures ValueFault(ExampleCtx().types, f, One(Nested(A_PART)), [entry]) == None
  {
    hide FieldFor;
    Lookups();
    var c, es := ExampleCtx(), Elements(One(Nested(A_PART)));
    assert es == [Nested(A_PART)] && IsMessage(f.kind);
    assert FormattedEntries(c, next, A_PART, [entry], 0) == Formatted(map[], [], []);
    assert FormattedEntries(c, next, A_PART, [entry], 1) == Formatted(map[], [], [PatchFor(c, next, A_PART, entry)]);
    assert FormattedMessage(c, next, A_PART, [entry])
        == Formatted(Struct(next), [map[]], [PatchFor(c, next, A_PART, entry)]);
    assert FormattedElements(c, next, f, es, 0, [entry]) == Formatted([], [], []);
    var r := FormattedElement(c, next, f, es[0], [entry]);
    assert r == FormattedMessage(c, next, A_PART, [entry]);
    assert FormattedElements(c, next, f, es, 1, [entry])
        == AddElement(c, next, f, es[0], [entry], FormattedElements(c, next, f, es, 0, [entry]));
    assert [] + [r.out] == [r.out] && [] + r.structs == r.structs && [] + r.patches == r.patches;
    assert FormattedElements(c, next, f, es, 1, [entry])
        == Formatted([Struct(next)], [map[]], [PatchFor(c, next, A_PART, entry)]);
    assert EntriesFault(c.types, A_PART, [entry], 0) == None;
    assert EntriesFault(c.types, A_PART, [entry], 1) == None;
    assert ElementsFault(c.types, f, es, 0, [entry]) == None && ElementFault(c.types, f, es[0], [entry]) == None;
    assert ElementsFault(c.types, f, es, 1, [entry]) == None;
  }

  /** Formatting the response leaves two patches in one batch; only the first says where errors go. */
  lemma RootFormatted()
    ensures MessageFault(ExampleCtx().types, A_ROOT, QUERY) == None
    ensures FormattedMessage(ExampleCtx(), 0, A_ROOT, QUERY).patches == [FIRST, SECOND]
  {
    hide FieldFor, FormattedValue, ValueFault;
    Lookups();
    PartFormatted(1, PART_A, CATCHING);
    PartFormatted(2, PART_B, PLAIN);
    var c := ExampleCtx();
    assert FormattedEntries(c, 0, A_ROOT, QUERY, 0) == Formatted(map[], [], []);
    assert FormattedEntries(c, 0, A_ROOT, QUERY, 1)
        == Formatted(map["a" := Filled(Single(Struct(1)))], [map[]], [FIRST]);
    assert FormattedEntries(c, 0, A_ROOT, QUERY, 2).patches == [FIRST, SECOND];
    assert EntriesFault(c.types, A_ROOT, QUERY, 0) == None;
    assert EntriesFault(c.types, A_ROOT, QUERY, 1) == None;
    assert EntriesFault(c.types, A_ROOT, QUERY, 2) == None;
  }

  lemma NothingSound(w: World)
    ensures Sound(w, [], {})
  {
  }

  lemma ExampleOpens(st: Store)
    requires st == FormattedMessage(ExampleCtx(), 0, A_ROOT, QUERY).structs
    ensures var flat := [FIRST, SECOND];
            && Sound(ExampleWorld(), st, PatchSet(flat)) && DistinctSlots(flat)
            && forall p :: p in flat ==>
              InRound(ExampleWorld(), p, 0, 2) && ExampleWorld().Rejection(p.Key()).None? && p.Key() == KEY
  {
    hide FormattedMessage, SchemaOf, Sound, Ready;
    var w := ExampleWorld();
    QueryAccepted();
    AcceptedWellFormed(w, ROOT, QUERY);
    RootFormatted();
    NothingSound(w);
    OpeningAdds(w, [], {}, META, QUERY, A_ROOT, None);
    assert OpenedStore(w, [], META, QUERY, A_ROOT, None) == st;
    assert {} + PatchSet([FIRST, SECOND]) == PatchSet([FIRST, SECOND]);
  }

  lemma ExampleGroups(groups: Groups)
    requires IsGrouping([FIRST, SECOND], groups)
    ensures groups == map[KEY := [FIRST, SECOND]]
  {
    var flat := [FIRST, SECOND];
    ExampleSelected();
    assert FIRST in flat;
    forall key | key in groups ensures key == KEY {
      hide Select;
      SelectMembers(flat, key);
      assert groups[key][0] in groups[key];
    }
  }

  lemma ExampleSelected()
    ensures Select([FIRST, SECOND], KEY) == [FIRST, SECOND]
  {
    SelectNone([], KEY);
    hide Select;
    SelectAppend([], FIRST, KEY);
    SelectAppend([FIRST], SECOND, KEY);
    assert [] + [FIRST] == [FIRST] && [FIRST] + [SECOND] == [FIRST, SECOND];
    assert FIRST.Key() == KEY && SECOND.Key() == KEY;
  }

  /** The first round of this query, with its resolver down, crashes. */
  method CrashRound(stitcher: Stitcher, patches: seq<Patch>) returns (outcome: Outcome)
    requires stitcher.w == ExampleWorld() && stitcher.calls == map[] && stitcher.sema.held == 0
    requires forall key, entities :: stitcher.resolver(key, entities) == Err("down")
    requires stitcher.heap.structs == FormattedMessage(ExampleCtx(), 0, A_ROOT, QUERY).structs
    requires patches == [FIRST, SECOND]
    modifies stitcher, stitcher.heap, stitcher.sema
    ensures outcome == Panicked(KEY)
  {
    hide FormattedMessage, Sound, InRound, IsGrouping, Honest, Recorded, KeptSoFar, Stops, CalledOnce, ErrorsCaught;
    hide Flatten, PatchSet, DistinctSlots, Pointwise, Fails, Mixed, SomeUncaught, World.Rejection;
    NoCallsHonest(stitcher.w, stitcher.resolver);
    DownPointwise(stitcher.w, stitcher.resolver);
    ExampleOpens(stitcher.heap.structs);
    OneSet(patches);
    var groups, _ := Group(stitcher.w, [patches]);
    ExampleGroups(groups);
    var queue, waiting;
    outcome, queue, waiting := stitcher.RunRound(groups, patches, 0, 2);
    DownMixed(stitcher.resolver, groups);
    FailedBatch(stitcher.w, stitcher.resolver, stitcher.calls, PatchSet(patches), groups, waiting, KEY, 0, outcome);
  }

  lemma DownPointwise(w: World, resolver: Resolver)
    requires forall key, entities :: resolver(key, entities) == Err("down")
    ensures Pointwise(w, resolver)
  {
  }

  lemma DownMixed(resolver: Resolver, groups: Groups)
    requires forall key, entities :: resolver(key, entities) == Err("down")
    requires groups == map[KEY := [FIRST, SECOND]]
    ensures Fails(resolver, groups, KEY) && Mixed(resolver, groups, KEY)
  {
    assert SECOND in groups[KEY];
  }

  lemma OneSet(patches: seq<Patch>)
    ensures Flatten([patches]) == patches
  {
    assert [patches][..0] == [] && Flatten([patches]) == patches;
  }

  /** Formatting the response and running the first round always end in the crash. */
  method CrashExample() returns (outcome: Outcome)
    ensures outcome == Panicked(KEY)
  {
    hide FormattedMessage, MessageFault;
    var w := ExampleWorld();
    var resolver: Resolver := (key, entities) => Err("down");
    var heap := new StructHeap();
    var sema := new Parallelism.Sema(0);
    var stitcher := new Stitcher(w, resolver, heap, sema);
    RootFormatted();
    var body, patches := heap.FormatMessage(ExampleCtx(), A_ROOT, QUERY);
    assert heap.structs == FormattedMessage(ExampleCtx(), 0, A_ROOT, QUERY).structs;
    outcome := CrashRound(stitcher, patches);
  }
}
