/** Stitching (stitcher.go:42-201): breadth-first rounds, one resolver call for each batch of a round, results
    and errors written into the response in place, in any interleaving of the batches. */
module Stitching {
  import opened Wrappers
  import opened Protobuf
  import opened Response
  import opened Format
  import opened Meaning
  import opened Placement
  import opened Reading
  import opened StructHeaps
  import opened Steps
  import opened Grouping
  import Parallelism

  /** How stitching ends; Panicked is the nil dereference of errPatch in a batch whose first patch has one. */
  datatype Outcome = Done | Aborted(fault: Fault) | Panicked(key: GroupKey)

  type Resolver = (GroupKey, seq<Msg>) -> Result<seq<Option<Val>>, string>

  /** A resolver's answer as stitching takes it: a wrong number of results counts as an error. */
  function Checked(r: Result<seq<Option<Val>>, string>, expected: nat): Result<seq<Option<Val>>, string> {
    if r.Ok? && |r.value| != expected then Err("wrong number of results") else r
  }

  function Targets(batch: seq<Patch>): (entities: seq<Msg>)
    ensures |entities| == |batch| && forall i :: 0 <= i < |batch| ==> entities[i] == batch[i].target
  {
    seq(|batch|, i requires 0 <= i < |batch| => batch[i].target)
  }

  function ErrorOf(answer: Result<seq<Option<Val>>, string>): Option<string> {
    if answer.Err? then Some(answer.error) else None
  }

  /** The resolvers' contract: a successful batch gives each entity the value the relation has for it alone. */
  ghost predicate Pointwise(w: World, resolver: Resolver) {
    forall key, entities :: resolver(key, entities).Ok? && |resolver(key, entities).value| == |entities| ==>
      forall i :: 0 <= i < |entities| ==> resolver(key, entities).value[i] == w.one(key, entities[i])
  }

  /** The resolver calls made so far: the batch, and its error if it failed. */
  type Calls = map<GroupKey, Option<string>>

  /** These are failures that the calls made so far do not contradict. */
  ghost predicate Consistent(fails: Failures, calls: Calls) {
    forall key :: key in calls ==>
      match calls[key]
      case None => key !in fails
      case Some(e) => key in fails && fails[key] == e
  }

  /** However the batches not called yet turn out, stitching has so far kept what it must. */
  ghost predicate KeptSoFar(w: World, calls: Calls, st1: Store, pend1: set<Patch>, st2: Store, pend2: set<Patch>) {
    forall fails :: Consistent(fails, calls) ==>
      Keeps(w, fails, st1, pend1, st2, pend2) && NoneDropped(w, fails, calls.Keys, pend1, pend2)
  }

  lemma KeptReflexive(w: World, calls: Calls, st: Store, pend: set<Patch>)
    ensures KeptSoFar(w, calls, st, pend, st, pend)
  {
    hide VisitsOf;
    forall fails | Consistent(fails, calls)
      ensures Keeps(w, fails, st, pend, st, pend) && NoneDropped(w, fails, calls.Keys, pend, pend)
    {
      KeepsReflexive(w, fails, st, pend);
    }
  }

  lemma KeptTransitive(w: World, calls1: Calls, calls2: Calls, st1: Store, pend1: set<Patch>, st2: Store,
                       pend2: set<Patch>,
                       st3: Store, pend3: set<Patch>)
    requires KeptSoFar(w, calls1, st1, pend1, st2, pend2) && KeptSoFar(w, calls2, st2, pend2, st3, pend3)
    requires forall key :: key in calls1 ==> key in calls2 && calls2[key] == calls1[key]
    ensures KeptSoFar(w, calls2, st1, pend1, st3, pend3)
  {
    hide Keeps, VisitsOf;
    forall fails | Consistent(fails, calls2)
      ensures Keeps(w, fails, st1, pend1, st3, pend3) && NoneDropped(w, fails, calls2.Keys, pend1, pend3)
    {
      assert Consistent(fails, calls1);
      KeepsTransitive(w, fails, st1, pend1, st2, pend2, st3, pend3);
    }
  }

  /** The operations from the inbound request down to this point, with one resolver RPC for each relation. */
  function Chain(w: World, meta: Meta): seq<string> {
    match meta
    case Entry(_, operations) => operations
    case Resolved(_, via) =>
      var r := w.RelationAt(via.relation);
      Chain(w, via.meta) + (if r.Some? then [r.value.rpc] else [])
  }

  /** The entry response everything under this meta comes from. */
  function Root(meta: Meta): (root: Meta)
    ensures root.Entry?
  {
    match meta
    case Entry(_, _) => meta
    case Resolved(_, via) => Root(via.meta)
  }

  /** The resolver RPCs on the way down from the entry response, in order. */
  function Rpcs(w: World, meta: Meta): seq<string> {
    match meta
    case Entry(_, _) => []
    case Resolved(_, via) =>
      var r := w.RelationAt(via.relation);
      Rpcs(w, via.meta) + (if r.Some? then [r.value.rpc] else [])
  }

  lemma {:induction false} ChainFromRoot(w: World, meta: Meta)
    ensures Chain(w, meta) == Root(meta).operations + Rpcs(w, meta)
  {
    if meta.Resolved? {
      ChainFromRoot(w, meta.via.meta);
    }
  }

  /** A patch of this round, not yet beyond the nesting limit, whose meta lists its chain of operations. */
  ghost predicate InRound(w: World, p: Patch, round: nat, limit: nat) {
    RoundOf(p.meta) == round && EntryDepth(p.mask) + round <= limit && p.meta.operations == Chain(w, p.meta)
  }

  lemma NextInRound(w: World, fails: Failures, st: Store, p: Patch, c: Ctx, f: Field, v: Val,
                    r: Formatted<Content<Ref>>,
                    round: nat, limit: nat)
    requires Resolves(w, fails, st, p, c, f, v, r) && WellFormed(p.mask.mask) && InRound(w, p, round, limit)
    ensures forall q :: q in r.patches ==> InRound(w, q, round + 1, limit) && q.slot.addr >= |st|
    ensures DistinctSlots(r.patches)
  {
    hide FormattedValue, ReachValue, Resolution;
    ValuePlaced(c, |st|, f, v, p.mask.mask);
    var sites := ReachValue(w.types, f, v, p.mask.mask);
    MatchingPatches(w, fails, st, p, c, f, v, r);
    forall q | q in r.patches ensures InRound(w, q, round + 1, limit) {
      var i :| 0 <= i < |r.patches| && r.patches[i] == q;
      assert sites[i] in sites;
    }
  }

  /** A batch whose resolver has answered and whose patches before next are done. */
  datatype Job = Job(answer: Result<seq<Option<Val>>, string>, batch: seq<Patch>, next: nat)
  {
    function Rest(): seq<Patch>
      requires next <= |batch|
    {
      batch[next..]
    }
  }

  type Jobs = map<GroupKey, Job>

  ghost predicate IsBatch(batch: seq<Patch>, key: GroupKey) {
    batch != [] && DistinctSlots(batch) && forall p: Patch :: p in batch ==> p.Key() == key
  }

  /** A job's answer is the one on record, and it is what the relation means for each entity. */
  ghost predicate IsJob(w: World, calls: Calls, key: GroupKey, job: Job) {
    && job.next < |job.batch| && IsBatch(job.batch, key) && key in calls
    && calls[key] == (if job.answer.Err? then Some(job.answer.error) else None)
    && (job.answer.Ok? ==>
          |job.answer.value| == |job.batch|
          && forall i :: 0 <= i < |job.batch| ==> job.answer.value[i] == w.one(key, job.batch[i].target))
  }

  ghost predicate IsLeft(waiting: Groups, running: Jobs, p: Patch)
    requires forall key :: key in running ==> running[key].next <= |running[key].batch|
  {
    || (p.Key() in waiting && p in waiting[p.Key()])
    || (p.Key() in running && p in running[p.Key()].Rest())
  }

  ghost function Pending(left: set<Patch>, queue: seq<seq<Patch>>): set<Patch> { left + PatchSet(Flatten(queue)) }

  /** The middle of a round: batches waiting for their goroutine, batches being written, the patches they still
      have to do, and the queue for the next round. */
  ghost predicate RoundState(w: World, st: Store, calls: Calls, round: nat, limit: nat,
                             waiting: Groups, running: Jobs, left: set<Patch>, queue: seq<seq<Patch>>)
  {
    && Sound(w, st, Pending(left, queue)) && DistinctSlots(Flatten(queue))
    && (forall key :: key in waiting ==> key !in running && key !in calls && IsBatch(waiting[key], key))
    && (forall key :: key in running ==> IsJob(w, calls, key, running[key]))
    && (forall p: Patch :: p in left <==> IsLeft(waiting, running, p))
    && (forall p :: p in left ==> InRound(w, p, round, limit) && w.Rejection(p.Key()).None?)
    && (forall p :: p in Flatten(queue) ==> InRound(w, p, round + 1, limit))
    && (forall key :: key in calls ==> RoundOf(key.meta) <= round)
  }

  /** The batch is used by what was pending, whichever way the batches not called yet turn out. */
  ghost predicate Used(w: World, calls: Calls, pend: set<Patch>, key: GroupKey, caught: bool) {
    forall fails :: Consistent(fails, calls) ==> Visit(key, caught) in VisitsOf(w, fails, pend)
  }

  /** A round under way, with everything it has kept and recorded since it began at store st with start pending. */
  ghost predicate Underway(w: World, calls0: Calls, st: Store, start: set<Patch>, now: Store, calls: Calls,
                           round: nat, limit: nat,
                           waiting: Groups, running: Jobs, left: set<Patch>, queue: seq<seq<Patch>>)
  {
    && RoundState(w, now, calls, round, limit, waiting, running, left, queue)
    && KeptSoFar(w, calls, st, start, now, Pending(left, queue))
    && (forall key :: key in running && running[key].answer.Err? ==> Used(w, calls, start, key, true))
    && (forall key :: key in calls0 ==> key in calls && calls[key] == calls0[key])
    && Recorded(calls0, calls, w, start)
  }

  ghost predicate WillAbort(w: World, calls: Calls, pend: set<Patch>, fault: Fault) {
    forall fails :: Consistent(fails, calls) ==> fault in AbortsOf(w, fails, pend)
  }

  /** This fault will abort the call, whichever way the batches not called yet turn out, and none does earlier. */
  ghost predicate AbortsFirst(w: World, calls: Calls, pend: set<Patch>, fault: Fault) {
    forall fails :: Consistent(fails, calls) ==>
      && fault in AbortsOf(w, fails, pend)
      && forall other :: other in AbortsOf(w, fails, pend) ==> fault.Round() <= other.Round()
  }

  /** A batch moves from waiting to running, its call on record. */
  lemma StartedState(w: World, st: Store, calls: Calls, round: nat, limit: nat, waiting: Groups, running: Jobs,
                     left: set<Patch>, queue: seq<seq<Patch>>, key: GroupKey, job: Job)
    requires RoundState(w, st, calls, round, limit, waiting, running, left, queue) && key in waiting
    requires job.batch == waiting[key] && job.next == 0
    requires IsJob(w, calls[key := if job.answer.Err? then Some(job.answer.error) else None], key, job)
    ensures RoundState(w, st, calls[key := if job.answer.Err? then Some(job.answer.error) else None], round, limit,
                       waiting - {key}, running[key := job], left, queue)
  {
    hide Sound;
    var calls2 := calls[key := if job.answer.Err? then Some(job.answer.error) else None];
    var waiting2, running2 := waiting - {key}, running[key := job];
    var p := waiting[key][0];
    assert p in waiting[key] && IsLeft(waiting, running, p);
    forall k | k in running2 ensures IsJob(w, calls2, k, running2[k]) {
      assert k != key ==> IsJob(w, calls, k, running[k]);
    }
    assert job.Rest() == job.batch;
    forall q: Patch ensures q in left <==> IsLeft(waiting2, running2, q) {
      assert q in left <==> IsLeft(waiting, running, q);
    }
  }

  /** Calls are only added, each for a batch that what was pending uses, told the chain of operations to it. */
  ghost predicate Recorded(calls1: Calls, calls2: Calls, w: World, pend: set<Patch>) {
    && (forall key :: key in calls1 ==> key in calls2 && calls2[key] == calls1[key])
    && (forall key :: key in calls2 && key !in calls1 ==>
          && (Used(w, calls2, pend, key, true) || Used(w, calls2, pend, key, false))
          && key.meta.operations == Chain(w, key.meta))
  }

  /** What a resolver call on record stands for: the relation is registered and takes the parameters, and the resolver
      was asked about entities of the relation's type; an error on record is the resolver's own or, no error, means that
      there was one result for each entity. */
  ghost predicate HonestCall(w: World, resolver: Resolver, key: GroupKey, error: Option<string>) {
    && key.relation.base in w.relations && key.relation.name in w.relations[key.relation.base]
    && (key.params.Some? ==> w.acceptsParams(key.relation, key.params.value))
    && exists entities: seq<Msg> :: entities != [] && AskedAbout(resolver, key, entities, error)
  }

  ghost predicate AskedAbout(resolver: Resolver, key: GroupKey, entities: seq<Msg>, error: Option<string>) {
    && (forall m :: m in entities ==> m.typ == key.relation.base)
    && match resolver(key, entities)
       case Err(e) => error == Some(e)
       case Ok(results) => error.None? <==> |results| == |entities|
  }

  ghost predicate Honest(w: World, resolver: Resolver, calls: Calls) {
    forall key :: key in calls ==> HonestCall(w, resolver, key, calls[key])
  }

  lemma HonestStep(w: World, resolver: Resolver, calls: Calls, key: GroupKey, error: Option<string>)
    requires Honest(w, resolver, calls) && HonestCall(w, resolver, key, error)
    ensures Honest(w, resolver, calls[key := error])
  {
    hide HonestCall;
  }

  lemma NoCallsHonest(w: World, resolver: Resolver)
    ensures Honest(w, resolver, map[])
  {
  }

  lemma BatchHonest(w: World, resolver: Resolver, key: GroupKey, batch: seq<Patch>)
    requires IsBatch(batch, key) && w.Rejection(key).None?
    ensures HonestCall(w, resolver, key, ErrorOf(Checked(resolver(key, Targets(batch)), |batch|)))
  {
    var entities := Targets(batch);
    forall m | m in entities ensures m.typ == key.relation.base {
      var i :| 0 <= i < |entities| && entities[i] == m;
      assert batch[i] in batch;
    }
    assert AskedAbout(resolver, key, entities, ErrorOf(Checked(resolver(key, entities), |batch|)));
  }

  lemma NothingRecorded(calls: Calls, w: World, pend: set<Patch>)
    ensures Recorded(calls, calls, w, pend)
  {
  }

  lemma UsedStays(calls1: Calls, calls2: Calls, w: World, pend: set<Patch>)
    requires forall key :: key in calls1 ==> key in calls2 && calls2[key] == calls1[key]
    ensures forall key, caught :: Used(w, calls1, pend, key, caught) ==> Used(w, calls2, pend, key, caught)
  {
    hide VisitsOf;
    forall key, caught | Used(w, calls1, pend, key, caught) ensures Used(w, calls2, pend, key, caught) {
      forall fails | Consistent(fails, calls2) ensures Visit(key, caught) in VisitsOf(w, fails, pend) {
        assert Consistent(fails, calls1);
      }
    }
  }

  lemma RecordedStep(calls0: Calls, calls1: Calls, calls2: Calls, w: World, pend: set<Patch>, key: GroupKey,
                     caught: bool)
    requires Recorded(calls0, calls1, w, pend) && Used(w, calls2, pend, key, caught)
    requires calls2.Keys == calls1.Keys + {key} && forall k :: k in calls1 ==> calls2[k] == calls1[k]
    requires key.meta.operations == Chain(w, key.meta)
    ensures Recorded(calls0, calls2, w, pend)
  {
    hide Used;
    UsedStays(calls1, calls2, w, pend);
  }

  /** What is used by what is pending now was used by what was pending at the start. */
  lemma UsedFromStart(w: World, calls: Calls, st1: Store, pend1: set<Patch>, st2: Store, pend2: set<Patch>,
                      key: GroupKey, caught: bool)
    requires KeptSoFar(w, calls, st1, pend1, st2, pend2) && Used(w, calls, pend2, key, caught)
    ensures Used(w, calls, pend1, key, caught)
  {
  }

  lemma AbortFromStart(w: World, calls: Calls, st1: Store, pend1: set<Patch>, st2: Store, pend2: set<Patch>,
                       fault: Fault)
    requires KeptSoFar(w, calls, st1, pend1, st2, pend2)
    requires WillAbort(w, calls, pend2, fault)
    ensures WillAbort(w, calls, pend1, fault)
  {
  }

  lemma KeptStays(w: World, calls1: Calls, calls2: Calls, st1: Store, pend1: set<Patch>, st2: Store, pend2: set<Patch>)
    requires KeptSoFar(w, calls1, st1, pend1, st2, pend2)
    requires forall key :: key in calls1 ==> key in calls2 && calls2[key] == calls1[key]
    ensures KeptSoFar(w, calls2, st1, pend1, st2, pend2)
  {
    hide Keeps, VisitsOf;
    forall fails | Consistent(fails, calls2)
      ensures Keeps(w, fails, st1, pend1, st2, pend2) && NoneDropped(w, fails, calls2.Keys, pend1, pend2)
    {
      assert Consistent(fails, calls1);
    }
  }

  /** Calls recorded against what was pending in between count against what was pending at the start. */
  lemma RecordedOnwards(calls1: Calls, calls2: Calls, w: World, st1: Store, pend1: set<Patch>, st2: Store,
                        pend2: set<Patch>)
    requires KeptSoFar(w, calls1, st1, pend1, st2, pend2)
    requires Recorded(map[], calls1, w, pend1) && Recorded(calls1, calls2, w, pend2)
    ensures Recorded(map[], calls2, w, pend1)
  {
    hide Used, KeptSoFar;
    KeptStays(w, calls1, calls2, st1, pend1, st2, pend2);
    UsedStays(calls1, calls2, w, pend1);
    forall key | key in calls2 ensures Used(w, calls2, pend1, key, true) || Used(w, calls2, pend1, key, false) {
      if key !in calls1 {
        if Used(w, calls2, pend2, key, true) {
          UsedFromStart(w, calls2, st1, pend1, st2, pend2, key, true);
        } else {
          UsedFromStart(w, calls2, st1, pend1, st2, pend2, key, false);
        }
      }
    }
  }

  /** The failures on record: one way the calls made so far can be continued. */
  ghost function FailuresOf(calls: Calls): (fails: Failures)
    ensures Consistent(fails, calls)
  {
    map key | key in calls && calls[key].Some? :: calls[key].value
  }

  lemma AbortsInRound(w: World, fails: Failures, flat: seq<Patch>, round: nat, limit: nat)
    requires forall p :: p in flat ==> InRound(w, p, round, limit)
    ensures forall x :: x in AbortsOf(w, fails, PatchSet(flat)) ==> round <= x.Round()
  {
    hide Aborts;
    forall x | x in AbortsOf(w, fails, PatchSet(flat)) ensures round <= x.Round() {
      var p :| p in PatchSet(flat) && x in Aborts(w, fails, SiteOf(p), p.meta, p.catcher.Some?);
      AbortsLater(w, fails, SiteOf(p), p.meta, p.catcher.Some?);
    }
  }

  /** A fault of the round under way aborts the call before any other could. */
  lemma AbortsFirstFromStart(w: World, calls: Calls, st1: Store, pend1: set<Patch>, st2: Store, flat: seq<Patch>,
                             fault: Fault,
                             round: nat, limit: nat)
    requires KeptSoFar(w, calls, st1, pend1, st2, PatchSet(flat))
    requires forall p :: p in flat ==> InRound(w, p, round, limit)
    requires fault.Round() == round
    requires WillAbort(w, calls, PatchSet(flat), fault)
    ensures AbortsFirst(w, calls, pend1, fault)
  {
    hide Aborts;
    forall fails | Consistent(fails, calls)
      ensures fault in AbortsOf(w, fails, pend1)
      ensures forall other :: other in AbortsOf(w, fails, pend1) ==> fault.Round() <= other.Round()
    {
      assert AbortsOf(w, fails, pend1) == AbortsOf(w, fails, PatchSet(flat));
      AbortsInRound(w, fails, flat, round, limit);
    }
  }

  /** One more call on record: everything established for the calls before it still holds. */
  lemma CallRecorded(calls0: Calls, calls1: Calls, calls2: Calls, w: World, st1: Store, pend1: set<Patch>, st2: Store,
                     pend2: set<Patch>,
                     key: GroupKey, caught: bool)
    requires KeptSoFar(w, calls1, st1, pend1, st2, pend2) && Recorded(calls0, calls1, w, pend1)
    requires calls2.Keys == calls1.Keys + {key} && forall k :: k in calls1 ==> calls2[k] == calls1[k]
    requires key.meta.operations == Chain(w, key.meta) && Used(w, calls2, pend2, key, caught)
    ensures KeptSoFar(w, calls2, st1, pend1, st2, pend2) && Recorded(calls0, calls2, w, pend1)
    ensures Used(w, calls2, pend1, key, caught)
    ensures forall k, b :: Used(w, calls1, pend1, k, b) ==> Used(w, calls2, pend1, k, b)
  {
    hide KeptSoFar, Recorded, Used;
    KeptStays(w, calls1, calls2, st1, pend1, st2, pend2);
    UsedFromStart(w, calls2, st1, pend1, st2, pend2, key, caught);
    RecordedStep(calls0, calls1, calls2, w, pend1, key, caught);
    UsedStays(calls1, calls2, w, pend1);
  }

  lemma NothingQueued(flat: seq<Patch>, groups: Groups)
    requires IsGrouping(flat, groups) && groups == map[]
    ensures PatchSet(flat) == {}
  {
  }

  lemma KeysRegistered(w: World, flat: seq<Patch>, groups: Groups)
    requires IsGrouping(flat, groups)
    requires forall p: Patch :: p in flat ==> w.RelationAt(p.Key().relation).Some?
    ensures forall key :: key in groups ==> w.RelationAt(key.relation).Some?
  {
    forall key | key in groups ensures w.RelationAt(key.relation).Some? {
      var p := GroupMember(flat, groups, key);
    }
  }

  lemma OneMoreCall(calls: Calls, key: GroupKey, error: Option<string>)
    requires key !in calls
    ensures |calls[key := error]| == |calls| + 1
  {
    assert calls == calls[key := error] - {key};
  }

  ghost function FirstQueued(flat: seq<Patch>, groups: Groups): (p: Patch)
    requires IsGrouping(flat, groups) && groups != map[]
    ensures p in flat
  {
    var key :| key in groups;
    GroupMember(flat, groups, key)
  }

  ghost function GroupMember(flat: seq<Patch>, groups: Groups, key: GroupKey): (p: Patch)
    requires IsGrouping(flat, groups) && key in groups
    ensures p in flat && p.Key() == key
  {
    SelectMembers(flat, key);
    assert groups[key][0] in groups[key];
    groups[key][0]
  }

  lemma MemberOfGroup(flat: seq<Patch>, groups: Groups, key: GroupKey, p: Patch)
    requires IsGrouping(flat, groups) && key in groups && p in groups[key]
    ensures p in flat && p.Key() == key
  {
    SelectMembers(flat, key);
  }

  /** What is in a slot stays there, unless an error takes its place: results only go to empty slots. */
  predicate OnlyErrorsOverwrite(st1: Store, st2: Store) {
    && |st1| <= |st2|
    && forall a, n :: 0 <= a < |st1| && n in st1[a] ==> n in st2[a] && (st2[a][n] == st1[a][n] || st2[a][n].Failed?)
  }

  lemma OverwriteTransitive(st1: Store, st2: Store, st3: Store)
    requires OnlyErrorsOverwrite(st1, st2) && OnlyErrorsOverwrite(st2, st3)
    ensures OnlyErrorsOverwrite(st1, st3)
  {
  }

  lemma NothingOverwritten(st: Store, st2: Store)
    requires st <= st2
    ensures OnlyErrorsOverwrite(st, st2)
  {
  }

  /** Into an empty slot anything can be written, into a filled one only an error. */
  lemma WriteOverwrites(st: Store, st2: Store, slot: Slot, cell: Cell)
    requires st <= st2 && slot.addr < |st| && (cell.Failed? || slot.name !in st[slot.addr])
    ensures OnlyErrorsOverwrite(st, StoreField(st2, slot.addr, slot.name, cell))
  {
  }

  predicate SomeUncaught(batch: seq<Patch>) { exists p :: p in batch && p.catcher.None? }

  /** A batch of the round is called once it has stopped waiting, with the entities of all its patches, in order;
      its error, if any, is the one on record. */
  ghost predicate CalledOnce(resolver: Resolver, groups: Groups, waiting: Groups, calls: Calls) {
    forall key :: key in groups ==>
      if key in waiting then key !in calls
      else key in calls && calls[key] == ErrorOf(Checked(resolver(key, Targets(groups[key])), |groups[key]|))
  }

  /** Some batch of this round was called. */
  ghost predicate CalledIn(calls: Calls, round: int) { exists key :: key in calls && RoundOf(key.meta) == round }

  predicate ErrorsCaught(groups: Groups, calls: Calls) {
    forall key :: key in groups && key in calls && calls[key].Some? ==> !SomeUncaught(groups[key])
  }

  /** Why a round stops short: a fault that will abort the call, or a failed batch whose first patch has somewhere
      to put the error while another has not. */
  ghost predicate Stops(w: World, calls: Calls, start: set<Patch>, groups: Groups, round: nat, outcome: Outcome) {
    match outcome
    case Done => false
    case Aborted(fault) =>
      && fault.Round() == round && WillAbort(w, calls, start, fault)
      && fault.at in groups && groups[fault.at] != [] && fault.at in calls
      && (calls[fault.at].Some? ==> groups[fault.at][0].catcher.None?)
    case Panicked(key) =>
      && RoundOf(key.meta) == round && key in groups && groups[key] != [] && key in calls && calls[key].Some?
      && groups[key][0].catcher.Some? && SomeUncaught(groups[key])
      && Used(w, calls, start, key, true) && Used(w, calls, start, key, false)
      && WillAbort(w, calls, start, Fault(key, ResolverFailed(calls[key].value)))
  }

  /** What is waiting or running are batches of this round; one that goes on with an error has a catcher first. */
  predicate FromGroups(groups: Groups, waiting: Groups, running: Jobs) {
    && (forall key :: key in waiting ==> key in groups && waiting[key] == groups[key])
    && (forall key :: key in running ==>
         && key in groups && running[key].batch == groups[key] && groups[key] != []
         && (running[key].answer.Err? ==> groups[key][0].catcher.Some?))
  }

  class Stitcher {
    const w: World
    const resolver: Resolver
    const heap: StructHeap
    const sema: Parallelism.Sema
    /** The resolver calls of this request. */
    ghost var calls: Calls
    ghost var callCount: nat

    constructor (w: World, resolver: Resolver, heap: StructHeap, sema: Parallelism.Sema)
      ensures this.w == w && this.resolver == resolver && this.heap == heap && this.sema == sema
      ensures calls == map[] && callCount == 0
    {
      this.w, this.resolver, this.heap, this.sema := w, resolver, heap, sema;
      calls, callCount := map[], 0;
    }

    /** Carries out one patch of a batch whose resolver has answered. */
    method ResolvePatch(p: Patch, answer: Result<Option<Val>, string>, ghost pend: set<Patch>, ghost round: nat,
                        ghost limit: nat)
      returns (outcome: Outcome, more: seq<Patch>)
      requires Sound(w, heap.structs, pend) && p in pend && InRound(w, p, round, limit) && w.Rejection(p.Key()).None?
      requires forall q :: q in pend ==> RoundOf(q.meta) >= round
      requires p.Key() in calls && calls[p.Key()] == (if answer.Err? then Some(answer.error) else None)
      requires answer.Ok? ==> answer.value == w.one(p.Key(), p.target)
      modifies heap
      ensures outcome.Done? ==>
                var pend2 := pend - {p} + PatchSet(more);
                && Sound(w, heap.structs, pend2) && KeptSoFar(w, calls, old(heap.structs), pend, heap.structs, pend2)
                && DistinctSlots(more)
                && forall q :: q in more ==> InRound(w, q, round + 1, limit) && q.slot.addr >= |old(heap.structs)|
      ensures outcome.Aborted? ==>
                outcome.fault.Round() == round
                && WillAbort(w, calls, pend, outcome.fault)
      ensures outcome.Panicked? <==> answer.Err? && p.catcher.None?
      ensures outcome.Panicked? ==> outcome.key == p.Key()
      ensures outcome.Aborted? ==> answer.Ok? && outcome.fault.at == p.Key()
      ensures OnlyErrorsOverwrite(old(heap.structs), heap.structs)
    {
      hide OnlyErrorsOverwrite;
      NothingOverwritten(heap.structs, heap.structs);
      more := [];
      assert KeyOf(SiteOf(p), p.meta) == p.Key();
      assert PatchSet([]) == {};
      if answer.Err? {
        if p.catcher.None? {
          return Panicked(p.Key()), [];
        }
        ghost var st := heap.structs;
        heap.Set(p.catcher.value, Failed(Fault(p.Key(), ResolverFailed(answer.error))));
        WriteOverwrites(st, st, p.catcher.value, Failed(Fault(p.Key(), ResolverFailed(answer.error))));
        FaultStepForAll(st, heap.structs, pend, p, answer.error);
        assert pend - {p} + PatchSet([]) == pend - {p};
        return Done, [];
      }
      if answer.value.None? {
        AbsentStepForAll(heap.structs, pend, p);
        assert pend - {p} + PatchSet([]) == pend - {p};
        return Done, [];
      }
      var key := p.Key();
      var c := Ctx(w.types, w.fallbackCatch, w.Next(key), p.catcher);
      var f := w.RelationAt(key.relation).value.descriptor;
      ghost var st := heap.structs;
      var content;
      content, more := heap.FormatValue(c, f, answer.value.value, p.mask.mask);
      if content.Err? {
        NothingOverwritten(st, heap.structs);
        outcome := Aborted(Fault(key, content.error));
        FormatAborts(pend, p, f, answer.value.value, content.error);
        return outcome, [];
      }
      ghost var r := FormattedValue(c, |st|, f, answer.value.value, p.mask.mask);
      assert heap.structs == st + r.structs;
      WriteOverwrites(st, heap.structs, p.slot, Filled(content.value));
      heap.Set(p.slot, Filled(content.value));
      assert heap.structs == AfterValue(st, p, r);
      ValueStepForAll(st, pend, p, c, f, answer.value.value, r, round, limit);
      outcome := Done;
    }

    lemma FaultStepForAll(st: Store, st2: Store, pend: set<Patch>, p: Patch, error: string)
      requires Sound(w, st, pend) && p in pend && p.catcher.Some? && w.Rejection(p.Key()).None?
      requires forall q :: q in pend ==> RoundOf(q.meta) >= RoundOf(p.meta)
      requires p.Key() in calls && calls[p.Key()] == Some(error)
      requires st2
           == StoreField(st, p.catcher.value.addr, p.catcher.value.name, Failed(Fault(p.Key(), ResolverFailed(error))))
      ensures Sound(w, st2, pend - {p}) && KeptSoFar(w, calls, st, pend, st2, pend - {p})
    {
      hide Keeps, VisitsOf;
      FaultStepSound(w, st, pend, p, Fault(p.Key(), ResolverFailed(error)));
      forall fails | Consistent(fails, calls)
        ensures Keeps(w, fails, st, pend, st2, pend - {p}) && NoneDropped(w, fails, calls.Keys, pend, pend - {p})
      {
        FaultStep(w, fails, st, pend, p);
      }
    }

    lemma AbsentStepForAll(st: Store, pend: set<Patch>, p: Patch)
      requires Sound(w, st, pend) && p in pend && w.Rejection(p.Key()).None?
      requires p.Key() in calls && calls[p.Key()] == None && w.one(p.Key(), p.target).None?
      ensures Sound(w, st, pend - {p}) && KeptSoFar(w, calls, st, pend, st, pend - {p})
    {
      hide Keeps, VisitsOf;
      forall fails | Consistent(fails, calls)
        ensures Keeps(w, fails, st, pend, st, pend - {p}) && NoneDropped(w, fails, calls.Keys, pend, pend - {p})
      {
        AbsentStep(w, fails, st, pend, p);
      }
    }

    lemma ValueStepForAll(st: Store, pend: set<Patch>, p: Patch, c: Ctx, f: Field, v: Val, r: Formatted<Content<Ref>>,
                          round: nat, limit: nat)
      requires Sound(w, st, pend) && p in pend && InRound(w, p, round, limit)
      requires p.Key() in calls && calls[p.Key()] == None
      requires forall fails :: p.Key() !in fails ==> Resolves(w, fails, st, p, c, f, v, r)
      ensures Sound(w, AfterValue(st, p, r), pend - {p} + PatchSet(r.patches))
      ensures KeptSoFar(w, calls, st, pend, AfterValue(st, p, r), pend - {p} + PatchSet(r.patches))
      ensures forall q :: q in r.patches ==> InRound(w, q, round + 1, limit) && q.slot.addr >= |st|
      ensures DistinctSlots(r.patches)
    {
      hide Keeps, Resolves, VisitsOf;
      var none: Failures := map[];
      assert Resolves(w, none, st, p, c, f, v, r);
      ValueStepSound(w, none, st, pend, p, c, f, v, r);
      NextInRound(w, none, st, p, c, f, v, r, round, limit);
      forall fails | Consistent(fails, calls)
        ensures Keeps(w, fails, st, pend, AfterValue(st, p, r), pend - {p} + PatchSet(r.patches))
        ensures NoneDropped(w, fails, calls.Keys, pend, pend - {p} + PatchSet(r.patches))
      {
        assert Resolves(w, fails, st, p, c, f, v, r);
        ValueStep(w, fails, st, pend, p, c, f, v, r);
      }
    }

    lemma FormatAborts(pend: set<Patch>, p: Patch, f: Field, v: Val, cause: Cause)
      requires p in pend && w.Rejection(p.Key()).None?
      requires p.Key() in calls && calls[p.Key()] == None && w.one(p.Key(), p.target) == Some(v)
      requires w.RelationAt(p.Key().relation).value.descriptor == f
      requires ValueFault(w.types, f, v, p.mask.mask) == Some(cause)
      ensures WillAbort(w, calls, pend, Fault(p.Key(), cause))
    {
      forall fails | Consistent(fails, calls) ensures Fault(p.Key(), cause) in AbortsOf(w, fails, pend) {
        assert KeyOf(SiteOf(p), p.meta) == p.Key();
        assert Fault(p.Key(), cause) in Aborts(w, fails, SiteOf(p), p.meta, p.catcher.Some?);
      }
    }

    /** A batch's goroutine starts: its resolver is called with the entities of the whole batch, in order. */
    method Start(key: GroupKey, waiting: Groups, running: Jobs,
                 ghost round: nat, ghost limit: nat, ghost left: set<Patch>, ghost queue: seq<seq<Patch>>)
      returns (outcome: Outcome, job: Job)
      requires Pointwise(w, resolver) && key in waiting
      requires RoundState(w, heap.structs, calls, round, limit, waiting, running, left, queue)
      modifies this
      ensures key !in old(calls) && calls == old(calls)[key := if job.answer.Err? then Some(job.answer.error) else None]
      ensures callCount == old(callCount) + 1 && HonestCall(w, resolver, key, calls[key])
      ensures Used(w, calls, Pending(left, queue), key, waiting[key][0].catcher.Some?)
      ensures job.batch == waiting[key] && job.batch != []
      ensures job.answer == Checked(resolver(key, Targets(job.batch)), |job.batch|)
      ensures outcome.Done? <==> (job.answer.Err? ==> waiting[key][0].catcher.Some?)
      ensures outcome.Done? ==>
                RoundState(w, heap.structs, calls, round, limit, waiting - {key}, running[key := job], left, queue)
      ensures !outcome.Done? ==>
                && outcome.Aborted? && outcome.fault.Round() == round && outcome.fault.at == key
                && waiting[key][0].catcher.None?
                && WillAbort(w, calls, Pending(left, queue), outcome.fault)
    {
      hide RoundState, IsJob, IsBatch, Used, WillAbort, Pending, InRound, Pointwise, HonestCall, World.Rejection;
      FirstPending(waiting, running, left, queue, key, round, limit);
      BatchHonest(w, resolver, key, waiting[key]);
      var batch := waiting[key];
      var entities := Targets(batch);
      var answer := Checked(resolver(key, entities), |entities|);
      job := Job(answer, batch, 0);
      ghost var before := calls;
      calls := calls[key := if answer.Err? then Some(answer.error) else None];
      callCount := callCount + 1;
      PendingUsed(Pending(left, queue), batch[0]);
      if answer.Err? && batch[0].catcher.None? {
        outcome := Aborted(Fault(key, ResolverFailed(answer.error)));
        UncaughtAborts(Pending(left, queue), batch[0], answer.error);
        return;
      }
      outcome := Done;
      FreshJob(key, batch, entities, answer);
      StartedState(w, heap.structs, before, round, limit, waiting, running, left, queue, key, job);
    }

    lemma FirstPending(waiting: Groups, running: Jobs, left: set<Patch>, queue: seq<seq<Patch>>, key: GroupKey,
                       round: nat, limit: nat)
      requires RoundState(w, heap.structs, calls, round, limit, waiting, running, left, queue) && key in waiting
      ensures waiting[key] != [] && IsBatch(waiting[key], key) && key !in calls && key !in running
      ensures var p := waiting[key][0];
              && p.Key() == key && p in Pending(left, queue) && w.Rejection(key).None?
              && RoundOf(p.meta) == round && (w.Catches(p.mask) ==> p.catcher.Some?)
              && key.meta.operations == Chain(w, key.meta)
    {
      var p := waiting[key][0];
      assert p in waiting[key] && IsLeft(waiting, running, p);
    }

    lemma FreshJob(key: GroupKey, batch: seq<Patch>, entities: seq<Msg>, answer: Result<seq<Option<Val>>, string>)
      requires Pointwise(w, resolver) && IsBatch(batch, key) && key in calls
      requires entities == Targets(batch)
      requires answer == Checked(resolver(key, entities), |entities|)
      requires calls[key] == (if answer.Err? then Some(answer.error) else None)
      ensures IsJob(w, calls, key, Job(answer, batch, 0))
    {
    }

    lemma PendingUsed(pend: set<Patch>, p: Patch)
      requires p in pend && (w.Catches(p.mask) ==> p.catcher.Some?)
      ensures Used(w, calls, pend, p.Key(), p.catcher.Some?)
    {
      forall fails | Consistent(fails, calls) ensures Visit(p.Key(), p.catcher.Some?) in VisitsOf(w, fails, pend) {
        assert KeyOf(SiteOf(p), p.meta) == p.Key();
        assert Visit(p.Key(), p.catcher.Some?) in Visits(w, fails, SiteOf(p), p.meta, p.catcher.Some?);
      }
    }

    /** A failed batch with nothing to catch its error for one of its patches. */
    lemma UncaughtAborts(pend: set<Patch>, p: Patch, error: string)
      requires p in pend && p.catcher.None? && !w.Catches(p.mask) && w.Rejection(p.Key()).None?
      requires p.Key() in calls && calls[p.Key()] == Some(error)
      ensures WillAbort(w, calls, pend, Fault(p.Key(), ResolverFailed(error)))
    {
      forall fails | Consistent(fails, calls)
        ensures Fault(p.Key(), ResolverFailed(error)) in AbortsOf(w, fails, pend)
      {
        assert KeyOf(SiteOf(p), p.meta) == p.Key();
        assert FailureFault(fails, p.Key()) in Aborts(w, fails, SiteOf(p), p.meta, p.catcher.Some?);
      }
    }

    /** A running batch does its next patch. */
    method Advance(key: GroupKey, running: Jobs, queue: seq<seq<Patch>>,
                   ghost round: nat, ghost limit: nat, ghost waiting: Groups, ghost left: set<Patch>)
      returns (outcome: Outcome, running': Jobs, queue': seq<seq<Patch>>, ghost left': set<Patch>)
      requires key in running && RoundState(w, heap.structs, calls, round, limit, waiting, running, left, queue)
      modifies heap
      ensures outcome.Done? ==>
                && RoundState(w, heap.structs, calls, round, limit, waiting, running', left', queue')
                && KeptSoFar(w, calls, old(heap.structs), Pending(left, queue), heap.structs, Pending(left', queue'))
                && left' < left && running'.Keys <= running.Keys <= running'.Keys + {key}
                && forall k :: k in running' ==>
                  running'[k].answer == running[k].answer && running'[k].batch == running[k].batch
      ensures outcome.Aborted? ==>
                outcome.fault.Round() == round && outcome.fault.at == key && running[key].answer.Ok?
                && WillAbort(w, calls, Pending(left, queue), outcome.fault)
      ensures outcome.Panicked? ==>
                && outcome.key == key && running[key].answer.Err? && key in calls && calls[key].Some?
                && (exists p :: p in running[key].batch && p.catcher.None?)
                  && Used(w, calls, Pending(left, queue), key, false)
                && WillAbort(w, calls, Pending(left, queue), Fault(key, ResolverFailed(calls[key].value)))
      ensures OnlyErrorsOverwrite(old(heap.structs), heap.structs)
    {
      hide RoundState, IsJob, IsBatch, Used, WillAbort, Pending, InRound, KeptSoFar, OnlyErrorsOverwrite;
      NextPending(waiting, running, left, queue, key, round, limit);
      var job := running[key];
      var p := job.batch[job.next];
      ghost var st, pend := heap.structs, Pending(left, queue);
      var more;
      outcome, more := ResolvePatch(
        p, if job.answer.Err? then Err(job.answer.error) else Ok(job.answer.value[job.next]), pend, round, limit);
      running', queue', left' := running, queue, left - {p};
      if !outcome.Done? {
        if outcome.Panicked? {
          PendingUsed(pend, p);
          UncaughtAborts(pend, p, job.answer.error);
        }
        return;
      }
      if |more| > 0 {
        queue' := queue + [more];
      }
      running' := if job.next + 1 == |job.batch| then running - {key} else running[key := job.(next := job.next + 1)];
      AdvancedState(w, st, heap.structs, calls, round, limit, waiting, running, left, queue, key, more);
    }

    /** One round: every batch's goroutine calls its resolver and writes its patches, interleaved in any order. */
    method RunRound(groups: Groups, ghost flat: seq<Patch>, ghost round: nat, ghost limit: nat)
      returns (outcome: Outcome, queue: seq<seq<Patch>>, waiting: Groups)
      requires Pointwise(w, resolver) && IsGrouping(flat, groups) && DistinctSlots(flat)
      requires Sound(w, heap.structs, PatchSet(flat))
      requires forall p :: p in flat ==> InRound(w, p, round, limit) && w.Rejection(p.Key()).None?
      requires forall key :: key in calls ==> RoundOf(key.meta) < round
      requires sema.held == 0 && Honest(w, resolver, calls)
      modifies this, heap, sema
      ensures sema.Bounded() && (!outcome.Panicked? ==> sema.held == 0)
      ensures Honest(w, resolver, calls)
      ensures forall key :: key in old(calls) ==> key in calls && calls[key] == old(calls)[key]
      ensures Recorded(old(calls), calls, w, PatchSet(flat)) && callCount - |calls| == old(callCount - |calls|)
      ensures outcome.Done? ==>
                && Sound(w, heap.structs, PatchSet(Flatten(queue))) && DistinctSlots(Flatten(queue))
                && KeptSoFar(w, calls, old(heap.structs), PatchSet(flat), heap.structs, PatchSet(Flatten(queue)))
                && (forall p :: p in Flatten(queue) ==> InRound(w, p, round + 1, limit))
                && (forall key :: key in calls ==> RoundOf(key.meta) < round + 1)
                && ErrorsCaught(groups, calls)
      ensures !outcome.Done? ==> Stops(w, calls, PatchSet(flat), groups, round, outcome)
      ensures CalledOnce(resolver, groups, waiting, calls) && (outcome.Done? ==> waiting == map[])
      ensures OnlyErrorsOverwrite(old(heap.structs), heap.structs)
    {
      hide OnlyErrorsOverwrite, RoundState, Sound, KeptSoFar, Used, WillAbort, Recorded, Pending, InRound;
      hide Pointwise, IsGrouping, DistinctSlots, Underway, FromGroups, Stops, ErrorsCaught, CalledOnce, Honest;
      var running: Jobs := map[];
      queue, waiting := [], groups;
      ghost var left, st, start := PatchSet(flat), heap.structs, PatchSet(flat);
      RoundBegins(flat, groups, round, limit);
      UnderwayAtFirst(groups, left, round, limit);
      AllFromGroups(groups);
      NothingOverwritten(st, st);
      while waiting != map[] || running != map[]
        invariant Underway(w, old(calls), st, start, heap.structs, calls, round, limit, waiting, running, left, queue)
        invariant callCount - |calls| == old(callCount - |calls|)
        invariant FromGroups(groups, waiting, running) && CalledOnce(resolver, groups, waiting, calls)
        invariant OnlyErrorsOverwrite(st, heap.structs)
        invariant sema.held == |running| && sema.Bounded() && Honest(w, resolver, calls)
        decreases waiting.Keys, left
      {
        ghost var before := heap.structs;
        if {
          case waiting != map[] && sema.Free() =>
            outcome, waiting, running := StartNext(waiting, running, groups, old(calls), st, start, round, limit,
                                                   left, queue);
          case running != map[] =>
            outcome, running, queue, left := AdvanceNext(running, queue, groups, old(calls), st, start, round, limit,
                                                         waiting, left);
            OverwriteTransitive(st, before, heap.structs);
        }
        if !outcome.Done? {
          UnderwayStopped(old(calls), start);
          if !outcome.Panicked? {
            sema.AwaitOthers();
          }
          return;
        }
      }
      UnderwayState(old(calls), st, start, round, limit, waiting, running, left, queue);
      RoundEnds(waiting, running, left, queue, round, limit);
      FailuresCaught(st, flat, queue, groups, round, limit);
      outcome := Done;
    }

    /** Some waiting batch starts. */
    method StartNext(waiting: Groups, running: Jobs, ghost groups: Groups, ghost calls0: Calls, ghost st: Store,
                     ghost start: set<Patch>,
                     ghost round: nat, ghost limit: nat, ghost left: set<Patch>, ghost queue: seq<seq<Patch>>)
      returns (outcome: Outcome, waiting': Groups, running': Jobs)
      requires Pointwise(w, resolver) && waiting != map[] && FromGroups(groups, waiting, running)
      requires CalledOnce(resolver, groups, waiting, calls) && Honest(w, resolver, calls)
      requires Underway(w, calls0, st, start, heap.structs, calls, round, limit, waiting, running, left, queue)
      requires sema.held == |running| && sema.Free()
      modifies this, sema
      ensures sema.Bounded() && (outcome.Done? ==> sema.held == |running'|)
      ensures callCount - |calls| == old(callCount - |calls|) && Recorded(calls0, calls, w, start)
      ensures Honest(w, resolver, calls)
      ensures CalledOnce(resolver, groups, waiting', calls) && waiting'.Keys < waiting.Keys
      ensures outcome.Done? ==>
                && Underway(w, calls0, st, start, heap.structs, calls, round, limit, waiting', running', left, queue)
                && FromGroups(groups, waiting', running')
      ensures !outcome.Done? ==> Stops(w, calls, start, groups, round, outcome)
    {
      hide RoundState, KeptSoFar, Used, WillAbort, Recorded, IsBatch, Pending, InRound, Pointwise, Underway;
      hide FromGroups, Stops, CalledOnce, Checked, Honest, HonestCall;
      ghost var before := calls;
      var key :| key in waiting;
      UnderwayState(calls0, st, start, round, limit, waiting, running, left, queue);
      FirstPending(waiting, running, left, queue, key, round, limit);
      sema.Acquire();
      var job;
      outcome, job := Start(key, waiting, running, round, limit, left, queue);
      OneMoreCall(before, key, calls[key]);
      HonestStep(w, resolver, before, key, calls[key]);
      UnderwayStarted(calls0, before, st, start, round, limit, waiting, running, left, queue, key, job, outcome);
      StartedFromGroups(groups, waiting, running, key, job, start, round, outcome);
      StartedCalled(groups, waiting, running, before, key, job);
      waiting', running' := waiting - {key}, running[key := job];
      OneMoreJob(waiting, running, key, job);
      if !outcome.Done? {
        sema.Release();
      }
    }

    /** Some running batch does its next patch. */
    method AdvanceNext(running: Jobs, queue: seq<seq<Patch>>, ghost groups: Groups, ghost calls0: Calls,
                       ghost st: Store, ghost start: set<Patch>,
                       ghost round: nat, ghost limit: nat, ghost waiting: Groups, ghost left: set<Patch>)
      returns (outcome: Outcome, running': Jobs, queue': seq<seq<Patch>>, ghost left': set<Patch>)
      requires running != map[] && FromGroups(groups, waiting, running)
      requires Underway(w, calls0, st, start, heap.structs, calls, round, limit, waiting, running, left, queue)
      requires sema.held == |running| && sema.Bounded()
      modifies heap, sema
      ensures sema.Bounded() && (outcome.Done? ==> sema.held == |running'|)
      ensures Recorded(calls0, calls, w, start)
      ensures outcome.Done? ==>
                && Underway(w, calls0, st, start, heap.structs, calls, round, limit, waiting, running', left', queue')
                && FromGroups(groups, waiting, running') && left' < left
      ensures !outcome.Done? ==> Stops(w, calls, start, groups, round, outcome)
      ensures OnlyErrorsOverwrite(old(heap.structs), heap.structs)
    {
      hide OnlyErrorsOverwrite, RoundState, KeptSoFar, Used, WillAbort, Recorded, IsBatch, Pending, InRound;
      hide Underway, FromGroups, Stops;
      var key :| key in running;
      UnderwayState(calls0, st, start, round, limit, waiting, running, left, queue);
      NextPending(waiting, running, left, queue, key, round, limit);
      ghost var st1, pend := heap.structs, Pending(left, queue);
      outcome, running', queue', left' := Advance(key, running, queue, round, limit, waiting, left);
      UnderwayAdvanced(calls0, st, start, st1, pend, round, limit, waiting, running, running', left', queue', key,
                       outcome);
      AdvancedFromGroups(groups, waiting, running, running', key, start, round, outcome);
      SameButOne(running, running', key);
      if !outcome.Done? || key !in running' {
        sema.Release();
      }
    }

    lemma OneMoreJob(waiting: Groups, running: Jobs, key: GroupKey, job: Job)
      requires key in waiting && key !in running
      ensures |running[key := job]| == |running| + 1 && (waiting - {key}).Keys < waiting.Keys
    {
      assert running[key := job] - {key} == running && key !in waiting - {key};
    }

    lemma SameButOne(running: Jobs, running': Jobs, key: GroupKey)
      requires key in running
      ensures |running| > 0
      ensures running'.Keys <= running.Keys <= running'.Keys + {key} ==>
                |running'| == if key in running' then |running| else |running| - 1
    {
      if running'.Keys <= running.Keys <= running'.Keys + {key} {
        assert running.Keys == if key in running' then running'.Keys else running'.Keys + {key};
      }
      assert |running| == |running.Keys| && |running'| == |running'.Keys|;
    }

    lemma AllFromGroups(groups: Groups)
      ensures FromGroups(groups, groups, map[])
    {
    }

    lemma StartedFromGroups(groups: Groups, waiting: Groups, running: Jobs, key: GroupKey, job: Job, start: set<Patch>,
                            round: nat, outcome: Outcome)
      requires FromGroups(groups, waiting, running) && key in waiting && job.batch == waiting[key] && job.batch != []
      requires outcome.Done? ==> (job.answer.Err? ==> waiting[key][0].catcher.Some?)
      requires !outcome.Done? ==>
                 && outcome.Aborted? && outcome.fault.Round() == round && outcome.fault.at == key
                 && waiting[key][0].catcher.None?
                 && WillAbort(w, calls, start, outcome.fault) && key in calls
      ensures outcome.Done? ==> FromGroups(groups, waiting - {key}, running[key := job])
      ensures !outcome.Done? ==> Stops(w, calls, start, groups, round, outcome)
    {
      hide WillAbort;
    }

    lemma StartedCalled(groups: Groups, waiting: Groups, running: Jobs, before: Calls, key: GroupKey, job: Job)
      requires FromGroups(groups, waiting, running) && CalledOnce(resolver, groups, waiting, before)
      requires key in waiting && job.batch == waiting[key]
      requires job.answer == Checked(resolver(key, Targets(job.batch)), |job.batch|)
      requires calls == before[key := if job.answer.Err? then Some(job.answer.error) else None]
      ensures CalledOnce(resolver, groups, waiting - {key}, calls)
    {
      hide Checked;
    }

    lemma AdvancedFromGroups(groups: Groups, waiting: Groups, running: Jobs, running': Jobs, key: GroupKey,
                             start: set<Patch>, round: nat,
                             outcome: Outcome)
      requires FromGroups(groups, waiting, running) && key in running
      requires outcome.Done? ==>
                 running'.Keys <= running.Keys
                 && forall k :: k in running' ==>
                   running'[k].answer == running[k].answer && running'[k].batch == running[k].batch
      requires outcome.Aborted? ==>
                 && outcome.fault.Round() == round && outcome.fault.at == key && key in calls && calls[key].None?
                 && WillAbort(w, calls, start, outcome.fault)
      requires outcome.Panicked? ==>
                 && outcome.key == key && RoundOf(key.meta) == round && running[key].answer.Err? && key in calls
                 && calls[key].Some?
                 && SomeUncaught(running[key].batch)
                 && Used(w, calls, start, key, true) && Used(w, calls, start, key, false)
                 && WillAbort(w, calls, start, Fault(key, ResolverFailed(calls[key].value)))
      ensures outcome.Done? ==> FromGroups(groups, waiting, running')
      ensures !outcome.Done? ==> Stops(w, calls, start, groups, round, outcome)
    {
      hide WillAbort, Used, SomeUncaught;
    }

    lemma UnderwayStopped(calls0: Calls, start: set<Patch>)
      requires Recorded(calls0, calls, w, start)
      ensures forall key :: key in calls0 ==> key in calls && calls[key] == calls0[key]
    {
    }

    /** A round that is completed had every error of its failed batches caught. */
    lemma FailuresCaught(st: Store, flat: seq<Patch>, queue: seq<seq<Patch>>, groups: Groups, round: nat, limit: nat)
      requires IsGrouping(flat, groups) && Sound(w, st, PatchSet(flat))
      requires KeptSoFar(w, calls, st, PatchSet(flat), heap.structs, PatchSet(Flatten(queue)))
      requires forall p :: p in flat ==> InRound(w, p, round, limit) && w.Rejection(p.Key()).None?
      requires forall p :: p in Flatten(queue) ==> InRound(w, p, round + 1, limit)
      ensures ErrorsCaught(groups, calls)
    {
      hide AbortsOf, IsGrouping, Sound, InRound, Refined, VisitsOf;
      var fails := FailuresOf(calls);
      assert Keeps(w, fails, st, PatchSet(flat), heap.structs, PatchSet(Flatten(queue)));
      AbortsInRound(w, fails, Flatten(queue), round + 1, limit);
      forall key | key in groups && key in calls && calls[key].Some? ensures !SomeUncaught(groups[key]) {
        forall p | p in groups[key] ensures p.catcher.Some? {
          MemberOfGroup(flat, groups, key, p);
          if p.catcher.None? {
            UncaughtFault(st, flat, p, round, limit);
          }
        }
      }
    }

    lemma UncaughtFault(st: Store, flat: seq<Patch>, p: Patch, round: nat, limit: nat)
      requires Sound(w, st, PatchSet(flat)) && p in flat && p.catcher.None?
      requires InRound(w, p, round, limit) && w.Rejection(p.Key()).None?
      requires p.Key() in calls && calls[p.Key()].Some?
      ensures Fault(p.Key(), ResolverFailed(calls[p.Key()].value)) in AbortsOf(w, FailuresOf(calls), PatchSet(flat))
      ensures RoundOf(p.Key().meta) == round
    {
      hide AbortsOf;
      assert p in PatchSet(flat);
      UncaughtAborts(PatchSet(flat), p, calls[p.Key()].value);
      assert Consistent(FailuresOf(calls), calls);
    }

    lemma UnderwayAtFirst(waiting: Groups, left: set<Patch>, round: nat, limit: nat)
      requires RoundState(w, heap.structs, calls, round, limit, waiting, map[], left, [])
      ensures Underway(w, calls, heap.structs, left, heap.structs, calls, round, limit, waiting, map[], left, [])
    {
      hide RoundState, KeptSoFar, Recorded;
      NothingQueuedYet(left);
      KeptReflexive(w, calls, heap.structs, left);
      NothingRecorded(calls, w, left);
    }

    lemma UnderwayState(calls0: Calls, st: Store, start: set<Patch>, round: nat, limit: nat,
                        waiting: Groups, running: Jobs, left: set<Patch>, queue: seq<seq<Patch>>)
      requires Underway(w, calls0, st, start, heap.structs, calls, round, limit, waiting, running, left, queue)
      ensures RoundState(w, heap.structs, calls, round, limit, waiting, running, left, queue)
      ensures KeptSoFar(w, calls, st, start, heap.structs, Pending(left, queue)) && Recorded(calls0, calls, w, start)
      ensures forall key :: key in running && running[key].answer.Err? ==> Used(w, calls, start, key, true)
      ensures forall key :: key in calls0 ==> key in calls && calls[key] == calls0[key]
    {
    }

    lemma UnderwayStarted(calls0: Calls, before: Calls, st: Store, start: set<Patch>, round: nat, limit: nat,
                          waiting: Groups, running: Jobs, left: set<Patch>, queue: seq<seq<Patch>>, key: GroupKey,
                          job: Job, outcome: Outcome)
      requires Underway(w, calls0, st, start, heap.structs, before, round, limit, waiting, running, left, queue)
      requires key in waiting && waiting[key] != [] && key !in running && key !in before
      requires key.meta.operations == Chain(w, key.meta)
      requires calls == before[key := if job.answer.Err? then Some(job.answer.error) else None]
      requires Used(w, calls, Pending(left, queue), key, waiting[key][0].catcher.Some?)
      requires outcome.Done? ==>
                 && RoundState(w, heap.structs, calls, round, limit, waiting - {key}, running[key := job], left, queue)
                 && (job.answer.Err? ==> waiting[key][0].catcher.Some?)
      requires !outcome.Done? ==> outcome.Aborted? && WillAbort(w, calls, Pending(left, queue), outcome.fault)
      ensures outcome.Done? ==>
                Underway(w, calls0, st, start, heap.structs, calls, round, limit, waiting - {key}, running[key := job],
                         left, queue)
      ensures !outcome.Done? ==> WillAbort(w, calls, start, outcome.fault)
      ensures Recorded(calls0, calls, w, start) && forall k :: k in calls0 ==> k in calls && calls[k] == calls0[k]
    {
      hide RoundState, KeptSoFar, Recorded, Used, WillAbort, Pending;
      var pend := Pending(left, queue);
      CallRecorded(calls0, before, calls, w, st, start, heap.structs, pend, key, waiting[key][0].catcher.Some?);
      if !outcome.Done? {
        AbortFromStart(w, calls, st, start, heap.structs, pend, outcome.fault);
      }
    }

    lemma UnderwayAdvanced(calls0: Calls, st: Store, start: set<Patch>, st1: Store, pend: set<Patch>, round: nat,
                           limit: nat,
                           waiting: Groups, jobs: Jobs, running: Jobs, left: set<Patch>, queue: seq<seq<Patch>>,
                           key: GroupKey, outcome: Outcome)
      requires KeptSoFar(w, calls, st, start, st1, pend) && Recorded(calls0, calls, w, start)
      requires forall k :: k in calls0 ==> k in calls && calls[k] == calls0[k]
      requires forall k :: k in jobs && jobs[k].answer.Err? ==> Used(w, calls, start, k, true)
      requires outcome.Done? ==>
                 && RoundState(w, heap.structs, calls, round, limit, waiting, running, left, queue)
                 && KeptSoFar(w, calls, st1, pend, heap.structs, Pending(left, queue))
                 && running.Keys <= jobs.Keys && forall k :: k in running ==> running[k].answer == jobs[k].answer
      requires outcome.Aborted? ==> WillAbort(w, calls, pend, outcome.fault)
      requires outcome.Panicked? ==>
                 && outcome.key in calls && calls[outcome.key].Some?
                 && Used(w, calls, pend, outcome.key, false)
                 && WillAbort(w, calls, pend, Fault(outcome.key, ResolverFailed(calls[outcome.key].value)))
      ensures outcome.Done? ==>
                Underway(w, calls0, st, start, heap.structs, calls, round, limit, waiting, running, left, queue)
      ensures outcome.Aborted? ==> WillAbort(w, calls, start, outcome.fault)
      ensures outcome.Panicked? ==>
                && Used(w, calls, start, outcome.key, false)
                && WillAbort(w, calls, start, Fault(outcome.key, ResolverFailed(calls[outcome.key].value)))
    {
      hide RoundState, KeptSoFar, Recorded, Used, WillAbort, Pending;
      match outcome
      case Done => KeptTransitive(w, calls, calls, st, start, st1, pend, heap.structs, Pending(left, queue));
      case Aborted(fault) => AbortFromStart(w, calls, st, start, st1, pend, fault);
      case Panicked(k) =>
        UsedFromStart(w, calls, st, start, st1, pend, k, false);
        AbortFromStart(w, calls, st, start, st1, pend, Fault(k, ResolverFailed(calls[k].value)));
    }

    /** Stitches until no patches are left. The rounds are counted for the record. */
    method Stitch(patches: seq<seq<Patch>>, ghost limit: nat) returns (outcome: Outcome, ghost rounds: nat)
      requires Pointwise(w, resolver) && calls == map[] && callCount == 0
      requires Sound(w, heap.structs, PatchSet(Flatten(patches))) && DistinctSlots(Flatten(patches))
      requires forall p :: p in Flatten(patches) ==> InRound(w, p, 0, limit)
      requires sema.held == 0
      modifies this, heap, sema
      ensures sema.Bounded() && (!outcome.Panicked? ==> sema.held == 0)
      ensures outcome.Done? ==> KeptSoFar(w, calls, old(heap.structs), PatchSet(Flatten(patches)), heap.structs, {})
      ensures outcome.Aborted? ==> AbortsFirst(w, calls, PatchSet(Flatten(patches)), outcome.fault)
      ensures outcome.Panicked? ==>
                var pend, key := PatchSet(Flatten(patches)), outcome.key;
                && Used(w, calls, pend, key, true) && Used(w, calls, pend, key, false) && key in calls
                && calls[key].Some?
                && AbortsFirst(w, calls, pend, Fault(key, ResolverFailed(calls[key].value)))
      ensures Recorded(map[], calls, w, PatchSet(Flatten(patches))) && callCount == |calls| && rounds <= limit
      ensures Honest(w, resolver, calls)
      ensures outcome.Done? && rounds > 0 ==> CalledIn(calls, rounds - 1)
      ensures OnlyErrorsOverwrite(old(heap.structs), heap.structs)
    {
      hide OnlyErrorsOverwrite, Sound, KeptSoFar, Recorded, AbortsFirst, Used, WillAbort, Pointwise, CalledIn;
      hide InRound, DistinctSlots, Flatten, PatchSet, Honest;
      NothingLeft();
      NoCallsHonest(w, resolver);
      rounds := 0;
      var queue := patches;
      ghost var st, start := heap.structs, PatchSet(Flatten(patches));
      KeptReflexive(w, calls, st, start);
      NothingRecorded(calls, w, start);
      NothingOverwritten(st, st);
      while |queue| > 0
        invariant Sound(w, heap.structs, PatchSet(Flatten(queue))) && DistinctSlots(Flatten(queue))
        invariant KeptSoFar(w, calls, st, start, heap.structs, PatchSet(Flatten(queue)))
        invariant forall p :: p in Flatten(queue) ==> InRound(w, p, rounds, limit)
        invariant forall key :: key in calls ==> RoundOf(key.meta) < rounds
        invariant Recorded(map[], calls, w, start) && callCount == |calls| && rounds <= limit
        invariant rounds > 0 ==> CalledIn(calls, rounds - 1)
        invariant OnlyErrorsOverwrite(st, heap.structs) && sema.held == 0 && Honest(w, resolver, calls)
        decreases limit - rounds, |queue|
      {
        ghost var before := heap.structs;
        outcome, queue, rounds := NextRound(queue, st, start, rounds, limit);
        OverwriteTransitive(st, before, heap.structs);
        if !outcome.Done? {
          return;
        }
      }
      outcome := Done;
    }

    lemma NothingLeft()
      ensures Flatten([]) == [] && PatchSet([]) == {} && DistinctSlots([])
    {
    }

    /** One pass of the loop: grouping, the checks that can refuse the whole call, and the round itself. */
    method NextRound(patches: seq<seq<Patch>>, ghost st: Store, ghost start: set<Patch>, ghost round: nat,
                     ghost limit: nat)
      returns (outcome: Outcome, queue: seq<seq<Patch>>, ghost rounds: nat)
      requires Pointwise(w, resolver) && |patches| > 0
      requires Sound(w, heap.structs, PatchSet(Flatten(patches))) && DistinctSlots(Flatten(patches))
      requires KeptSoFar(w, calls, st, start, heap.structs, PatchSet(Flatten(patches)))
      requires forall p :: p in Flatten(patches) ==> InRound(w, p, round, limit)
      requires forall key :: key in calls ==> RoundOf(key.meta) < round
      requires Recorded(map[], calls, w, start) && callCount == |calls| && round <= limit
      requires sema.held == 0 && Honest(w, resolver, calls)
      modifies this, heap, sema
      ensures sema.Bounded() && (!outcome.Panicked? ==> sema.held == 0)
      ensures outcome.Done? ==>
                && Sound(w, heap.structs, PatchSet(Flatten(queue))) && DistinctSlots(Flatten(queue))
                && KeptSoFar(w, calls, st, start, heap.structs, PatchSet(Flatten(queue)))
                && (forall p :: p in Flatten(queue) ==> InRound(w, p, rounds, limit))
                && (forall key :: key in calls ==> RoundOf(key.meta) < rounds)
                && (|| (rounds == round + 1 && CalledIn(calls, round))
                    || (rounds == round && queue == [] && calls == old(calls)))
      ensures outcome.Aborted? ==> AbortsFirst(w, calls, start, outcome.fault)
      ensures outcome.Panicked? ==>
                var key := outcome.key;
                && Used(w, calls, start, key, true) && Used(w, calls, start, key, false) && key in calls
                && calls[key].Some?
                && AbortsFirst(w, calls, start, Fault(key, ResolverFailed(calls[key].value)))
      ensures Recorded(map[], calls, w, start) && callCount == |calls| && rounds <= limit
      ensures Honest(w, resolver, calls)
      ensures OnlyErrorsOverwrite(old(heap.structs), heap.structs)
    {
      hide OnlyErrorsOverwrite, Sound, KeptSoFar, Recorded, AbortsFirst, Used, WillAbort, Pointwise, Stops;
      hide ErrorsCaught, CalledOnce, CalledIn, Honest;
      hide InRound, DistinctSlots, Flatten, PatchSet, IsGrouping;
      NothingOverwritten(heap.structs, heap.structs);
      NothingLeft();
      ghost var flat, before, st1 := Flatten(patches), calls, heap.structs;
      rounds := round;
      queue := [];
      var groups, refused := Batches(patches, st, start, round, limit);
      if refused.Some? {
        return Aborted(refused.value), [], round;
      }
      if groups == map[] {
        NothingQueued(flat, groups);
        return Done, [], round;
      }
      ghost var first := FirstQueued(flat, groups);
      RoundAllowed(first, round, limit);
      var waiting;
      outcome, queue, waiting := RunRound(groups, flat, round, limit);
      RecordedOnwards(before, calls, w, st, start, st1, PatchSet(flat));
      if outcome.Done? {
        KeptTransitive(w, before, calls, st, start, st1, PatchSet(flat), heap.structs, PatchSet(Flatten(queue)));
        RoundCalled(flat, groups, first, round, limit);
        rounds := round + 1;
      } else {
        StoppedRound(before, st, start, st1, flat, groups, outcome, round, limit);
      }
    }

    lemma RoundAllowed(p: Patch, round: nat, limit: nat)
      requires InRound(w, p, round, limit)
      ensures round < limit
    {
    }

    lemma RoundCalled(flat: seq<Patch>, groups: Groups, p: Patch, round: nat, limit: nat)
      requires IsGrouping(flat, groups) && p in flat && InRound(w, p, round, limit)
      requires CalledOnce(resolver, groups, map[], calls)
      ensures CalledIn(calls, round)
    {
      hide Checked;
      assert p.Key() in groups && RoundOf(p.Key().meta) == round;
    }

    /** The batches of a round, unless one of them is refused. */
    method Batches(patches: seq<seq<Patch>>, ghost st: Store, ghost start: set<Patch>, ghost round: nat,
                   ghost limit: nat)
      returns (groups: Groups, refused: Option<Fault>)
      requires KeptSoFar(w, calls, st, start, heap.structs, PatchSet(Flatten(patches)))
      requires forall p :: p in Flatten(patches) ==> InRound(w, p, round, limit)
      ensures refused.Some? ==> AbortsFirst(w, calls, start, refused.value)
      ensures refused.None? ==> IsGrouping(Flatten(patches), groups) && forall p :: p in Flatten(patches) ==>
                w.Rejection(p.Key()).None?
    {
      hide KeptSoFar, AbortsFirst;
      ghost var flat := Flatten(patches);
      var unknown;
      groups, unknown := Group(w, patches);
      if unknown.Some? {
        RejectedAborts(st, start, flat, unknown.value, round, limit);
        return groups, Some(Fault(unknown.value.Key(), UnknownRelation));
      }
      KeysRegistered(w, flat, groups);
      var rejected := FindRejectedParams(w, groups);
      if rejected.Some? {
        RejectedAborts(st, start, flat, GroupMember(flat, groups, rejected.value), round, limit);
        return groups, Some(Fault(rejected.value, ParamsRejected));
      }
      AllAccepted(flat, groups);
      refused := None;
    }

    lemma StoppedRound(before: Calls, st: Store, start: set<Patch>, st1: Store, flat: seq<Patch>, groups: Groups,
                       outcome: Outcome,
                       round: nat, limit: nat)
      requires KeptSoFar(w, before, st, start, st1, PatchSet(flat)) && !outcome.Done?
      requires forall key :: key in before ==> key in calls && calls[key] == before[key]
      requires forall p :: p in flat ==> InRound(w, p, round, limit)
      requires Stops(w, calls, PatchSet(flat), groups, round, outcome)
      ensures outcome.Aborted? ==> AbortsFirst(w, calls, start, outcome.fault)
      ensures outcome.Panicked? ==>
                && Used(w, calls, start, outcome.key, true) && Used(w, calls, start, outcome.key, false)
                && outcome.key in calls && calls[outcome.key].Some?
                && AbortsFirst(w, calls, start, Fault(outcome.key, ResolverFailed(calls[outcome.key].value)))
    {
      hide KeptSoFar, Used, AbortsFirst;
      var fault := if outcome.Aborted? then outcome.fault else Fault(outcome.key,
          ResolverFailed(calls[outcome.key].value));
      KeptStays(w, before, calls, st, start, st1, PatchSet(flat));
      AbortsFirstFromStart(w, calls, st, start, st1, flat, fault, round, limit);
      if outcome.Panicked? {
        UsedFromStart(w, calls, st, start, st1, PatchSet(flat), outcome.key, true);
        UsedFromStart(w, calls, st, start, st1, PatchSet(flat), outcome.key, false);
      }
    }

    /** A patch whose batch is refused aborts the call. */
    lemma RejectedAborts(st: Store, start: set<Patch>, flat: seq<Patch>, p: Patch, round: nat, limit: nat)
      requires KeptSoFar(w, calls, st, start, heap.structs, PatchSet(flat))
      requires p in flat && w.Rejection(p.Key()).Some? && forall q :: q in flat ==> InRound(w, q, round, limit)
      ensures AbortsFirst(w, calls, start, Fault(p.Key(), w.Rejection(p.Key()).value))
    {
      var fault := Fault(p.Key(), w.Rejection(p.Key()).value);
      forall fails | Consistent(fails, calls) ensures fault in AbortsOf(w, fails, PatchSet(flat)) {
        assert KeyOf(SiteOf(p), p.meta) == p.Key();
        assert p in PatchSet(flat) && fault in Aborts(w, fails, SiteOf(p), p.meta, p.catcher.Some?);
      }
      AbortsFirstFromStart(w, calls, st, start, heap.structs, flat, fault, round, limit);
    }

    lemma AllAccepted(flat: seq<Patch>, groups: Groups)
      requires IsGrouping(flat, groups) && forall key :: key in groups ==> w.Rejection(key).None?
      ensures forall p :: p in flat ==> w.Rejection(p.Key()).None?
    {
    }

    lemma RoundBegins(flat: seq<Patch>, groups: Groups, round: nat, limit: nat)
      requires IsGrouping(flat, groups) && DistinctSlots(flat) && Sound(w, heap.structs, PatchSet(flat))
      requires forall p :: p in flat ==> InRound(w, p, round, limit) && w.Rejection(p.Key()).None?
      requires forall key :: key in calls ==> RoundOf(key.meta) < round
      ensures RoundState(w, heap.structs, calls, round, limit, groups, map[], PatchSet(flat), [])
      ensures CalledOnce(resolver, groups, groups, calls)
    {
      hide Sound;
      assert PatchSet(flat) + PatchSet([]) == PatchSet(flat);
      forall key | key in groups ensures key !in calls && IsBatch(groups[key], key) {
        SelectMembers(flat, key);
        var p := groups[key][0];
        assert p in groups[key] && p in flat;
      }
      forall p: Patch ensures p in PatchSet(flat) <==> IsLeft(groups, map[], p) {
        SelectMembers(flat, p.Key());
      }
    }

    lemma NothingQueuedYet(left: set<Patch>)
      ensures Pending(left, []) == left
    {
    }

    lemma RoundEnds(waiting: Groups, running: Jobs, left: set<Patch>, queue: seq<seq<Patch>>, round: nat, limit: nat)
      requires RoundState(w, heap.structs, calls, round, limit, waiting, running, left, queue)
      requires waiting == map[] && running == map[]
      ensures left == {} && Pending(left, queue) == PatchSet(Flatten(queue))
      ensures Sound(w, heap.structs, PatchSet(Flatten(queue))) && DistinctSlots(Flatten(queue))
      ensures forall p :: p in Flatten(queue) ==> InRound(w, p, round + 1, limit)
      ensures forall key :: key in calls ==> RoundOf(key.meta) <= round
    {
      hide Sound;
      forall p: Patch ensures p !in left {
        assert p in left <==> IsLeft(waiting, running, p);
      }
      assert left == {};
      assert Pending(left, queue) == PatchSet(Flatten(queue));
    }

    lemma NextPending(waiting: Groups, running: Jobs, left: set<Patch>, queue: seq<seq<Patch>>, key: GroupKey,
                      round: nat, limit: nat)
      requires RoundState(w, heap.structs, calls, round, limit, waiting, running, left, queue) && key in running
      ensures Sound(w, heap.structs, Pending(left, queue))
      ensures var job := running[key];
              && job.next < |job.batch| && (job.answer.Ok? ==> |job.answer.value| == |job.batch|)
              && var p := job.batch[job.next];
                 && p in left && p in Pending(left, queue) && p.Key() == key && InRound(w, p, round, limit)
                 && w.Rejection(key).None? && (w.Catches(p.mask) ==> p.catcher.Some?)
                 && key in calls && calls[key] == (if job.answer.Err? then Some(job.answer.error) else None)
                 && (job.answer.Ok? ==> job.answer.value[job.next] == w.one(key, p.target))
      ensures forall q :: q in Pending(left, queue) ==> RoundOf(q.meta) >= round
    {
      assert IsJob(w, calls, key, running[key]);
      var p := running[key].batch[running[key].next];
      assert p in running[key].batch && p in running[key].Rest();
      assert IsLeft(waiting, running, p);
    }
  }

  ghost function AdvancedJobs(running: Jobs, key: GroupKey): Jobs
    requires key in running
  {
    var job := running[key];
    if job.next + 1 == |job.batch| then running - {key} else running[key := job.(next := job.next + 1)]
  }

  /** One patch of a running batch is done; what it brought up waits for the next round. */
  lemma AdvancedState(w: World, st: Store, st2: Store, calls: Calls, round: nat, limit: nat, waiting: Groups,
                      running: Jobs,
                      left: set<Patch>, queue: seq<seq<Patch>>, key: GroupKey, more: seq<Patch>)
    requires key in running && RoundState(w, st, calls, round, limit, waiting, running, left, queue)
    requires running[key].next < |running[key].batch|
    requires var p := running[key].batch[running[key].next]; Sound(w, st2, Pending(left, queue) - {p} + PatchSet(more))
    requires DistinctSlots(more) && forall q :: q in more ==> InRound(w, q, round + 1, limit) && q.slot.addr >= |st|
    ensures var p := running[key].batch[running[key].next];
            var queue2 := if |more| > 0 then queue + [more] else queue;
            && RoundState(w, st2, calls, round, limit, waiting, AdvancedJobs(running, key), left - {p}, queue2)
            && Pending(left - {p}, queue2) == Pending(left, queue) - {p} + PatchSet(more)
            && p in left
  {
    hide Sound, InRound, Pending, Flatten;
    var job, running2 := running[key], AdvancedJobs(running, key);
    var p := job.batch[job.next];
    var queue2 := if |more| > 0 then queue + [more] else queue;
    AdvancedQueue(w, st, left, queue, p, more, round, limit);
    forall k | k in running2 ensures IsJob(w, calls, k, running2[k]) {
      assert IsJob(w, calls, k, running[k]);
    }
    AdvancedLeft(waiting, running, left, key);
  }

  lemma AdvancedLeft(waiting: Groups, running: Jobs, left: set<Patch>, key: GroupKey)
    requires forall k :: k in running ==> running[k].next < |running[k].batch| && IsBatch(running[k].batch, k)
    requires forall k :: k in waiting ==> k !in running
    requires forall p: Patch :: p in left <==> IsLeft(waiting, running, p)
    requires key in running
    ensures running[key].batch[running[key].next] in left
    ensures forall k :: k in AdvancedJobs(running, key) ==>
              AdvancedJobs(running, key)[k].next < |AdvancedJobs(running, key)[k].batch|
    ensures forall q: Patch ::
              q in left - {running[key].batch[running[key].next]} <==> IsLeft(waiting, AdvancedJobs(running, key), q)
  {
    var job, running2 := running[key], AdvancedJobs(running, key);
    var p := job.batch[job.next];
    assert p in job.batch && p in job.Rest() && IsLeft(waiting, running, p);
    RestAfter(job);
    forall q: Patch ensures q in left - {p} <==> IsLeft(waiting, running2, q) {
      assert q in left <==> IsLeft(waiting, running, q);
    }
  }

  lemma RestAfter(job: Job)
    requires job.next < |job.batch| && DistinctSlots(job.batch)
    ensures forall q: Patch :: q in job.batch[job.next + 1..] <==> q in job.Rest() && q != job.batch[job.next]
  {
    assert job.Rest() == [job.batch[job.next]] + job.batch[job.next + 1..];
  }

  lemma AdvancedQueue(w: World, st: Store, left: set<Patch>, queue: seq<seq<Patch>>, p: Patch, more: seq<Patch>,
                      round: nat, limit: nat)
    requires Sound(w, st, Pending(left, queue)) && DistinctSlots(Flatten(queue)) && DistinctSlots(more)
    requires InRound(w, p, round, limit)
    requires forall q :: q in Flatten(queue) ==> InRound(w, q, round + 1, limit)
    requires forall q :: q in more ==> InRound(w, q, round + 1, limit) && q.slot.addr >= |st|
    ensures var queue2 := if |more| > 0 then queue + [more] else queue;
            && Flatten(queue2) == Flatten(queue) + more && DistinctSlots(Flatten(queue2))
            && (forall q :: q in Flatten(queue2) ==> InRound(w, q, round + 1, limit))
            && Pending(left - {p}, queue2) == Pending(left, queue) - {p} + PatchSet(more)
  {
    hide Sound, Flatten;
    FlattenAppend(queue, more);
    forall q | q in Flatten(queue) ensures q.slot.addr < |st| && q != p {
      SoundBelow(w, st, Pending(left, queue), q);
    }
    DistinctConcat(Flatten(queue), more, |st|);
    var queue2 := if |more| > 0 then queue + [more] else queue;
    assert Flatten(queue2) == Flatten(queue) + more;
    assert PatchSet(Flatten(queue) + more) == PatchSet(Flatten(queue)) + PatchSet(more);
  }

  lemma SoundBelow(w: World, st: Store, pend: set<Patch>, q: Patch)
    requires Sound(w, st, pend) && q in pend
    ensures q.slot.addr < |st|
  {
  }

  lemma DistinctConcat(a: seq<Patch>, b: seq<Patch>, bound: nat)
    requires DistinctSlots(a) && DistinctSlots(b)
    requires (forall q :: q in a ==> q.slot.addr < bound) && (forall q :: q in b ==> q.slot.addr >= bound)
    ensures DistinctSlots(a + b)
  {
    var all := a + b;
    forall i, j | 0 <= i < j < |all| ensures all[i].slot != all[j].slot {
      if i < |a| <= j {
        assert a[i] in a && all[j] in b;
      }
    }
  }
}
