/** What callers of Do and Fetch can rely on, drawn from what Handler.Do ensures. */
module Guarantees {
  import opened Protobuf
  import opened Response
  import opened Format
  import opened Meaning
  import opened Reading
  import opened Schemas
  import opened Conformance
  import opened BodyShape
  import opened Batches
  import opened Isolation
  import opened ErrorModes
  import opened Stitching
  import opened Handlers

  /** The entry points answer with conforming messages of their response types. */
  ghost predicate RepliesConform(inb: Inbound)
    requires inb.Valid()
  {
    forall i :: 0 <= i < |inb.requests| && inb.replies[i].Answered? ==>
      Conforms(inb.w.types, inb.replies[i].msg, inb.methods[inb.requests[i].name].output)
  }

  /** A validated call to entry points and relations that answer as their descriptors say. */
  ghost predicate SoundCall(inb: Inbound, forFetch: bool) {
    && inb.Valid() && WorldSound(inb.w) && RepliesConform(inb)
    && AllAccepted(inb.w, inb.methods, inb.requests, forFetch, Unary)
  }

  lemma RequestAccepted(inb: Inbound, forFetch: bool, i: nat)
    requires SoundCall(inb, forFetch) && i < |inb.requests|
    ensures Accepts(inb.w, inb.methods[inb.requests[i].name].output, inb.requests[i].mask)
    ensures inb.replies[i].Answered? ==>
              var m := inb.replies[i].msg;
              Conforms(inb.w.types, m, m.typ) && m.typ == inb.methods[inb.requests[i].name].output
  {
    hide SchemaOf;
    assert inb.requests[i] in inb.requests;
  }

  // ----- the number of resolver calls

  /** The batches the masks of the first k requests can use at all. */
  ghost function CallUses(inb: Inbound, k: nat): set<Visit>
    requires inb.Valid() && k <= |inb.requests|
  {
    if k == 0 then {}
    else
      CallUses(inb, k - 1)
      + QueryUses(inb.w, inb.methods[inb.requests[k - 1].name].output, inb.requests[k - 1].mask,
                  inb.MetaOf(k - 1), inb.CaughtAt(k - 1))
  }

  /** The number of relation entries in their masks. */
  function CallRelations(inb: Inbound, k: nat): nat
    requires k <= |inb.requests| && forall i :: 0 <= i < |inb.requests| ==> inb.requests[i].name in inb.methods
  {
    if k == 0 then 0
    else
      CallRelations(inb, k - 1)
      + CountRelations(inb.w, inb.methods[inb.requests[k - 1].name].output, inb.requests[k - 1].mask,
                       |inb.requests[k - 1].mask|)
  }

  lemma {:induction false} CallStatic(inb: Inbound, forFetch: bool, fails: Failures, k: nat)
    requires SoundCall(inb, forFetch) && k <= |inb.requests|
    ensures inb.CallVisits(fails, k) <= CallUses(inb, k)
    ensures |CallUses(inb, k)| <= CallRelations(inb, k)
  {
    hide WorldSound, RepliesConform, AllAccepted, QueryUses, VisitsOfSites, Reach, CountRelations;
    if k != 0 {
      CallStatic(inb, forFetch, fails, k - 1);
      RequestStatic(inb, forFetch, fails, k - 1);
      var i := k - 1;
      UnionSize(CallUses(inb, i),
                QueryUses(inb.w, inb.methods[inb.requests[i].name].output, inb.requests[i].mask, inb.MetaOf(i),
                          inb.CaughtAt(i)));
    }
  }

  lemma RequestStatic(inb: Inbound, forFetch: bool, fails: Failures, i: nat)
    requires SoundCall(inb, forFetch) && i < |inb.requests|
    ensures var typ, mask := inb.methods[inb.requests[i].name].output, inb.requests[i].mask;
            var uses := QueryUses(inb.w, typ, mask, inb.MetaOf(i), inb.CaughtAt(i));
            && VisitsOfSites(inb.w, fails, inb.SitesOf(i), inb.MetaOf(i), inb.CaughtAt(i)) <= uses
            && |uses| <= CountRelations(inb.w, typ, mask, |mask|)
  {
    hide Reach, Accepts, CountRelations, Uses, Conforms;
    RequestAccepted(inb, forFetch, i);
    var typ, mask := inb.methods[inb.requests[i].name].output, inb.requests[i].mask;
    if inb.replies[i].Answered? {
      MessageBatches(inb.w, fails, inb.replies[i].msg, mask, inb.MetaOf(i), inb.CaughtAt(i));
    } else {
      UsesCounted(inb.w, typ, mask, |mask|, inb.MetaOf(i), inb.CaughtAt(i));
    }
  }

  /** However much data the entry points and resolvers return, a call makes at most one resolver call for each
      relation entry in its masks. */
  lemma ResolverCallsBounded(inb: Inbound, forFetch: bool, calls: Calls)
    requires SoundCall(inb, forFetch) && CallsMean(inb, calls)
    ensures |calls| <= CallRelations(inb, |inb.requests|)
  {
    hide WorldSound, RepliesConform, AllAccepted;
    var n, fails := |inb.requests|, FailuresOf(calls);
    CallStatic(inb, forFetch, fails, n);
    forall key | key in calls ensures key in VisitKeys(CallUses(inb, n)) {
      KeyVisited(inb, calls, fails, key);
    }
    VisitKeysSize(CallUses(inb, n));
    SubsetSize(calls.Keys, VisitKeys(CallUses(inb, n)));
  }

  /** The deepest nesting of relation entries in the masks of the first k requests. */
  function CallNesting(inb: Inbound, k: nat): nat
    requires k <= |inb.requests| && forall i :: 0 <= i < |inb.requests| ==> inb.requests[i].name in inb.methods
  {
    if k == 0 then 0
    else
      Max(CallNesting(inb, k - 1),
          NestingOf(inb.w, inb.methods[inb.requests[k - 1].name].output, inb.requests[k - 1].mask,
                    |inb.requests[k - 1].mask|))
  }

  lemma {:induction false} CallUsesNested(inb: Inbound, k: nat)
    requires inb.Valid() && k <= |inb.requests|
    ensures forall v :: v in CallUses(inb, k) ==> RoundOf(v.key.meta) < CallNesting(inb, k)
  {
    hide Uses, NestingOf;
    if k != 0 {
      CallUsesNested(inb, k - 1);
      var i := k - 1;
      var typ, mask := inb.methods[inb.requests[i].name].output, inb.requests[i].mask;
      UsesNested(inb.w, typ, mask, |mask|, inb.MetaOf(i), inb.CaughtAt(i));
    }
  }

  /** Stitching a call takes no more rounds than its relation entries are nested deep. */
  lemma RoundsBounded(inb: Inbound, forFetch: bool, calls: Calls, rounds: nat)
    requires SoundCall(inb, forFetch) && CallsMean(inb, calls) && (rounds > 0 ==> CalledIn(calls, rounds - 1))
    ensures rounds <= CallNesting(inb, |inb.requests|)
  {
    hide WorldSound, RepliesConform, AllAccepted, CallUses, CallNesting;
    if rounds > 0 {
      var key :| key in calls && RoundOf(key.meta) == rounds - 1;
      KeyVisited(inb, calls, FailuresOf(calls), key);
      CallStatic(inb, forFetch, FailuresOf(calls), |inb.requests|);
      CallUsesNested(inb, |inb.requests|);
    }
  }

  lemma KeyVisited(inb: Inbound, calls: Calls, fails: Failures, key: GroupKey)
    requires CallsMean(inb, calls) && key in calls && Consistent(fails, calls)
    ensures inb.Valid()
    ensures exists v :: v in inb.CallVisits(fails, |inb.requests|) && v.key == key
  {
    if UsedByCall(inb, calls, key, true) {
      assert Visit(key, true) in inb.CallVisits(fails, |inb.requests|);
    } else {
      assert Visit(key, false) in inb.CallVisits(fails, |inb.requests|);
    }
  }

  lemma {:induction false} SubsetSize<T>(a: set<T>, b: set<T>)
    requires a <= b
    ensures |a| <= |b|
  {
    if a != {} {
      var x :| x in a;
      SubsetSize(a - {x}, b - {x});
    }
  }

  // ----- no batch is shared between requests

  /** Two requests of a call never use the same batch. */
  lemma RequestsShareNoBatch(inb: Inbound, fails: Failures, i: nat, j: nat)
    requires inb.Valid() && i < j < |inb.requests|
    ensures VisitKeys(VisitsOfSites(inb.w, fails, inb.SitesOf(i), inb.MetaOf(i), inb.CaughtAt(i)))
            !! VisitKeys(VisitsOfSites(inb.w, fails, inb.SitesOf(j), inb.MetaOf(j), inb.CaughtAt(j)))
  {
    hide Reach, Visits;
    forall k: nat, s | k < |inb.requests| && s in inb.SitesOf(k)
      ensures forall v :: v in Visits(inb.w, fails, s, inb.MetaOf(k), inb.CaughtAt(k)) ==>
                Root(v.key.meta) == inb.MetaOf(k)
    {
      VisitsStayUnderRoot(inb.w, fails, s, inb.MetaOf(k), inb.CaughtAt(k));
    }
  }

  // ----- which failures remain

  lemma {:induction false} AbortsOfRequests(inb: Inbound, fails: Failures, k: nat, x: Fault)
    requires inb.Valid() && k <= |inb.requests| && x in inb.CallAborts(fails, k)
    ensures exists i: nat, s ::
              i < k && s in inb.SitesOf(i)
              && x in Aborts(inb.w, fails, s, inb.MetaOf(i), inb.CaughtAt(i))
  {
    hide Reach, Aborts;
    if x in inb.CallAborts(fails, k - 1) {
      AbortsOfRequests(inb, fails, k - 1, x);
    } else {
      var s :| s in inb.SitesOf(k - 1) && x in Aborts(inb.w, fails, s, inb.MetaOf(k - 1), inb.CaughtAt(k - 1));
    }
  }

  lemma {:induction false} RequestAborts(inb: Inbound, fails: Failures, k: nat, i: nat)
    requires inb.Valid() && i < k <= |inb.requests|
    ensures AbortsOfSites(inb.w, fails, inb.SitesOf(i), inb.MetaOf(i), inb.CaughtAt(i)) <= inb.CallAborts(fails, k)
  {
    hide Reach, AbortsOfSites;
    if i < k - 1 {
      RequestAborts(inb, fails, k - 1, i);
    }
  }

  /** Validation leaves few ways to fail: no unknown relation, kind or key kind is ever met. */
  lemma ValidatedFailures(inb: Inbound, forFetch: bool, calls: Calls, failure: Failure)
    requires SoundCall(inb, forFetch) && FailureMeans(inb, forFetch, calls, failure)
    ensures match failure
            case StitchAborted(fault) =>
              fault.cause.ResolverFailed? || fault.cause == ParamsRejected || fault.cause == NotConvertible
            case Unformattable(cause) => cause == NotConvertible
            case BadQuery(_) => false
            case _ => true
  {
    hide Reach, ResponseSchema, Conforms, Aborts, MessageFault, Validated;
    match failure
    case StitchAborted(fault) =>
      var fails := FailuresOf(calls);
      assert fault in inb.CallAborts(fails, |inb.requests|);
      AbortsOfRequests(inb, fails, |inb.requests|, fault);
      var i: nat, s :| i < |inb.requests| && s in inb.SitesOf(i) && fault in Aborts(inb.w, fails, s, inb.MetaOf(i),
          inb.CaughtAt(i));
      RequestAccepted(inb, forFetch, i);
      ReachValidated(inb.w, inb.replies[i].msg, inb.requests[i].mask);
      ValidationSuffices(inb.w, fails, s, inb.MetaOf(i), inb.CaughtAt(i));
    case Unformattable(cause) =>
      var i: nat :| i < |inb.requests| && EntryFails(inb, i, failure);
      RequestAccepted(inb, forFetch, i);
      ReachValidated(inb.w, inb.replies[i].msg, inb.requests[i].mask);
    case BadQuery(f) => NothingRefused(inb, forFetch, f);
    case _ =>
  }

  lemma NothingRefused(inb: Inbound, forFetch: bool, failure: SchemaFailure)
    requires AllAccepted(inb.w, inb.methods, inb.requests, forFetch, Unary)
    ensures forall i: nat :: !FirstRefused(inb.w, inb.methods, inb.requests, forFetch, Unary, i, failure)
  {
    hide ResponseSchema;
    forall i: nat ensures !FirstRefused(inb.w, inb.methods, inb.requests, forFetch, Unary, i, failure) {
      if i < |inb.requests| {
        assert inb.requests[i] in inb.requests;
      }
    }
  }

  // ----- the crash

  /** A call only crashes on a failing batch that its masks use both where something catches its errors and where
      nothing does. */
  lemma CrashMixesModes(inb: Inbound, forFetch: bool, calls: Calls, key: GroupKey)
    requires SoundCall(inb, forFetch) && FailureMeans(inb, forFetch, calls, Crash(key))
    ensures Visit(key, true) in CallUses(inb, |inb.requests|) && Visit(key, false) in CallUses(inb, |inb.requests|)
    ensures key in calls && calls[key].Some?
  {
    hide WorldSound, RepliesConform, AllAccepted, CallUses;
    var fails := FailuresOf(calls);
    CallStatic(inb, forFetch, fails, |inb.requests|);
    assert Visit(key, true) in inb.CallVisits(fails, |inb.requests|);
    assert Visit(key, false) in inb.CallVisits(fails, |inb.requests|);
  }

  // ----- Do without throw, Fetch without catch

  predicate NothingThrows(requests: seq<Request>) {
    forall q :: q in requests ==> !q.onError.Throw? && NoThrow(q.mask)
  }

  predicate NothingCatches(requests: seq<Request>) {
    forall q :: q in requests ==> !q.onError.Catch? && NoCatch(q.mask)
  }

  lemma SiteModes(inb: Inbound, i: nat, caught: bool)
    requires inb.Valid() && i < |inb.requests| && inb.w.fallbackCatch == caught
    requires if caught then NothingThrows(inb.requests) else NothingCatches(inb.requests)
    ensures forall s :: s in inb.SitesOf(i) ==> UniformSite(s, caught, caught)
    ensures inb.CaughtAt(i) == caught
  {
    hide Reach;
    var q := inb.requests[i];
    assert q in inb.requests;
    CaughtInDo(q.mask);
    UncaughtInFetch(q.mask);
    if inb.replies[i].Answered? {
      ReachUniform(inb.w, inb.replies[i].msg, q.mask, caught);
    }
  }

  /** In Do, if nothing says throw, no resolver failure fails the call. */
  lemma DoSurvivesResolvers(inb: Inbound, calls: Calls, failure: Failure)
    requires inb.w.fallbackCatch && NothingThrows(inb.requests) && FailureMeans(inb, false, calls, failure)
    ensures !failure.Crash? && !failure.CallAborted?
         && (failure.StitchAborted? ==> !failure.fault.cause.ResolverFailed?)
  {
    hide Reach, Aborts, Visits, ResponseSchema, NoThrow;
    var fails := FailuresOf(calls);
    if failure.StitchAborted? || failure.Crash? {
      var x := if failure.Crash? then Fault(failure.key, ResolverFailed(calls[failure.key].value)) else failure.fault;
      assert x in inb.CallAborts(fails, |inb.requests|);
      AbortsOfRequests(inb, fails, |inb.requests|, x);
      var i: nat, s :| i < |inb.requests| && s in inb.SitesOf(i) && x in Aborts(inb.w, fails, s, inb.MetaOf(i),
          inb.CaughtAt(i));
      SiteModes(inb, i, true);
      CaughtNeverAborts(inb.w, fails, s, inb.MetaOf(i), true);
    } else if failure.CallAborted? {
      var i: nat :| i < |inb.requests| && EntryFails(inb, i, failure);
      SiteModes(inb, i, true);
    }
  }

  lemma UncaughtFailure(inb: Inbound, fails: Failures, v: Visit)
    requires inb.Valid() && !inb.w.fallbackCatch && NothingCatches(inb.requests)
    requires v in inb.CallVisits(fails, |inb.requests|)
    ensures v.key in fails ==> inb.CallAborts(fails, |inb.requests|) != {}
  {
    hide Reach, Aborts, Visits, NothingCatches;
    VisitsOfRequests(inb, fails, |inb.requests|, v);
    var i: nat, s :| i < |inb.requests| && s in inb.SitesOf(i) && v in Visits(inb.w, fails, s, inb.MetaOf(i),
                                                            inb.CaughtAt(i));
    SiteModes(inb, i, false);
    UncaughtAborts(inb.w, fails, s, inb.MetaOf(i));
    RequestAborts(inb, fails, |inb.requests|, i);
    if v.key in fails {
      var x :| x in Aborts(inb.w, fails, s, inb.MetaOf(i), false);
      assert x in AbortsOfSites(inb.w, fails, inb.SitesOf(i), inb.MetaOf(i), false);
    }
  }

  /** In Fetch, if nothing says catch, a call that answers had no resolver and no entry point fail. */
  lemma FetchFailsWithResolvers(inb: Inbound, calls: Calls, st: Store, answers: seq<Answer>)
    requires !inb.w.fallbackCatch && NothingCatches(inb.requests)
    requires AnswersMean(inb, true, calls, st, answers) && CallsMean(inb, calls)
    ensures forall key :: key in calls ==> calls[key].None?
    ensures forall i :: 0 <= i < |inb.replies| ==> inb.replies[i].Answered?
  {
    hide Reach, Aborts, Visits, ResponseSchema, NoCatch, NothingCatches, EscapesOfSites, TreeMessage;
    var fails := FailuresOf(calls);
    forall key | key in calls ensures calls[key].None? {
      KeyVisited(inb, calls, fails, key);
      var v :| v in inb.CallVisits(fails, |inb.requests|) && v.key == key;
      UncaughtFailure(inb, fails, v);
    }
    forall i: nat | i < |inb.replies| ensures inb.replies[i].Answered? {
      SiteModes(inb, i, false);
      assert inb.AnswerMeans(fails, st, i, answers[i].body);
    }
  }

  // ----- bodies

  /** If every resolver call succeeds, every body is exactly the tree its query means. */
  lemma AnswersExact(inb: Inbound, forFetch: bool, calls: Calls, st: Store, answers: seq<Answer>, i: nat)
    requires AnswersMean(inb, forFetch, calls, st, answers) && i < |answers| && inb.replies[i].Answered?
    requires forall key :: key in calls ==> calls[key].None?
    ensures var body := answers[i].body;
            body.Projection?
            && FinishedRef(st, -1, body.ref)
              == TreeMessage(inb.w, map[], inb.replies[i].msg, inb.requests[i].mask, inb.MetaOf(i))
  {
    hide Reach, TreeMessage, Refines, FaultFree, Finished, Escapes, ResponseSchema;
    var none: Failures := map[];
    assert Consistent(none, calls) && inb.AnswerMeans(none, st, i, answers[i].body);
    forall s | s in inb.SitesOf(i) ensures Escapes(inb.w, none, s, inb.MetaOf(i)) == {} {
      NoFailuresNoFaults(inb.w, s, inb.MetaOf(i));
    }
    assert EscapesOfSites(inb.w, none, inb.SitesOf(i), inb.MetaOf(i)) == {};
    var y := TreeMessage(inb.w, none, inb.replies[i].msg, inb.requests[i].mask, inb.MetaOf(i));
    MessageFaultFree(inb.w, inb.replies[i].msg, inb.requests[i].mask, inb.MetaOf(i));
    RefinesFaultFree(FinishedRef(st, -1, answers[i].body.ref), y);
  }

  lemma {:induction false} RefinedSpares(x: Tree, y: Tree, z: Tree)
    requires Refines(x, y) && Spares(y, z)
    ensures Spares(x, z)
  {
    if x.Obj? {
      forall k | k in x.fields && x.fields[k].Shown?
        ensures k in z.fields && z.fields[k].Shown? && ContentSpares(x.fields[k].content, z.fields[k].content)
      {
        assert NodeRefines(x.fields[k], y.fields[k]);
        RefinedContentSpares(x.fields[k].content, y.fields[k].content, z.fields[k].content);
      }
    }
  }

  lemma {:induction false} RefinedContentSpares(x: Content<Tree>, y: Content<Tree>, z: Content<Tree>)
    requires ContentRefines(x, y) && ContentSpares(y, z)
    ensures ContentSpares(x, z)
  {
    match x
    case Single(a) => RefinedSpares(a, y.item, z.item);
    case Items(a) => forall i | 0 <= i < |a| ensures Spares(a[i], z.items[i]) {
      RefinedSpares(a[i], y.items[i], z.items[i]);
    }
    case Object(f) => forall k | k in f ensures Spares(f[k], z.members[k]) {
      RefinedSpares(f[k], y.members[k], z.members[k]);
    }
  }

  /** Whatever failed, a body that is not an error itself is the failure-free one except for its error objects. */
  lemma AnswersIsolated(inb: Inbound, forFetch: bool, calls: Calls, st: Store, answers: seq<Answer>, i: nat)
    requires AnswersMean(inb, forFetch, calls, st, answers) && i < |answers| && answers[i].body.Projection?
    ensures inb.replies[i].Answered?
    ensures Spares(FinishedRef(st, -1, answers[i].body.ref),
                   TreeMessage(inb.w, map[], inb.replies[i].msg, inb.requests[i].mask, inb.MetaOf(i)))
  {
    hide Reach, TreeMessage, Refines, Spares, Finished, Escapes, Aborts, ResponseSchema;
    var fails := FailuresOf(calls);
    assert inb.AnswerMeans(fails, st, i, answers[i].body);
    var m, mask, meta := inb.replies[i].msg, inb.requests[i].mask, inb.MetaOf(i);
    RequestAborts(inb, fails, |inb.requests|, i);
    forall s | s in inb.SitesOf(i) && !inb.w.Catches(s.entry) ensures Escapes(inb.w, fails, s, meta) == {} {
      if inb.CaughtAt(i) {
        assert EscapesOfSites(inb.w, fails, inb.SitesOf(i), meta) == {};
      } else {
        assert AbortsOfSites(inb.w, fails, inb.SitesOf(i), meta, false) == {};
        EscapesAbort(inb.w, fails, s, meta);
      }
    }
    MessageSpared(inb.w, fails, m, mask, meta);
    RefinedSpares(FinishedRef(st, -1, answers[i].body.ref), TreeMessage(inb.w, fails, m, mask, meta),
                  TreeMessage(inb.w, map[], m, mask, meta));
  }

  /** A body has the shape of the schema that comes with it exactly if it shows no key with an underscore, at any
      level; so it has for masks without underscores. */
  lemma AnswersFit(inb: Inbound, forFetch: bool, calls: Calls, st: Store, answers: seq<Answer>, i: nat)
    requires SoundCall(inb, forFetch) && AnswersMean(inb, forFetch, calls, st, answers)
    requires i < |answers| && answers[i].body.Projection?
    ensures var body := FinishedRef(st, -1, answers[i].body.ref);
            && (TreeFits(body, answers[i].schema) <==> KeysUnderscoreFree(body))
            && (UnderscoreFreeMask(inb.requests[i].mask) ==> TreeFits(body, answers[i].schema))
  {
    hide Reach, TreeMessage, Refines, TreeFits, Finished, SchemaOf, Conforms;
    hide UnderscoreFreeMask, EscapesOfSites, WorldSound;
    hide KeysUnderscoreFree, NamesUnderscoreFree;
    var fails := FailuresOf(calls);
    assert inb.AnswerMeans(fails, st, i, answers[i].body);
    RequestAccepted(inb, forFetch, i);
    var m, mask, meta := inb.replies[i].msg, inb.requests[i].mask, inb.MetaOf(i);
    var x, y := FinishedRef(st, -1, answers[i].body.ref), TreeMessage(inb.w, fails, m, mask, meta);
    var schema := SchemaOf(inb.w, m.typ, mask).value;
    SchemaUnderscoreFree(inb.w, m.typ, mask);
    if TreeFits(x, schema) {
      FittingKeys(x, schema);
    } else {
      if KeysUnderscoreFree(x) {
        RefinedKeys(x, y);
      }
      if UnderscoreFreeMask(mask) || KeysUnderscoreFree(y) {
        MessageFits(inb.w, fails, m, mask, meta);
        RefinedFits(x, y, schema);
      }
    }
  }
}
