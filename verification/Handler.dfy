/** Answering a Do or Fetch call (handler.go:62-185): validation, the entry-point calls, stitching, and the bodies
    that caught errors replace. */
module Handlers {
  import opened Wrappers
  import opened Protobuf
  import opened Response
  import opened Format
  import opened Meaning
  import opened Placement
  import opened Reading
  import opened FormatMeaning
  import opened StructHeaps
  import opened Steps
  import opened Grouping
  import opened Stitching
  import opened Schemas
  import opened Entries
  import Parallelism

  datatype RpcKind = Unary | ClientStream | ServerStream | BidiStream

  datatype Method = Method(output: TypeName, kind: RpcKind, noSideEffects: bool, operation: string)

  type Methods = map<string, Method>

  /** A request; validName says whether its method name is syntactically one, bodyParses whether its body can be
      read as the method's request message. */
  datatype Request = Request(name: string, validName: bool, mask: seq<Mask>, onError: OnError, bodyParses: bool)

  datatype SchemaFailure = InvalidName | Unimplemented | UnexpectedKind | HasSideEffects
    | InvalidMask(error: SchemaError)

  /** computeResponseSchema */
  function ResponseSchema(w: World, methods: Methods, q: Request, forFetch: bool, kind: RpcKind): Result<Schema,
                          SchemaFailure> {
    if !q.validName then Err(InvalidName)
    else if q.name !in methods then Err(Unimplemented)
    else if methods[q.name].kind != kind then Err(UnexpectedKind)
    else if forFetch && !methods[q.name].noSideEffects then Err(HasSideEffects)
    else
      match SchemaOf(w, methods[q.name].output, q.mask)
      case Err(e) => Err(InvalidMask(e))
      case Ok(s) => Ok(s)
  }

  /** What an entry-point call comes back with; Unreadable is a response that cannot be unmarshalled. */
  datatype Reply = CallFailed(error: string) | Unreadable | Answered(msg: Msg)

  /** A response body: a formatted response, or an error object in its place. */
  datatype Body = Projection(ref: Ref) | CallError(error: string) | Replaced(cell: Cell)

  datatype Failure =
    | BadQuery(failure: SchemaFailure) | BadBody
    | CallAborted(error: string) | UnreadableReply | Unformattable(cause: Cause)
    | StitchAborted(fault: Fault) | Crash(key: GroupKey)

  // ----- what a call means

  /** A call: the gateway, its methods, the inbound operation, the requests and what their entry points reply. */
  datatype Inbound = Inbound(w: World, methods: Methods, operation: string, requests: seq<Request>,
                             replies: seq<Reply>)
  {
    ghost predicate Valid() {
      && |replies| == |requests|
      && forall i :: 0 <= i < |requests| ==> requests[i].name in methods && WellFormed(requests[i].mask)
    }

    function MetaOf(i: nat): Meta
      requires i < |requests| && requests[i].name in methods
    {
      Entry(i, [operation, methods[requests[i].name].operation])
    }

    /** Whether an error of request i becomes its body. */
    predicate CaughtAt(i: nat)
      requires i < |requests|
    {
      requests[i].onError.Catch? || (requests[i].onError.Unset? && w.fallbackCatch)
    }

    function SitesOf(i: nat): seq<Site>
      requires i < |requests| && |replies| == |requests|
    {
      match replies[i]
      case Answered(m) => Reach(w.types, m, requests[i].mask)
      case _ => []
    }

    /** The faults that make the first k requests fail the whole call. */
    ghost function CallAborts(fails: Failures, k: nat): set<Fault>
      requires Valid() && k <= |requests|
    {
      if k == 0 then {}
      else CallAborts(fails, k - 1) + AbortsOfSites(w, fails, SitesOf(k - 1), MetaOf(k - 1), CaughtAt(k - 1))
    }

    /** The batches the first k requests use. */
    ghost function CallVisits(fails: Failures, k: nat): set<Visit>
      requires Valid() && k <= |requests|
    {
      if k == 0 then {}
      else CallVisits(fails, k - 1) + VisitsOfSites(w, fails, SitesOf(k - 1), MetaOf(k - 1), CaughtAt(k - 1))
    }

    /** The body request i must get, given which batches fail. */
    ghost predicate AnswerMeans(fails: Failures, st: Store, i: nat, body: Body)
      requires Valid() && i < |requests|
    {
      match replies[i]
      case Unreadable => false
      case CallFailed(e) => CaughtAt(i) && body == CallError(e)
      case Answered(m) =>
        var escaping := EscapesOfSites(w, fails, SitesOf(i), MetaOf(i));
        if CaughtAt(i) && escaping != {} then
          body.Replaced? && body.cell.Failed? && body.cell.fault in Latest(escaping)
        else
          body.Projection?
            && Refines(FinishedRef(st, -1, body.ref), TreeMessage(w, fails, m, requests[i].mask, MetaOf(i)))
    }
  }

  function Deepest(requests: seq<Request>): (d: nat)
    ensures forall q :: q in requests ==> Depth(q.mask) <= d
  {
    if requests == [] then 0 else Max(Depth(requests[0].mask), Deepest(requests[1..]))
  }

  // ----- entry responses being opened

  /** What one request has come to: its body so far, its error slot, its patches. */
  datatype Opened = Opened(body: Option<Body>, err: Option<Slot>, patches: seq<Patch>, base: nat)

  /** Request i has its entry response formatted, or its call error as body. */
  ghost predicate IsOpen(inb: Inbound, st: Store, pend: set<Patch>, i: nat, o: Opened)
    requires inb.Valid() && i < |inb.requests|
  {
    match inb.replies[i]
    case Unreadable => false
    case CallFailed(e) => inb.CaughtAt(i) && o.body == Some(CallError(e)) && o.err == None && o.patches == []
    case Answered(m) =>
      && MessageFault(inb.w.types, m, inb.requests[i].mask).None? && o.err.Some? == inb.CaughtAt(i)
      && o.body.Some? && o.body.value.Projection? && RefBelow(o.body.value.ref, |st|)
      && Ready(inb.w, st, pend, inb.MetaOf(i), inb.requests[i].mask, m, o.base, o.err, o.body.value.ref, o.patches)
  }

  function PatchLists(os: seq<Opened>): (r: seq<seq<Patch>>)
    ensures |r| == |os| && forall i :: 0 <= i < |os| ==> r[i] == os[i].patches
  {
    seq(|os|, i requires 0 <= i < |os| => os[i].patches)
  }

  /** All requests, some of them still to be called. */
  ghost predicate Opening(inb: Inbound, st: Store, os: seq<Opened>, todo: set<nat>, limit: nat) {
    && inb.Valid() && |os| == |inb.requests|
    && (forall i :: i in todo ==> i < |os|)
    && var flat := Flatten(PatchLists(os));
       && Sound(inb.w, st, PatchSet(flat)) && DistinctSlots(flat)
       && (forall p :: p in flat ==> InRound(inb.w, p, 0, limit))
       && (forall i: nat :: i < |os| && i !in todo ==> IsOpen(inb, st, PatchSet(flat), i, os[i]))
       && (forall i :: i in todo ==> os[i] == Opened(None, None, [], 0))
  }

  lemma IsOpenStays(inb: Inbound, st: Store, pend: set<Patch>, st2: Store, pend2: set<Patch>, i: nat, o: Opened)
    requires inb.Valid() && i < |inb.requests| && IsOpen(inb, st, pend, i, o) && Adds(st, pend, st2, pend2)
    ensures IsOpen(inb, st2, pend2, i, o)
  {
    hide Ready, MessageFault;
    if inb.replies[i].Answered? {
      ReadyStays(inb.w, st, pend, st2, pend2, inb.MetaOf(i), inb.requests[i].mask, inb.replies[i].msg,
                 o.base, o.err, o.body.value.ref, o.patches);
    }
  }

  /** One more request is opened. */
  lemma OpeningStep(inb: Inbound, st: Store, st2: Store, os: seq<Opened>, todo: set<nat>, limit: nat, i: nat, o: Opened)
    requires Opening(inb, st, os, todo, limit) && i in todo
    requires var pend := PatchSet(Flatten(PatchLists(os)));
             && Sound(inb.w, st2, pend + PatchSet(o.patches)) && Adds(st, pend, st2, pend + PatchSet(o.patches))
             && IsOpen(inb, st2, pend + PatchSet(o.patches), i, o)
    requires DistinctSlots(o.patches)
    requires forall p :: p in o.patches ==> p.slot.addr >= |st| && InRound(inb.w, p, 0, limit)
    ensures Opening(inb, st2, os[i := o], todo - {i}, limit)
  {
    hide Sound, IsOpen, Adds, InRound;
    var lists, lists2 := PatchLists(os), PatchLists(os[i := o]);
    assert lists2 == lists[i := o.patches] && lists[i] == [];
    FlattenFill(lists, i, o.patches);
    var flat, flat2 := Flatten(lists), Flatten(lists2);
    assert PatchSet(flat2) == PatchSet(flat) + PatchSet(o.patches);
    forall p | p in flat ensures p.slot.addr < |st| {
      SoundBelow(inb.w, st, PatchSet(flat), p);
    }
    DistinctInserted(Flatten(lists[..i]), o.patches, Flatten(lists[i + 1..]), |st|);
    forall j: nat | j < |os| && j !in todo - {i} ensures IsOpen(inb, st2, PatchSet(flat2), j, os[i := o][j]) {
      if j != i {
        IsOpenStays(inb, st, PatchSet(flat), st2, PatchSet(flat2), j, os[j]);
      }
    }
  }

  lemma DistinctInserted(a: seq<Patch>, b: seq<Patch>, c: seq<Patch>, bound: nat)
    requires DistinctSlots(a + c) && DistinctSlots(b)
    requires (forall p :: p in a + c ==> p.slot.addr < bound) && (forall p :: p in b ==> p.slot.addr >= bound)
    ensures DistinctSlots(a + b + c)
  {
    var all, rest := a + b + c, a + c;
    forall i, j | 0 <= i < j < |all| ensures all[i].slot != all[j].slot {
      var i' := if i < |a| then i else i - |b|;
      var j' := if j < |a| then j else j - |b|;
      if i < |a| || i >= |a| + |b| {
        assert all[i] == rest[i'] && rest[i'] in rest;
      } else {
        assert all[i] in b;
      }
      if j < |a| || j >= |a| + |b| {
        assert all[j] == rest[j'] && rest[j'] in rest;
      } else {
        assert all[j] in b;
      }
    }
  }

  /** Why request i fails the whole call before any stitching. */
  ghost predicate EntryFails(inb: Inbound, i: nat, failure: Failure)
    requires inb.Valid() && i < |inb.requests|
  {
    match inb.replies[i]
    case CallFailed(e) => !inb.CaughtAt(i) && failure == CallAborted(e)
    case Unreadable => failure == UnreadableReply
    case Answered(m) =>
      var cause := MessageFault(inb.w.types, m, inb.requests[i].mask);
      cause.Some? && failure == Unformattable(cause.value)
  }

  // ----- all entry responses together

  lemma AbortsOfUnion(w: World, fails: Failures, a: seq<Patch>, b: seq<Patch>)
    ensures AbortsOf(w, fails, PatchSet(a + b)) == AbortsOf(w, fails, PatchSet(a)) + AbortsOf(w, fails, PatchSet(b))
    ensures VisitsOf(w, fails, PatchSet(a + b)) == VisitsOf(w, fails, PatchSet(a)) + VisitsOf(w, fails, PatchSet(b))
  {
    hide Aborts, Visits;
  }

  lemma OpenMeans(inb: Inbound, fails: Failures, st: Store, pend: set<Patch>, i: nat, o: Opened)
    requires inb.Valid() && i < |inb.requests| && IsOpen(inb, st, pend, i, o)
    ensures AbortsOf(inb.w, fails, PatchSet(o.patches))
         == AbortsOfSites(inb.w, fails, inb.SitesOf(i), inb.MetaOf(i), inb.CaughtAt(i))
    ensures VisitsOf(inb.w, fails, PatchSet(o.patches))
         == VisitsOfSites(inb.w, fails, inb.SitesOf(i), inb.MetaOf(i), inb.CaughtAt(i))
  {
    hide Ready, MessageFault, Reach, Aborts, Visits;
    if inb.replies[i].Answered? {
      ReadyMeans(inb.w, fails, st, pend, inb.MetaOf(i), inb.requests[i].mask, inb.replies[i].msg,
                 o.base, o.err, o.body.value.ref, o.patches);
    }
  }

  /** The pending patches stand for the faults and batches the requests mean. */
  lemma {:induction false} OpeningMeans(inb: Inbound, fails: Failures, st: Store, os: seq<Opened>, limit: nat, k: nat)
    requires Opening(inb, st, os, {}, limit) && k <= |os|
    ensures AbortsOf(inb.w, fails, PatchSet(Flatten(PatchLists(os)[..k]))) == inb.CallAborts(fails, k)
    ensures VisitsOf(inb.w, fails, PatchSet(Flatten(PatchLists(os)[..k]))) == inb.CallVisits(fails, k)
  {
    hide IsOpen, Sound, AbortsOf, VisitsOf, AbortsOfSites, VisitsOfSites, InRound, Flatten, PatchSet, DistinctSlots;
    if k == 0 {
      NothingPending(inb.w, fails, PatchLists(os));
    } else {
      OpeningMeans(inb, fails, st, os, limit, k - 1);
      OpenMeans(inb, fails, st, PatchSet(Flatten(PatchLists(os))), k - 1, os[k - 1]);
      OneMoreList(inb.w, fails, PatchLists(os), k);
    }
  }

  lemma OneMoreList(w: World, fails: Failures, lists: seq<seq<Patch>>, k: nat)
    requires 0 < k <= |lists|
    ensures var before, now := PatchSet(Flatten(lists[..k - 1])), PatchSet(Flatten(lists[..k]));
            && AbortsOf(w, fails, now) == AbortsOf(w, fails, before) + AbortsOf(w, fails, PatchSet(lists[k - 1]))
            && VisitsOf(w, fails, now) == VisitsOf(w, fails, before) + VisitsOf(w, fails, PatchSet(lists[k - 1]))
  {
    hide AbortsOf, VisitsOf, Flatten;
    assert lists[..k] == lists[..k - 1] + [lists[k - 1]];
    FlattenAppend(lists[..k - 1], lists[k - 1]);
    AbortsOfUnion(w, fails, Flatten(lists[..k - 1]), lists[k - 1]);
  }

  lemma NothingPending(w: World, fails: Failures, lists: seq<seq<Patch>>)
    ensures var none := PatchSet(Flatten(lists[..0])); AbortsOf(w, fails, none) == {} && VisitsOf(w, fails, none) == {}
  {
    assert PatchSet(Flatten(lists[..0])) == {};
  }

  // ----- bodies once stitching is done

  /** The body a request ends with: its error slot's content where there is one, else its response. */
  function FinalBody(st: Store, o: Opened): Body
    requires o.body.Some? && (o.err.Some? ==> o.err.value.addr < |st|)
  {
    if o.err.Some? && o.err.value.name in st[o.err.value.addr] then Replaced(st[o.err.value.addr][o.err.value.name])
    else o.body.value
  }

  lemma FinalMeans(inb: Inbound, fails: Failures, st0: Store, pend: set<Patch>, st: Store, i: nat, o: Opened)
    requires inb.Valid() && i < |inb.requests| && IsOpen(inb, st0, pend, i, o)
    requires Refined(inb.w, fails, st0, pend, st, {})
    ensures o.body.Some? && (o.err.Some? ==> o.err.value.addr < |st|)
    ensures inb.AnswerMeans(fails, st, i, FinalBody(st, o))
  {
    hide MessageFault, Reach, TreeMessage, Read, Refines, EscapesOfSites, FormattedMessage, Window, Latest;
    if inb.replies[i].Answered? {
      var m, meta, ref := inb.replies[i].msg, inb.MetaOf(i), o.body.value.ref;
      ReadyMeans(inb.w, fails, st0, pend, meta, inb.requests[i].mask, m, o.base, o.err, ref, o.patches);
      FinalTree(inb.w, fails, st0, pend, st, ref);
      if o.err.Some? {
        ErrorRootMeans(inb.w, fails, st0, pend, o.base - 1, o.patches);
        FinalError(inb.w, fails, st0, pend, st, o.base - 1);
      }
    }
  }

  lemma FinalTree(w: World, fails: Failures, st0: Store, pend: set<Patch>, st: Store, ref: Ref)
    requires Refined(w, fails, st0, pend, st, {}) && RefBelow(ref, |st0|)
    ensures Refines(FinishedRef(st, -1, ref), ReadRef(w, fails, st0, pend, -1, ref))
  {
    hide Read, Finished;
    if ref.Struct? {
      ReadFinished(w, fails, st, ref.addr);
    }
  }

  /** The error struct ends up holding an error exactly when faults escape, and then one of the latest. */
  lemma FinalError(w: World, fails: Failures, st0: Store, pend: set<Patch>, st: Store, a: nat)
    requires Refined(w, fails, st0, pend, st, {}) && a < |st0|
    requires var faults := Incoming(w, fails, pend, Slot(a, ERROR_NAME));
             Read(w, fails, st0, pend, a)
               == Obj(if faults == {} then map[] else map[ERROR_NAME := OneOf(Latest(faults))])
    ensures var faults := Incoming(w, fails, pend, Slot(a, ERROR_NAME));
            && (ERROR_NAME in st[a] <==> faults != {})
            && (faults != {} ==> st[a][ERROR_NAME].Failed? && st[a][ERROR_NAME].fault in Latest(faults))
  {
    hide Read, Incoming, Latest;
    ReadFinished(w, fails, st, a);
    var x, y := Finished(st, a), Read(w, fails, st0, pend, a);
    assert Refines(x, y);
    assert x.fields.Keys == st[a].Keys && x.fields.Keys == y.fields.Keys;
    var faults := Incoming(w, fails, pend, Slot(a, ERROR_NAME));
    if faults != {} {
      assert y.fields[ERROR_NAME] == OneOf(Latest(faults));
      assert NodeRefines(x.fields[ERROR_NAME], y.fields[ERROR_NAME]);
      assert x.fields[ERROR_NAME] == FinishedCell(st, a, st[a][ERROR_NAME]);
    }
  }

  // ----- the whole call

  datatype Answer = Answer(name: string, body: Body, schema: Schema)

  /** The first request that validation refuses, and why. */
  ghost predicate FirstRefused(w: World, methods: Methods, requests: seq<Request>, forFetch: bool, kind: RpcKind,
                               i: nat, failure: SchemaFailure)
  {
    && i < |requests| && ResponseSchema(w, methods, requests[i], forFetch, kind) == Err(failure)
    && forall j :: 0 <= j < i ==> ResponseSchema(w, methods, requests[j], forFetch, kind).Ok?
  }

  ghost predicate AllAccepted(w: World, methods: Methods, requests: seq<Request>, forFetch: bool, kind: RpcKind) {
    forall q :: q in requests ==> ResponseSchema(w, methods, q, forFetch, kind).Ok?
  }

  /** Every request has a readable body and gets its schema and the body it means, no failure is left that should have
      failed the call, and exactly the batches the queries use were called. */
  ghost predicate AnswersMean(inb: Inbound, forFetch: bool, calls: Calls, st: Store, answers: seq<Answer>) {
    && inb.Valid() && |answers| == |inb.requests|
    && (forall i :: 0 <= i < |answers| ==>
         && answers[i].name == inb.requests[i].name && inb.requests[i].bodyParses
         && ResponseSchema(inb.w, inb.methods, inb.requests[i], forFetch, Unary) == Ok(answers[i].schema))
    && (forall fails :: Consistent(fails, calls) ==>
         && inb.CallAborts(fails, |inb.requests|) == {}
         && calls.Keys == VisitKeys(inb.CallVisits(fails, |inb.requests|))
         && forall i :: 0 <= i < |answers| ==> inb.AnswerMeans(fails, st, i, answers[i].body))
  }

  /** This fault fails the call whatever the batches not called would have done, and none does in an earlier round. */
  ghost predicate FailsFirst(inb: Inbound, calls: Calls, fault: Fault)
    requires inb.Valid()
  {
    forall fails :: Consistent(fails, calls) ==>
      && fault in inb.CallAborts(fails, |inb.requests|)
      && forall other :: other in inb.CallAborts(fails, |inb.requests|) ==> fault.Round() <= other.Round()
  }

  /** The requests use this batch, whatever the batches not called would have done. */
  ghost predicate UsedByCall(inb: Inbound, calls: Calls, key: GroupKey, caught: bool)
    requires inb.Valid()
  {
    forall fails :: Consistent(fails, calls) ==> Visit(key, caught) in inb.CallVisits(fails, |inb.requests|)
  }

  /** Why the call fails. */
  ghost predicate FailureMeans(inb: Inbound, forFetch: bool, calls: Calls, failure: Failure) {
    match failure
    case BadQuery(f) =>
      calls == map[] && exists i :: FirstRefused(inb.w, inb.methods, inb.requests, forFetch, Unary, i, f)
    case BadBody =>
      && calls == map[] && AllAccepted(inb.w, inb.methods, inb.requests, forFetch, Unary)
      && exists q :: q in inb.requests && !q.bodyParses
    case StitchAborted(fault) => inb.Valid() && FailsFirst(inb, calls, fault)
    case Crash(key) =>
      && inb.Valid() && key in calls && calls[key].Some?
      && UsedByCall(inb, calls, key, true) && UsedByCall(inb, calls, key, false)
      && FailsFirst(inb, calls, Fault(key, ResolverFailed(calls[key].value)))
    case _ => calls == map[] && inb.Valid() && exists i :: 0 <= i < |inb.requests| && EntryFails(inb, i, failure)
  }

  /** Each resolver call is for a batch the requests use, told the inbound operation, its request's entry method and
      the resolver RPCs on the way down to it. */
  ghost predicate CallsMean(inb: Inbound, calls: Calls) {
    forall key :: key in calls ==>
      && inb.Valid() && (UsedByCall(inb, calls, key, true) || UsedByCall(inb, calls, key, false))
      && ToldOperations(inb, key)
  }

  ghost predicate ToldOperations(inb: Inbound, key: GroupKey)
    requires inb.Valid()
  {
    exists i: nat :: i < |inb.requests|
      && Root(key.meta) == inb.MetaOf(i)
      && key.meta.operations == [inb.operation, inb.methods[inb.requests[i].name].operation] + Rpcs(inb.w, key.meta)
  }

  lemma {:induction false} VisitsStayUnderRoot(w: World, fails: Failures, s: Site, meta: Meta, above: bool)
    ensures forall v :: v in Visits(w, fails, s, meta, above) ==> Root(v.key.meta) == Root(meta)
    decreases EntryDepth(s.entry)
  {
    hide ReachValue;
    var key := KeyOf(s, meta);
    var r := Resolution(w, fails, s, meta);
    if r.Some? {
      forall t | t in ReachValue(w.types, r.value.0, r.value.1, s.entry.mask)
        ensures forall v :: v in Visits(w, fails, t, w.Next(key), above || w.Catches(s.entry)) ==>
                  Root(v.key.meta) == Root(meta)
      {
        VisitsStayUnderRoot(w, fails, t, w.Next(key), above || w.Catches(s.entry));
      }
    }
  }

  lemma {:induction false} VisitsOfRequests(inb: Inbound, fails: Failures, k: nat, v: Visit)
    requires inb.Valid() && k <= |inb.requests| && v in inb.CallVisits(fails, k)
    ensures exists i: nat, s ::
              i < k && s in inb.SitesOf(i)
              && v in Visits(inb.w, fails, s, inb.MetaOf(i), inb.CaughtAt(i))
  {
    hide Reach, Visits;
    if v in inb.CallVisits(fails, k - 1) {
      VisitsOfRequests(inb, fails, k - 1, v);
    } else {
      var s :| s in inb.SitesOf(k - 1) && v in Visits(inb.w, fails, s, inb.MetaOf(k - 1), inb.CaughtAt(k - 1));
    }
  }

  /** A used batch that is told its chain is told this list. */
  lemma UsedToldOperations(inb: Inbound, fails: Failures, v: Visit)
    requires inb.Valid() && v in inb.CallVisits(fails, |inb.requests|)
    requires v.key.meta.operations == Chain(inb.w, v.key.meta)
    ensures ToldOperations(inb, v.key)
  {
    hide Reach, Visits;
    VisitsOfRequests(inb, fails, |inb.requests|, v);
    var i: nat, s :| i < |inb.requests| && s in inb.SitesOf(i) && v in Visits(inb.w, fails, s, inb.MetaOf(i),
                                                            inb.CaughtAt(i));
    VisitsStayUnderRoot(inb.w, fails, s, inb.MetaOf(i), inb.CaughtAt(i));
    ChainFromRoot(inb.w, v.key.meta);
  }

  lemma AcceptedCall(inb: Inbound, forFetch: bool, kind: RpcKind)
    requires |inb.replies| == |inb.requests| && AllAccepted(inb.w, inb.methods, inb.requests, forFetch, kind)
    ensures inb.Valid()
  {
    hide SchemaOf;
    forall i | 0 <= i < |inb.requests| ensures inb.requests[i].name in inb.methods && WellFormed(inb.requests[i].mask) {
      var q := inb.requests[i];
      assert q in inb.requests;
      AcceptedWellFormed(inb.w, inb.methods[q.name].output, q.mask);
    }
  }

  function Indices(n: nat): (s: set<nat>)
    ensures forall i :: i in s <==> 0 <= i < n
  {
    if n == 0 then {} else Indices(n - 1) + {n - 1}
  }

  lemma NothingOpen(inb: Inbound, os: seq<Opened>, todo: set<nat>, limit: nat)
    requires inb.Valid() && |os| == |inb.requests| && (forall i :: 0 <= i < |os| ==> os[i] == Opened(None, None, [], 0))
    requires todo == Indices(|os|)
    ensures Opening(inb, [], os, todo, limit)
  {
    NothingFlat(PatchLists(os));
  }

  lemma {:induction false} NothingFlat(lists: seq<seq<Patch>>)
    requires forall i :: 0 <= i < |lists| ==> lists[i] == []
    ensures Flatten(lists) == []
  {
    if lists != [] {
      NothingFlat(lists[..|lists| - 1]);
    }
  }

  lemma OpeningFacts(inb: Inbound, st: Store, os: seq<Opened>, todo: set<nat>, limit: nat)
    requires Opening(inb, st, os, todo, limit)
    ensures inb.Valid() && |os| == |inb.requests| && forall i :: i in todo ==> i < |os|
    ensures Sound(inb.w, st, PatchSet(Flatten(PatchLists(os)))) && DistinctSlots(Flatten(PatchLists(os)))
    ensures forall p :: p in Flatten(PatchLists(os)) ==> InRound(inb.w, p, 0, limit)
  {
    hide Sound, InRound, IsOpen;
  }

  /** What stitching says of the pending patches, said of the requests. */
  lemma CallsOfRequests(inb: Inbound, st: Store, os: seq<Opened>, limit: nat, calls: Calls)
    requires Opening(inb, st, os, {}, limit)
    ensures var start := PatchSet(Flatten(PatchLists(os)));
            && (forall fault :: AbortsFirst(inb.w, calls, start, fault) ==> FailsFirst(inb, calls, fault))
            && (forall key, caught :: Used(inb.w, calls, start, key, caught) ==> UsedByCall(inb, calls, key, caught))
            && (Recorded(map[], calls, inb.w, start) ==> CallsMean(inb, calls))
  {
    hide Opening, Flatten, PatchSet, AbortsOf, VisitsOf, ToldOperations, Chain;
    OpeningFacts(inb, st, os, {}, limit);
    assert PatchLists(os)[..|os|] == PatchLists(os);
    var start := PatchSet(Flatten(PatchLists(os)));
    forall fails
      ensures AbortsOf(inb.w, fails, start) == inb.CallAborts(fails, |os|)
      ensures VisitsOf(inb.w, fails, start) == inb.CallVisits(fails, |os|)
    {
      OpeningMeans(inb, fails, st, os, limit, |os|);
    }
    if Recorded(map[], calls, inb.w, start) {
      forall key | key in calls ensures ToldOperations(inb, key) {
        var caught := Used(inb.w, calls, start, key, true);
        assert Used(inb.w, calls, start, key, caught);
        assert Visit(key, caught) in inb.CallVisits(FailuresOf(calls), |os|);
        UsedToldOperations(inb, FailuresOf(calls), Visit(key, caught));
      }
    }
  }

  lemma StitchedAnswers(inb: Inbound, st0: Store, os: seq<Opened>, limit: nat, calls: Calls, st: Store)
    requires Opening(inb, st0, os, {}, limit)
    requires KeptSoFar(inb.w, calls, st0, PatchSet(Flatten(PatchLists(os))), st, {})
    ensures forall i :: 0 <= i < |os| ==> os[i].body.Some? && (os[i].err.Some? ==> os[i].err.value.addr < |st|)
    requires CallsMean(inb, calls)
    ensures forall fails :: Consistent(fails, calls) ==>
              && inb.CallAborts(fails, |os|) == {}
              && calls.Keys == VisitKeys(inb.CallVisits(fails, |os|))
              && forall i :: 0 <= i < |os| ==> inb.AnswerMeans(fails, st, i, FinalBody(st, os[i]))
  {
    hide Sound, InRound, IsOpen, AbortsOf, VisitsOf, Refined, FinalBody, Flatten, PatchSet;
    var start := PatchSet(Flatten(PatchLists(os)));
    forall i | 0 <= i < |os| ensures os[i].body.Some? && (os[i].err.Some? ==> os[i].err.value.addr < |st|) {
      assert Keeps(inb.w, FailuresOf(calls), st0, start, st, {});
      FinalMeans(inb, FailuresOf(calls), st0, start, st, i, os[i]);
    }
    forall fails | Consistent(fails, calls)
      ensures inb.CallAborts(fails, |os|) == {} && calls.Keys == VisitKeys(inb.CallVisits(fails, |os|))
      ensures forall i :: 0 <= i < |os| ==> inb.AnswerMeans(fails, st, i, FinalBody(st, os[i]))
    {
      assert Keeps(inb.w, fails, st0, start, st, {});
      assert PatchLists(os)[..|os|] == PatchLists(os);
      OpeningMeans(inb, fails, st0, os, limit, |os|);
      NoneLeft(inb.w, fails);
      AllCalled(inb, calls, fails, start);
      forall i | 0 <= i < |os| ensures inb.AnswerMeans(fails, st, i, FinalBody(st, os[i])) {
        FinalMeans(inb, fails, st0, start, st, i, os[i]);
      }
    }
  }

  lemma NoneLeft(w: World, fails: Failures)
    ensures AbortsOf(w, fails, {}) == {}
  {
  }

  /** With nothing pending any more, the batches in use are those called. */
  lemma AllCalled(inb: Inbound, calls: Calls, fails: Failures, start: set<Patch>)
    requires inb.Valid() && CallsMean(inb, calls) && Consistent(fails, calls)
    requires VisitsOf(inb.w, fails, start) == inb.CallVisits(fails, |inb.requests|)
    requires NoneDropped(inb.w, fails, calls.Keys, start, {})
    ensures calls.Keys == VisitKeys(inb.CallVisits(fails, |inb.requests|))
  {
    hide Visits, ToldOperations;
    forall key | key in calls ensures key in VisitKeys(inb.CallVisits(fails, |inb.requests|)) {
      if UsedByCall(inb, calls, key, true) {
        assert Visit(key, true) in inb.CallVisits(fails, |inb.requests|);
      } else {
        assert Visit(key, false) in inb.CallVisits(fails, |inb.requests|);
      }
    }
  }

  lemma EntryFailureMeans(inb: Inbound, forFetch: bool, i: nat, failure: Failure)
    requires inb.Valid() && i < |inb.requests| && EntryFails(inb, i, failure)
    ensures FailureMeans(inb, forFetch, map[], failure)
  {
  }

  lemma RefusalMeans(inb: Inbound, forFetch: bool, failure: SchemaFailure)
    requires exists i :: FirstRefused(inb.w, inb.methods, inb.requests, forFetch, Unary, i, failure)
    ensures FailureMeans(inb, forFetch, map[], BadQuery(failure))
  {
    hide ResponseSchema;
  }

  lemma BadBodyMeans(inb: Inbound, forFetch: bool, i: nat)
    requires AllAccepted(inb.w, inb.methods, inb.requests, forFetch, Unary) && i < |inb.requests|
    requires !inb.requests[i].bodyParses
    ensures FailureMeans(inb, forFetch, map[], BadBody)
  {
    hide ResponseSchema;
    assert inb.requests[i] in inb.requests;
  }

  lemma StoppedMeans(inb: Inbound, forFetch: bool, calls: Calls, outcome: Outcome)
    requires inb.Valid() && !outcome.Done?
    requires outcome.Aborted? ==> FailsFirst(inb, calls, outcome.fault)
    requires outcome.Panicked? ==>
               && outcome.key in calls && calls[outcome.key].Some?
               && UsedByCall(inb, calls, outcome.key, true) && UsedByCall(inb, calls, outcome.key, false)
               && FailsFirst(inb, calls, Fault(outcome.key, ResolverFailed(calls[outcome.key].value)))
    ensures FailureMeans(inb, forFetch, calls,
                         if outcome.Aborted? then StitchAborted(outcome.fault) else Crash(outcome.key))
  {
    hide FailsFirst, UsedByCall;
  }

  lemma AnswersGiven(inb: Inbound, forFetch: bool, calls: Calls, st: Store, os: seq<Opened>, schemas: seq<Schema>,
                     answers: seq<Answer>)
    requires inb.Valid() && |os| == |inb.requests| == |schemas| == |answers|
    requires forall i :: 0 <= i < |inb.requests| ==> inb.requests[i].bodyParses
    requires forall i :: 0 <= i < |os| ==> os[i].body.Some? && (os[i].err.Some? ==> os[i].err.value.addr < |st|)
    requires forall fails :: Consistent(fails, calls) ==>
               && inb.CallAborts(fails, |os|) == {}
               && calls.Keys == VisitKeys(inb.CallVisits(fails, |os|))
               && forall i :: 0 <= i < |os| ==> inb.AnswerMeans(fails, st, i, FinalBody(st, os[i]))
    requires forall i :: 0 <= i < |schemas| ==>
              ResponseSchema(inb.w, inb.methods, inb.requests[i], forFetch, Unary) == Ok(schemas[i])
    requires forall i :: 0 <= i < |answers| ==>
              answers[i] == Answer(inb.requests[i].name, FinalBody(st, os[i]), schemas[i])
    ensures AnswersMean(inb, forFetch, calls, st, answers)
  {
    hide ResponseSchema, FinalBody;
  }

  class Handler {
    const gateway: World
    const methods: Methods
    const resolver: Resolver
    const maxParallelism: nat

    constructor (gateway: World, methods: Methods, resolver: Resolver, maxParallelism: nat)
      ensures this.gateway == gateway && this.methods == methods && this.resolver == resolver
      ensures this.maxParallelism == maxParallelism
    {
      this.gateway, this.methods, this.resolver, this.maxParallelism := gateway, methods, resolver, maxParallelism;
    }

    method ComputeResponseSchema(w: World, q: Request, forFetch: bool, kind: RpcKind) returns (r: Result<Schema,
                                 SchemaFailure>)
      ensures r == ResponseSchema(w, methods, q, forFetch, kind)
    {
      if !q.validName {
        return Err(InvalidName);
      }
      if q.name !in methods {
        return Err(Unimplemented);
      }
      var conf := methods[q.name];
      if conf.kind != kind {
        return Err(UnexpectedKind);
      }
      if forFetch && !conf.noSideEffects {
        return Err(HasSideEffects);
      }
      var schema := ComputeSchema(w, conf.output, q.mask);
      r := if schema.Err? then Err(InvalidMask(schema.error)) else Ok(schema.value);
    }

    method ComputeResponseSchemas(w: World, requests: seq<Request>, forFetch: bool, kind: RpcKind)
      returns (failure: Option<SchemaFailure>, schemas: seq<Schema>)
      ensures failure.None? ==> |schemas| == |requests|
      ensures failure.None? ==>
                forall i :: 0 <= i < |requests| ==>
                  ResponseSchema(w, methods, requests[i], forFetch, kind) == Ok(schemas[i])
      ensures failure.Some? ==> exists i :: FirstRefused(w, methods, requests, forFetch, kind, i, failure.value)
    {
      hide ResponseSchema;
      schemas := [];
      for i := 0 to |requests|
        invariant |schemas| == i
        invariant forall j :: 0 <= j < i ==> ResponseSchema(w, methods, requests[j], forFetch, kind) == Ok(schemas[j])
      {
        var schema := ComputeResponseSchema(w, requests[i], forFetch, kind);
        if schema.Err? {
          assert FirstRefused(w, methods, requests, forFetch, kind, i, schema.error);
          return Some(schema.error), [];
        }
        schemas := schemas + [schema.value];
      }
      failure := None;
    }

    /** Calls one entry point and formats its response (handler.go:105-165). */
    method OpenEntry(w: World, heap: StructHeap, operation: string, q: Request, reply: Reply,
                     ghost inb: Inbound, i: nat, ghost os: seq<Opened>, ghost todo: set<nat>)
      returns (failure: Option<Failure>, o: Opened)
      requires Opening(inb, heap.structs, os, todo, Deepest(inb.requests)) && i in todo
      requires w == inb.w && operation == inb.operation && methods == inb.methods
      requires i < |inb.requests| && |inb.requests| == |inb.replies| && q == inb.requests[i] && reply == inb.replies[i]
      modifies heap
      ensures failure.None? ==> Opening(inb, heap.structs, os[i := o], todo - {i}, Deepest(inb.requests))
      ensures failure.Some? ==> inb.Valid() && EntryFails(inb, i, failure.value)
    {
      hide Opening, Reach, FormattedMessage, Sound, Ready, InRound;
      OpeningFacts(inb, heap.structs, os, todo, Deepest(inb.requests));
      ghost var st := heap.structs;
      o := Opened(None, None, [], 0);
      var catch := w.fallbackCatch;
      match q.onError {
        case Catch => catch := true;
        case Throw => catch := false;
        case Unset =>
      }
      match reply
      case CallFailed(e) =>
        if !catch {
          return Some(CallAborted(e)), o;
        }
        o := Opened(Some(CallError(e)), None, [], 0);
        failure := None;
        ErrorOpened(inb, st, os, todo, i, o);
      case Unreadable =>
        failure := Some(UnreadableReply);
      case Answered(m) =>
        var meta := Entry(i, [operation, methods[q.name].operation]);
        var err := None;
        if catch {
          var addr := heap.New();
          err := Some(Slot(addr, ERROR_NAME));
        }
        var base := |heap.structs|;
        var body, patches := heap.FormatMessage(Ctx(w.types, w.fallbackCatch, meta, err), m, q.mask);
        if body.Err? {
          return Some(Unformattable(body.error)), o;
        }
        o := Opened(Some(Projection(body.value)), err, patches, base);
        failure := None;
        MessageOpened(inb, st, heap.structs, os, todo, i, m, o);
    }

    lemma ErrorOpened(inb: Inbound, st: Store, os: seq<Opened>, todo: set<nat>, i: nat, o: Opened)
      requires Opening(inb, st, os, todo, Deepest(inb.requests)) && i in todo && i < |inb.replies| == |inb.requests|
      requires inb.replies[i].CallFailed? && inb.CaughtAt(i)
      requires o == Opened(Some(CallError(inb.replies[i].error)), None, [], 0)
      ensures Opening(inb, st, os[i := o], todo - {i}, Deepest(inb.requests))
    {
      hide Opening, Sound, InRound;
      OpeningFacts(inb, st, os, todo, Deepest(inb.requests));
      var pend := PatchSet(Flatten(PatchLists(os)));
      assert pend + PatchSet(o.patches) == pend;
      OpeningStep(inb, st, st, os, todo, Deepest(inb.requests), i, o);
    }

    lemma MessageOpened(inb: Inbound, st: Store, st2: Store, os: seq<Opened>, todo: set<nat>, i: nat, m: Msg, o: Opened)
      requires Opening(inb, st, os, todo, Deepest(inb.requests)) && inb.Valid() && i in todo && i < |inb.requests|
      requires inb.replies[i] == Answered(m) && MessageFault(inb.w.types, m, inb.requests[i].mask).None?
      requires o.err == if inb.CaughtAt(i) then Some(Slot(|st|, ERROR_NAME)) else None
      requires var r := FormattedMessage(Ctx(inb.w.types, inb.w.fallbackCatch, inb.MetaOf(i), o.err), o.base, m,
                                         inb.requests[i].mask);
               && o.base == |st| + (if o.err.Some? then 1 else 0) && o.body == Some(Projection(r.out))
               && o.patches == r.patches
               && st2 == (if o.err.Some? then st + [map[]] else st) + r.structs
      ensures Opening(inb, st2, os[i := o], todo - {i}, Deepest(inb.requests))
    {
      hide Opening, Reach, FormattedMessage, Sound, Ready, Adds, MessageFault;
      var limit, mask, meta := Deepest(inb.requests), inb.requests[i].mask, inb.MetaOf(i);
      assert inb.requests[i] in inb.requests;
      OpeningFacts(inb, st, os, todo, limit);
      var pend := PatchSet(Flatten(PatchLists(os)));
      OpeningAdds(inb.w, st, pend, meta, mask, m, o.err);
      MatchingMessage(inb.w, meta, mask, m, o.base, o.err);
      var c := Ctx(inb.w.types, inb.w.fallbackCatch, meta, o.err);
      NewMessagePatches(inb.w, c, o.base, m, mask);
      MessagePatchAddresses(c, o.base, m, mask);
      OpeningStep(inb, st, st2, os, todo, limit, i, o);
    }

    lemma MessagePatchAddresses(c: Ctx, base: nat, m: Msg, mask: seq<Mask>)
      requires WellFormed(mask)
      ensures forall p :: p in FormattedMessage(c, base, m, mask).patches ==> p.slot.addr >= base
    {
      hide FormattedMessage;
      MessagePlaced(c, base, m, mask);
    }

    /** Calls all entry points, in any order. */
    method OpenAll(w: World, heap: StructHeap, sema: Parallelism.Sema, operation: string, requests: seq<Request>,
                   replies: seq<Reply>, ghost inb: Inbound)
      returns (failure: Option<Failure>, os: seq<Opened>)
      requires inb == Inbound(w, methods, operation, requests, replies) && inb.Valid() && heap.structs == []
      requires sema.held == 0
      modifies heap, sema
      ensures sema.held == 0
      ensures failure.None? ==> Opening(inb, heap.structs, os, {}, Deepest(requests))
      ensures failure.Some? ==> exists i :: 0 <= i < |requests| && EntryFails(inb, i, failure.value)
    {
      hide Opening, EntryFails;
      os := seq(|requests|, _ => Opened(None, None, [], 0));
      var todo := Indices(|requests|);
      NothingOpen(inb, os, todo, Deepest(requests));
      while todo != {}
        invariant Opening(inb, heap.structs, os, todo, Deepest(requests)) && |os| == |requests|
        invariant todo <= Indices(|requests|) && sema.held == 0
        decreases |todo|
      {
        var i :| i in todo;
        var o;
        sema.Acquire();
        failure, o := OpenEntry(w, heap, operation, requests[i], replies[i], inb, i, os, todo);
        sema.Release();
        if failure.Some? {
          return;
        }
        os := os[i := o];
        todo := todo - {i};
      }
      failure := None;
    }

    /** Answers a Do call, or a Fetch call; the entry points are called in any order. */
    method Do(operation: string, requests: seq<Request>, forFetch: bool, replies: seq<Reply>)
      returns (r: Result<seq<Answer>, Failure>, stitcher: Stitcher, ghost rounds: nat)
      requires Pointwise(gateway.(fallbackCatch := !forFetch), resolver) && |replies| == |requests|
      ensures fresh(stitcher) && fresh(stitcher.heap) && fresh(stitcher.sema) && stitcher.sema.limit == maxParallelism
      ensures !(r.Err? && r.error.Crash?) ==> stitcher.sema.held == 0
      ensures var inb := Inbound(gateway.(fallbackCatch := !forFetch), methods, operation, requests, replies);
              && (r.Ok? ==> AnswersMean(inb, forFetch, stitcher.calls, stitcher.heap.structs, r.value))
              && (r.Err? ==> FailureMeans(inb, forFetch, stitcher.calls, r.error))
              && CallsMean(inb, stitcher.calls) && Honest(inb.w, resolver, stitcher.calls)
      ensures stitcher.callCount == |stitcher.calls| && rounds <= Deepest(requests)
      ensures r.Ok? && rounds > 0 ==> CalledIn(stitcher.calls, rounds - 1)
    {
      hide ResponseSchema, Opening, AnswersMean, FailsFirst, UsedByCall, AbortsFirst, Used, KeptSoFar, Pointwise;
      hide CallsMean, Recorded, EntryFails, CalledIn, Honest;
      hide Sound, InRound, DistinctSlots, FailureMeans, Flatten, PatchSet, Deepest;
      rounds := 0;
      var w := gateway.(fallbackCatch := !forFetch);
      var heap := new StructHeap();
      var sema := new Parallelism.Sema(maxParallelism);
      stitcher := new Stitcher(w, resolver, heap, sema);
      ghost var inb := Inbound(w, methods, operation, requests, replies);
      NoCalls(inb);
      NoCallsHonest(w, resolver);
      var refused, schemas := ComputeResponseSchemas(w, requests, forFetch, Unary);
      if refused.Some? {
        RefusalMeans(inb, forFetch, refused.value);
        return Err(BadQuery(refused.value)), stitcher, 0;
      }
      assert AllAccepted(w, methods, requests, forFetch, Unary);
      for i := 0 to |requests|
        invariant forall j :: 0 <= j < i ==> requests[j].bodyParses
      {
        if !requests[i].bodyParses {
          BadBodyMeans(inb, forFetch, i);
          return Err(BadBody), stitcher, 0;
        }
      }
      AcceptedCall(inb, forFetch, Unary);
      var failure, os := OpenAll(w, heap, sema, operation, requests, replies, inb);
      if failure.Some? {
        ghost var i :| 0 <= i < |requests| && EntryFails(inb, i, failure.value);
        EntryFailureMeans(inb, forFetch, i, failure.value);
        return Err(failure.value), stitcher, 0;
      }
      ghost var st := heap.structs;
      OpeningFacts(inb, st, os, {}, Deepest(requests));
      var outcome;
      outcome, rounds := stitcher.Stitch(PatchLists(os), Deepest(requests));
      CallsOfRequests(inb, st, os, Deepest(requests), stitcher.calls);
      match outcome
      case Aborted(fault) =>
        StoppedMeans(inb, forFetch, stitcher.calls, outcome);
        r := Err(StitchAborted(fault));
      case Panicked(key) =>
        StoppedMeans(inb, forFetch, stitcher.calls, outcome);
        r := Err(Crash(key));
      case Done =>
        StitchedAnswers(inb, st, os, Deepest(requests), stitcher.calls, heap.structs);
        var answers := Answers(heap, requests, os, schemas);
        AnswersGiven(inb, forFetch, stitcher.calls, heap.structs, os, schemas, answers);
        r := Ok(answers);
    }

    lemma NoCalls(inb: Inbound)
      ensures CallsMean(inb, map[])
    {
    }

    /** Puts the responses together; where an error reached a request's error slot, it replaces the body. */
    method Answers(heap: StructHeap, requests: seq<Request>, os: seq<Opened>,
                   schemas: seq<Schema>) returns (answers: seq<Answer>)
      requires |os| == |requests| == |schemas|
      requires forall i :: 0 <= i < |os| ==>
                os[i].body.Some? && (os[i].err.Some? ==> os[i].err.value.addr < |heap.structs|)
      ensures |answers| == |requests|
      ensures forall i :: 0 <= i < |answers| ==>
                answers[i] == Answer(requests[i].name, FinalBody(heap.structs, os[i]), schemas[i])
    {
      answers := seq(|os|, i requires 0 <= i < |os| => Answer(requests[i].name, os[i].body.value, schemas[i]));
      for i := 0 to |os|
        invariant |answers| == |os|
        invariant forall j :: 0 <= j < |os| ==>
                    answers[j]
                      == Answer(requests[j].name, if j < i then FinalBody(heap.structs, os[j]) else os[j].body.value,
                                schemas[j])
      {
        if os[i].err.Some? {
          var slot := os[i].err.value;
          if slot.name in heap.structs[slot.addr] {
            answers := answers[i := answers[i].(body := Replaced(heap.structs[slot.addr][slot.name]))];
          }
        }
      }
    }
  }
}
