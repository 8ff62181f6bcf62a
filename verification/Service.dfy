/** The gateway's two calls, Do and Fetch (handler.go:62-77), and what a client can rely on, said of the requests, the
    replies of the entry points and the answers of the resolvers alone. */
module Services {
  import opened Wrappers
  import opened Protobuf
  import opened Response
  import opened Format
  import opened Meaning
  import opened Reading
  import opened Schemas
  import opened Validation
  import opened Announcing
  import opened Shows
  import opened Stitching
  import opened Handlers
  import opened Guarantees

  // ----- which requests are refused

  /** Why validation refuses a request: the first of its checks that fails. */
  ghost predicate Refused(inb: Inbound, forFetch: bool, q: Request, failure: SchemaFailure) {
    if !q.validName then failure == InvalidName
    else if q.name !in inb.methods then failure == Unimplemented
    else if inb.methods[q.name].kind != Unary then failure == UnexpectedKind
    else if forFetch && !inb.methods[q.name].noSideEffects then failure == HasSideEffects
    else
      && !ValidMask(inb.w, inb.methods[q.name].output, q.mask)
      && failure.InvalidMask? && Blames(inb.w, inb.methods[q.name].output, q.mask, failure.error)
  }

  /** A request that validation lets pass: for a known unary method, without side effects in Fetch, with a valid
      mask. */
  ghost predicate Passes(inb: Inbound, forFetch: bool, q: Request) {
    && q.validName && q.name in inb.methods && inb.methods[q.name].kind == Unary
    && (forFetch ==> inb.methods[q.name].noSideEffects)
    && ValidMask(inb.w, inb.methods[q.name].output, q.mask)
  }

  lemma PassesExactly(inb: Inbound, forFetch: bool, q: Request)
    ensures match ResponseSchema(inb.w, inb.methods, q, forFetch, Unary)
            case Ok(schema) =>
              Passes(inb, forFetch, q) && SchemaAnnounces(inb.w, inb.methods[q.name].output, q.mask, schema)
            case Err(failure) => !Passes(inb, forFetch, q) && Refused(inb, forFetch, q, failure)
  {
    hide SchemaOf, ValidMask, Blames, SchemaAnnounces;
    if q.name in inb.methods {
      var typ := inb.methods[q.name].output;
      AcceptsExactly(inb.w, typ, q.mask);
      if Accepts(inb.w, typ, q.mask) {
        SchemaAnnounced(inb.w, typ, q.mask);
      } else {
        RefusalBlames(inb.w, typ, q.mask);
      }
    }
  }

  // ----- what an answer shows

  /** The error of an entry point becomes the body if the request says so or, in Do, says nothing. */
  predicate CatchesCall(q: Request, forFetch: bool) { q.onError.Catch? || (q.onError.Unset? && !forFetch) }

  /** The origin of a request's data: the inbound operation and the method called. */
  function Origin(inb: Inbound, i: nat): Meta
    requires i < |inb.requests| && inb.requests[i].name in inb.methods
  {
    Entry(i, [inb.operation, inb.methods[inb.requests[i].name].operation])
  }

  /** Answer i: a schema that announces the mask, and as body the entry point's error if that failed and is caught, else
      its message projected through the mask, or the error of a resolver if that is caught. */
  ghost predicate AnswerShows(inb: Inbound, forFetch: bool, calls: Calls, st: Store, i: nat, answer: Answer)
    requires i < |inb.requests| == |inb.replies|
  {
    var q := inb.requests[i];
    && answer.name == q.name && q.bodyParses && Passes(inb, forFetch, q)
    && SchemaAnnounces(inb.w, inb.methods[q.name].output, q.mask, answer.schema)
    && match inb.replies[i]
       case CallFailed(e) => CatchesCall(q, forFetch) && answer.body == CallError(e)
       case Unreadable => false
       case Answered(m) =>
         match answer.body
         case CallError(_) => false
         case Projection(ref) => BodyShows(inb, calls, m, i, FinishedRef(st, -1, ref))
         case Replaced(cell) =>
           CatchesCall(q, forFetch) && cell.Failed? && HasReason(inb.w, FailuresOf(calls), cell.fault)
           && cell.fault.cause.ResolverFailed?
  }

  /** The body shows the message; where it leaves a choice between errors, one of them. */
  ghost predicate BodyShows(inb: Inbound, calls: Calls, m: Msg, i: nat, body: Tree)
    requires i < |inb.requests| && inb.requests[i].name in inb.methods
  {
    exists x :: ShowsMessage(inb.w, FailuresOf(calls), m, inb.requests[i].mask, Origin(inb, i), x) && Refines(body, x)
  }

  ghost predicate AnswersShow(inb: Inbound, forFetch: bool, calls: Calls, st: Store, answers: seq<Answer>) {
    && |answers| == |inb.requests| == |inb.replies|
    && forall i :: 0 <= i < |answers| ==> AnswerShows(inb, forFetch, calls, st, i, answers[i])
  }

  /** If no resolver failed, every message answered is shown, exactly. */
  ghost predicate AllShown(inb: Inbound, forFetch: bool, calls: Calls, st: Store, answers: seq<Answer>)
    requires AnswersShow(inb, forFetch, calls, st, answers)
  {
    (forall key :: key in calls ==> calls[key].None?) ==>
      forall i :: 0 <= i < |answers| && inb.replies[i].Answered? ==>
        && answers[i].body.Projection?
        && var m, mask, body := inb.replies[i].msg, inb.requests[i].mask, FinishedRef(st, -1, answers[i].body.ref);
           ShowsMessage(inb.w, map[], m, mask, Origin(inb, i), body)
  }

  // ----- why a call fails

  ghost predicate FailsForReason(inb: Inbound, forFetch: bool, calls: Calls, failure: Failure) {
    match failure
    case BadQuery(refusal) =>
      && calls == map[]
      && exists i :: 0 <= i < |inb.requests| && Refused(inb, forFetch, inb.requests[i], refusal)
           && forall j :: 0 <= j < i ==> Passes(inb, forFetch, inb.requests[j])
    case BadBody =>
      && calls == map[] && (forall q :: q in inb.requests ==> Passes(inb, forFetch, q))
      && exists q :: q in inb.requests && !q.bodyParses
    case CallAborted(e) =>
      && calls == map[]
      && exists i :: 0 <= i < |inb.requests| == |inb.replies|
           && inb.replies[i] == CallFailed(e) && !CatchesCall(inb.requests[i], forFetch)
    case UnreadableReply => calls == map[] && Unreadable in inb.replies
    case Unformattable(cause) =>
      && calls == map[]
      && exists i :: 0 <= i < |inb.requests| == |inb.replies|
           && inb.replies[i].Answered? && FailsWith(inb.w.types, inb.replies[i].msg, inb.requests[i].mask, cause)
    case StitchAborted(fault) => HasReason(inb.w, FailuresOf(calls), fault)
    case Crash(key) => key in calls && calls[key].Some?
  }

  // ----- drawn from what Handler.Do ensures

  lemma AnswerShown(inb: Inbound, forFetch: bool, calls: Calls, st: Store, answers: seq<Answer>, i: nat)
    requires inb.w.fallbackCatch == !forFetch
    requires AnswersMean(inb, forFetch, calls, st, answers) && i < |answers|
    ensures AnswerShows(inb, forFetch, calls, st, i, answers[i])
  {
    hide Reach, TreeMessage, Refines, Finished, ResponseSchema, ShowsMessage, SchemaAnnounces, ValidMask, Escapes;
    hide HasReason, EscapesOfSites, WellFormed;
    var fails, q := FailuresOf(calls), inb.requests[i];
    PassesExactly(inb, forFetch, q);
    assert inb.AnswerMeans(fails, st, i, answers[i].body);
    if inb.replies[i].Answered? {
      var m := inb.replies[i].msg;
      MessageShows(inb.w, fails, m, q.mask, Origin(inb, i));
      CaughtFault(inb, calls, i);
    }
  }

  /** A fault that escapes a request is the error of a batch on record. */
  lemma CaughtFault(inb: Inbound, calls: Calls, i: nat)
    requires inb.Valid() && i < |inb.requests|
    ensures forall x :: x in EscapesOfSites(inb.w, FailuresOf(calls), inb.SitesOf(i), inb.MetaOf(i)) ==>
              HasReason(inb.w, FailuresOf(calls), x) && x.cause.ResolverFailed?
  {
    hide Reach, Escapes;
    var w, fails := inb.w, FailuresOf(calls);
    forall x | x in EscapesOfSites(w, fails, inb.SitesOf(i), inb.MetaOf(i))
      ensures HasReason(w, fails, x) && x.cause.ResolverFailed?
    {
      var s :| s in inb.SitesOf(i) && x in Escapes(w, fails, s, inb.MetaOf(i));
      EscapesFailed(w, fails, s, inb.MetaOf(i));
    }
  }

  lemma AnswersShown(inb: Inbound, forFetch: bool, calls: Calls, st: Store, answers: seq<Answer>)
    requires inb.w.fallbackCatch == !forFetch && AnswersMean(inb, forFetch, calls, st, answers)
    ensures AnswersShow(inb, forFetch, calls, st, answers) && AllShown(inb, forFetch, calls, st, answers)
  {
    hide AnswersMean, AnswerShows, ShowsMessage, TreeMessage, Finished, WellFormed;
    AnswersValid(inb, forFetch, calls, st, answers);
    forall i | 0 <= i < |answers| ensures AnswerShows(inb, forFetch, calls, st, i, answers[i]) {
      AnswerShown(inb, forFetch, calls, st, answers, i);
    }
    if forall key :: key in calls ==> calls[key].None? {
      forall i | 0 <= i < |answers| && inb.replies[i].Answered?
        ensures answers[i].body.Projection?
        ensures ShowsMessage(inb.w, map[], inb.replies[i].msg, inb.requests[i].mask, Origin(inb, i),
                             FinishedRef(st, -1, answers[i].body.ref))
      {
        AnswersExact(inb, forFetch, calls, st, answers, i);
        MessageShows(inb.w, map[], inb.replies[i].msg, inb.requests[i].mask, Origin(inb, i));
      }
    }
  }

  lemma AnswersValid(inb: Inbound, forFetch: bool, calls: Calls, st: Store, answers: seq<Answer>)
    requires AnswersMean(inb, forFetch, calls, st, answers)
    ensures inb.Valid() && |answers| == |inb.requests|
  {
    hide ResponseSchema;
  }

  lemma FailureExplained(inb: Inbound, forFetch: bool, calls: Calls, failure: Failure)
    requires inb.w.fallbackCatch == !forFetch && FailureMeans(inb, forFetch, calls, failure)
    ensures FailsForReason(inb, forFetch, calls, failure)
  {
    hide Reach, Aborts, ResponseSchema, HasReason, Passes, Refused, MessageFault, FailsWith;
    forall q: Request
      ensures var r := ResponseSchema(inb.w, inb.methods, q, forFetch, Unary);
              if r.Ok? then Passes(inb, forFetch, q) else Refused(inb, forFetch, q, r.error)
    {
      PassesExactly(inb, forFetch, q);
    }
    match failure
    case StitchAborted(fault) => AbortExplained(inb, calls, fault);
    case Unformattable(cause) =>
      var i :| 0 <= i < |inb.requests| && EntryFails(inb, i, failure);
      FormattingFails(inb.w.types, inb.replies[i].msg, inb.requests[i].mask);
    case _ =>
  }

  lemma AbortExplained(inb: Inbound, calls: Calls, fault: Fault)
    requires inb.Valid() && FailsFirst(inb, calls, fault)
    ensures HasReason(inb.w, FailuresOf(calls), fault)
  {
    hide Reach, Aborts, HasReason;
    var fails := FailuresOf(calls);
    AbortsOfRequests(inb, fails, |inb.requests|, fault);
    var i: nat, s :| i < |inb.requests| && s in inb.SitesOf(i)
      && fault in Aborts(inb.w, fails, s, inb.MetaOf(i), inb.CaughtAt(i));
    AbortsForReason(inb.w, fails, s, inb.MetaOf(i), inb.CaughtAt(i));
  }

  class Service {
    const handler: Handler

    constructor (handler: Handler)
      ensures this.handler == handler
    {
      this.handler := handler;
    }

    /** Catches errors unless told to throw: if nothing says so, no failing resolver or entry point fails the call. */
    method Do(operation: string, requests: seq<Request>, replies: seq<Reply>)
      returns (r: Result<seq<Answer>, Failure>, stitcher: Stitcher)
      requires Pointwise(handler.gateway.(fallbackCatch := true), handler.resolver) && |replies| == |requests|
      ensures fresh(stitcher) && fresh(stitcher.heap)
      ensures var w := handler.gateway.(fallbackCatch := true);
              var inb := Inbound(w, handler.methods, operation, requests, replies);
              var calls, st := stitcher.calls, stitcher.heap.structs;
              && Honest(inb.w, handler.resolver, calls)
              && (r.Ok? ==> AnswersShow(inb, false, calls, st, r.value) && AllShown(inb, false, calls, st, r.value))
              && (r.Err? ==> FailsForReason(inb, false, calls, r.error))
      ensures NothingThrows(requests) && r.Err? ==>
                && !r.error.Crash? && !r.error.CallAborted?
                && (r.error.StitchAborted? ==> !r.error.fault.cause.ResolverFailed?)
    {
      hide AnswersMean, FailureMeans, AnswersShow, FailsForReason, Honest, Pointwise, CallsMean, NothingThrows;
      ghost var rounds;
      r, stitcher, rounds := handler.Do(operation, requests, false, replies);
      ghost var w := handler.gateway.(fallbackCatch := true);
      ghost var inb := Inbound(w, handler.methods, operation, requests, replies);
      if r.Ok? {
        AnswersShown(inb, false, stitcher.calls, stitcher.heap.structs, r.value);
      } else {
        FailureExplained(inb, false, stitcher.calls, r.error);
        if NothingThrows(requests) {
          DoSurvivesResolvers(inb, stitcher.calls, r.error);
        }
      }
    }

    /** Throws errors unless told to catch: if nothing says so, a call that answers had no failure at all. */
    method Fetch(operation: string, requests: seq<Request>, replies: seq<Reply>)
      returns (r: Result<seq<Answer>, Failure>, stitcher: Stitcher)
      requires Pointwise(handler.gateway.(fallbackCatch := false), handler.resolver) && |replies| == |requests|
      ensures fresh(stitcher) && fresh(stitcher.heap)
      ensures var w := handler.gateway.(fallbackCatch := false);
              var inb := Inbound(w, handler.methods, operation, requests, replies);
              var calls, st := stitcher.calls, stitcher.heap.structs;
              && Honest(inb.w, handler.resolver, calls)
              && (r.Ok? ==> AnswersShow(inb, true, calls, st, r.value) && AllShown(inb, true, calls, st, r.value))
              && (r.Err? ==> FailsForReason(inb, true, calls, r.error))
      ensures NothingCatches(requests) && r.Ok? ==>
                && (forall key :: key in stitcher.calls ==> stitcher.calls[key].None?)
                && (forall i :: 0 <= i < |replies| ==> replies[i].Answered?)
    {
      hide AnswersMean, FailureMeans, AnswersShow, FailsForReason, Honest, Pointwise, CallsMean, NothingCatches;
      ghost var rounds;
      r, stitcher, rounds := handler.Do(operation, requests, true, replies);
      ghost var w := handler.gateway.(fallbackCatch := false);
      ghost var inb := Inbound(w, handler.methods, operation, requests, replies);
      if r.Ok? {
        AnswersShown(inb, true, stitcher.calls, stitcher.heap.structs, r.value);
        if NothingCatches(requests) {
          FetchFailsWithResolvers(inb, stitcher.calls, stitcher.heap.structs, r.value);
        }
      } else {
        FailureExplained(inb, true, stitcher.calls, r.error);
      }
    }
  }
}
