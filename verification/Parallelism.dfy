/** The limit on concurrent work of one request (stitcher.go:128-131, 203-232; handler.go:105-109, 164): the workers
    of a group take a permit each, in any interleaving, and the group is waited for before the next begins. */
module Parallelism {
  import opened Wrappers

  /** The semaphore of one request; a limit of zero is none. */
  class Sema {
    const limit: nat
    var held: nat

    constructor (limit: nat)
      ensures this.limit == limit && held == 0
    {
      this.limit, held := limit, 0;
    }

    /** A permit can be had without waiting. */
    predicate Free()
      reads this
    {
      limit == 0 || held < limit
    }

    predicate Bounded()
      reads this
    {
      limit == 0 || held <= limit
    }

    method Acquire()
      requires Free()
      modifies this
      ensures held == old(held) + 1 && Bounded()
    {
      held := held + 1;
    }

    method Release()
      requires held > 0
      modifies this
      ensures held == old(held) - 1 && (old(Bounded()) ==> Bounded())
    {
      held := held - 1;
    }

    /** Waits for the other workers of a group that has failed: each gives its permit back. */
    method AwaitOthers()
      requires Bounded()
      modifies this
      ensures held == 0
    {
      while held > 0
        invariant Bounded()
      {
        Release();
      }
    }
  }

  datatype Worker = Queued | Holding | Finished

  datatype State = State(free: nat, workers: seq<Worker>)

  /** GiveUp is an Acquire that fails because the request was cancelled; a worker releases its permit however its
      work ends. */
  datatype Event = Go | Acquire(i: nat) | GiveUp(i: nat) | Release(i: nat) | Wait

  function Next(s: State, e: Event): Option<State> {
    match e
    case Go => Some(s.(workers := s.workers + [Queued]))
    case Acquire(i) =>
      if i < |s.workers| && s.workers[i].Queued? && s.free > 0 then Some(State(s.free - 1, s.workers[i := Holding]))
        else None
    case GiveUp(i) =>
      if i < |s.workers| && s.workers[i].Queued? then Some(s.(workers := s.workers[i := Finished])) else None
    case Release(i) =>
      if i < |s.workers| && s.workers[i].Holding? then Some(State(s.free + 1, s.workers[i := Finished])) else None
    case Wait => if forall w :: w in s.workers ==> w.Finished? then Some(s.(workers := [])) else None
  }

  function After(limit: nat, events: seq<Event>): Option<State> {
    if events == [] then Some(State(limit, []))
    else
      var before := After(limit, events[..|events| - 1]);
      if before.None? then None else Next(before.value, events[|events| - 1])
  }

  function Held(workers: seq<Worker>): nat {
    if workers == [] then 0 else Held(workers[..|workers| - 1]) + if workers[|workers| - 1].Holding? then 1 else 0
  }

  lemma {:induction false} HeldAfter(workers: seq<Worker>, i: nat, w: Worker)
    requires i < |workers|
    ensures Held(workers[i := w])
         == Held(workers) + (if w.Holding? then 1 else 0) - (if workers[i].Holding? then 1 else 0)
  {
    var k := |workers| - 1;
    if i < k {
      HeldAfter(workers[..k], i, w);
      assert workers[i := w][..k] == workers[..k][i := w];
    } else {
      assert workers[i := w][..k] == workers[..k];
    }
  }

  lemma {:induction false} NoneHeld(workers: seq<Worker>)
    requires forall w :: w in workers ==> !w.Holding?
    ensures Held(workers) == 0
  {
    if workers != [] {
      NoneHeld(workers[..|workers| - 1]);
    }
  }

  /** In every interleaving, permits free and permits held make up the limit. */
  lemma {:induction false} PermitsConserved(limit: nat, events: seq<Event>)
    requires After(limit, events).Some?
    ensures var s := After(limit, events).value; s.free + Held(s.workers) == limit
  {
    if events != [] {
      var e, before := events[|events| - 1], After(limit, events[..|events| - 1]).value;
      PermitsConserved(limit, events[..|events| - 1]);
      match e
      case Go => assert (before.workers + [Queued])[..|before.workers|] == before.workers;
      case Acquire(i) => HeldAfter(before.workers, i, Holding);
      case GiveUp(i) => HeldAfter(before.workers, i, Finished);
      case Release(i) => HeldAfter(before.workers, i, Finished);
      case Wait => NoneHeld(before.workers);
    }
  }

  /** So never more workers hold a permit than the limit allows, and when a group has been waited for, all permits
      are back, failed and cancelled workers included. */
  lemma AllBackAfterWait(limit: nat, events: seq<Event>)
    requires After(limit, events).Some?
    ensures Held(After(limit, events).value.workers) <= limit
    ensures Next(After(limit, events).value, Wait).Some? ==> After(limit, events).value.free == limit
  {
    PermitsConserved(limit, events);
    if Next(After(limit, events).value, Wait).Some? {
      NoneHeld(After(limit, events).value.workers);
    }
  }

  /** And with a positive limit no group gets stuck: while a worker is unfinished, some worker can go on without
      anything being cancelled. */
  lemma NeverStuck(limit: nat, events: seq<Event>)
    requires limit > 0 && After(limit, events).Some? && Next(After(limit, events).value, Wait).None?
    ensures var s := After(limit, events).value;
            exists i :: Next(s, Acquire(i)).Some? || Next(s, Release(i)).Some?
  {
    var s := After(limit, events).value;
    PermitsConserved(limit, events);
    var w :| w in s.workers && !w.Finished?;
    var i :| 0 <= i < |s.workers| && s.workers[i] == w;
    if exists j :: 0 <= j < |s.workers| && s.workers[j].Holding? {
      var j :| 0 <= j < |s.workers| && s.workers[j].Holding?;
      assert Next(s, Release(j)).Some?;
    } else {
      NoneHeld(s.workers);
      assert Next(s, Acquire(i)).Some?;
    }
  }
}
