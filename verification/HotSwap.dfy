/** The hot-swapped handler (internal/app/knitgateway/gateway.go:159-173, 214-332): watchers that signal new schemas
    over a channel holding one signal, an updater that rebuilds the handler, and the application's first
    CreateHandler, as a state machine over their atomic steps in any interleaving. */
module HotSwap {
  import opened Wrappers

  /** The watcher each service reads its schema from, whether updates are debounced, and whether the application
      stops calling CreateHandler once it has succeeded, as it is told to. */
  datatype Config = Config(sources: seq<nat>, watchers: nat, debounce: bool, once: bool) {
    predicate Valid() { forall v :: 0 <= v < |sources| ==> sources[v] < watchers }
  }

  /** A handler, as the schema version each service was built from. */
  type Handler = map<nat, nat>

  /** Where a thread is inside CreateHandler. */
  datatype Creating =
    | Reading(seen: Handler) | Loading(built: Handler) | Storing(built: Handler)
    | Draining(built: Handler) | Swapping(built: Handler) | WritingPattern
  {
    /** The versions read so far. */
    function Read(): Handler {
      match this
      case Reading(seen) => seen
      case WritingPattern => map[]
      case _ => built
    }
  }

  datatype Updater = Waiting | Checking | Debouncing | Clearing | Rebuilding(at: Creating)

  datatype App = Outside | Calling(at: Creating)

  /** signalled holds, for each watcher, the last version it signalled, announced the last it signalled since a handler
      was first installed. */
  datatype State = State(
    versions: seq<nat>, signalled: seq<nat>, announced: seq<nat>, slot: bool,
    delegate: Option<Handler>, patternWrites: nat,
    updater: Updater, app: App, failed: bool)

  datatype Action = ReadService(v: nat) | Fail | Finish | Load | Store | Drain | Swap | WritePattern

  datatype Event =
    | NewSchema(watcher: nat) | OnUpdate(watcher: nat)
    | Receive | CheckDelegate | TimerFires | ClearPending | UpdaterCreates(action: Action)
    | AppCalls | AppCreates(action: Action)

  datatype Progress = Goes(at: Creating) | Returns(ok: bool)

  predicate Shaped(c: Config, s: State) {
    |s.versions| == c.watchers && |s.signalled| == c.watchers && |s.announced| == c.watchers
  }

  function Initially(c: Config): State {
    var zeros := seq(c.watchers, _ => 0);
    State(zeros, zeros, zeros, false, None, 0, Waiting, Outside, false)
  }

  // ----- the steps

  /** One atomic step of CreateHandler; None where this is not its next step. */
  function Create(c: Config, s: State, at: Creating, action: Action): (r: Option<(State, Progress)>)
    requires c.Valid() && Shaped(c, s)
    ensures r.Some? ==> Shaped(c, r.value.0)
  {
    match (at, action)
    case (Reading(seen), ReadService(v)) =>
      if v < |c.sources| && v !in seen then Some((s, Goes(Reading(seen[v := s.versions[c.sources[v]]])))) else None
    case (Reading(_), Fail) => Some((s, Returns(false)))
    case (Reading(seen), Finish) =>
      if forall v :: 0 <= v < |c.sources| ==> v in seen then Some((s, Goes(Loading(seen)))) else None
    case (Loading(built), Load) => Some((s, Goes(if s.delegate.Some? then Storing(built) else Draining(built))))
    case (Storing(built), Store) => Some((s.(delegate := Some(built)), Returns(true)))
    case (Draining(built), Drain) => Some((s.(slot := false), Goes(Swapping(built))))
    case (Swapping(built), Swap) =>
      if s.delegate.None? then Some((s.(delegate := Some(built)), Goes(WritingPattern)))
        else Some((s, Goes(Loading(built))))
    case (WritingPattern, WritePattern) => Some((s.(patternWrites := s.patternWrites + 1), Returns(true)))
    case _ => None
  }

  /** What an event does; None where it cannot happen. */
  function Next(c: Config, s: State, e: Event): (r: Option<State>)
    requires c.Valid() && Shaped(c, s)
    ensures r.Some? ==> Shaped(c, r.value)
  {
    match e
    case NewSchema(w) => if w < c.watchers then Some(s.(versions := s.versions[w := s.versions[w] + 1])) else None
    case OnUpdate(w) =>
      if w < c.watchers then
        Some(s.(slot := true, signalled := s.signalled[w := s.versions[w]],
                announced := if s.delegate.Some? then s.announced[w := s.versions[w]] else s.announced))
      else None
    case Receive => if s.updater.Waiting? && s.slot then Some(s.(slot := false, updater := Checking)) else None
    case CheckDelegate =>
      if !s.updater.Checking? then None
      else
        Some(s.(updater := if s.delegate.None? then Waiting
                           else if c.debounce then Debouncing else Rebuilding(Reading(map[]))))
    case TimerFires => if s.updater.Debouncing? then Some(s.(updater := Clearing)) else None
    case ClearPending => if s.updater.Clearing? then Some(s.(slot := false, updater := Rebuilding(Reading(map[]))))
      else None
    case UpdaterCreates(action) =>
      if !s.updater.Rebuilding? then None
      else
        (match Create(c, s, s.updater.at, action)
         case None => None
         case Some((s2, Goes(at))) => Some(s2.(updater := Rebuilding(at)))
         case Some((s2, Returns(ok))) => Some(s2.(updater := Waiting, failed := !ok)))
    case AppCalls =>
      if s.app.Outside? && !(c.once && s.delegate.Some?) then Some(s.(app := Calling(Reading(map[])))) else None
    case AppCreates(action) =>
      if !s.app.Calling? then None
      else
        match Create(c, s, s.app.at, action)
        case None => None
        case Some((s2, Goes(at))) => Some(s2.(app := Calling(at)))
        case Some((s2, Returns(_))) => Some(s2.(app := Outside))
  }

  /** The state after a run of events, if each of them can happen. */
  function After(c: Config, events: seq<Event>): (r: Option<State>)
    requires c.Valid()
    ensures r.Some? ==> Shaped(c, r.value)
  {
    if events == [] then Some(Initially(c))
    else
      var before := After(c, events[..|events| - 1]);
      if before.None? then None else Next(c, before.value, events[|events| - 1])
  }

  // ----- whatever the application does

  /** The pattern is written once, by whoever installed the first handler, and after that. */
  predicate PatternOnce(s: State) {
    && s.patternWrites + (if s.updater == Rebuilding(WritingPattern) then 1 else 0)
         + (if s.app == Calling(WritingPattern) then 1 else 0)
       == (if s.delegate.Some? then 1 else 0)
    && ((s.updater.Rebuilding? && s.updater.at.Storing?) || (s.app.Calling? && s.app.at.Storing?) ==>
          s.delegate.Some?)
  }

  lemma PatternStep(c: Config, s: State, e: Event)
    requires c.Valid() && Shaped(c, s)
    requires PatternOnce(s) && Next(c, s, e).Some?
    ensures PatternOnce(Next(c, s, e).value)
  {
    match e
    case UpdaterCreates(_) => UpdaterPattern(c, s, e);
    case AppCreates(_) => AppPattern(c, s, e);
    case _ => assert Next(c, s, e).value.patternWrites == s.patternWrites;
  }

  lemma UpdaterPattern(c: Config, s: State, e: Event)
    requires c.Valid() && Shaped(c, s)
    requires PatternOnce(s) && Next(c, s, e).Some? && e.UpdaterCreates?
    ensures PatternOnce(Next(c, s, e).value)
  {
  }

  lemma AppPattern(c: Config, s: State, e: Event)
    requires c.Valid() && Shaped(c, s)
    requires PatternOnce(s) && Next(c, s, e).Some? && e.AppCreates?
    ensures PatternOnce(Next(c, s, e).value)
  {
  }

  lemma {:induction false} PatternWrittenOnce(c: Config, events: seq<Event>)
    requires c.Valid() && After(c, events).Some?
    ensures PatternOnce(After(c, events).value)
  {
    hide Next;
    if events != [] {
      var init := events[..|events| - 1];
      PatternWrittenOnce(c, init);
      PatternStep(c, After(c, init).value, events[|events| - 1]);
    }
  }

  lemma StaysInstalled(c: Config, s: State, e: Event)
    requires c.Valid() && Shaped(c, s)
    requires Next(c, s, e).Some? && s.delegate.Some?
    ensures Next(c, s, e).value.delegate.Some?
  {
  }

  /** Once a handler is installed, there always is one. */
  lemma {:induction false} NeverUninstalled(c: Config, events: seq<Event>, k: nat)
    requires c.Valid() && k <= |events| && After(c, events).Some?
    ensures After(c, events[..k]).Some?
         && (After(c, events[..k]).value.delegate.Some? ==> After(c, events).value.delegate.Some?)
  {
    hide Next;
    if k < |events| {
      var init := events[..|events| - 1];
      NeverUninstalled(c, init, k);
      assert init[..k] == events[..k];
      if After(c, init).value.delegate.Some? {
        StaysInstalled(c, After(c, init).value, events[|events| - 1]);
      }
    } else {
      assert events[..k] == events;
    }
  }

  // ----- when the application calls CreateHandler until it succeeds, and no more

  /** The updater only replaces a handler, the application only installs the first one. */
  predicate Roles(s: State) {
    && (s.failed || s.updater.Debouncing? || s.updater.Clearing? ==> s.delegate.Some?)
    && (s.updater.Rebuilding? ==>
          s.delegate.Some? && (s.updater.at.Reading? || s.updater.at.Loading? || s.updater.at.Storing?))
    && (s.app.Calling? ==> !s.app.at.Storing? && (s.app.at.WritingPattern? <==> s.delegate.Some?))
  }

  predicate Complete(c: Config, h: Handler) { forall v :: 0 <= v < |c.sources| ==> v in h }

  /** Handlers, installed and under construction, have a version for each service, none from the future; what the
      updater has read is no older than what is installed. */
  predicate VersionsKnown(c: Config, s: State)
    requires c.Valid() && Shaped(c, s)
  {
    && (forall w :: 0 <= w < c.watchers ==> s.announced[w] <= s.versions[w] && s.signalled[w] <= s.versions[w])
    && DelegateKnown(c, s) && AppKnown(c, s) && UpdaterKnown(c, s)
  }

  predicate DelegateKnown(c: Config, s: State)
    requires c.Valid() && Shaped(c, s)
  {
    s.delegate.Some? ==>
      Complete(c, s.delegate.value)
      && forall v :: 0 <= v < |c.sources| ==> s.delegate.value[v] <= s.versions[c.sources[v]]
  }

  predicate AppKnown(c: Config, s: State)
    requires c.Valid() && Shaped(c, s)
  {
    s.app.Calling? && !s.app.at.WritingPattern? ==>
      && (!s.app.at.Reading? ==> Complete(c, s.app.at.Read()))
      && forall v :: 0 <= v < |c.sources| && v in s.app.at.Read() ==> s.app.at.Read()[v] <= s.versions[c.sources[v]]
  }

  predicate UpdaterKnown(c: Config, s: State)
    requires c.Valid() && Shaped(c, s)
  {
    s.updater.Rebuilding? && s.delegate.Some? ==>
      && (!s.updater.at.Reading? ==> Complete(c, s.updater.at.Read()))
      && forall v :: 0 <= v < |c.sources| && v in s.updater.at.Read() ==>
           s.updater.at.Read()[v] <= s.versions[c.sources[v]]
           && (Complete(c, s.delegate.value) ==> s.delegate.value[v] <= s.updater.at.Read()[v])
  }

  /** A service built from a schema older than one announced since installation will be rebuilt: a signal waits, or
      the updater has taken one and has yet to read the service's watcher or holds a handler that has read it, or
      the last rebuild failed. */
  predicate Covered(c: Config, s: State, v: nat)
    requires c.Valid() && |s.announced| == c.watchers && v < |c.sources|
  {
    var latest := s.announced[c.sources[v]];
    s.delegate.Some? && v in s.delegate.value && s.delegate.value[v] < latest ==>
      || s.slot || s.failed || s.updater.Checking? || s.updater.Debouncing? || s.updater.Clearing?
      || (s.updater.Rebuilding? && (v in s.updater.at.Read() ==> s.updater.at.Read()[v] >= latest))
  }

  /** What the updater has read and is outdated again has a signal waiting. */
  predicate ReadCovered(c: Config, s: State, v: nat)
    requires c.Valid() && |s.announced| == c.watchers && v < |c.sources|
  {
    s.updater.Rebuilding? && v in s.updater.at.Read() && s.updater.at.Read()[v] < s.announced[c.sources[v]] ==> s.slot
  }

  predicate NothingAnnounced(c: Config, s: State)
    requires |s.announced| == c.watchers
  {
    s.delegate.None? ==> forall w :: 0 <= w < c.watchers ==> s.announced[w] == 0
  }

  predicate NothingLost(c: Config, s: State)
    requires c.Valid() && Shaped(c, s)
  {
    && Roles(s) && VersionsKnown(c, s)
    && NothingAnnounced(c, s)
    && forall v :: 0 <= v < |c.sources| ==> Covered(c, s, v) && ReadCovered(c, s, v)
  }

  lemma RolesStep(c: Config, s: State, e: Event)
    requires c.Valid() && c.once && Shaped(c, s)
    requires Roles(s) && Next(c, s, e).Some?
    ensures Roles(Next(c, s, e).value)
  {
  }

  lemma AnnouncedStep(c: Config, s: State, e: Event)
    requires c.Valid() && Shaped(c, s)
    requires NothingAnnounced(c, s) && Next(c, s, e).Some?
    ensures NothingAnnounced(c, Next(c, s, e).value)
  {
  }

  lemma VersionsStep(c: Config, s: State, e: Event)
    requires c.Valid() && Shaped(c, s)
    requires Roles(s) && VersionsKnown(c, s) && Next(c, s, e).Some?
    ensures VersionsKnown(c, Next(c, s, e).value)
  {
    var t := Next(c, s, e).value;
    match e
    case UpdaterCreates(_) => UpdaterVersions(c, s, e);
    case AppCreates(_) => AppVersions(c, s, e);
    case _ =>
  }

  lemma UpdaterVersions(c: Config, s: State, e: Event)
    requires c.Valid() && Shaped(c, s)
    requires Roles(s) && VersionsKnown(c, s) && Next(c, s, e).Some? && e.UpdaterCreates?
    ensures VersionsKnown(c, Next(c, s, e).value)
  {
    hide AppKnown, UpdaterKnown, Complete;
    var t := Next(c, s, e).value;
    assert t.versions == s.versions && t.app == s.app && t.announced == s.announced && t.signalled == s.signalled;
    assert AppKnown(c, t) by { SameApp(c, s, t); }
    UpdaterReads(c, s, e);
  }

  lemma SameApp(c: Config, s: State, t: State)
    requires c.Valid() && Shaped(c, s) && Shaped(c, t) && t.app == s.app && t.versions == s.versions
    requires AppKnown(c, s)
    ensures AppKnown(c, t)
  {
  }

  lemma UpdaterReads(c: Config, s: State, e: Event)
    requires c.Valid() && Shaped(c, s)
    requires Roles(s) && DelegateKnown(c, s) && UpdaterKnown(c, s) && Next(c, s, e).Some? && e.UpdaterCreates?
    ensures DelegateKnown(c, Next(c, s, e).value) && UpdaterKnown(c, Next(c, s, e).value)
  {
  }

  lemma AppVersions(c: Config, s: State, e: Event)
    requires c.Valid() && Shaped(c, s)
    requires Roles(s) && VersionsKnown(c, s) && Next(c, s, e).Some? && e.AppCreates?
    ensures VersionsKnown(c, Next(c, s, e).value)
  {
  }

  lemma CoverageStep(c: Config, s: State, e: Event, v: nat)
    requires c.Valid() && Shaped(c, s)
    requires Roles(s) && VersionsKnown(c, s) && Next(c, s, e).Some? && v < |c.sources|
    requires s.delegate.None? ==> s.announced[c.sources[v]] == 0
    requires Covered(c, s, v) && ReadCovered(c, s, v)
    ensures Covered(c, Next(c, s, e).value, v) && ReadCovered(c, Next(c, s, e).value, v)
  {
  }

  lemma StepLosesNothing(c: Config, s: State, e: Event)
    requires c.Valid() && c.once && Shaped(c, s)
    requires NothingLost(c, s) && Next(c, s, e).Some?
    ensures NothingLost(c, Next(c, s, e).value)
  {
    hide Roles, VersionsKnown, Covered, ReadCovered, Create, Next;
    RolesStep(c, s, e);
    VersionsStep(c, s, e);
    AnnouncedStep(c, s, e);
    forall v | 0 <= v < |c.sources|
      ensures Covered(c, Next(c, s, e).value, v) && ReadCovered(c, Next(c, s, e).value, v)
    {
      CoverageStep(c, s, e, v);
    }
  }

  /** A handler is only replaced by one that is no older for any service. */
  lemma NeverOlder(c: Config, s: State, e: Event)
    requires c.Valid() && c.once && Shaped(c, s)
    requires NothingLost(c, s) && Next(c, s, e).Some? && s.delegate.Some?
    ensures Next(c, s, e).value.delegate.Some?
    ensures forall v :: 0 <= v < |c.sources| ==>
              v in s.delegate.value && v in Next(c, s, e).value.delegate.value
              && s.delegate.value[v] <= Next(c, s, e).value.delegate.value[v]
  {
    hide Covered, ReadCovered;
    StaysInstalled(c, s, e);
    VersionsStep(c, s, e);
  }

  /** In every run, no schema announced after installation is lost. */
  lemma {:induction false} NoUpdateLost(c: Config, events: seq<Event>)
    requires c.Valid() && c.once && After(c, events).Some?
    ensures NothingLost(c, After(c, events).value)
  {
    if events != [] {
      var init := events[..|events| - 1];
      NoUpdateLost(c, init);
      StepLosesNothing(c, After(c, init).value, events[|events| - 1]);
    }
  }

  /** So whenever the updater is idle with no signal waiting and its last rebuild succeeded, every service runs on
      its latest announced schema. */
  lemma IdleMeansCurrent(c: Config, events: seq<Event>)
    requires c.Valid() && c.once && After(c, events).Some?
    ensures var s := After(c, events).value;
            s.delegate.Some? && s.updater.Waiting? && !s.slot && !s.failed ==>
              forall v :: 0 <= v < |c.sources| ==>
                v in s.delegate.value && s.announced[c.sources[v]] <= s.delegate.value[v] <= s.versions[c.sources[v]]
  {
    NoUpdateLost(c, events);
    var s := After(c, events).value;
    forall v | 0 <= v < |c.sources| && s.delegate.Some? && s.updater.Waiting? && !s.slot && !s.failed
      ensures v in s.delegate.value && s.announced[c.sources[v]] <= s.delegate.value[v]
    {
      assert Covered(c, s, v);
    }
  }

  // ----- nothing is stuck

  predicate ByUpdater(e: Event) {
    e.Receive? || e.CheckDelegate? || e.TimerFires? || e.ClearPending? || (e.UpdaterCreates? && !e.action.Fail?)
  }

  function Run(c: Config, s: State, events: seq<Event>): Option<State>
    requires c.Valid() && Shaped(c, s)
    decreases |events|
  {
    if events == [] then Some(s)
    else
      var t := Next(c, s, events[0]);
      if t.None? then None else Run(c, t.value, events[1..])
  }

  /** The updater alone, its rebuilds succeeding, can get from the first state to the second. */
  ghost predicate UpdaterCanReach(c: Config, s: State, t: State)
    requires c.Valid() && Shaped(c, s)
  {
    exists events :: (forall e :: e in events ==> ByUpdater(e)) && Run(c, s, events) == Some(t)
  }

  lemma StaysPut(c: Config, s: State)
    requires c.Valid() && Shaped(c, s)
    ensures UpdaterCanReach(c, s, s)
  {
    assert Run(c, s, []) == Some(s);
  }

  lemma GoesOn(c: Config, s: State, e: Event, t: State, u: State)
    requires c.Valid() && Shaped(c, s)
    requires ByUpdater(e) && Next(c, s, e) == Some(t) && UpdaterCanReach(c, t, u)
    ensures UpdaterCanReach(c, s, u)
  {
    hide Next, ByUpdater;
    var events :| (forall e :: e in events ==> ByUpdater(e)) && Run(c, t, events) == Some(u);
    assert ([e] + events)[1..] == events;
    assert Run(c, s, [e] + events) == Some(u);
  }

  lemma {:induction false} RunKeeps(c: Config, s: State, events: seq<Event>)
    requires c.Valid() && c.once && Shaped(c, s)
    requires NothingLost(c, s) && Run(c, s, events).Some?
    ensures var t := Run(c, s, events).value; Shaped(c, t) && NothingLost(c, t)
    decreases |events|
  {
    hide Next, NothingLost;
    if events != [] {
      StepLosesNothing(c, s, events[0]);
      RunKeeps(c, Next(c, s, events[0]).value, events[1..]);
    }
  }

  function Unread(c: Config, seen: Handler): (r: set<nat>)
    ensures forall v :: v in r <==> 0 <= v < |c.sources| && v !in seen
  {
    UnreadBelow(|c.sources|, seen)
  }

  function UnreadBelow(n: nat, seen: Handler): (r: set<nat>)
    ensures forall v :: v in r <==> 0 <= v < n && v !in seen
  {
    if n == 0 then {} else UnreadBelow(n - 1, seen) + if n - 1 in seen then {} else {n - 1}
  }

  /** Done with a rebuild that succeeded; the watchers, the signal slot and the application are as before. */
  predicate Rebuilt(s: State, t: State) {
    && t.updater.Waiting? && !t.failed && t.delegate.Some?
    && t.versions == s.versions && t.signalled == s.signalled && t.announced == s.announced && t.slot == s.slot
    && t.app == s.app
  }

  lemma {:induction false} RebuildCanFinish(c: Config, s: State, seen: Handler) returns (t: State)
    requires c.Valid() && Shaped(c, s)
    requires s.updater == Rebuilding(Reading(seen)) && s.delegate.Some?
    ensures UpdaterCanReach(c, s, t) && Rebuilt(s, t)
    decreases Unread(c, seen)
  {
    hide UpdaterCanReach;
    if Unread(c, seen) == {} {
      assert forall v :: 0 <= v < |c.sources| && v !in seen ==> v in Unread(c, seen);
      t := BuiltCanFinish(c, s, seen, Loading(seen));
      GoesOn(c, s, UpdaterCreates(Finish), s.(updater := Rebuilding(Loading(seen))), t);
    } else {
      var v :| v in Unread(c, seen);
      var more := seen[v := s.versions[c.sources[v]]];
      assert v !in Unread(c, more);
      t := RebuildCanFinish(c, s.(updater := Rebuilding(Reading(more))), more);
      GoesOn(c, s, UpdaterCreates(ReadService(v)), s.(updater := Rebuilding(Reading(more))), t);
    }
  }

  lemma BuiltCanFinish(c: Config, s: State, built: Handler, at: Creating) returns (t: State)
    requires c.Valid() && Shaped(c, s)
    requires s.delegate.Some? && (at == Loading(built) || at == Storing(built))
    ensures UpdaterCanReach(c, s.(updater := Rebuilding(at)), t) && Rebuilt(s, t)
  {
    hide UpdaterCanReach;
    var storing := s.(updater := Rebuilding(Storing(built)));
    t := storing.(delegate := Some(built), updater := Waiting, failed := false);
    StaysPut(c, t);
    GoesOn(c, storing, UpdaterCreates(Store), t, t);
    if at == Loading(built) {
      GoesOn(c, s.(updater := Rebuilding(at)), UpdaterCreates(Load), storing, t);
    }
  }

  /** From having taken a signal, through debouncing, to a new handler; the signal slot is as it was or empty. */
  lemma CheckedCanFinish(c: Config, s: State) returns (t: State)
    requires c.Valid() && Shaped(c, s) && s.delegate.Some?
    requires s.updater.Checking? || s.updater.Debouncing? || s.updater.Clearing?
    ensures UpdaterCanReach(c, s, t) && (Rebuilt(s, t) || Rebuilt(s.(slot := false), t))
  {
    hide UpdaterCanReach;
    var reading := s.(updater := Rebuilding(Reading(map[])));
    if s.updater.Checking? && !c.debounce {
      t := RebuildCanFinish(c, reading, map[]);
      GoesOn(c, s, CheckDelegate, reading, t);
    } else {
      var clearing, debouncing := s.(updater := Clearing), s.(updater := Debouncing);
      t := RebuildCanFinish(c, reading.(slot := false), map[]);
      GoesOn(c, clearing, ClearPending, reading.(slot := false), t);
      if s.updater.Debouncing? || s.updater.Checking? {
        GoesOn(c, debouncing, TimerFires, clearing, t);
      }
      if s.updater.Checking? {
        GoesOn(c, s, CheckDelegate, debouncing, t);
      }
    }
  }

  /** Every signal sent before the debounce period ends is served by the one rebuild that follows: the updater alone
      comes to rest with no signal left. */
  lemma {:induction false} BurstServedOnce(c: Config, s: State, events: seq<Event>)
    requires c.Valid() && c.debounce && Shaped(c, s) && s.delegate.Some?
    requires s.updater.Checking? || s.updater.Debouncing? || s.updater.Clearing? || !s.slot
    requires (forall e :: e in events ==> ByUpdater(e)) && Run(c, s, events).Some?
    ensures var t := Run(c, s, events).value; t.updater.Waiting? || t.updater.Rebuilding? ==> !t.slot
    decreases |events|
  {
    if events != [] {
      UpdaterServes(c, s, events[0]);
      BurstServedOnce(c, Next(c, s, events[0]).value, events[1..]);
    }
  }

  lemma UpdaterServes(c: Config, s: State, e: Event)
    requires c.Valid() && c.debounce && Shaped(c, s) && s.delegate.Some?
    requires s.updater.Checking? || s.updater.Debouncing? || s.updater.Clearing? || !s.slot
    requires ByUpdater(e) && Next(c, s, e).Some?
    ensures var t := Next(c, s, e).value;
            t.delegate.Some? && (t.updater.Checking? || t.updater.Debouncing? || t.updater.Clearing? || !t.slot)
  {
  }

  lemma BusyCanFinish(c: Config, s: State) returns (t: State)
    requires c.Valid() && Shaped(c, s) && s.delegate.Some? && Roles(s)
    requires !s.updater.Waiting?
    ensures UpdaterCanReach(c, s, t) && (Rebuilt(s, t) || Rebuilt(s.(slot := false), t))
  {
    hide UpdaterCanReach;
    if !s.updater.Rebuilding? {
      t := CheckedCanFinish(c, s);
    } else if s.updater.at.Reading? {
      t := RebuildCanFinish(c, s, s.updater.at.seen);
    } else {
      t := BuiltCanFinish(c, s, s.updater.at.built, s.updater.at);
      assert s.(updater := Rebuilding(s.updater.at)) == s;
    }
  }

  lemma {:induction false} Chained(c: Config, s: State, t: State, u: State)
    requires c.Valid() && Shaped(c, s) && Shaped(c, t)
    requires UpdaterCanReach(c, s, t) && UpdaterCanReach(c, t, u)
    ensures UpdaterCanReach(c, s, u)
  {
    hide ByUpdater;
    var first :| (forall e :: e in first ==> ByUpdater(e)) && Run(c, s, first) == Some(t);
    var second :| (forall e :: e in second ==> ByUpdater(e)) && Run(c, t, second) == Some(u);
    RunAppend(c, s, first, second);
    assert forall e :: e in first + second ==> ByUpdater(e);
  }

  lemma {:induction false} RunAppend(c: Config, s: State, first: seq<Event>, second: seq<Event>)
    requires c.Valid() && Shaped(c, s) && Run(c, s, first).Some?
    ensures Shaped(c, Run(c, s, first).value)
    ensures Run(c, s, first + second) == Run(c, Run(c, s, first).value, second)
    decreases |first|
  {
    hide Next;
    if first == [] {
      assert first + second == second;
    } else {
      RunAppend(c, Next(c, s, first[0]).value, first[1..], second);
      assert (first + second)[1..] == first[1..] + second;
    }
  }

  /** Every service runs on its latest announced schema, and the updater is idle. */
  predicate UpToDate(c: Config, t: State)
    requires c.Valid() && Shaped(c, t)
  {
    && t.updater.Waiting? && !t.slot && !t.failed && t.delegate.Some?
    && forall v :: 0 <= v < |c.sources| ==> v in t.delegate.value && t.announced[c.sources[v]] <= t.delegate.value[v]
  }

  lemma RestIsUpToDate(c: Config, s: State, t: State)
    requires c.Valid() && c.once && Shaped(c, s) && NothingLost(c, s)
    requires UpdaterCanReach(c, s, t) && t.updater.Waiting? && !t.slot && !t.failed && t.delegate.Some?
    ensures Shaped(c, t) && UpToDate(c, t)
  {
    hide Next;
    var events :| (forall e :: e in events ==> ByUpdater(e)) && Run(c, s, events) == Some(t);
    RunKeeps(c, s, events);
    forall v | 0 <= v < |c.sources| ensures v in t.delegate.value && t.announced[c.sources[v]] <= t.delegate.value[v] {
      assert Covered(c, t, v);
    }
  }

  /** Whatever has happened, the updater alone can bring every service up to date, unless it is idle after a failed
      rebuild with no signal waiting: it is never stuck, and no stale handler outlives its next successful rebuilds. */
  lemma CanCatchUp(c: Config, events: seq<Event>) returns (t: State)
    requires c.Valid() && c.once && After(c, events).Some?
    requires var s := After(c, events).value; s.delegate.Some? && (s.failed && s.updater.Waiting? ==> s.slot)
    ensures UpdaterCanReach(c, After(c, events).value, t)
    ensures Shaped(c, t) && UpToDate(c, t) && t.announced == After(c, events).value.announced
  {
    hide UpdaterCanReach, NothingLost;
    var s := After(c, events).value;
    NoUpdateLost(c, events);
    assert Roles(s) by { LostNothingRoles(c, s); }
    var u := s;
    StaysPut(c, s);
    if !s.updater.Waiting? {
      u := BusyCanFinish(c, s);
    }
    t := u;
    if u.slot {
      var checking := u.(slot := false, updater := Checking);
      t := CheckedCanFinish(c, checking);
      GoesOn(c, u, Receive, checking, t);
      Chained(c, s, u, t);
    }
    RestIsUpToDate(c, s, t);
  }

  lemma IdleStays(c: Config, s: State, events: seq<Event>)
    requires c.Valid() && Shaped(c, s)
    requires s.updater.Waiting? && !s.slot && forall e :: e in events ==> ByUpdater(e)
    ensures Run(c, s, events) == if events == [] then Some(s) else None
  {
    if events != [] {
      assert ByUpdater(events[0]);
    }
  }

  /** So the updater can catch up exactly if it is busy, has a signal waiting, or did not fail last. */
  lemma CatchesUpExactly(c: Config, events: seq<Event>)
    requires c.Valid() && c.once && After(c, events).Some? && After(c, events).value.delegate.Some?
    ensures var s := After(c, events).value;
            (exists t :: UpdaterCanReach(c, s, t) && Shaped(c, t) && UpToDate(c, t))
            <==> (s.failed && s.updater.Waiting? ==> s.slot)
  {
    hide Next, ByUpdater;
    var s := After(c, events).value;
    if s.failed && s.updater.Waiting? ==> s.slot {
      var t := CanCatchUp(c, events);
    } else {
      forall t | UpdaterCanReach(c, s, t) ensures t.failed {
        var run :| (forall e :: e in run ==> ByUpdater(e)) && Run(c, s, run) == Some(t);
        IdleStays(c, s, run);
      }
    }
  }

  lemma LostNothingRoles(c: Config, s: State)
    requires c.Valid() && Shaped(c, s) && NothingLost(c, s)
    ensures Roles(s)
  {
  }

  // ----- signals before the first handler

  predicate AllCovered(c: Config, s: State)
    requires c.Valid() && Shaped(c, s)
  {
    forall v :: 0 <= v < |c.sources| ==> Covered(c, s, v)
  }

  /** The state with all signals counted, those before installation too. */
  function Counted(s: State): State { s.(announced := s.signalled) }

  lemma CountedCreate(c: Config, s: State, at: Creating, action: Action)
    requires c.Valid() && Shaped(c, s) && s.delegate.Some?
    ensures Create(c, s, at, action).None? ==> Create(c, Counted(s), at, action).None?
    ensures Create(c, s, at, action).Some? ==>
              var (t, progress) := Create(c, s, at, action).value;
              && Create(c, Counted(s), at, action) == Some((Counted(t), progress))
              && t.delegate.Some? && t.signalled == s.signalled && t.announced == s.announced
  {
  }

  lemma CountedStep(c: Config, s: State, e: Event)
    requires c.Valid() && Shaped(c, s) && s.delegate.Some?
    ensures Next(c, s, e).Some? ==>
              Next(c, Counted(s), e) == Some(Counted(Next(c, s, e).value)) && Next(c, s, e).value.delegate.Some?
  {
    hide Create;
    match e
    case UpdaterCreates(action) =>
      if s.updater.Rebuilding? {
        CountedCreate(c, s, s.updater.at, action);
      }
    case AppCreates(action) =>
      if s.app.Calling? {
        CountedCreate(c, s, s.app.at, action);
      }
    case _ =>
  }

  lemma {:induction false} CountedRun(c: Config, s: State, events: seq<Event>)
    requires c.Valid() && Shaped(c, s) && s.delegate.Some?
    ensures Run(c, s, events).Some? ==>
              Shaped(c, Run(c, s, events).value) && Run(c, Counted(s), events) == Some(Counted(Run(c, s, events).value))
    decreases |events|
  {
    hide Next;
    if events != [] {
      CountedStep(c, s, events[0]);
      if Next(c, s, events[0]).Some? {
        CountedRun(c, Next(c, s, events[0]).value, events[1..]);
      }
    }
  }

  /** In every later run, even the signals sent before this state are not lost. */
  ghost predicate EarlySignalsKept(c: Config, s: State)
    requires c.Valid() && Shaped(c, s)
  {
    forall events :: Run(c, s, events).Some? && Shaped(c, Run(c, s, events).value) ==>
      AllCovered(c, Counted(Run(c, s, events).value))
  }

  /** Every service was built from the latest schema its watcher has signalled. */
  predicate BuiltFromLatest(c: Config, s: State, built: Handler)
    requires c.Valid() && Shaped(c, s)
  {
    forall v :: 0 <= v < |c.sources| ==> v in built && s.signalled[c.sources[v]] <= built[v]
  }

  /** When the first handler is swapped in, the signals sent before are kept exactly if one is still waiting, or the
      updater has just taken one, or every service was built from the latest schema its watcher signalled. */
  lemma EarlySignalsKeptExactly(c: Config, events: seq<Event>, built: Handler)
    requires c.Valid() && c.once && After(c, events).Some? && After(c, events).value.app == Calling(Swapping(built))
    ensures var s := After(c, events).value;
            && Next(c, s, AppCreates(Swap)).Some?
            && (EarlySignalsKept(c, Next(c, s, AppCreates(Swap)).value) <==>
                s.slot || s.updater.Checking? || BuiltFromLatest(c, s, built))
  {
    hide Run, After, EarlySignalsKept, NothingLost;
    var s := After(c, events).value;
    NoUpdateLost(c, events);
    SwapFacts(c, s, built);
    var t := Next(c, s, AppCreates(Swap)).value;
    if s.slot || s.updater.Checking? || BuiltFromLatest(c, s, built) {
      InstalledCovered(c, s, built);
      CoveredKept(c, t);
    } else {
      KeptNow(c, t);
      var v :| 0 <= v < |c.sources| && !(v in built && s.signalled[c.sources[v]] <= built[v]);
      assert !Covered(c, Counted(t), v);
    }
  }

  lemma SwapFacts(c: Config, s: State, built: Handler)
    requires c.Valid() && Shaped(c, s) && NothingLost(c, s) && s.app == Calling(Swapping(built))
    ensures s.delegate.None? && !s.failed && (s.updater.Waiting? || s.updater.Checking?) && Complete(c, built)
    ensures Next(c, s, AppCreates(Swap)) == Some(s.(delegate := Some(built), app := Calling(WritingPattern)))
  {
  }

  lemma InstalledCovered(c: Config, s: State, built: Handler)
    requires c.Valid() && Shaped(c, s) && NothingLost(c, s) && s.app == Calling(Swapping(built))
    requires s.slot || s.updater.Checking? || BuiltFromLatest(c, s, built)
    ensures NothingLost(c, Counted(s.(delegate := Some(built), app := Calling(WritingPattern))))
  {
  }

  lemma CoveredKept(c: Config, t: State)
    requires c.Valid() && c.once && Shaped(c, t) && t.delegate.Some? && NothingLost(c, Counted(t))
    ensures EarlySignalsKept(c, t)
  {
    hide Run, NothingLost, AllCovered;
    forall events | Run(c, t, events).Some? && Shaped(c, Run(c, t, events).value)
      ensures AllCovered(c, Counted(Run(c, t, events).value))
    {
      CountedRun(c, t, events);
      RunKeeps(c, Counted(t), events);
      LostNothingCovered(c, Counted(Run(c, t, events).value));
    }
  }

  lemma LostNothingCovered(c: Config, s: State)
    requires c.Valid() && Shaped(c, s) && NothingLost(c, s)
    ensures AllCovered(c, s)
  {
  }

  lemma KeptNow(c: Config, t: State)
    requires c.Valid() && Shaped(c, t)
    ensures EarlySignalsKept(c, t) ==> AllCovered(c, Counted(t))
  {
    assert Run(c, t, []) == Some(t);
  }

  // ----- runs that lose an update

  /** Some run reaches this state. */
  ghost predicate Reachable(c: Config, s: State)
    requires c.Valid()
  {
    exists events :: After(c, events) == Some(s)
  }

  lemma StartReachable(c: Config)
    requires c.Valid()
    ensures Reachable(c, Initially(c))
  {
    assert After(c, []) == Some(Initially(c));
  }

  lemma StepReachable(c: Config, s: State, e: Event, t: State)
    requires c.Valid() && Shaped(c, s) && Reachable(c, s) && Next(c, s, e) == Some(t)
    ensures Reachable(c, t)
  {
    hide Next;
    var events :| After(c, events) == Some(s);
    assert (events + [e])[..|events|] == events;
    assert After(c, events + [e]) == Some(t);
  }

  lemma {:induction false} RunReachable(c: Config, s: State, events: seq<Event>)
    requires c.Valid() && Shaped(c, s) && Reachable(c, s) && Run(c, s, events).Some?
    ensures Reachable(c, Run(c, s, events).value)
    decreases |events|
  {
    hide Next, Reachable;
    if events != [] {
      StepReachable(c, s, events[0], Next(c, s, events[0]).value);
      RunReachable(c, Next(c, s, events[0]).value, events[1..]);
    }
  }

  /** The application can read all services' schemas. */
  lemma {:induction false} AppReads(c: Config, s: State, seen: Handler) returns (built: Handler)
    requires c.Valid() && Shaped(c, s) && Reachable(c, s.(app := Calling(Reading(seen))))
    ensures Complete(c, built) && Reachable(c, s.(app := Calling(Reading(built))))
    ensures forall v :: 0 <= v < |c.sources| ==> built[v] == if v in seen then seen[v] else s.versions[c.sources[v]]
    decreases Unread(c, seen)
  {
    hide Reachable;
    if Unread(c, seen) == {} {
      assert forall v :: 0 <= v < |c.sources| && v !in seen ==> v in Unread(c, seen);
      built := seen;
    } else {
      var v :| v in Unread(c, seen);
      var more := seen[v := s.versions[c.sources[v]]];
      assert v !in Unread(c, more);
      StepReachable(c, s.(app := Calling(Reading(seen))), AppCreates(ReadService(v)),
                    s.(app := Calling(Reading(more))));
      built := AppReads(c, s, more);
    }
  }

  /** With everything read, it can install the first handler. */
  lemma AppInstalls(c: Config, s: State, built: Handler)
    requires c.Valid() && Shaped(c, s) && Complete(c, built) && Reachable(c, s.(app := Calling(Reading(built))))
    requires s.delegate.None? && !s.slot && s.patternWrites == 0
    ensures Reachable(c, s.(app := Outside, delegate := Some(built), patternWrites := 1))
  {
    hide Reachable, Complete;
    AppDrains(c, s, built);
    var swapped := s.(delegate := Some(built), app := Calling(WritingPattern));
    StepReachable(c, s.(app := Calling(Swapping(built))), AppCreates(Swap), swapped);
    StepReachable(c, swapped, AppCreates(WritePattern), swapped.(app := Outside, patternWrites := 1));
  }

  lemma AppDrains(c: Config, s: State, built: Handler)
    requires c.Valid() && Shaped(c, s) && Complete(c, built) && Reachable(c, s.(app := Calling(Reading(built))))
    requires s.delegate.None? && !s.slot
    ensures Reachable(c, s.(app := Calling(Swapping(built))))
  {
    hide Reachable;
    StepReachable(c, s.(app := Calling(Reading(built))), AppCreates(Finish), s.(app := Calling(Loading(built))));
    StepReachable(c, s.(app := Calling(Loading(built))), AppCreates(Load), s.(app := Calling(Draining(built))));
    StepReachable(c, s.(app := Calling(Draining(built))), AppCreates(Drain), s.(app := Calling(Swapping(built))));
  }

  /** Or replace an installed one. */
  lemma AppReplaces(c: Config, s: State, built: Handler)
    requires c.Valid() && Shaped(c, s) && Complete(c, built) && s.app == Calling(Reading(built)) && Reachable(c, s)
    requires s.delegate.Some?
    ensures Reachable(c, s.(app := Outside, delegate := Some(built)))
  {
    hide Reachable;
    StepReachable(c, s, AppCreates(Finish), s.(app := Calling(Loading(built))));
    StepReachable(c, s.(app := Calling(Loading(built))), AppCreates(Load), s.(app := Calling(Storing(built))));
    StepReachable(c, s.(app := Calling(Storing(built))), AppCreates(Store), s.(app := Outside,
                  delegate := Some(built)));
  }

  /** One service, one watcher, no debouncing. */
  const SMALL := Config([0], 1, false, true)

  const OLD: Handler := map[0 := 0]

  /** A signal sent before the first handler is installed can be dropped: the gateway then serves the older schema,
      with nothing on its way to change that. */
  lemma StartupSignalDropped()
    ensures Reachable(SMALL, State([1], [1], [0], false, Some(OLD), 1, Waiting, Outside, false))
  {
    hide Reachable;
    var blank := State([0], [0], [0], false, None, 0, Waiting, Outside, false);
    StartReachable(SMALL);
    assert Initially(SMALL) == blank && [0][0 := 1] == [1];
    StepReachable(SMALL, blank, AppCalls, blank.(app := Calling(Reading(map[]))));
    var reading := blank.(app := Calling(Reading(OLD)));
    StepReachable(SMALL, blank.(app := Calling(Reading(map[]))), AppCreates(ReadService(0)), reading);
    SignalDropped(reading);
    AppInstalls(SMALL, reading.(versions := [1], signalled := [1]), OLD);
  }

  lemma SignalDropped(s: State)
    requires Shaped(SMALL, s) && Reachable(SMALL, s) && s.delegate.None? && s.updater.Waiting? && !s.slot
    requires s.versions == [0]
    ensures Reachable(SMALL, s.(versions := [1], signalled := [1]))
  {
    hide Reachable;
    assert [0][0 := 1] == [1] && s.signalled[0 := 1] == [1];
    var updated, known := s.(versions := [1]), s.(versions := [1], signalled := [1]);
    StepReachable(SMALL, s, NewSchema(0), updated);
    StepReachable(SMALL, updated, OnUpdate(0), known.(slot := true));
    StepReachable(SMALL, known.(slot := true), Receive, known.(updater := Checking));
    StepReachable(SMALL, known.(updater := Checking), CheckDelegate, known);
  }

  /** A first handler is installed before anything is signalled. */
  lemma FirstInstalled(c: Config) returns (built: Handler)
    requires c.Valid()
    ensures Complete(c, built)
    ensures Reachable(c, Initially(c).(delegate := Some(built), patternWrites := 1))
  {
    hide Reachable;
    var s := Initially(c);
    StartReachable(c);
    StepReachable(c, s, AppCalls, s.(app := Calling(Reading(map[]))));
    built := AppReads(c, s, map[]);
    AppInstalls(c, s, built);
    assert s.(app := Outside, delegate := Some(built), patternWrites := 1) == s.(delegate := Some(built),
              patternWrites := 1);
  }

  /** Announces a new schema and lets the updater build from it, while the application stays where it is. */
  lemma UpdaterReplaces(c: Config, s: State, w: nat) returns (t: State)
    requires c.Valid() && Shaped(c, s) && Reachable(c, s) && w < c.watchers
    requires s.delegate.Some? && s.updater.Waiting? && !s.slot
    ensures Shaped(c, t) && Reachable(c, t) && t.delegate.Some? && t.app == s.app && t.announced[w] == s.versions[w] + 1
    ensures t.updater.Waiting? && !t.slot && !t.failed
  {
    hide Reachable, UpdaterCanReach;
    var updated := s.(versions := s.versions[w := s.versions[w] + 1]);
    var known := updated.(signalled := updated.signalled[w := updated.versions[w]],
                          announced := updated.announced[w := updated.versions[w]]);
    StepReachable(c, s, NewSchema(w), updated);
    StepReachable(c, updated, OnUpdate(w), known.(slot := true));
    StepReachable(c, known.(slot := true), Receive, known.(updater := Checking));
    t := CheckedCanFinish(c, known.(updater := Checking));
    UpdaterReachable(c, known.(updater := Checking), t);
  }

  lemma UpdaterReachable(c: Config, s: State, t: State)
    requires c.Valid() && Shaped(c, s) && Reachable(c, s) && UpdaterCanReach(c, s, t)
    ensures Reachable(c, t)
  {
    hide Reachable, Run;
    var events :| (forall e :: e in events ==> ByUpdater(e)) && Run(c, s, events) == Some(t);
    RunReachable(c, s, events);
  }

  /** If the application calls CreateHandler again, its handler can replace a newer one: in every configuration with a
      service, debounced or not, an update announced after installation can be lost for good. */
  lemma SecondCallLosesUpdate(c: Config) returns (s: State)
    requires c.Valid() && !c.once && c.sources != []
    ensures Shaped(c, s) && Reachable(c, s) && s.updater.Waiting? && !s.slot && !s.failed
    ensures s.delegate.Some? && 0 in s.delegate.value && s.delegate.value[0] < s.announced[c.sources[0]]
  {
    hide Reachable;
    var first := FirstInstalled(c);
    var installed := Initially(c).(delegate := Some(first), patternWrites := 1);
    StepReachable(c, installed, AppCalls, installed.(app := Calling(Reading(map[]))));
    var built := AppReads(c, installed, map[]);
    assert built[0] == 0;
    var t := UpdaterReplaces(c, installed.(app := Calling(Reading(built))), c.sources[0]);
    AppReplaces(c, t, built);
    s := t.(app := Outside, delegate := Some(built));
  }

  /** The run that ends there. */
  lemma LosingRun(c: Config) returns (events: seq<Event>)
    requires c.Valid() && !c.once && c.sources != []
    ensures After(c, events).Some? && !AllCovered(c, After(c, events).value)
  {
    hide After;
    var s := SecondCallLosesUpdate(c);
    events :| After(c, events) == Some(s);
    assert !Covered(c, s, 0);
  }

  ghost predicate NoRunLoses(c: Config)
    requires c.Valid()
  {
    forall events :: After(c, events).Some? ==> AllCovered(c, After(c, events).value)
  }

  /** That no run loses an update announced after installation is true exactly if the application stops calling
      CreateHandler once it has succeeded (or there is nothing to serve). */
  lemma NothingLostExactly(c: Config)
    requires c.Valid()
    ensures NoRunLoses(c) <==> c.once || c.sources == []
  {
    hide After, NothingLost, AllCovered;
    if c.once {
      forall events | After(c, events).Some? ensures AllCovered(c, After(c, events).value) {
        NoUpdateLost(c, events);
        LostNothingCovered(c, After(c, events).value);
      }
    } else if c.sources != [] {
      var events := LosingRun(c);
      assert !AllCovered(c, After(c, events).value);
    } else {
      NothingToLose(c);
    }
  }

  lemma NothingToLose(c: Config)
    requires c.Valid() && c.sources == []
    ensures NoRunLoses(c)
  {
  }
}
