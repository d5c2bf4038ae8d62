/** One namespace and its controller: the controller's event log, how far the poller has read it,
    and which version of the apps is stored. */
module ControllerSync {
  import opened GoStrings

  /** The apps of a namespace change with relevant events only, so their version is how many of
      those there were. */
  function Version(log: seq<bool>): nat {
    if log == [] then 0 else Version(log[..|log| - 1]) + if log[|log| - 1] then 1 else 0
  }

  datatype Pc =
    | Idle
    | Refreshing             // the apps are being fetched
    | Fetched(version: nat)

  const NOTHING_STORED := -1

  /** `log` says of each event whether it was relevant; `syncPoint` is how many have been read. */
  datatype State = State(log: seq<bool>, syncPoint: nat, stored: int, pc: Pc)

  datatype Event =
    | ControllerChanges(relevant: bool)
    | PollReads(ok: bool, leaderShifted: bool)
    | StartupReads
    | AppsArrive(ok: bool)
    | Stores
    | Restores(version: nat)

  const INITIAL := State([], 0, NOTHING_STORED, Idle)

  /** Some event that has not been read is relevant. */
  predicate Reported(s: State) {
    exists i :: s.syncPoint <= i < |s.log| && s.log[i]
  }

  /** pollingHandler with fetchRecentEvents and refreshApps: the sync point moves as soon as the
      events are read, whatever becomes of the apps. */
  function Step(s: State, e: Event): Option<State> {
    match (s.pc, e)
    case (_, ControllerChanges(relevant)) => Some(s.(log := s.log + [relevant]))
    case (_, Restores(version)) => Some(s.(stored := version))
    case (Idle, PollReads(ok, leaderShifted)) =>
      Some(s.(
        syncPoint := if ok then |s.log| else s.syncPoint,
        pc := if leaderShifted || (ok && Reported(s)) then Refreshing else Idle))
    case (Idle, StartupReads) => Some(s.(pc := Refreshing))
    case (Refreshing, AppsArrive(ok)) => Some(s.(pc := if ok then Fetched(Version(s.log)) else Idle))
    case (Fetched(version), Stores) => Some(s.(stored := version, pc := Idle))
    case _ => None
  }

  function Run(events: seq<Event>): Option<State> {
    if events == [] then Some(INITIAL)
    else
      match Run(events[..|events| - 1])
      case None => None
      case Some(s) => Step(s, events[|events| - 1])
  }

  predicate Behind(s: State) {
    s.stored != Version(s.log)
  }

  /** The store is behind the controller, nothing is on its way and no event is left to say so. */
  predicate Stuck(s: State) {
    s.pc == Idle && Behind(s) && !Reported(s)
  }

  // ---- What a run knows of its refreshes ----

  ghost predicate NoStores(events: seq<Event>, i: nat) {
    forall j :: i <= j < |events| ==> events[j] != Stores
  }

  /** No refresh has been stored since the beginning, a failed fetch or a restore. */
  ghost predicate RefreshLost(events: seq<Event>) {
    NoStores(events, 0) || exists i: nat ::
      i < |events| && (events[i] == AppsArrive(false) || events[i].Restores?) && NoStores(events, i)
  }

  ghost predicate SyncInv(s: State, lost: bool) {
    && s.syncPoint <= |s.log|
    && (s.pc == Idle && Behind(s) ==> Reported(s) || lost)
    && (s.pc.Fetched? && s.pc.version != Version(s.log) ==> Reported(s))
  }

  lemma StepKeepsSync(s: State, e: Event, lost: bool)
    requires SyncInv(s, lost) && Step(s, e).Some?
    ensures SyncInv(Step(s, e).value, e != Stores && (lost || e == AppsArrive(false) || e.Restores?))
  {
    if e.ControllerChanges? {
      var s' := Step(s, e).value;
      assert s'.log[..|s.log|] == s.log && s'.log[|s.log|] == e.relevant;
      if i :| s.syncPoint <= i < |s.log| && s.log[i] {
        assert s'.log[i];
      }
    }
  }

  lemma LostStep(events: seq<Event>, e: Event)
    ensures RefreshLost(events + [e]) <==> e != Stores && (RefreshLost(events) || e == AppsArrive(false) || e.Restores?)
  {
    var all, n := events + [e], |events|;
    assert all[n] == e && forall i :: 0 <= i < n ==> all[i] == events[i];
    forall i: nat | i <= n ensures NoStores(all, i) <==> NoStores(events, i) && e != Stores {
      if NoStores(all, i) {
        assert forall j :: i <= j < n ==> events[j] == all[j];
      }
    }
    if RefreshLost(all) && !NoStores(all, 0) {
      var i: nat :| i < |all| && (all[i] == AppsArrive(false) || all[i].Restores?) && NoStores(all, i);
      assert i < n ==> NoStores(events, i);
    }
    if e != Stores && RefreshLost(events) && !NoStores(events, 0) {
      var i: nat :| i < n && (events[i] == AppsArrive(false) || events[i].Restores?) && NoStores(events, i);
      assert NoStores(all, i);
    }
    if e == AppsArrive(false) || e.Restores? {
      assert NoStores(all, n);
    }
  }

  /** In every run, a store that is behind will hear of it from an event not read yet, unless a
      refresh was lost: a fetch that failed after its events had been read, a restore, or none made
      so far. */
  lemma {:induction false} LagIsReported(events: seq<Event>)
    requires Run(events).Some?
    ensures SyncInv(Run(events).value, RefreshLost(events))
    ensures var s := Run(events).value; s.pc == Idle && Behind(s) ==> Reported(s) || RefreshLost(events)
  {
    hide Step, SyncInv, RefreshLost;
    if events == [] {
      NothingIsKnown();
    } else {
      var n := |events| - 1;
      LagIsReported(events[..n]);
      StepKeepsSync(Run(events[..n]).value, events[n], RefreshLost(events[..n]));
      LostStep(events[..n], events[n]);
      assert events[..n] + [events[n]] == events;
    }
    SyncInvMeans(Run(events).value, RefreshLost(events));
  }

  lemma NothingIsKnown()
    ensures SyncInv(INITIAL, RefreshLost([]))
  {
  }

  lemma SyncInvMeans(s: State, lost: bool)
    requires SyncInv(s, lost)
    ensures s.pc == Idle && Behind(s) ==> Reported(s) || lost
  {
  }

  // ---- Exactly when the store is behind ----

  predicate Changes(e: Event) {
    e == ControllerChanges(true)
  }

  /** The last fetch succeeded, and the apps have not changed since. */
  ghost predicate FreshFetch(events: seq<Event>, i: nat) {
    i < |events| && events[i] == AppsArrive(true) && forall k :: i < k < |events| ==>
      !events[k].AppsArrive? && !Changes(events[k])
  }

  /** Apps that were stored are those of the controller: they have not changed since the fetch. */
  ghost predicate FreshStore(events: seq<Event>, i: nat, j: nat) {
    && i < j < |events| && events[j] == Stores && FreshFetch(events[..j], i)
    && forall k :: j < k < |events| ==> !Changes(events[k])
  }

  ghost predicate Current(events: seq<Event>) {
    exists i: nat, j: nat :: FreshStore(events, i, j)
  }

  ghost predicate SomeFresh(events: seq<Event>) {
    exists i: nat :: FreshFetch(events, i)
  }

  /** How what is stored and what is on its way relate to the controller's version. */
  predicate Tracked(s: State, current: bool, newest: bool) {
    && s.stored <= Version(s.log)
    && (!Behind(s) <==> current)
    && (s.pc.Fetched? ==>
      && s.stored <= s.pc.version <= Version(s.log)
      && (s.pc.version == Version(s.log) <==> newest))
  }

  ghost predicate Tracks(events: seq<Event>)
    requires Run(events).Some?
  {
    Tracked(Run(events).value, Current(events), SomeFresh(events))
  }

  ghost predicate NoRestores(events: seq<Event>) {
    forall i :: 0 <= i < |events| ==> !events[i].Restores?
  }

  lemma FetchStep(events: seq<Event>, e: Event, i: nat)
    ensures FreshFetch(events + [e], i)
       <==> if i == |events| then e == AppsArrive(true) else FreshFetch(events, i) && !e.AppsArrive? && !Changes(e)
  {
    var all := events + [e];
    assert all[|events|] == e && forall k :: 0 <= k < |events| ==> events[k] == all[k];
    if FreshFetch(all, i) && i < |events| {
      assert forall k :: i < k < |events| ==> !all[k].AppsArrive? && !Changes(all[k]);
    }
  }

  lemma StoreStep(events: seq<Event>, e: Event, i: nat, j: nat)
    ensures FreshStore(events + [e], i, j)
       <==> if j == |events| then e == Stores && FreshFetch(events, i) else FreshStore(events, i, j) && !Changes(e)
  {
    hide FreshFetch;
    var all := events + [e];
    assert all[|events|] == e && forall k :: 0 <= k < |events| ==> events[k] == all[k];
    assert j < |events| ==> all[..j] == events[..j];
    assert all[..|events|] == events;
    if FreshStore(all, i, j) && j < |events| {
      assert forall k :: j < k < |events| ==> !Changes(all[k]);
    }
    if j == |events| && FreshFetch(events, i) {
      assert i < |events| by {
        FetchIndex(events, i);
      }
    }
  }

  lemma FetchIndex(events: seq<Event>, i: nat)
    requires FreshFetch(events, i)
    ensures i < |events|
  {
  }

  /** In a run without restores the store is up to date exactly when the apps have not changed
      since some fetch that was stored. */
  lemma {:induction false} BehindIff(events: seq<Event>)
    requires Run(events).Some? && NoRestores(events)
    ensures Behind(Run(events).value) <==> !Current(events)
    ensures Tracks(events)
  {
    hide Step, FreshFetch, FreshStore;
    if events == [] {
      assert !Current([]) by {
        NothingIsFresh();
      }
    } else {
      var n := |events| - 1;
      var before, e := events[..n], events[n];
      assert NoRestores(before) by {
        assert forall i :: 0 <= i < n ==> before[i] == events[i];
      }
      BehindIff(before);
      assert before + [e] == events;
      TrackStep(before, e);
    }
  }

  lemma NothingIsFresh()
    ensures forall i: nat, j: nat :: !FreshStore([], i, j)
  {
  }

  /** How a step moves what the events say. */
  lemma FreshnessStep(events: seq<Event>, e: Event)
    ensures SomeFresh(events + [e]) <==> e == AppsArrive(true) || (!e.AppsArrive? && !Changes(e) && SomeFresh(events))
    ensures Current(events + [e]) <==> !Changes(e) && (Current(events) || (e == Stores && SomeFresh(events)))
  {
    hide FreshFetch, FreshStore;
    var all, n := events + [e], |events|;
    StoresComeLast(events);
    forall i: nat
      ensures FreshFetch(all, i)
         <==> if i == n then e == AppsArrive(true) else FreshFetch(events, i) && !e.AppsArrive? && !Changes(e)
    {
      FetchStep(events, e, i);
    }
    assert FreshFetch(all, n) <==> e == AppsArrive(true);
    if i: nat :| FreshFetch(events, i) {
      FetchIndex(events, i);
      StoreStep(events, e, i, n);
      assert FreshFetch(all, i) <==> !e.AppsArrive? && !Changes(e);
    }
    if i: nat, j: nat :| FreshStore(events, i, j) {
      StoreStep(events, e, i, j);
    }
    if i: nat, j: nat :| FreshStore(all, i, j) {
      StoreStep(events, e, i, j);
    }
  }

  lemma TrackStep(events: seq<Event>, e: Event)
    requires Run(events).Some? && Run(events + [e]).Some? && !e.Restores? && Tracks(events)
    ensures Tracks(events + [e])
  {
    hide Step, SomeFresh, Current, Tracked;
    RunNext(events, e);
    FreshnessStep(events, e);
    TrackedStep(Run(events).value, e, Current(events), SomeFresh(events));
  }

  lemma TrackedStep(s: State, e: Event, current: bool, newest: bool)
    requires Tracked(s, current, newest) && Step(s, e).Some? && !e.Restores?
    ensures Tracked(Step(s, e).value,
      !Changes(e) && (current || (e == Stores && newest)),
      e == AppsArrive(true) || (!e.AppsArrive? && !Changes(e) && newest))
  {
    hide Reported;
    if e.ControllerChanges? {
      assert (s.log + [e.relevant])[..|s.log|] == s.log;
    }
  }

  lemma StoresComeLast(events: seq<Event>)
    ensures forall i: nat, j: nat :: FreshStore(events, i, j) ==> j < |events|
  {
  }

  /** Some change has not been read: no reading of the events succeeded after it. */
  ghost predicate Unread(events: seq<Event>) {
    exists i: nat :: i < |events| && Changes(events[i]) && NotRead(events, i)
  }

  ghost predicate NotRead(events: seq<Event>, i: nat) {
    forall k :: i < k < |events| ==> !Reads(events[k])
  }

  predicate Reads(e: Event) {
    e.PollReads? && e.ok
  }

  lemma UnreadStep(events: seq<Event>, e: Event)
    ensures Unread(events + [e]) <==> Changes(e) || (Unread(events) && !Reads(e))
  {
    var all, n := events + [e], |events|;
    assert all[n] == e && forall i :: 0 <= i < n ==> all[i] == events[i];
    if Changes(e) {
      assert NotRead(all, n);
    }
    if i: nat :| i < n && Changes(events[i]) && NotRead(events, i) {
      assert NotRead(all, i) <==> !Reads(e);
    }
    if i: nat :| i < |all| && Changes(all[i]) && NotRead(all, i) {
      assert i < n ==> Changes(events[i]) && NotRead(events, i) && !Reads(all[n]);
    }
  }

  lemma {:induction false} ReportedIff(events: seq<Event>)
    requires Run(events).Some?
    ensures Reported(Run(events).value) <==> Unread(events)
    ensures Run(events).value.syncPoint <= |Run(events).value.log|
  {
    hide Unread;
    if events == [] {
      assert !Unread([]) by {
        NothingIsUnread();
      }
    } else {
      var n := |events| - 1;
      var before, e := events[..n], events[n];
      ReportedIff(before);
      UnreadStep(before, e);
      assert before + [e] == events;
      ReportedStep(Run(before).value, e);
    }
  }

  lemma NothingIsUnread()
    ensures !Unread([])
  {
  }

  lemma ReportedStep(s: State, e: Event)
    requires Step(s, e).Some? && s.syncPoint <= |s.log|
    ensures Reported(Step(s, e).value) <==> Changes(e) || (Reported(s) && !Reads(e))
    ensures Step(s, e).value.syncPoint <= |Step(s, e).value.log|
  {
    if e.ControllerChanges? {
      var log := s.log + [e.relevant];
      assert log[|s.log|] == e.relevant && forall i :: 0 <= i < |s.log| ==> log[i] == s.log[i];
    }
  }

  /** Exactly when the store stays behind with nothing left to report it: every change has been
      read, and there is none after which apps were fetched and stored. */
  lemma StuckIff(events: seq<Event>)
    requires Run(events).Some? && NoRestores(events)
    ensures Stuck(Run(events).value) <==> Run(events).value.pc == Idle && !Unread(events) && !Current(events)
  {
    hide Run, Reported, Unread, Current;
    BehindIff(events);
    ReportedIff(events);
  }

  /** What can end it: another change, a new leader, a startup fetch, or a restore. */
  predicate Wakes(e: Event) {
    Changes(e) || e.StartupReads? || e.Restores? || (e.PollReads? && e.leaderShifted)
  }

  /** Nothing else does, however often the controller is polled. */
  lemma {:induction false} StuckLasts(events: seq<Event>, more: seq<Event>)
    requires Run(events).Some? && Stuck(Run(events).value) && Run(events + more).Some?
    requires forall i :: 0 <= i < |more| ==> !Wakes(more[i])
    ensures Stuck(Run(events + more).value) && Run(events + more).value.stored == Run(events).value.stored
    decreases |more|
  {
    hide Step, Stuck;
    if more == [] {
      assert events + more == events;
    } else {
      var n := |more| - 1;
      var before := events + more[..n];
      assert (events + more)[..|events| + n] == before && (events + more)[|events| + n] == more[n];
      StuckLasts(events, more[..n]);
      ReportedIff(before);
      StuckStep(Run(before).value, more[n]);
    }
  }

  lemma StuckStep(s: State, e: Event)
    requires Stuck(s) && s.syncPoint <= |s.log| && Step(s, e).Some? && !Wakes(e)
    ensures Stuck(Step(s, e).value) && Step(s, e).value.stored == s.stored
  {
    if e.ControllerChanges? {
      ReportedStep(s, e);
      assert (s.log + [e.relevant])[..|s.log|] == s.log;
    }
  }

  /** This happens: the apps change, the poll reads the event, and the fetch fails. */
  lemma FailedFetchSticks(events: seq<Event>)
    requires Run(events).Some? && Run(events).value.pc == Idle && NoRestores(events)
    ensures var run := Run(events + [ControllerChanges(true)] + [PollReads(true, false)] + [AppsArrive(false)]);
      run.Some? && Stuck(run.value)
  {
    hide Step;
    var e1 := events + [ControllerChanges(true)];
    var e2 := e1 + [PollReads(true, false)];
    var e3 := e2 + [AppsArrive(false)];
    BehindIff(events);
    ReportedIff(events);
    FailedFetchSteps(Run(events).value);
    RunNext(events, ControllerChanges(true));
    RunNext(e1, PollReads(true, false));
    RunNext(e2, AppsArrive(false));
  }

  lemma RunNext(events: seq<Event>, e: Event)
    requires Run(events).Some?
    ensures Run(events + [e]) == Step(Run(events).value, e)
  {
    hide Step;
    assert (events + [e])[..|events|] == events;
  }

  lemma FailedFetchSteps(s: State)
    requires s.pc == Idle && s.stored <= Version(s.log) && s.syncPoint <= |s.log|
    ensures var s1 := Step(s, ControllerChanges(true));
      s1.Some? && var s2 := Step(s1.value, PollReads(true, false));
      s2.Some? && var s3 := Step(s2.value, AppsArrive(false));
      s3.Some? && Stuck(s3.value)
  {
    var log := s.log + [true];
    assert log[..|s.log|] == s.log && log[|s.log|];
    assert Reported(s.(log := log));
  }

  // ---- What sets off a refresh, and what one does ----

  /** A poll fetches the apps exactly when it saw a new leader, or could read the events and an unread
      change was among them; otherwise it leaves everything as it was. */
  lemma PollFetchesIff(events: seq<Event>, ok: bool, leaderShifted: bool)
    requires Run(events).Some? && Run(events).value.pc == Idle
    ensures var run := Run(events + [PollReads(ok, leaderShifted)]);
      && run.Some? && run.value.stored == Run(events).value.stored
      && (run.value.pc == Refreshing <==> leaderShifted || (ok && Unread(events)))
      && (run.value.pc == Refreshing || run.value.pc == Idle)
      && (!ok && !leaderShifted ==> run.value == Run(events).value)
  {
    hide Run, Unread, Version;
    RunNext(events, PollReads(ok, leaderShifted));
    ReportedIff(events);
  }

  /** A fetch that succeeds and is stored brings the store up to date, whatever it held. */
  lemma RefreshHeals(events: seq<Event>)
    requires Run(events).Some? && Run(events).value.pc == Refreshing
    ensures var run := Run(events + [AppsArrive(true)] + [Stores]);
      run.Some? && run.value.pc == Idle && !Behind(run.value)
  {
    hide Run, Version;
    RunNext(events, AppsArrive(true));
    RunNext(events + [AppsArrive(true)], Stores);
  }

  /** A stuck store is healed by a fetch that a new leader or a startup sets off. */
  lemma {:induction false} WakingHeals(events: seq<Event>, e: Event)
    requires Run(events).Some? && Stuck(Run(events).value)
    requires e == StartupReads || (e.PollReads? && e.leaderShifted)
    ensures var run := Run(events + [e] + [AppsArrive(true)] + [Stores]);
      run.Some? && run.value.pc == Idle && !Behind(run.value)
  {
    hide Run, Version, Reported;
    RunNext(events, e);
    RefreshHeals(events + [e]);
  }

  /** A restore stores the version of the snapshot, at any moment, and nothing else changes. */
  lemma RestoreStores(events: seq<Event>, version: nat)
    requires Run(events).Some?
    ensures Run(events + [Restores(version)]) == Some(Run(events).value.(stored := version))
  {
    hide Run;
    RunNext(events, Restores(version));
  }

  ghost function Relevant(log: seq<bool>): set<int> {
    set i | 0 <= i < |log| && log[i]
  }

  /** The version counts the relevant events. */
  lemma {:induction false} VersionCounts(log: seq<bool>)
    ensures Version(log) == |Relevant(log)|
  {
    if log == [] {
      assert Relevant(log) == {};
    } else {
      var n := |log| - 1;
      VersionCounts(log[..n]);
      assert Relevant(log) == Relevant(log[..n]) + if log[n] then {n} else {};
    }
  }
}
