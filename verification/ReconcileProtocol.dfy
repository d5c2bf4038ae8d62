/** The reconcile protocol as a step machine: the poll and startup rounds and the signal handler
    put triggers into a queue of two, and one worker turns them into reloads. Each goroutine has
    a program counter and every interleaving of their steps is a run. */
module ReconcileProtocol {
  import opened GoStrings

  const QUEUE_CAPACITY := 2

  /** The app tables of the namespaces; a number stands for a table's contents. */
  type Apps = map<string, int>

  datatype WorkerPc =
    | Waiting                              // for the next tick
    | GateSeen                             // the restart gate was set; the probe is next
    | Clearing                             // the proxy answered; clearing the gate is next
    | Taking                               // a trigger is needed
    | Rechecking                           // a trigger is held; the gate is read again next
    | Starting                             // reload() is about to read the store
    | Reloading(read: Apps, startedAt: nat)

  /** One namespace's handler inside a round. */
  datatype HandlerPc =
    | Fetching
    | Compared(content: int, equal: bool, leaderShifted: bool)
    | Finished(updated: bool)

  datatype RoundPc =
    | Idle
    | Polling(handlers: map<string, HandlerPc>)
    | Remembering
    | Enqueueing

  datatype SignalPc = Listening | GateSet | Applied

  datatype Producer = Poller | Startup

  /** The last six fields are history: they record the run and decide nothing. */
  datatype State = State(
    apps: Apps,
    queue: nat,
    restart: bool,
    pending: bool,
    worker: WorkerPc,
    rounds: map<Producer, RoundPc>,
    signal: SignalPc,
    now: nat,
    accepted: nat,
    succeeded: nat,
    lastAttempt: nat,
    lastOk: Completed,
    silentRestore: bool)

  /** The last reload that returned nil: when it started and what it read. */
  datatype Completed = Completed(startedAt: nat, apps: Apps)

  datatype Event =
    | RoundStarts(who: Producer, namespaces: set<string>)
    | HandlerSkips(who: Producer, ns: string, leaderShifted: bool)
    | HandlerCompares(who: Producer, ns: string, content: int, leaderShifted: bool)
    | HandlerStores(who: Producer, ns: string)
    | RoundJoins(who: Producer)
    | Remembers(who: Producer)
    | Enqueues(who: Producer)
    | Sigusr1
    | Sigusr2Sets
    | Sigusr2Applies(restored: Apps)
    | Sigusr2Enqueues
    | StartupRestores(restored: Apps)
    | WorkerTicks
    | WorkerProbes(responsive: bool)
    | WorkerClears
    | WorkerTakes
    | WorkerRechecks
    | WorkerStarts
    | WorkerEnds(ok: bool)

  predicate IsAttempt(e: Event) {
    e.Enqueues? || e.Sigusr2Enqueues?
  }

  function Initial(apps: Apps): State {
    State(apps, 0, false, false, Waiting, map[Poller := Idle, Startup := Idle], Listening, 0, 0, 0, 0,
      Completed(0, apps), false)
  }

  /** The non-blocking send: a full queue drops the trigger. */
  function Offer(s: State): State {
    if s.queue < QUEUE_CAPACITY
    then s.(queue := s.queue + 1, accepted := s.accepted + 1, lastAttempt := s.now + 1)
    else s.(lastAttempt := s.now + 1)
  }

  /** One atomic step, if it is enabled. */
  function Step(s: State, e: Event): Option<State> {
    match Effect(s, e)
    case None => None
    case Some(s') => Some(s'.(now := s.now + 1))
  }

  function Effect(s: State, e: Event): Option<State> {
    match e
    case Sigusr1 => Some(s.(restart := true))
    case Sigusr2Sets => if s.signal != Listening then None else Some(s.(restart := true, signal := GateSet))
    case Sigusr2Applies(restored) =>
      if s.signal != GateSet || !(restored.Keys <= s.apps.Keys) then None
      else Some(s.(apps := s.apps + restored, signal := Applied))
    case Sigusr2Enqueues => if s.signal != Applied then None else Some(Offer(s.(signal := Listening)))
    case StartupRestores(restored) =>
      if !(restored.Keys <= s.apps.Keys) then None
      else Some(s.(apps := s.apps + restored, silentRestore := true))
    case WorkerTicks | WorkerProbes(_) | WorkerClears | WorkerTakes | WorkerRechecks | WorkerStarts | WorkerEnds(_) =>
      WorkerEffect(s, e)
    case _ => if e.who !in s.rounds then None else RoundEffect(s, e.who, s.rounds[e.who], e)
  }

  /** reloadWorker; the queue is consulted only when no trigger is held. */
  function WorkerEffect(s: State, e: Event): (r: Option<State>)
    ensures r.Some? ==> r.value.apps == s.apps && r.value.rounds == s.rounds && r.value.signal == s.signal
    ensures r.Some? ==> r.value.accepted == s.accepted && r.value.lastAttempt == s.lastAttempt && r.value.now == s.now
  {
    match (s.worker, e)
    case (Waiting, WorkerTicks) => Some(s.(worker := if s.restart then GateSeen else Taking))
    case (GateSeen, WorkerProbes(responsive)) => Some(s.(worker := if responsive then Clearing else Waiting))
    case (Clearing, WorkerClears) => Some(s.(restart := false, worker := Taking))
    case (Taking, WorkerTakes) =>
      if s.pending then Some(s.(worker := Rechecking))
      else if s.queue > 0 then Some(s.(queue := s.queue - 1, pending := true, worker := Rechecking))
      else Some(s.(worker := Waiting))
    case (Rechecking, WorkerRechecks) => Some(s.(worker := if s.restart then Waiting else Starting))
    case (Starting, WorkerStarts) => Some(s.(worker := Reloading(s.apps, s.now + 1), silentRestore := false))
    case (Reloading(read, startedAt), WorkerEnds(ok)) =>
      if ok
      then Some(s.(worker := Waiting, pending := false, succeeded := s.succeeded + 1,
        lastOk := Completed(startedAt, read)))
      else Some(s.(worker := Waiting))
    case _ => None
  }

  /** pollingEvents and pollingHandler; a startup attempt has the same shape. */
  function RoundEffect(s: State, who: Producer, round: RoundPc, e: Event): (r: Option<State>)
    ensures r.Some? ==> r.value.worker == s.worker && r.value.signal == s.signal && r.value.pending == s.pending
    ensures r.Some? ==>
      r.value.succeeded == s.succeeded && r.value.lastOk == s.lastOk && r.value.silentRestore == s.silentRestore &&
      r.value.now == s.now
    ensures r.Some? ==> r.value.(apps := s.apps, rounds := s.rounds) == if e.Enqueues? then Offer(s) else s
    ensures r.Some? && e.Enqueues? ==> r.value.apps == s.apps
  {
    match (round, e)
    case (Idle, RoundStarts(_, namespaces)) =>
      if !(namespaces <= s.apps.Keys) then None
      else Some(s.(rounds := s.rounds[who := Polling(map ns | ns in namespaces :: Fetching)]))
    case (Polling(handlers), HandlerSkips(_, _, _)) => HandlerEffect(s, who, handlers, e.ns, e)
    case (Polling(handlers), HandlerCompares(_, _, _, _)) => HandlerEffect(s, who, handlers, e.ns, e)
    case (Polling(handlers), HandlerStores(_, _)) => HandlerEffect(s, who, handlers, e.ns, e)
    case (Polling(handlers), RoundJoins(_)) =>
      if exists ns :: ns in handlers && !handlers[ns].Finished? then None
      else Some(s.(rounds := s.rounds[who := if Updated(handlers) then Remembering else Idle]))
    case (Remembering, Remembers(_)) => Some(s.(rounds := s.rounds[who := Enqueueing]))
    case (Enqueueing, Enqueues(_)) => Some(Offer(s.(rounds := s.rounds[who := Idle])))
    case _ => None
  }

  /** pollingHandler and refreshApps, for one namespace. */
  function HandlerEffect(s: State, who: Producer, handlers: map<string, HandlerPc>, ns: string,
      e: Event): (r: Option<State>)
    ensures r.Some? ==> r.value.(apps := s.apps, rounds := s.rounds) == s
  {
    if ns !in handlers then None
    else
      match (handlers[ns], e)
      case (Fetching, HandlerSkips(_, _, leaderShifted)) =>
        // only the startup fetch counts a new leader whose apps could not be fetched
        Some(SetHandler(s, who, handlers, ns, Finished(who.Startup? && leaderShifted)))
      case (Fetching, HandlerCompares(_, _, content, leaderShifted)) =>
        if ns !in s.apps then None
        else Some(SetHandler(s, who, handlers, ns, Compared(content, content == s.apps[ns], leaderShifted)))
      case (Compared(content, equal, leaderShifted), HandlerStores(_, _)) =>
        var stored := if equal then s else s.(apps := s.apps[ns := content]);
        Some(SetHandler(stored, who, handlers, ns, Finished(!equal || leaderShifted)))
      case _ => None
  }

  function SetHandler(s: State, who: Producer, handlers: map<string, HandlerPc>, ns: string, h: HandlerPc): State {
    s.(rounds := s.rounds[who := Polling(handlers[ns := h])])
  }

  predicate Updated(handlers: map<string, HandlerPc>) {
    exists ns :: ns in handlers && handlers[ns] == Finished(true)
  }

  /** A run from the initial state; only enabled steps occur in it. */
  function Run(apps: Apps, events: seq<Event>): Option<State> {
    if events == [] then Some(Initial(apps))
    else
      match Run(apps, events[..|events| - 1])
      case None => None
      case Some(s) => Step(s, events[|events| - 1])
  }

  // ---- Invariants ----

  /** A changed table whose trigger has not been offered yet. */
  predicate RoundOwes(round: RoundPc) {
    match round
    case Polling(handlers) => Updated(handlers)
    case Remembering => true
    case Enqueueing => true
    case Idle => false
  }

  predicate Owes(s: State) {
    s.signal == Applied || exists who :: who in s.rounds && RoundOwes(s.rounds[who])
  }

  predicate Triggered(s: State) {
    s.queue > 0 || s.pending
  }

  predicate HoldsTrigger(w: WorkerPc) {
    w.Rechecking? || w.Starting? || w.Reloading?
  }

  predicate CountsAgree(s: State) {
    && s.queue <= QUEUE_CAPACITY
    && (HoldsTrigger(s.worker) ==> s.pending)
    && s.accepted == s.succeeded + s.queue + (if s.pending then 1 else 0)
  }

  predicate AttemptsCovered(s: State) {
    && s.lastAttempt <= s.now
    && s.lastOk.startedAt <= s.now
    && (Triggered(s) || s.lastAttempt == 0 || s.lastAttempt < s.lastOk.startedAt)
    && (s.worker.Reloading? ==> s.worker.startedAt <= s.now && (s.lastAttempt < s.worker.startedAt || s.queue > 0))
  }

  predicate LagCovered(s: State) {
    && (s.apps != s.lastOk.apps ==> Owes(s) || Triggered(s) || s.silentRestore)
    && (s.worker.Reloading? && s.apps != s.worker.read ==> Owes(s) || s.queue > 0 || s.silentRestore)
  }

  predicate Inv(s: State) {
    CountsAgree(s) && AttemptsCovered(s) && LagCovered(s)
  }

  predicate WorkerEvent(e: Event) {
    e.WorkerTicks? || e.WorkerProbes? || e.WorkerClears? || e.WorkerTakes? || e.WorkerRechecks? || e.WorkerStarts? ||
      e.WorkerEnds?
  }

  predicate SignalEvent(e: Event) {
    e.Sigusr1? || e.Sigusr2Sets? || e.Sigusr2Applies? || e.Sigusr2Enqueues? || e.StartupRestores?
  }

  lemma StepKeepsInv(s: State, e: Event)
    requires Inv(s) && Step(s, e).Some?
    ensures Inv(Step(s, e).value)
  {
    hide Owes;
    if SignalEvent(e) {
      SignalKeepsInv(s, e);
    } else if WorkerEvent(e) {
      WorkerKeepsInv(s, e);
    } else {
      RoundKeepsInv(s, e);
    }
  }

  lemma SignalKeepsInv(s: State, e: Event)
    requires Inv(s) && SignalEvent(e) && Step(s, e).Some?
    ensures Inv(Step(s, e).value)
  {
    if e.Sigusr2Enqueues? {
      hide Owes, Offer, RoundEffect, WorkerEffect;
      OfferKeepsInv(s.(signal := Listening));
    } else {
      QuietSignalKeepsInv(s, e);
    }
  }

  lemma QuietSignalKeepsInv(s: State, e: Event)
    requires Inv(s) && SignalEvent(e) && !e.Sigusr2Enqueues? && Step(s, e).Some?
    ensures Inv(Step(s, e).value)
  {
    hide Owes, RoundEffect, WorkerEffect, Offer;
    SignalKeepsDebt(s, e);
    NowKeepsDebt(Effect(s, e).value);
  }

  lemma OfferKeepsInv(s: State)
    requires CountsAgree(s) && s.lastOk.startedAt <= s.now
    requires s.worker.Reloading? ==> s.worker.startedAt <= s.now
    ensures Inv(Offer(s).(now := s.now + 1))
  {
    hide Owes;
  }

  lemma WorkerKeepsInv(s: State, e: Event)
    requires Inv(s) && WorkerEvent(e) && Step(s, e).Some?
    ensures Inv(Step(s, e).value)
  {
    hide Owes;
    WorkerKeepsDebt(s, e);
    NowKeepsDebt(WorkerEffect(s, e).value);
  }

  lemma RoundKeepsInv(s: State, e: Event)
    requires Inv(s) && !SignalEvent(e) && !WorkerEvent(e) && Step(s, e).Some?
    ensures Inv(Step(s, e).value)
  {
    hide Owes, RoundEffect;
    RoundKeepsDebt(s, e.who, s.rounds[e.who], e);
    NowKeepsDebt(Effect(s, e).value);
  }

  lemma NowKeepsDebt(s: State)
    ensures Owes(s.(now := s.now + 1)) <==> Owes(s)
  {
  }

  lemma SignalKeepsDebt(s: State, e: Event)
    requires SignalEvent(e) && Effect(s, e).Some?
    ensures e.Sigusr2Applies? ==> Owes(Effect(s, e).value)
    ensures !e.Sigusr2Enqueues? && Owes(s) ==> Owes(Effect(s, e).value)
  {
  }

  lemma WorkerKeepsDebt(s: State, e: Event)
    requires WorkerEffect(s, e).Some?
    ensures Owes(WorkerEffect(s, e).value) <==> Owes(s)
  {
  }

  /** A round step that does not offer a trigger forgets no debt, and one that changes a table
      leaves one. */
  lemma RoundKeepsDebt(s: State, who: Producer, round: RoundPc, e: Event)
    requires who in s.rounds && s.rounds[who] == round
    requires RoundEffect(s, who, round, e).Some?
    ensures var s' := RoundEffect(s, who, round, e).value;
      (e.Enqueues? || (Owes(s) ==> Owes(s'))) && (s'.apps != s.apps ==> Owes(s'))
  {
    var s' := RoundEffect(s, who, round, e).value;
    if !e.Enqueues? {
      RoundKeepsOwn(s, who, round, e);
      assert forall w :: w in s.rounds && w != who ==> s'.rounds[w] == s.rounds[w];
    }
  }

  lemma RoundKeepsOwn(s: State, who: Producer, round: RoundPc, e: Event)
    requires who in s.rounds && s.rounds[who] == round
    requires RoundEffect(s, who, round, e).Some? && !e.Enqueues?
    ensures var s' := RoundEffect(s, who, round, e).value;
      who in s'.rounds && (RoundOwes(round) || s'.apps != s.apps ==> RoundOwes(s'.rounds[who]))
  {
    if round.Polling? && (e.HandlerSkips? || e.HandlerCompares? || e.HandlerStores?) {
      var s' := RoundEffect(s, who, round, e).value;
      var before, after := round.handlers, s'.rounds[who].handlers;
      if ns :| ns in before && before[ns] == Finished(true) {
        assert after[ns] == Finished(true);
      }
      if s'.apps != s.apps {
        assert after[e.ns] == Finished(true);
      }
    }
  }

  lemma {:induction false} RunKeepsInv(apps: Apps, events: seq<Event>)
    requires Run(apps, events).Some?
    ensures Inv(Run(apps, events).value) && Run(apps, events).value.now == |events|
  {
    if events != [] {
      RunKeepsInv(apps, events[..|events| - 1]);
      StepKeepsInv(Run(apps, events[..|events| - 1]).value, events[|events| - 1]);
    }
  }

  // ---- Main results ----

  /** Every accepted trigger is still queued, held, or was used up by one successful reload. */
  lemma {:induction false} TriggersAreConserved(apps: Apps, events: seq<Event>)
    requires Run(apps, events).Some?
    ensures var s := Run(apps, events).value;
      s.accepted == s.succeeded + s.queue + (if s.pending then 1 else 0) && s.queue <= QUEUE_CAPACITY
  {
    RunKeepsInv(apps, events);
  }

  /** A restore at startup that no reload has read yet. */
  ghost predicate RestoredSilently(events: seq<Event>) {
    exists i: nat :: i < |events| && events[i].StartupRestores? && NoStarts(events, i)
  }

  ghost predicate NoStarts(events: seq<Event>, i: nat) {
    forall j :: i < j < |events| ==> !events[j].WorkerStarts?
  }

  lemma {:induction false} SilentRestoreHappened(apps: Apps, events: seq<Event>)
    requires Run(apps, events).Some?
    ensures Run(apps, events).value.silentRestore <==> RestoredSilently(events)
  {
    hide Step;
    if events != [] {
      var n := |events| - 1;
      var before, e := events[..n], events[n];
      SilentRestoreHappened(apps, before);
      StepHistory(Run(apps, before).value, e);
      assert forall i :: 0 <= i < n ==> before[i] == events[i];
      if RestoredSilently(before) && !e.WorkerStarts? {
        var i: nat :| i < n && before[i].StartupRestores? && NoStarts(before, i);
        assert NoStarts(events, i);
      }
      if e.StartupRestores? {
        assert NoStarts(events, n);
      }
      if RestoredSilently(events) {
        var i: nat :| i < |events| && events[i].StartupRestores? && NoStarts(events, i);
        assert i < n ==> NoStarts(before, i);
      }
    }
  }

  /** The proxy can lag behind the store only with a debt, that is, a changed table not yet
      announced or a trigger in the queue or in hand; or after a restore at startup that announced
      nothing and that no reload has read. */
  lemma {:induction false} LagImpliesDebt(apps: Apps, events: seq<Event>)
    requires Run(apps, events).Some?
    ensures var s := Run(apps, events).value;
      s.apps != s.lastOk.apps ==> Owes(s) || s.queue > 0 || s.pending || RestoredSilently(events)
  {
    RunKeepsInv(apps, events);
    SilentRestoreHappened(apps, events);
  }

  /** The history field lastOk names a reload that really started then and returned nil. */
  ghost predicate SuccessfulReload(events: seq<Event>, start: nat, end: nat) {
    && start < end < |events|
    && events[start].WorkerStarts? && events[end] == WorkerEnds(true)
    && forall i :: start < i < end ==> !events[i].WorkerStarts? && !events[i].WorkerEnds?
  }

  ghost predicate ReloadSucceeded(events: seq<Event>, start: nat) {
    exists end: nat :: SuccessfulReload(events, start, end)
  }

  lemma {:induction false} LastOkHappened(apps: Apps, events: seq<Event>)
    requires Run(apps, events).Some?
    ensures var ok := Run(apps, events).value.lastOk; ok.startedAt > 0 ==>
      ReloadSucceeded(events, ok.startedAt - 1)
    ensures var w := Run(apps, events).value.worker; w.Reloading? ==>
      && 0 < w.startedAt <= |events| && events[w.startedAt - 1].WorkerStarts?
      && forall i :: w.startedAt <= i < |events| ==> !events[i].WorkerStarts? && !events[i].WorkerEnds?
  {
    hide Step, Inv;
    if events != [] {
      var before, e := events[..|events| - 1], events[|events| - 1];
      var s, s' := Run(apps, before).value, Run(apps, events).value;
      assert forall i :: 0 <= i < |before| ==> before[i] == events[i];
      LastOkHappened(apps, before);
      RunKeepsInv(apps, before);
      StepHistory(s, e);
      if s'.lastOk != s.lastOk {
        assert SuccessfulReload(events, s.worker.startedAt - 1, |before|);
      } else if s.lastOk.startedAt > 0 {
        assert ReloadSucceeded(before, s.lastOk.startedAt - 1);
        var end: nat :| SuccessfulReload(before, s.lastOk.startedAt - 1, end);
        assert SuccessfulReload(events, s.lastOk.startedAt - 1, end);
      }
    }
  }

  /** How a step moves the history fields. */
  ghost predicate HistoryStep(s: State, e: Event, s': State) {
    && (s'.lastOk == s.lastOk ||
      (e == WorkerEnds(true) && s.worker.Reloading? && s'.lastOk.startedAt == s.worker.startedAt))
    && (s'.worker.Reloading? ==> s'.worker == s.worker || (e.WorkerStarts? && s'.worker.startedAt == s.now + 1))
    && (e.WorkerEnds? || e.WorkerStarts? ==> s'.worker != s.worker)
    && (s'.lastAttempt == if IsAttempt(e) then s.now + 1 else s.lastAttempt)
    && (s'.silentRestore <==> e.StartupRestores? || (s.silentRestore && !e.WorkerStarts?))
    && (s'.worker.Reloading? && s'.worker != s.worker ==> s'.worker.read == s.apps)
    && (s'.lastOk != s.lastOk ==> s.worker.Reloading? && s'.lastOk.apps == s.worker.read)
  }

  lemma StepHistory(s: State, e: Event)
    requires Step(s, e).Some?
    ensures HistoryStep(s, e, Step(s, e).value)
  {
    hide RoundEffect, WorkerEffect;
    if WorkerEvent(e) {
      WorkerHistory(s, e);
    }
  }

  lemma WorkerHistory(s: State, e: Event)
    requires WorkerEvent(e) && WorkerEffect(s, e).Some?
    ensures HistoryStep(s, e, WorkerEffect(s, e).value)
  {
  }

  lemma {:induction false} AttemptIsRecorded(apps: Apps, events: seq<Event>, k: nat)
    requires Run(apps, events).Some?
    requires k < |events| && IsAttempt(events[k])
    ensures Run(apps, events).value.lastAttempt > k
  {
    hide Step, Inv;
    var before, e := events[..|events| - 1], events[|events| - 1];
    RunKeepsInv(apps, before);
    StepHistory(Run(apps, before).value, e);
    if k < |before| {
      AttemptIsRecorded(apps, before, k);
    }
  }

  /** No lost reconcile: once an enqueue attempt has completed, in every later state a reload that
      started after it has returned nil, or a trigger is queued, or one is held. This includes
      attempts that found the queue full. */
  lemma {:induction false} NoLostReconcile(apps: Apps, events: seq<Event>, k: nat)
    requires Run(apps, events).Some?
    requires k < |events| && IsAttempt(events[k])
    ensures var s := Run(apps, events).value;
      s.queue > 0 || s.pending || exists start: nat :: k < start && ReloadSucceeded(events, start)
  {
    hide Run, Step, LagCovered, SuccessfulReload;
    RunKeepsInv(apps, events);
    AttemptIsRecorded(apps, events, k);
    LastOkHappened(apps, events);
    var s := Run(apps, events).value;
    if !Triggered(s) {
      assert ReloadSucceeded(events, s.lastOk.startedAt - 1);
    }
  }

  /** And its tables are those that the store had when that reload started. */
  lemma {:induction false} LastOkRead(apps: Apps, events: seq<Event>)
    requires Run(apps, events).Some?
    ensures var ok := Run(apps, events).value.lastOk;
      if ok.startedAt == 0 then ok.apps == apps else HadTables(apps, events, ok.startedAt - 1, ok.apps)
    ensures var w := Run(apps, events).value.worker;
      w.Reloading? ==> w.startedAt > 0 && HadTables(apps, events, w.startedAt - 1, w.read)
  {
    hide Step, Inv;
    if events != [] {
      var n := |events| - 1;
      var before := events[..n];
      assert forall k :: 0 <= k <= n ==> before[..k] == events[..k];
      LastOkRead(apps, before);
      RunKeepsInv(apps, before);
      StepHistory(Run(apps, before).value, events[n]);
    }
  }

  ghost predicate HadTables(apps: Apps, events: seq<Event>, k: nat, tables: Apps) {
    k < |events| && Run(apps, events[..k]).Some? && Run(apps, events[..k]).value.apps == tables
  }

  /** The proxy lags and nothing is on its way to it. */
  predicate LagsUnnoticed(s: State) {
    s.apps != s.lastOk.apps && !Owes(s) && !Triggered(s)
  }

  /** The restore at startup leaves such a lag, in any reachable state, exactly when it changes the
      tables against those of the last good reload and nothing was owed, queued or held. */
  lemma {:induction false} StartupRestoreLagsIff(apps: Apps, events: seq<Event>, restored: Apps)
    requires Run(apps, events).Some? && restored.Keys <= Run(apps, events).value.apps.Keys
    ensures var s, run := Run(apps, events).value, Run(apps, events + [StartupRestores(restored)]);
      run.Some? && (LagsUnnoticed(run.value) <==> s.apps + restored != s.lastOk.apps && !Owes(s) && !Triggered(s))
  {
    hide Owes;
    var s, e := Run(apps, events).value, StartupRestores(restored);
    assert (events + [e])[..|events|] == events;
    RestoreOwesNothing(s, restored);
  }

  lemma RestoreOwesNothing(s: State, restored: Apps)
    requires restored.Keys <= s.apps.Keys
    ensures Owes(Step(s, StartupRestores(restored)).value) <==> Owes(s)
  {
  }

  predicate ChangesTables(e: Event) {
    e.HandlerStores? || e.Sigusr2Applies? || e.StartupRestores?
  }

  /** It lasts until the next enqueue: without one no reload runs, so what the proxy has stays as
      it is, however long the worker ticks on. */
  lemma {:induction false} LagLasts(apps: Apps, events: seq<Event>, more: seq<Event>)
    requires Run(apps, events).Some? && Run(apps, events + more).Some?
    requires !Triggered(Run(apps, events).value)
    requires forall i :: 0 <= i < |more| ==> !IsAttempt(more[i])
    ensures var s, s' := Run(apps, events).value, Run(apps, events + more).value;
      && !Triggered(s') && s'.lastOk == s.lastOk
      && ((forall i :: 0 <= i < |more| ==> !ChangesTables(more[i])) ==> s'.apps == s.apps)
    decreases |more|
  {
    hide Step, Inv;
    if more == [] {
      assert events + more == events;
    } else {
      var n := |more| - 1;
      assert (events + more)[..|events| + n] == events + more[..n];
      assert (events + more)[|events| + n] == more[n];
      LagLasts(apps, events, more[..n]);
      RunKeepsInv(apps, events + more[..n]);
      IdleStep(Run(apps, events + more[..n]).value, more[n]);
    }
  }

  lemma IdleStep(s: State, e: Event)
    requires Inv(s) && Step(s, e).Some? && !Triggered(s) && !IsAttempt(e)
    ensures !Triggered(Step(s, e).value) && Step(s, e).value.lastOk == s.lastOk
    ensures !ChangesTables(e) ==> Step(s, e).value.apps == s.apps
  {
    hide Owes, AttemptsCovered, LagCovered;
  }

  // ---- What a round announces ----

  predicate Handles(e: Event, who: Producer, ns: string) {
    (e.HandlerSkips? || e.HandlerCompares? || e.HandlerStores?) && e.who == who && e.ns == ns
  }

  /** The handler's last step was a comparison of fetched apps with the stored ones. */
  ghost predicate ComparedAt(events: seq<Event>, who: Producer, ns: string, c: nat) {
    && c < |events| && events[c].HandlerCompares? && Handles(events[c], who, ns)
    && forall k :: c < k < |events| ==> !Handles(events[k], who, ns)
  }

  /** The fetched apps are not those of the store at that moment. */
  ghost predicate Differs(apps: Apps, events: seq<Event>, c: nat)
    requires c < |events| && events[c].HandlerCompares?
  {
    Run(apps, events[..c]).Some? ==>
      var tables := Run(apps, events[..c]).value.apps;
      events[c].ns !in tables || tables[events[c].ns] != events[c].content
  }

  /** A handler that stores apps which were new or came from a new leader. */
  ghost predicate StoresNews(apps: Apps, events: seq<Event>, who: Producer, ns: string) {
    exists c: nat :: ComparedAt(events, who, ns, c) && (events[c].leaderShifted || Differs(apps, events, c))
  }

  /** A step that gives its round something to announce; at startup a new leader is enough, even
      when its apps could not be fetched. */
  ghost predicate Announcing(apps: Apps, events: seq<Event>, e: Event, who: Producer) {
    || (e.HandlerStores? && e.who == who && StoresNews(apps, events, who, e.ns))
    || (e.HandlerSkips? && e.who == who && who.Startup? && e.leaderShifted)
  }

  ghost predicate NotEnqueued(events: seq<Event>, k: nat, who: Producer) {
    forall j :: k < j < |events| ==> events[j] != Enqueues(who)
  }

  /** Something was found to announce, and no enqueue of that round has followed. */
  ghost predicate Announces(apps: Apps, events: seq<Event>, who: Producer) {
    exists k: nat :: k < |events| && Announcing(apps, events[..k], events[k], who) && NotEnqueued(events, k, who)
  }

  ghost predicate ComparedAs(apps: Apps, events: seq<Event>, who: Producer, ns: string, h: HandlerPc) {
    h.Compared? ==> exists c: nat ::
      && ComparedAt(events, who, ns, c)
      && h == Compared(events[c].content, !Differs(apps, events, c), events[c].leaderShifted)
  }

  ghost predicate HandlersCompared(apps: Apps, events: seq<Event>, who: Producer)
    requires Run(apps, events).Some?
  {
    var rounds := Run(apps, events).value.rounds;
    && who in rounds
    && (rounds[who].Polling? ==>
      forall ns :: ns in rounds[who].handlers ==> ComparedAs(apps, events, who, ns, rounds[who].handlers[ns]))
  }

  lemma {:induction false} HandlersAreCompared(apps: Apps, events: seq<Event>, who: Producer)
    requires Run(apps, events).Some?
    ensures HandlersCompared(apps, events, who)
  {
    hide Step, ComparedAs;
    if events != [] {
      var n := |events| - 1;
      var before, e := events[..n], events[n];
      HandlersAreCompared(apps, before, who);
      var s, s' := Run(apps, before).value, Run(apps, events).value;
      HandlerStep(s, e, who);
      assert before + [e] == events;
      if s'.rounds[who].Polling? {
        forall ns | ns in s'.rounds[who].handlers
          ensures ComparedAs(apps, events, who, ns, s'.rounds[who].handlers[ns])
        {
          FetchingComparesNothing(apps, before, who, ns);
          var round := s.rounds[who];
          var h := if round.Polling? && ns in round.handlers then round.handlers[ns] else Fetching;
          ComparedStep(apps, before, e, who, ns, h, s'.rounds[who].handlers[ns]);
        }
      }
    }
  }

  lemma FetchingComparesNothing(apps: Apps, events: seq<Event>, who: Producer, ns: string)
    ensures ComparedAs(apps, events, who, ns, Fetching)
  {
  }

  /** What a step makes of the handlers of a round. */
  lemma HandlerStep(s: State, e: Event, who: Producer)
    requires who in s.rounds && Step(s, e).Some?
    ensures var s' := Step(s, e).value;
      && who in s'.rounds
      && (s'.rounds[who].Polling? ==> forall ns :: ns in s'.rounds[who].handlers ==>
        var h := s'.rounds[who].handlers[ns];
        if e.HandlerCompares? && Handles(e, who, ns)
        then ns in s.apps && h == Compared(e.content, s.apps[ns] == e.content, e.leaderShifted)
        else h.Compared? ==> s.rounds[who].Polling? && ns in s.rounds[who].handlers &&
                             h == s.rounds[who].handlers[ns] && !Handles(e, who, ns))
  {
    hide WorkerEffect, RoundEffect, Updated;
    if WorkerEvent(e) {
      WorkerKeepsRounds(s, e);
    } else if !SignalEvent(e) {
      var w := e.who;
      RoundHandlers(s, e, w);
      assert Step(s, e).value.rounds == RoundEffect(s, w, s.rounds[w], e).value.rounds;
    }
  }

  /** What a step of a round makes of handlers: of this round and of any other. */
  lemma RoundHandlers(s: State, e: Event, who: Producer)
    requires !WorkerEvent(e) && !SignalEvent(e) && e.who == who && who in s.rounds
    requires RoundEffect(s, who, s.rounds[who], e).Some?
    ensures var s' := RoundEffect(s, who, s.rounds[who], e).value;
      && who in s'.rounds && (forall w :: w != who ==> (w in s'.rounds <==> w in s.rounds))
      && (forall w :: w != who && w in s.rounds ==> s'.rounds[w] == s.rounds[w])
      && (s'.rounds[who].Polling? ==> forall ns :: ns in s'.rounds[who].handlers ==>
        var h := s'.rounds[who].handlers[ns];
        if e.HandlerCompares? && e.ns == ns
        then ns in s.apps && h == Compared(e.content, s.apps[ns] == e.content, e.leaderShifted)
        else h.Compared? ==> s.rounds[who].Polling? && ns in s.rounds[who].handlers &&
                             h == s.rounds[who].handlers[ns] && !Handles(e, who, ns))
  {
    hide Updated;
  }

  lemma ComparedStep(apps: Apps, events: seq<Event>, e: Event, who: Producer, ns: string, h: HandlerPc, h': HandlerPc)
    requires Run(apps, events).Some? && ComparedAs(apps, events, who, ns, h)
    requires var tables := Run(apps, events).value.apps;
      if e.HandlerCompares? && Handles(e, who, ns)
      then ns in tables && h' == Compared(e.content, tables[ns] == e.content, e.leaderShifted)
      else h'.Compared? ==> h' == h && !Handles(e, who, ns)
    ensures ComparedAs(apps, events + [e], who, ns, h')
  {
    hide Run;
    var all, n := events + [e], |events|;
    assert all[..n] == events && forall k :: 0 <= k < n ==> all[k] == events[k] && all[..k] == events[..k];
    if e.HandlerCompares? && Handles(e, who, ns) {
      assert ComparedAt(all, who, ns, n);
    } else if h'.Compared? {
      var c: nat :| ComparedAt(events, who, ns, c) &&
        h == Compared(events[c].content, !Differs(apps, events, c), events[c].leaderShifted);
      assert ComparedAt(all, who, ns, c);
    }
  }

  /** In every run a round is on its way to its enqueue exactly when it has found something to
      announce that it has not announced yet. */
  lemma {:induction false} RoundOwesIff(apps: Apps, events: seq<Event>, who: Producer)
    requires Run(apps, events).Some?
    ensures who in Run(apps, events).value.rounds
    ensures RoundOwes(Run(apps, events).value.rounds[who]) <==> Announces(apps, events, who)
  {
    hide Step, RoundOwes, Announcing;
    HandlersAreCompared(apps, events, who);
    if events == [] {
      assert !RoundOwes(Idle) by {
        IdleOwesNothing();
      }
    } else {
      var n := |events| - 1;
      var before, e := events[..n], events[n];
      RoundOwesIff(apps, before, who);
      HandlersAreCompared(apps, before, who);
      AnnouncesStep(apps, before, e, who);
      assert before + [e] == events;
      NewsStep(apps, before, e, who);
    }
  }

  lemma IdleOwesNothing()
    ensures !RoundOwes(Idle)
  {
  }

  lemma AnnouncesStep(apps: Apps, events: seq<Event>, e: Event, who: Producer)
    ensures Announces(apps, events + [e], who)
       <==> Announcing(apps, events, e, who) || (Announces(apps, events, who) && e != Enqueues(who))
  {
    hide Announcing;
    var all, n := events + [e], |events|;
    assert all[n] == e && all[..n] == events;
    assert forall k :: 0 <= k < n ==> all[k] == events[k] && all[..k] == events[..k];
    if Announcing(apps, events, e, who) {
      assert NotEnqueued(all, n, who);
    }
    if k: nat :| k < n && Announcing(apps, events[..k], events[k], who) && NotEnqueued(events, k, who) {
      assert NotEnqueued(all, k, who) <==> e != Enqueues(who);
    }
    if k: nat :| k < |all| && Announcing(apps, all[..k], all[k], who) && NotEnqueued(all, k, who) {
      assert k < n ==> NotEnqueued(events, k, who) && all[n] != Enqueues(who);
    }
  }

  lemma NewsStep(apps: Apps, events: seq<Event>, e: Event, who: Producer)
    requires Run(apps, events).Some? && Step(Run(apps, events).value, e).Some? && HandlersCompared(apps, events, who)
    ensures var s, s' := Run(apps, events).value, Step(Run(apps, events).value, e).value;
      && who in s'.rounds
      && (RoundOwes(s'.rounds[who]) <==>
        Announcing(apps, events, e, who) || (RoundOwes(s.rounds[who]) && e != Enqueues(who)))
  {
    hide Run, Step, Differs, RoundOwes;
    var s := Run(apps, events).value;
    if e.HandlerStores? && e.who == who && s.rounds[who].Polling? && e.ns in s.rounds[who].handlers &&
       s.rounds[who].handlers[e.ns].Compared? {
      var h := s.rounds[who].handlers[e.ns];
      assert ComparedAs(apps, events, who, e.ns, h);
      var c: nat :| ComparedAt(events, who, e.ns, c) &&
        h == Compared(events[c].content, !Differs(apps, events, c), events[c].leaderShifted);
      forall d: nat | ComparedAt(events, who, e.ns, d) ensures d == c {
        OneComparison(events, who, e.ns, c, d);
      }
      assert StoresNews(apps, events, who, e.ns) <==> !h.equal || h.leaderShifted;
      OwesStep(s, e, who, !h.equal || h.leaderShifted);
    } else {
      OwesStep(s, e, who, false);
    }
  }

  lemma OneComparison(events: seq<Event>, who: Producer, ns: string, c: nat, d: nat)
    requires ComparedAt(events, who, ns, c) && ComparedAt(events, who, ns, d)
    ensures c == d
  {
  }

  lemma OwesStep(s: State, e: Event, who: Producer, news: bool)
    requires who in s.rounds && Step(s, e).Some?
    requires e.HandlerStores? && e.who == who && s.rounds[who].Polling? && e.ns in s.rounds[who].handlers &&
             s.rounds[who].handlers[e.ns].Compared? ==>
      (news <==> !s.rounds[who].handlers[e.ns].equal || s.rounds[who].handlers[e.ns].leaderShifted)
    ensures var s' := Step(s, e).value;
      && who in s'.rounds
      && (RoundOwes(s'.rounds[who]) <==>
        || (e.HandlerStores? && e.who == who && news)
        || (e.HandlerSkips? && e.who == who && who.Startup? && e.leaderShifted)
        || (RoundOwes(s.rounds[who]) && e != Enqueues(who)))
    ensures e.HandlerStores? && e.who == who ==>
      s.rounds[who].Polling? && e.ns in s.rounds[who].handlers && s.rounds[who].handlers[e.ns].Compared?
  {
    hide WorkerEffect, Updated;
    if (e.HandlerSkips? || e.HandlerCompares? || e.HandlerStores?) && e.who == who && s.rounds[who].Polling? {
      var handlers := s.rounds[who].handlers;
      if e.ns in handlers && !handlers[e.ns].Finished? {
        var h := Step(s, e).value.rounds[who].handlers[e.ns];
        UpdatedAfter(handlers, e.ns, h);
      }
    } else if e.RoundStarts? {
      NothingUpdated(e.namespaces);
    }
  }

  lemma UpdatedAfter(handlers: map<string, HandlerPc>, ns: string, h: HandlerPc)
    requires ns in handlers && !handlers[ns].Finished?
    ensures Updated(handlers[ns := h]) <==> Updated(handlers) || h == Finished(true)
  {
    var after := handlers[ns := h];
    assert forall k :: k in handlers && k != ns ==> after[k] == handlers[k];
    assert after[ns] == h;
  }

  lemma NothingUpdated(namespaces: set<string>)
    ensures !Updated(map ns | ns in namespaces :: Fetching)
  {
  }

  // ---- A round waits for its handlers ----

  /** The round under way began at step r, with these namespaces. */
  ghost predicate Began(events: seq<Event>, who: Producer, r: nat, namespaces: set<string>) {
    && r < |events| && events[r] == RoundStarts(who, namespaces)
    && forall k :: r < k < |events| ==> !(events[k].RoundStarts? && events[k].who == who)
  }

  /** The namespace's handler came to its end after step r: it stored what it fetched, or had nothing to. */
  ghost predicate Done(events: seq<Event>, who: Producer, ns: string, r: nat) {
    exists k :: r < k < |events| && Handles(events[k], who, ns) && !events[k].HandlerCompares?
  }

  ghost predicate BeganAs(events: seq<Event>, who: Producer, r: nat, handlers: map<string, HandlerPc>) {
    && Began(events, who, r, handlers.Keys)
    && forall ns :: ns in handlers && handlers[ns].Finished? ==> Done(events, who, ns, r)
  }

  lemma {:induction false} RoundBegan(apps: Apps, events: seq<Event>, who: Producer) returns (r: nat)
    requires Run(apps, events).Some? && who in Run(apps, events).value.rounds
    requires Run(apps, events).value.rounds[who].Polling?
    ensures BeganAs(events, who, r, Run(apps, events).value.rounds[who].handlers)
  {
    hide Step, BeganAs;
    if events == [] {
      assert false;
    }
    var n := |events| - 1;
    var before, e := events[..n], events[n];
    var s, s' := Run(apps, before).value, Run(apps, events).value;
    PollingStep(s, e, who);
    assert before + [e] == events;
    if e.RoundStarts? && e.who == who {
      r := n;
      JustBegan(before, who, e.namespaces, s'.rounds[who].handlers);
    } else {
      r := RoundBegan(apps, before, who);
      StillBegan(before, e, who, r, s.rounds[who].handlers, s'.rounds[who].handlers);
    }
  }

  lemma PollingStep(s: State, e: Event, who: Producer)
    requires Step(s, e).Some? && who in Step(s, e).value.rounds && Step(s, e).value.rounds[who].Polling?
    ensures var handlers := Step(s, e).value.rounds[who].handlers;
      && who in s.rounds
      && if e.RoundStarts? && e.who == who
         then handlers.Keys == e.namespaces && forall ns :: ns in handlers ==> handlers[ns] == Fetching
         else
           && s.rounds[who].Polling? && handlers.Keys == s.rounds[who].handlers.Keys
           && forall ns :: ns in handlers && handlers[ns].Finished? && !s.rounds[who].handlers[ns].Finished? ==>
             Handles(e, who, ns) && !e.HandlerCompares?
  {
    hide WorkerEffect, Updated;
    if WorkerEvent(e) {
      WorkerKeepsRounds(s, e);
    }
  }

  lemma JustBegan(events: seq<Event>, who: Producer, namespaces: set<string>, handlers: map<string, HandlerPc>)
    requires handlers.Keys == namespaces && forall ns :: ns in handlers ==> handlers[ns] == Fetching
    ensures BeganAs(events + [RoundStarts(who, namespaces)], who, |events|, handlers)
  {
  }

  lemma StillBegan(events: seq<Event>, e: Event, who: Producer, r: nat, handlers: map<string, HandlerPc>,
      handlers': map<string, HandlerPc>)
    requires BeganAs(events, who, r, handlers) && !(e.RoundStarts? && e.who == who)
    requires handlers'.Keys == handlers.Keys
    requires forall ns :: ns in handlers' && handlers'[ns].Finished? && !handlers[ns].Finished? ==>
      Handles(e, who, ns) && !e.HandlerCompares?
    ensures BeganAs(events + [e], who, r, handlers')
  {
    var all, n := events + [e], |events|;
    assert all[n] == e && forall k :: 0 <= k < n ==> all[k] == events[k];
    forall ns | ns in handlers' && handlers'[ns].Finished? ensures Done(all, who, ns, r) {
      if handlers[ns].Finished? {
        var k :| r < k < n && Handles(events[k], who, ns) && !events[k].HandlerCompares?;
        assert Handles(all[k], who, ns) && !all[k].HandlerCompares?;
      } else {
        assert Handles(all[n], who, ns) && !all[n].HandlerCompares?;
      }
    }
  }

  /** In every run a round joins only when the handler of each of its namespaces has come to its end. */
  lemma {:induction false} JoinsWait(apps: Apps, events: seq<Event>, i: nat) returns (r: nat, namespaces: set<string>)
    requires Run(apps, events).Some? && i < |events| && events[i].RoundJoins?
    ensures Began(events[..i], events[i].who, r, namespaces)
    ensures forall ns :: ns in namespaces ==> Done(events[..i], events[i].who, ns, r)
  {
    hide Run;
    StepsRun(apps, events, i);
    var s, who := Run(apps, events[..i]).value, events[i].who;
    JoinStep(s, who);
    r := RoundBegan(apps, events[..i], who);
    namespaces := s.rounds[who].handlers.Keys;
  }

  lemma JoinStep(s: State, who: Producer)
    requires Step(s, RoundJoins(who)).Some?
    ensures who in s.rounds && s.rounds[who].Polling?
    ensures forall ns :: ns in s.rounds[who].handlers ==> s.rounds[who].handlers[ns].Finished?
  {
  }

  // ---- Order of steps ----

  predicate OfSigusr2(e: Event) {
    e.Sigusr2Sets? || e.Sigusr2Applies? || e.Sigusr2Enqueues?
  }

  /** The last step of the SIGUSR2 handler, if it has made one. */
  function LastOfSigusr2(events: seq<Event>): Option<Event> {
    if events == [] then None
    else if OfSigusr2(events[|events| - 1]) then Some(events[|events| - 1])
    else LastOfSigusr2(events[..|events| - 1])
  }

  lemma {:induction false} SignalPlace(apps: Apps, events: seq<Event>)
    requires Run(apps, events).Some?
    ensures Run(apps, events).value.signal
         == match LastOfSigusr2(events)
            case Some(Sigusr2Sets) => GateSet
            case Some(Sigusr2Applies(_)) => Applied
            case _ => Listening
  {
    hide RoundEffect, WorkerEffect;
    if events != [] {
      SignalPlace(apps, events[..|events| - 1]);
    }
  }

  /** The handler takes signals one at a time, and its steps come in their order: the gate, the restored
      tables, the enqueue. */
  lemma {:induction false} SignalsInTurn(apps: Apps, events: seq<Event>, i: nat)
    requires Run(apps, events).Some? && i < |events| && OfSigusr2(events[i])
    ensures var last := LastOfSigusr2(events[..i]);
      match events[i]
      case Sigusr2Sets => last.None? || last.value.Sigusr2Enqueues?
      case Sigusr2Applies(_) => last.Some? && last.value.Sigusr2Sets?
      case _ => last.Some? && last.value.Sigusr2Applies?
  {
    hide Run, RoundEffect, WorkerEffect;
    StepsRun(apps, events, i);
    SignalPlace(apps, events[..i]);
    LastIsOfSigusr2(events[..i]);
  }

  lemma {:induction false} LastIsOfSigusr2(events: seq<Event>)
    ensures LastOfSigusr2(events).Some? ==> OfSigusr2(LastOfSigusr2(events).value)
  {
    if events != [] {
      LastIsOfSigusr2(events[..|events| - 1]);
    }
  }

  /** Namespaces neither come nor go. */
  lemma {:induction false} NamespacesStay(apps: Apps, events: seq<Event>)
    requires Run(apps, events).Some?
    ensures Run(apps, events).value.apps.Keys == apps.Keys
  {
    hide Step;
    if events != [] {
      NamespacesStay(apps, events[..|events| - 1]);
      HandlersKnown(apps, events[..|events| - 1]);
      StepKeepsNamespaces(Run(apps, events[..|events| - 1]).value, events[|events| - 1]);
    }
  }

  predicate RoundsKnown(s: State) {
    forall who, ns :: who in s.rounds && s.rounds[who].Polling? && ns in s.rounds[who].handlers ==> ns in s.apps
  }

  lemma {:induction false} HandlersKnown(apps: Apps, events: seq<Event>)
    requires Run(apps, events).Some?
    ensures RoundsKnown(Run(apps, events).value)
  {
    hide Step;
    if events != [] {
      HandlersKnown(apps, events[..|events| - 1]);
      StepKeepsKnown(Run(apps, events[..|events| - 1]).value, events[|events| - 1]);
    }
  }

  lemma StepKeepsKnown(s: State, e: Event)
    requires RoundsKnown(s) && Step(s, e).Some?
    ensures RoundsKnown(Step(s, e).value)
  {
    hide WorkerEffect, Updated;
    if WorkerEvent(e) {
      WorkerKeepsRounds(s, e);
    }
  }

  lemma WorkerKeepsRounds(s: State, e: Event)
    requires WorkerEvent(e) && Step(s, e).Some?
    ensures Step(s, e).value.rounds == s.rounds && Step(s, e).value.apps == s.apps
  {
    hide RoundEffect;
  }

  lemma StepKeepsNamespaces(s: State, e: Event)
    requires RoundsKnown(s) && Step(s, e).Some?
    ensures Step(s, e).value.apps.Keys == s.apps.Keys
  {
    hide WorkerEffect, Updated;
    if WorkerEvent(e) {
      WorkerKeepsRounds(s, e);
    }
  }

  // ---- The restart gate ----

  ghost predicate NoWorker(events: seq<Event>, i: nat) {
    forall j :: i <= j < |events| ==> !WorkerEvent(events[j])
  }

  ghost predicate GateClear(apps: Apps, events: seq<Event>) {
    Run(apps, events).Some? && !Run(apps, events).value.restart
  }

  /** The worker's last step was to find the gate clear while holding a trigger. */
  ghost predicate Rechecked(apps: Apps, events: seq<Event>, j: nat) {
    j < |events| && events[j] == WorkerRechecks && GateClear(apps, events[..j]) && NoWorker(events, j + 1)
  }

  /** The worker's last step was a successful probe. */
  ghost predicate Probed(events: seq<Event>, j: nat) {
    j < |events| && events[j] == WorkerProbes(true) && NoWorker(events, j + 1)
  }

  /** The worker's last step was a tick that found the gate clear, or to clear it right after a
      successful probe. */
  ghost predicate Admitted(apps: Apps, events: seq<Event>, j: nat) {
    && j < |events| && NoWorker(events, j + 1)
    && ((events[j] == WorkerTicks && GateClear(apps, events[..j])) ||
      (events[j] == WorkerClears && exists p: nat :: Probed(events[..j], p)))
  }

  ghost predicate GateKept(apps: Apps, events: seq<Event>)
    requires Run(apps, events).Some?
  {
    match Run(apps, events).value.worker
    case Starting => exists j: nat :: Rechecked(apps, events, j)
    case Clearing => exists j: nat :: Probed(events, j)
    case Taking => exists j: nat :: Admitted(apps, events, j)
    case _ => true
  }

  lemma {:induction false} GateIsKept(apps: Apps, events: seq<Event>)
    requires Run(apps, events).Some?
    ensures GateKept(apps, events)
  {
    hide Step;
    if events != [] {
      var n := |events| - 1;
      var before, e := events[..n], events[n];
      GateIsKept(apps, before);
      GateStep(Run(apps, before).value, e);
      if WorkerEvent(e) {
        assert NoWorker(events, n + 1);
        if e == WorkerRechecks && GateClear(apps, before) {
          assert Rechecked(apps, events, n);
        } else if e == WorkerProbes(true) {
          assert Probed(events, n);
        } else if e == WorkerTicks && GateClear(apps, before) {
          assert Admitted(apps, events, n);
        } else if e == WorkerClears {
          assert exists p: nat :: Probed(before, p);
          assert Admitted(apps, events, n);
        }
      } else {
        GatePersists(apps, before, e);
        assert before + [e] == events;
      }
    }
  }

  /** How the worker's place depends on the gate. */
  lemma GateStep(s: State, e: Event)
    requires Step(s, e).Some?
    ensures var s' := Step(s, e).value;
      if !WorkerEvent(e) then s'.worker == s.worker
      else
        && (s'.worker == Starting ==> e == WorkerRechecks && !s.restart)
        && (s'.worker == Clearing ==> e == WorkerProbes(true))
        && (e == WorkerClears ==> s.worker == Clearing)
        && (s'.worker == Taking ==> (e == WorkerTicks && !s.restart) || e == WorkerClears)
  {
    hide RoundEffect;
  }

  lemma GatePersists(apps: Apps, events: seq<Event>, e: Event)
    requires !WorkerEvent(e)
    ensures forall j: nat :: Rechecked(apps, events, j) ==> Rechecked(apps, events + [e], j)
    ensures forall j: nat :: Probed(events, j) ==> Probed(events + [e], j)
    ensures forall j: nat :: Admitted(apps, events, j) ==> Admitted(apps, events + [e], j)
  {
    hide Run;
    assert forall j :: 0 <= j < |events| ==> (events + [e])[j] == events[j] && (events + [e])[..j] == events[..j];
  }

  /** In every run a reload starts only right after the worker, holding a trigger, has found the
      restart gate clear. */
  lemma {:induction false} StartsAreGated(apps: Apps, events: seq<Event>, i: nat)
    requires Run(apps, events).Some? && i < |events| && events[i].WorkerStarts?
    ensures exists j: nat :: Rechecked(apps, events[..i], j)
    ensures Run(apps, events[..i]).Some? && Run(apps, events[..i]).value.pending
  {
    StepsRun(apps, events, i);
    GateIsKept(apps, events[..i]);
    RunKeepsInv(apps, events[..i]);
  }

  /** And a trigger is taken only right after the gate was clear or the proxy had answered. */
  lemma {:induction false} TakesAreGated(apps: Apps, events: seq<Event>, i: nat)
    requires Run(apps, events).Some? && i < |events| && events[i].WorkerTakes?
    ensures exists j: nat :: Admitted(apps, events[..i], j)
  {
    StepsRun(apps, events, i);
    GateIsKept(apps, events[..i]);
  }

  lemma {:induction false} StepsRun(apps: Apps, events: seq<Event>, i: nat)
    requires Run(apps, events).Some? && i < |events|
    ensures Run(apps, events[..i]).Some? && Step(Run(apps, events[..i]).value, events[i]).Some?
    decreases |events|
  {
    hide Step;
    var n := |events| - 1;
    if i < n {
      assert events[..n][..i] == events[..i];
      StepsRun(apps, events[..n], i);
    }
  }

  predicate SetsGate(e: Event) {
    e == Sigusr1 || e == Sigusr2Sets
  }

  ghost predicate NotCleared(events: seq<Event>, k: nat) {
    forall j :: k < j < |events| ==> !events[j].WorkerClears?
  }

  /** A signal came, of either kind, and the worker has not cleared the gate since. */
  ghost predicate Signalled(events: seq<Event>) {
    exists k: nat :: k < |events| && SetsGate(events[k]) && NotCleared(events, k)
  }

  /** The gate is set exactly then. */
  lemma {:induction false} GateIsSetIff(apps: Apps, events: seq<Event>)
    requires Run(apps, events).Some?
    ensures Run(apps, events).value.restart <==> Signalled(events)
  {
    hide Step;
    if events != [] {
      var n := |events| - 1;
      var before, e := events[..n], events[n];
      GateIsSetIff(apps, before);
      RestartStep(Run(apps, before).value, e);
      SignalledStep(before, e);
      assert before + [e] == events;
    }
  }

  lemma RestartStep(s: State, e: Event)
    requires Step(s, e).Some?
    ensures Step(s, e).value.restart <==> SetsGate(e) || (s.restart && !e.WorkerClears?)
  {
  }

  lemma SignalledStep(events: seq<Event>, e: Event)
    ensures Signalled(events + [e]) <==> SetsGate(e) || (Signalled(events) && !e.WorkerClears?)
  {
    var all, n := events + [e], |events|;
    assert all[n] == e && forall i :: 0 <= i < n ==> all[i] == events[i];
    if SetsGate(e) {
      assert NotCleared(all, n);
    }
    if k: nat :| k < n && SetsGate(events[k]) && NotCleared(events, k) {
      assert NotCleared(all, k) <==> !e.WorkerClears?;
    }
    if k: nat :| k < |all| && SetsGate(all[k]) && NotCleared(all, k) {
      assert k < n ==> SetsGate(events[k]) && NotCleared(events, k) && !all[n].WorkerClears?;
    }
  }

  lemma SignalledSince(events: seq<Event>, k: nat, j: nat)
    requires k < |events| && SetsGate(events[k]) && NotCleared(events, k) && j <= |events|
    ensures k < j ==> Signalled(events[..j])
  {
    if k < j {
      assert events[..j][k] == events[k] && NotCleared(events[..j], k);
    }
  }

  /** Once a signal of either kind has come, and until the worker clears the gate, a trigger is taken
      only by a tick that began before the signal, and a reload starts only if the worker had made its
      second reading of the gate before it. */
  lemma {:induction false} SignalsHoldBack(apps: Apps, events: seq<Event>, k: nat, i: nat)
    requires Run(apps, events).Some? && k < i < |events| && SetsGate(events[k]) && NotCleared(events[..i], k)
    ensures events[i].WorkerTakes? ==> exists j: nat :: j < k && Admitted(apps, events[..i], j)
    ensures events[i].WorkerStarts? ==> exists j: nat :: j < k && Rechecked(apps, events[..i], j)
  {
    hide Run, Step;
    var before := events[..i];
    forall j: nat | j < i && GateClear(apps, before[..j]) ensures j <= k {
      GateIsSetIff(apps, before[..j]);
      SignalledSince(before, k, j);
    }
    assert forall j: nat :: k < j < i ==> !before[j].WorkerClears?;
    if events[i].WorkerTakes? {
      TakesAreGated(apps, events, i);
      var j: nat :| Admitted(apps, before, j);
      assert j != k && before[k] == events[k];
    }
    if events[i].WorkerStarts? {
      StartsAreGated(apps, events, i);
      var j: nat :| Rechecked(apps, before, j);
      assert j != k && before[k] == events[k];
    }
  }

  /** A SIGUSR1 is erased exactly when it falls between the worker's probe and its clearing of the
      gate: the worker's next step then clears it. */
  lemma SignalIsErasedIff(s: State, e: Event)
    requires Step(s, Sigusr1).Some? && WorkerEvent(e) && Step(Step(s, Sigusr1).value, e).Some?
    ensures !Step(Step(s, Sigusr1).value, e).value.restart <==> s.worker == Clearing
  {
    hide RoundEffect;
  }

  /** This happens: the second signal is forgotten and the worker goes on to take a trigger. */
  lemma ErasedSignal(apps: Apps)
    ensures var run := Run(apps, [Sigusr1, WorkerTicks, WorkerProbes(true), Sigusr1, WorkerClears]);
      run.Some? && !run.value.restart && run.value.worker == Taking
  {
    hide Run, Step;
    var s := Initial(apps);
    var s1, s2 := s.(restart := true, now := 1), s.(restart := true, worker := GateSeen, now := 2);
    var s3, s4 := s.(restart := true, worker := Clearing, now := 3), s.(restart := true, worker := Clearing, now := 4);
    var q1, q2, q3 := [Sigusr1], [Sigusr1, WorkerTicks], [Sigusr1, WorkerTicks, WorkerProbes(true)];
    var q4 := [Sigusr1, WorkerTicks, WorkerProbes(true), Sigusr1];
    assert [] + [Sigusr1] == q1 && q1 + [WorkerTicks] == q2 && q2 + [WorkerProbes(true)] == q3 && q3 + [Sigusr1] == q4;
    SignalSteps(s);
    RunNothing(apps);
    RunNext(apps, [], Sigusr1, s1);
    RunNext(apps, q1, WorkerTicks, s2);
    RunNext(apps, q2, WorkerProbes(true), s3);
    RunNext(apps, q3, Sigusr1, s4);
    RunNext(apps, q4, WorkerClears, s.(worker := Taking, now := 5));
    assert q4 + [WorkerClears] == [Sigusr1, WorkerTicks, WorkerProbes(true), Sigusr1, WorkerClears];
  }

  lemma SignalSteps(s: State)
    requires s.worker == Waiting && !s.restart && s.now == 0
    ensures Step(s, Sigusr1) == Some(s.(restart := true, now := 1))
    ensures Step(s.(restart := true, now := 1), WorkerTicks) == Some(s.(restart := true, worker := GateSeen, now := 2))
    ensures Step(s.(restart := true, worker := GateSeen, now := 2), WorkerProbes(true))
         == Some(s.(restart := true, worker := Clearing, now := 3))
    ensures Step(s.(restart := true, worker := Clearing, now := 3), Sigusr1)
         == Some(s.(restart := true, worker := Clearing, now := 4))
    ensures Step(s.(restart := true, worker := Clearing, now := 4), WorkerClears)
      == Some(s.(worker := Taking, now := 5))
  {
    hide RoundEffect;
  }

  lemma RunNothing(apps: Apps)
    ensures Run(apps, []) == Some(Initial(apps))
  {
  }

  lemma RunNext(apps: Apps, events: seq<Event>, e: Event, s': State)
    requires Run(apps, events).Some? && Step(Run(apps, events).value, e) == Some(s')
    ensures Run(apps, events + [e]) == Some(s')
  {
    hide Step;
    assert (events + [e])[..|events|] == events;
  }

  // ---- The worker's loop body ----

  /** The worker's steps in one tick that nothing interferes with. */
  function TickEvents(s: State, responsive: bool, ok: bool): seq<Event> {
    if s.restart && !responsive then [WorkerTicks, WorkerProbes(false)]
    else
      (if s.restart then [WorkerTicks, WorkerProbes(true), WorkerClears] else [WorkerTicks]) +
      (if Triggered(s) then [WorkerTakes, WorkerRechecks, WorkerStarts, WorkerEnds(ok)] else [WorkerTakes])
  }

  function RunFrom(s: State, events: seq<Event>): Option<State>
    decreases |events|
  {
    if events == [] then Some(s)
    else
      match Step(s, events[0])
      case None => None
      case Some(s') => RunFrom(s', events[1..])
  }

  /** reconcileLoop and the shared variables it works on. */
  class ReconcileLoop {
    var pendingReconcile: bool
    var queueLength: nat
    var proxyRestartInProgress: bool

    ghost predicate Shows(s: State)
      reads this
    {
      s.worker == Waiting && s.pending == pendingReconcile && s.queue == queueLength &&
        s.restart == proxyRestartInProgress
    }

    /** One tick of reloadWorker. `responsive` and `reloadOk` stand for the probe and for reload(). */
    method Tick(responsive: bool, reloadOk: bool, ghost s: State) returns (ghost s': State)
      requires Shows(s)
      modifies this
      ensures RunFrom(s, TickEvents(s, responsive, reloadOk)) == Some(s') && Shows(s')
    {
      TickRuns(s, responsive, reloadOk);
      s' := RunFrom(s, TickEvents(s, responsive, reloadOk)).value;
      if proxyRestartInProgress {
        if !responsive {
          return;
        }
        proxyRestartInProgress := false;
      }
      if !pendingReconcile {
        if queueLength > 0 {
          queueLength := queueLength - 1;
          pendingReconcile := true;
        } else {
          return;
        }
      }
      if proxyRestartInProgress {
        return;
      }
      if !reloadOk {
        return;
      }
      pendingReconcile := false;
    }
  }

  /** What such a tick does: the gate holds everything back until the proxy answers; otherwise a
      trigger is used up exactly when the reload succeeds, and then the proxy has caught up. */
  lemma TickRuns(s: State, responsive: bool, ok: bool)
    requires s.worker == Waiting
    ensures var after := RunFrom(s, TickEvents(s, responsive, ok));
      && after.Some? && after.value.worker == Waiting
      && after.value.apps == s.apps
      && (if s.restart && !responsive then after.value.restart && after.value.queue == s.queue &&
        after.value.pending == s.pending
          else
            && !after.value.restart
            && after.value.queue == (if s.pending || s.queue == 0 then s.queue else s.queue - 1)
            && after.value.pending == (Triggered(s) && !ok)
            && (Triggered(s) && ok ==> after.value.lastOk.apps == s.apps && after.value.succeeded == s.succeeded + 1))
  {
    var gate := if s.restart && !responsive then [WorkerTicks, WorkerProbes(false)]
                else if s.restart then [WorkerTicks, WorkerProbes(true), WorkerClears] else [WorkerTicks];
    var open := GateRuns(s, responsive);
    if s.restart && !responsive {
      assert gate + [] == gate;
    } else {
      var rest := if Triggered(s) then [WorkerTakes, WorkerRechecks, WorkerStarts, WorkerEnds(ok)] else [WorkerTakes];
      TakeRuns(open, ok);
      RunFromAppend(s, gate, rest);
    }
  }

  /** A SIGUSR2, undisturbed: its steps are possible one after the other. It sets the gate, puts the
      restored tables in place, and offers a trigger, which a full queue drops. */
  lemma {:induction false} Sigusr2Runs(s: State, restored: Apps)
    requires s.signal == Listening && restored.Keys <= s.apps.Keys
    ensures RunFrom(s, [Sigusr2Sets, Sigusr2Applies(restored), Sigusr2Enqueues])
         == Some(s.(restart := true, apps := s.apps + restored, queue := if s.queue < 2 then s.queue + 1 else s.queue,
              accepted := if s.queue < 2 then s.accepted + 1 else s.accepted,
              lastAttempt := s.now + 3, now := s.now + 3))
    ensures RunFrom(s, [Sigusr1]) == Some(s.(restart := true, now := s.now + 1))
    ensures RunFrom(s, [StartupRestores(restored)])
         == Some(s.(apps := s.apps + restored, silentRestore := true, now := s.now + 1))
  {
    hide Step, RunFrom;
    Sigusr2Steps(s, restored);
    RunThree(s, Sigusr2Sets, Sigusr2Applies(restored), Sigusr2Enqueues);
    RunOne(s, Sigusr1);
    RunOne(s, StartupRestores(restored));
  }

  lemma Sigusr2Steps(s: State, restored: Apps)
    requires s.signal == Listening && restored.Keys <= s.apps.Keys
    ensures Step(s, Sigusr1) == Some(s.(restart := true, now := s.now + 1))
    ensures Step(s, StartupRestores(restored))
         == Some(s.(apps := s.apps + restored, silentRestore := true, now := s.now + 1))
    ensures var s1 := s.(restart := true, signal := GateSet, now := s.now + 1);
      var s2 := s.(restart := true, apps := s.apps + restored, signal := Applied, now := s.now + 2);
      && Step(s, Sigusr2Sets) == Some(s1) && Step(s1, Sigusr2Applies(restored)) == Some(s2)
      && Step(s2, Sigusr2Enqueues)
         == Some(s.(restart := true, apps := s.apps + restored, queue := if s.queue < 2 then s.queue + 1 else s.queue,
              accepted := if s.queue < 2 then s.accepted + 1 else s.accepted,
              lastAttempt := s.now + 3, now := s.now + 3))
  {
    hide RoundEffect, WorkerEffect;
  }

  /** A round of one namespace, undisturbed: the fetched apps are stored, and there is an enqueue when
      they differed or came from a new leader. */
  lemma {:induction false} RoundRuns(s: State, who: Producer, ns: string, content: int, leaderShifted: bool)
    requires who in s.rounds && s.rounds[who] == Idle && ns in s.apps
    ensures var news := content != s.apps[ns] || leaderShifted;
      var refresh := [RoundStarts(who, {ns}), HandlerCompares(who, ns, content, leaderShifted), HandlerStores(who, ns)];
      var quiet, loud := RunFrom(s, refresh + [RoundJoins(who)]),
        RunFrom(s, refresh + [RoundJoins(who), Remembers(who), Enqueues(who)]);
      && (if news then loud.Some? && After(s, who, ns, content, loud.value) && loud.value.lastAttempt == s.now + 6 &&
                       loud.value.queue == (if s.queue < 2 then s.queue + 1 else s.queue)
          else quiet.Some? && After(s, who, ns, content, quiet.value) && quiet.value.queue == s.queue && loud.None?)
  {
    hide Step, RunFrom;
    var news := content != s.apps[ns] || leaderShifted;
    var e1, e2, e3 := RoundStarts(who, {ns}), HandlerCompares(who, ns, content, leaderShifted), HandlerStores(who, ns);
    RoundSteps(s, who, ns, content, leaderShifted);
    var s1 := Step(s, e1).value;
    var s2 := Step(s1, e2).value;
    var s3 := Step(s2, e3).value;
    RunThree(s, e1, e2, e3);
    LastRoundSteps(s3, who, news, ns);
    RunOne(s3, RoundJoins(who));
    RunThree(s3, RoundJoins(who), Remembers(who), Enqueues(who));
    RunTwo(Step(s3, RoundJoins(who)).value, Remembers(who), Enqueues(who));
    RunFromAppend(s, [e1, e2, e3], [RoundJoins(who)]);
    RunFromAppend(s, [e1, e2, e3], [RoundJoins(who), Remembers(who), Enqueues(who)]);
  }

  /** The round is over, the apps of its namespace are these, and all other tables are as they were. */
  predicate After(s: State, who: Producer, ns: string, content: int, s': State) {
    && who in s'.rounds && s'.rounds[who] == Idle && s'.apps == s.apps[ns := content]
    && s'.pending == s.pending && s'.restart == s.restart && s'.worker == s.worker && s'.signal == s.signal
  }

  /** Nothing but the round, the tables and the clock has changed. */
  predicate OnlyRound(s: State, who: Producer, round: RoundPc, tables: Apps, s': State) {
    s' == s.(rounds := s'.rounds, apps := tables, now := s.now + 1) && who in s'.rounds && s'.rounds[who] == round
  }

  lemma FetchingStep(s: State, who: Producer, ns: string)
    requires who in s.rounds && s.rounds[who] == Idle && ns in s.apps
    ensures var run := Step(s, RoundStarts(who, {ns}));
      run.Some? && OnlyRound(s, who, Polling(map[ns := Fetching]), s.apps, run.value)
  {
    hide WorkerEffect;
    var run := Step(s, RoundStarts(who, {ns}));
    var handlers: map<string, HandlerPc> := map[ns := Fetching];
    assert run.value.rounds[who].handlers == handlers;
  }

  lemma ComparingStep(s: State, who: Producer, ns: string, content: int, leaderShifted: bool)
    requires who in s.rounds && s.rounds[who] == Polling(map[ns := Fetching]) && ns in s.apps
    ensures var run := Step(s, HandlerCompares(who, ns, content, leaderShifted));
      run.Some? &&
      OnlyRound(s, who, Polling(map[ns := Compared(content, content == s.apps[ns], leaderShifted)]), s.apps, run.value)
  {
    hide WorkerEffect;
    var h := Compared(content, content == s.apps[ns], leaderShifted);
    assert map[ns := Fetching][ns := h] == map[ns := h];
  }

  lemma StoringStep(s: State, who: Producer, ns: string, content: int, leaderShifted: bool)
    requires ns in s.apps && who in s.rounds
    requires s.rounds[who] == Polling(map[ns := Compared(content, content == s.apps[ns], leaderShifted)])
    ensures var run := Step(s, HandlerStores(who, ns));
      run.Some? &&
      OnlyRound(s, who, Polling(map[ns := Finished(content != s.apps[ns] || leaderShifted)]), s.apps[ns := content],
        run.value)
  {
    hide WorkerEffect;
    var h, h' := Compared(content, content == s.apps[ns], leaderShifted),
      Finished(content != s.apps[ns] || leaderShifted);
    assert map[ns := h][ns := h'] == map[ns := h'];
    if content == s.apps[ns] {
      assert s.apps[ns := content] == s.apps;
    }
  }

  lemma RoundSteps(s: State, who: Producer, ns: string, content: int, leaderShifted: bool)
    requires who in s.rounds && s.rounds[who] == Idle && ns in s.apps
    ensures var s1 := Step(s, RoundStarts(who, {ns}));
      s1.Some? && var s2 := Step(s1.value, HandlerCompares(who, ns, content, leaderShifted));
      s2.Some? && var s3 := Step(s2.value, HandlerStores(who, ns));
      && s3.Some? && s3.value.apps == s.apps[ns := content] && s3.value.queue == s.queue && s3.value.now == s.now + 3
      && s3.value.pending == s.pending && s3.value.restart == s.restart && s3.value.worker == s.worker
      && s3.value.signal == s.signal && who in s3.value.rounds
      && s3.value.rounds[who] == Polling(map[ns := Finished(content != s.apps[ns] || leaderShifted)])
  {
    hide Step;
    FetchingStep(s, who, ns);
    var s1 := Step(s, RoundStarts(who, {ns})).value;
    ComparingStep(s1, who, ns, content, leaderShifted);
    var s2 := Step(s1, HandlerCompares(who, ns, content, leaderShifted)).value;
    StoringStep(s2, who, ns, content, leaderShifted);
  }

  lemma JoiningStep(s: State, who: Producer, news: bool, ns: string)
    requires who in s.rounds && s.rounds[who] == Polling(map[ns := Finished(news)])
    ensures var run := Step(s, RoundJoins(who));
      run.Some? && OnlyRound(s, who, if news then Remembering else Idle, s.apps, run.value)
  {
    hide WorkerEffect;
    var handlers: map<string, HandlerPc> := map[ns := Finished(news)];
    assert handlers[ns] == Finished(news);
  }

  lemma RememberingStep(s: State, who: Producer)
    requires who in s.rounds
    ensures s.rounds[who] == Idle ==> Step(s, Remembers(who)).None?
    ensures s.rounds[who] == Remembering ==>
      Step(s, Remembers(who)).Some? && OnlyRound(s, who, Enqueueing, s.apps, Step(s, Remembers(who)).value)
  {
    hide WorkerEffect;
  }

  lemma EnqueueingStep(s: State, who: Producer)
    requires who in s.rounds && s.rounds[who] == Enqueueing
    ensures var run := Step(s, Enqueues(who));
      && run.Some? && who in run.value.rounds && run.value.rounds[who] == Idle
      && run.value.apps == s.apps && run.value.pending == s.pending && run.value.restart == s.restart
      && run.value.worker == s.worker && run.value.signal == s.signal && run.value.lastAttempt == s.now + 1
      && run.value.queue == (if s.queue < 2 then s.queue + 1 else s.queue)
  {
    hide WorkerEffect;
  }

  lemma LastRoundSteps(s: State, who: Producer, news: bool, ns: string)
    requires who in s.rounds && s.rounds[who] == Polling(map[ns := Finished(news)])
    ensures var s1 := Step(s, RoundJoins(who));
      && s1.Some? && OnlyRound(s, who, if news then Remembering else Idle, s.apps, s1.value)
      && (!news ==> Step(s1.value, Remembers(who)).None?)
      && (news ==>
        var s2 := Step(s1.value, Remembers(who));
        s2.Some? && var s3 := Step(s2.value, Enqueues(who));
        && s3.Some? && s3.value.apps == s.apps && s3.value.pending == s.pending && s3.value.restart == s.restart
        && s3.value.worker == s.worker && s3.value.signal == s.signal
        && who in s3.value.rounds && s3.value.rounds[who] == Idle && s3.value.lastAttempt == s.now + 3
        && s3.value.queue == (if s.queue < 2 then s.queue + 1 else s.queue))
  {
    hide Step;
    JoiningStep(s, who, news, ns);
    var s1 := Step(s, RoundJoins(who)).value;
    RememberingStep(s1, who);
    if news {
      EnqueueingStep(Step(s1, Remembers(who)).value, who);
    }
  }

  lemma GateRuns(s: State, responsive: bool) returns (open: State)
    requires s.worker == Waiting
    ensures RunFrom(s, if s.restart && !responsive then [WorkerTicks, WorkerProbes(false)]
                       else if s.restart then [WorkerTicks, WorkerProbes(true), WorkerClears] else [WorkerTicks])
                         == Some(open)
    ensures open == if s.restart && !responsive then s.(now := s.now + 2)
                    else s.(restart := false, worker := Taking, now := s.now + (if s.restart then 3 else 1))
  {
    if s.restart && !responsive {
      open := s.(now := s.now + 2);
      RunTwo(s, WorkerTicks, WorkerProbes(false));
    } else if s.restart {
      open := s.(restart := false, worker := Taking, now := s.now + 3);
      RunThree(s, WorkerTicks, WorkerProbes(true), WorkerClears);
    } else {
      open := s.(worker := Taking, now := s.now + 1);
      RunOne(s, WorkerTicks);
    }
  }

  lemma TakeRuns(s: State, ok: bool)
    requires s.worker == Taking && !s.restart
    ensures var after := RunFrom(s,
      if Triggered(s) then [WorkerTakes, WorkerRechecks, WorkerStarts, WorkerEnds(ok)] else [WorkerTakes]);
      && after.Some? && after.value.worker == Waiting && after.value.apps == s.apps && !after.value.restart
      && after.value.queue == (if s.pending || s.queue == 0 then s.queue else s.queue - 1)
      && after.value.pending == (Triggered(s) && !ok)
      && (Triggered(s) && ok ==> after.value.lastOk.apps == s.apps && after.value.succeeded == s.succeeded + 1)
  {
    if Triggered(s) {
      var events := [WorkerTakes, WorkerRechecks, WorkerStarts, WorkerEnds(ok)];
      var s1 := Step(s, WorkerTakes).value;
      assert events[1..] == [WorkerRechecks, WorkerStarts, WorkerEnds(ok)];
      RunThree(s1, WorkerRechecks, WorkerStarts, WorkerEnds(ok));
      var s2, s3, s4 := HeldTriggerRuns(s1, ok);
      hide Step;
    } else {
      RunOne(s, WorkerTakes);
    }
  }

  lemma HeldTriggerRuns(s: State, ok: bool) returns (s2: State, s3: State, s4: State)
    requires s.worker == Rechecking && !s.restart
    ensures Step(s, WorkerRechecks) == Some(s2) && Step(s2, WorkerStarts) == Some(s3) &&
      Step(s3, WorkerEnds(ok)) == Some(s4)
    ensures s4.worker == Waiting && s4.apps == s.apps && !s4.restart && s4.queue == s.queue
    ensures s4.pending == (s.pending && !ok)
    ensures ok ==> s4.lastOk.apps == s.apps && s4.succeeded == s.succeeded + 1
  {
    s2 := Step(s, WorkerRechecks).value;
    s3 := Step(s2, WorkerStarts).value;
    s4 := Step(s3, WorkerEnds(ok)).value;
  }

  lemma RunOne(s: State, e: Event)
    ensures RunFrom(s, [e]) == Step(s, e)
  {
    hide Step;
    assert [e][1..] == [];
  }

  lemma RunTwo(s: State, e1: Event, e2: Event)
    ensures RunFrom(s, [e1, e2]) == if Step(s, e1).None? then None else Step(Step(s, e1).value, e2)
  {
    hide Step;
    assert [e1, e2][1..] == [e2];
    if Step(s, e1).Some? {
      RunOne(Step(s, e1).value, e2);
    }
  }

  lemma RunThree(s: State, e1: Event, e2: Event, e3: Event)
    ensures RunFrom(s, [e1, e2, e3])
         == if Step(s, e1).None? then None
            else RunFrom(Step(s, e1).value, [e2, e3])
    ensures Step(s, e1).Some? ==>
      RunFrom(s, [e1, e2, e3])
      == if Step(Step(s, e1).value, e2).None? then None else Step(Step(Step(s, e1).value, e2).value, e3)
  {
    hide Step;
    assert [e1, e2, e3][1..] == [e2, e3];
    if Step(s, e1).Some? {
      RunTwo(Step(s, e1).value, e2, e3);
    }
  }

  lemma {:induction false} RunFromAppend(s: State, a: seq<Event>, b: seq<Event>)
    requires RunFrom(s, a).Some?
    ensures RunFrom(s, a + b) == RunFrom(RunFrom(s, a).value, b)
    decreases |a|
  {
    hide Step;
    if a == [] {
      assert a + b == b;
    } else {
      assert (a + b)[1..] == a[1..] + b;
      RunFromAppend(Step(s, a[0]).value, a[1..], b);
    }
  }
}
