/** Saving the state to disk in the background: a flag taken by compare-and-swap keeps saves apart,
    even when the goroutine watching a slow write has given up on it. */
module StatePersistence {
  import opened GoStrings

  /** The goroutine that runs persistStateToDiskSync. */
  datatype WriterPc = Spawned | Writing | Sent | Received

  /** The goroutine that waits for it, and the one that takes over after the timeout. */
  datatype MonitorPc = Watching | Clearing | Draining | DrainClearing | Finished

  /** One accepted save of some content. */
  datatype Attempt = Attempt(content: int, writer: WriterPc, monitor: MonitorPc)

  /** `written` is history: the attempts whose content reached the disk, in order. */
  datatype State = State(inFlight: bool, attempts: seq<Attempt>, disk: Option<int>, written: seq<nat>)

  datatype Event =
    | Save(content: int)
    | WriterStarts(i: nat)
    | WriterEnds(i: nat, ok: bool)
    | MonitorReceives(i: nat)
    | MonitorTimesOut(i: nat)
    | MonitorClears(i: nat)
    | DrainReceives(i: nat)
    | DrainClears(i: nat)

  const INITIAL := State(false, [], None, [])

  function At(s: State, i: nat, a: Attempt): State
    requires i < |s.attempts|
  {
    s.(attempts := s.attempts[i := a])
  }

  /** One atomic step, if it is enabled. A save that finds the flag taken is dropped. */
  function Step(s: State, e: Event): Option<State> {
    if e.Save? then
      Some(if s.inFlight then s
           else s.(inFlight := true, attempts := s.attempts + [Attempt(e.content, Spawned, Watching)]))
    else if e.i >= |s.attempts| then None
    else
      var i, a := e.i, s.attempts[e.i];
      match (e, a.writer, a.monitor)
      case (WriterStarts(_), Spawned, _) => Some(At(s, i, a.(writer := Writing)))
      case (WriterEnds(_, ok), Writing, _) =>
        var ended := At(s, i, a.(writer := Sent));
        Some(if ok then ended.(disk := Some(a.content), written := s.written + [i]) else ended)
      case (MonitorReceives(_), Sent, Watching) => Some(At(s, i, a.(writer := Received, monitor := Clearing)))
      case (MonitorTimesOut(_), _, Watching) => Some(At(s, i, a.(monitor := Draining)))
      case (MonitorClears(_), _, Clearing) => Some(At(s, i, a.(monitor := Finished)).(inFlight := false))
      case (DrainReceives(_), Sent, Draining) => Some(At(s, i, a.(writer := Received, monitor := DrainClearing)))
      case (DrainClears(_), _, DrainClearing) => Some(At(s, i, a.(monitor := Finished)).(inFlight := false))
      case _ => None
  }

  function Run(events: seq<Event>): Option<State> {
    if events == [] then Some(INITIAL)
    else
      match Run(events[..|events| - 1])
      case None => None
      case Some(s) => Step(s, events[|events| - 1])
  }

  // ---- Invariant ----

  predicate Waits(m: MonitorPc) {
    m == Watching || m == Draining
  }

  predicate Consistent(a: Attempt) {
    Waits(a.monitor) <==> a.writer != Received
  }

  predicate OnlyLastIsOpen(s: State) {
    && (forall i :: 0 <= i < |s.attempts| - 1 ==> s.attempts[i].monitor == Finished)
    && (s.inFlight <==> s.attempts != [] && s.attempts[|s.attempts| - 1].monitor != Finished)
  }

  predicate Increasing(q: seq<nat>) {
    forall i, j :: 0 <= i < j < |q| ==> q[i] < q[j]
  }

  predicate WrittenInOrder(s: State) {
    && Increasing(s.written)
    && (forall k :: 0 <= k < |s.written| ==> s.written[k] < |s.attempts|)
    && (forall k :: 0 <= k < |s.written| ==> Done(s.attempts[s.written[k]]))
    && s.disk == if s.written == [] then None else Some(s.attempts[s.written[|s.written| - 1]].content)
  }

  predicate Inv(s: State) {
    OnlyLastIsOpen(s) && (forall i :: 0 <= i < |s.attempts| ==> Consistent(s.attempts[i])) && WrittenInOrder(s)
  }

  /** A step of a save is a step of the last one, which is still open. */
  lemma StepIsOfLast(s: State, e: Event)
    requires Inv(s) && Step(s, e).Some? && !e.Save?
    ensures e.i == |s.attempts| - 1 && s.attempts[e.i].monitor != Finished
  {
    hide WrittenInOrder;
    assert Consistent(s.attempts[e.i]);
  }

  lemma StepKeepsInv(s: State, e: Event)
    requires Inv(s) && Step(s, e).Some?
    ensures Inv(Step(s, e).value)
  {
    if !e.Save? {
      StepIsOfLast(s, e);
    }
    StepKeepsOrder(s, e);
    hide WrittenInOrder;
  }

  predicate Done(a: Attempt) {
    a.writer == Sent || a.writer == Received
  }

  /** An attempt that moves on, or starts over only if it was never written, keeps the order. */
  lemma MoveKeepsOrder(s: State, i: nat, a: Attempt)
    requires WrittenInOrder(s) && i < |s.attempts|
    requires a.content == s.attempts[i].content && (Done(s.attempts[i]) ==> Done(a))
    ensures WrittenInOrder(At(s, i, a))
  {
  }

  lemma WriteKeepsOrder(s: State, i: nat, a: Attempt)
    requires WrittenInOrder(s) && i < |s.attempts|
    requires i == |s.attempts| - 1 && s.attempts[i] == a && Done(a) && i !in s.written
    ensures WrittenInOrder(s.(disk := Some(a.content), written := s.written + [i]))
  {
  }

  lemma StepKeepsOrder(s: State, e: Event)
    requires WrittenInOrder(s) && Step(s, e).Some?
    requires e.Save? || e.i == |s.attempts| - 1
    ensures WrittenInOrder(Step(s, e).value)
  {
    if !e.Save? {
      var a := Step(s, e).value.attempts[e.i];
      assert e.WriterEnds? ==> e.i !in s.written;
      MoveKeepsOrder(s, e.i, a);
      if e.WriterEnds? && e.ok {
        WriteKeepsOrder(At(s, e.i, a), e.i, a);
      }
      hide Increasing;
    }
  }

  lemma {:induction false} RunKeepsInv(events: seq<Event>)
    requires Run(events).Some?
    ensures Inv(Run(events).value)
  {
    if events != [] {
      RunKeepsInv(events[..|events| - 1]);
      StepKeepsInv(Run(events[..|events| - 1]).value, events[|events| - 1]);
    }
  }

  // ---- Main results ----

  /** A single disk writer: in every interleaving at most one write is running. */
  lemma {:induction false} AtMostOneWriter(events: seq<Event>, i: nat, j: nat)
    requires Run(events).Some?
    requires i < |Run(events).value.attempts| && j < |Run(events).value.attempts|
    requires Run(events).value.attempts[i].writer == Writing && Run(events).value.attempts[j].writer == Writing
    ensures i == j
  {
    RunKeepsInv(events);
  }

  /** The flag is held from before a write starts until after its result was received, also past
      the timeout; and it is held only then. */
  lemma {:induction false} FlagCoversTheWrite(events: seq<Event>)
    requires Run(events).Some?
    ensures var s := Run(events).value;
      && (s.inFlight <==> exists i :: 0 <= i < |s.attempts| && s.attempts[i].monitor != Finished)
      && (forall i :: 0 <= i < |s.attempts| && s.attempts[i].writer != Received ==> s.inFlight && i == |s.attempts| - 1)
  {
    RunKeepsInv(events);
  }

  /** So contents reach the disk in the order in which their saves were accepted, and what is on
      disk is the last of them: a slow old write never replaces a newer one. */
  lemma {:induction false} DiskFollowsAcceptance(events: seq<Event>)
    requires Run(events).Some?
    ensures var s := Run(events).value;
      && Increasing(s.written)
      && (forall k :: 0 <= k < |s.written| ==> s.written[k] < |s.attempts|)
      && s.disk == if s.written == [] then None else Some(s.attempts[s.written[|s.written| - 1]].content)
  {
    RunKeepsInv(events);
  }

  /** A save is taken exactly when no earlier one is still open. */
  lemma {:induction false} SaveIsTakenIff(events: seq<Event>, content: int)
    requires Run(events).Some?
    ensures var s := Run(events).value; var s' := Step(s, Save(content)).value;
      if forall i :: 0 <= i < |s.attempts| ==> s.attempts[i].monitor == Finished
      then s'.attempts == s.attempts + [Attempt(content, Spawned, Watching)]
      else s' == s
  {
    RunKeepsInv(events);
  }

  // ---- Told from the events ----

  /** The contents of the saves that were taken, in order: those that found the flag free. */
  function Taken(events: seq<Event>): seq<int> {
    if events == [] then []
    else
      var n := |events| - 1;
      var before := Run(events[..n]);
      Taken(events[..n]) + if events[n].Save? && before.Some? && !before.value.inFlight then [events[n].content] else []
  }

  /** The save whose write ended well last. */
  function LastWritten(events: seq<Event>): Option<nat> {
    if events == [] then None
    else
      var n := |events| - 1;
      if events[n].WriterEnds? && events[n].ok then Some(events[n].i) else LastWritten(events[..n])
  }

  /** The disk holds the content of the save whose write was the last to end well; a write that failed
      leaves it as it was. */
  lemma {:induction false} DiskIsLastWritten(events: seq<Event>)
    requires Run(events).Some?
    ensures var s, last := Run(events).value, LastWritten(events);
      && |s.attempts| == |Taken(events)|
      && (forall i :: 0 <= i < |s.attempts| ==> s.attempts[i].content == Taken(events)[i])
      && (last.Some? ==> last.value < |Taken(events)|)
      && s.disk == if last.Some? then Some(Taken(events)[last.value]) else None
  {
    hide Step, Taken, LastWritten;
    if events == [] {
      NothingTaken();
    } else {
      var n := |events| - 1;
      var before, e := events[..n], events[n];
      DiskIsLastWritten(before);
      TakenStep(events);
      WriteStep(Run(before).value, e);
    }
  }

  lemma NothingTaken()
    ensures Taken([]) == [] && LastWritten([]) == None
  {
  }

  lemma TakenStep(events: seq<Event>)
    requires events != [] && Run(events).Some?
    ensures var n := |events| - 1;
      && Taken(events)
         == Taken(events[..n]) +
            (if events[n].Save? && !Run(events[..n]).value.inFlight then [events[n].content] else [])
      && LastWritten(events)
         == if events[n].WriterEnds? && events[n].ok then Some(events[n].i) else LastWritten(events[..n])
  {
    hide Step;
  }

  /** What a step does to the attempts and the disk. */
  lemma WriteStep(s: State, e: Event)
    requires Step(s, e).Some?
    ensures var s' := Step(s, e).value; var taken := e.Save? && !s.inFlight;
      && |s'.attempts| == |s.attempts| + (if taken then 1 else 0)
      && (taken ==> s'.attempts[|s.attempts|].content == e.content)
      && (forall i :: 0 <= i < |s.attempts| ==> s'.attempts[i].content == s.attempts[i].content)
      && (if e.WriterEnds? && e.ok then e.i < |s.attempts| && s'.disk == Some(s.attempts[e.i].content)
          else s'.disk == s.disk)
  {
  }

  function RunFrom(s: State, events: seq<Event>): Option<State>
    decreases |events|
  {
    if events == [] then Some(s)
    else
      match Step(s, events[0])
      case None => None
      case Some(s') => RunFrom(s', events[1..])
  }

  /** A save can always be brought to its end, in time or past the timeout; the flag is free again then,
      and the disk has its content if the write was good. */
  lemma {:induction false} SavesEnd(s: State, content: int, ok: bool)
    requires !s.inFlight
    ensures var i := |s.attempts|;
      var inTime := RunFrom(s,
        [Save(content), WriterStarts(i), WriterEnds(i, ok), MonitorReceives(i), MonitorClears(i)]);
      var late := RunFrom(s, [Save(content), WriterStarts(i), MonitorTimesOut(i), WriterEnds(i, ok), DrainReceives(i),
          DrainClears(i)]);
      && inTime.Some? && late.Some? && !inTime.value.inFlight && !late.value.inFlight
      && inTime.value.disk == late.value.disk == (if ok then Some(content) else s.disk)
  {
    var i := |s.attempts|;
    var s1 := Step(s, Save(content)).value;
    var s2 := Step(s1, WriterStarts(i)).value;
    SavedInTime(s2, content, ok);
    SavedLate(s2, content, ok);
    hide Step;
    RunMore(s, Save(content), [WriterStarts(i), WriterEnds(i, ok), MonitorReceives(i), MonitorClears(i)]);
    RunMore(s1, WriterStarts(i), [WriterEnds(i, ok), MonitorReceives(i), MonitorClears(i)]);
    var rest := [MonitorTimesOut(i), WriterEnds(i, ok), DrainReceives(i), DrainClears(i)];
    RunMore(s, Save(content), [WriterStarts(i)] + rest);
    RunMore(s1, WriterStarts(i), rest);
    assert [WriterStarts(i)] + rest
        == [WriterStarts(i), MonitorTimesOut(i), WriterEnds(i, ok), DrainReceives(i), DrainClears(i)];
    assert [Save(content)] + ([WriterStarts(i)] + rest)
        == [Save(content), WriterStarts(i), MonitorTimesOut(i), WriterEnds(i, ok), DrainReceives(i), DrainClears(i)];
  }

  lemma RunMore(s: State, e: Event, events: seq<Event>)
    requires Step(s, e).Some?
    ensures RunFrom(s, [e] + events) == RunFrom(Step(s, e).value, events)
  {
    hide Step;
    assert ([e] + events)[1..] == events;
  }

  lemma SavedInTime(s: State, content: int, ok: bool)
    requires s.attempts != [] && s.attempts[|s.attempts| - 1] == Attempt(content, Writing, Watching) && s.inFlight
    ensures var i := |s.attempts| - 1;
      var run := RunFrom(s, [WriterEnds(i, ok), MonitorReceives(i), MonitorClears(i)]);
      run.Some? && !run.value.inFlight && run.value.disk == if ok then Some(content) else s.disk
  {
    var i := |s.attempts| - 1;
    var s1 := Step(s, WriterEnds(i, ok)).value;
    var s2 := Step(s1, MonitorReceives(i)).value;
    var s3 := Step(s2, MonitorClears(i)).value;
    hide Step;
    RunMore(s, WriterEnds(i, ok), [MonitorReceives(i), MonitorClears(i)]);
    RunMore(s1, MonitorReceives(i), [MonitorClears(i)]);
    RunMore(s2, MonitorClears(i), []);
    assert [MonitorClears(i)] + [] == [MonitorClears(i)];
    assert RunFrom(s3, []) == Some(s3);
  }

  lemma SavedLate(s: State, content: int, ok: bool)
    requires s.attempts != [] && s.attempts[|s.attempts| - 1] == Attempt(content, Writing, Watching) && s.inFlight
    ensures var i := |s.attempts| - 1;
      var run := RunFrom(s, [MonitorTimesOut(i), WriterEnds(i, ok), DrainReceives(i), DrainClears(i)]);
      run.Some? && !run.value.inFlight && run.value.disk == if ok then Some(content) else s.disk
  {
    var i := |s.attempts| - 1;
    var s0 := Step(s, MonitorTimesOut(i)).value;
    var s1 := Step(s0, WriterEnds(i, ok)).value;
    var s2 := Step(s1, DrainReceives(i)).value;
    var s3 := Step(s2, DrainClears(i)).value;
    hide Step;
    RunMore(s, MonitorTimesOut(i), [WriterEnds(i, ok), DrainReceives(i), DrainClears(i)]);
    RunMore(s0, WriterEnds(i, ok), [DrainReceives(i), DrainClears(i)]);
    RunMore(s1, DrainReceives(i), [DrainClears(i)]);
    RunMore(s2, DrainClears(i), []);
    assert [DrainClears(i)] + [] == [DrainClears(i)];
    assert RunFrom(s3, []) == Some(s3);
  }
}
