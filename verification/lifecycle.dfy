/** The coordinator driven by the events of its environment: notifications, the
    debounce timer, replies to in-flight requests, poll ticks and unloading.
    The network request of the upload task and of a poll-tick refresh is split
    into the step that issues it and the step that receives its reply, so
    notifications can interleave with uploads. The ledger shows that every
    reading received is, at every point, buffered, in flight, uploaded, or
    abandoned by a cancellation, exactly once. */
module Lifecycle {
  import opened Wrappers
  import opened JsonValues
  import opened Readings
  import opened Api
  import opened Coordinator

  /** Where the (single) running refresh is: not running, awaiting the post of
      its flushed batch, or awaiting the status. */
  datatype RefreshPhase = Idle | Flushing(batch: seq<Reading>) | Fetching

  datatype System = System(coord: State, refresh: RefreshPhase, lastResult: Option<Result<Snapshot, UpdateFailed>>)

  /** What the environment can do next. Clock readings and network outcomes
      come with the event that delivers them. */
  datatype Event =
    | Notify(ev: StateChangedEvent)
    | DebounceFires
    | TaskReply(out: NetOutcome, now: string)
    | PollTick
    | FlushReply(out: NetOutcome, now: string)
    | StatusReply(out: NetOutcome, today: string, now: string)
    | Unload

  /** Set-up: the coordinator is created and its first refresh runs (the flush is
      a no-op on the empty buffer); a failing first refresh aborts set-up before
      any listener starts. Otherwise the listeners start on the monitored entities. */
  function Start(data: EntryData, options: Options, statusOut: NetOutcome, today: string, now: string): (r: Result<System, UpdateFailed>)
    ensures r.Success? <==> Authenticated(NewCoordinator(data, options).client) && statusOut.Response? && statusOut.status == 200
    ensures r.Failure? ==> r.error == AsUpdateFailed(GetStatus(NewCoordinator(data, options).client, statusOut).result.error)
    ensures r.Success? ==> r.value.coord.buffer == [] && !UploadPending(r.value.coord) && r.value.refresh.Idle?
    ensures r.Success? ==> r.value.coord.readingsTodayDate == Some(today) && r.value.coord.readingsToday == 0
    ensures r.Success? ==> r.value.lastResult.Some? && r.value.lastResult.value.Success?
                           && r.value.lastResult.value.value.readingsToday == 0 && r.value.lastResult.value.value.lastSync == now
    ensures r.Success? ==> r.value.coord.listeners == (if |MonitoredEntities(options)| == 0 then [] else [MonitoredEntities(options)])
  {
    var first := FinishRefresh(NewCoordinator(data, options), statusOut, today, now);
    match first.result
    case Failure(e) => Failure(e)
    case Success(_) => Success(System(StartListeners(first.state), Idle, Some(first.result)))
  }

  /** One event. An event that cannot happen in the current state (a timer with
      no sleeping task, a reply nobody awaits, a tick while refreshing) changes nothing. */
  function Step(sys: System, e: Event): System {
    match e
    case Notify(ev) => sys.(coord := HandleStateChange(sys.coord, ev))
    case DebounceFires =>
      if TaskSleeping(sys.coord) then sys.(coord := DebounceElapsed(sys.coord)) else sys
    case TaskReply(out, now) =>
      if TaskPosting(sys.coord) then sys.(coord := TaskPostReturned(sys.coord, out, now)) else sys
    case PollTick =>
      if !sys.refresh.Idle? then sys
      else if !Authenticated(sys.coord.client) then
        // Nothing suspends: the refresh fails at once (UnauthenticatedRefreshFails).
        System(sys.coord, Idle, Some(Failure(UpdateFailed(AuthenticationFailed, AuthenticationError(NotAuthenticated)))))
      else
        var b := UploadBegin(sys.coord);
        sys.(coord := b.state, refresh := if b.batch.None? then Fetching else Flushing(b.batch.value))
    case FlushReply(out, now) =>
      if !sys.refresh.Flushing? then sys
      else sys.(coord := UploadComplete(sys.coord, sys.refresh.batch, out, now), refresh := Fetching)
    case StatusReply(out, today, now) =>
      if !sys.refresh.Fetching? then sys
      else
        var r := FinishRefresh(sys.coord, out, today, now);
        System(r.state, Idle, Some(r.result))
    case Unload => sys.(coord := StopListeners(sys.coord))
  }

  function Run(sys: System, events: seq<Event>): System
    decreases |events|
  {
    if |events| == 0 then sys else Run(Step(sys, events[0]), events[1..])
  }

  // ---------------------------------------------------------------------------
  // Conservation of readings

  /** Every reading received, split by where it went. */
  datatype Ledger = Ledger(received: multiset<Reading>, uploaded: multiset<Reading>, abandoned: multiset<Reading>)

  function TaskBatch(s: State): multiset<Reading> {
    if TaskPosting(s) then multiset(s.uploadTask.value.phase.batch) else multiset{}
  }

  function RefreshBatch(p: RefreshPhase): multiset<Reading> {
    if p.Flushing? then multiset(p.batch) else multiset{}
  }

  /** The readings the system still holds: buffered or in flight. */
  function Held(sys: System): multiset<Reading> {
    multiset(sys.coord.buffer) + TaskBatch(sys.coord) + RefreshBatch(sys.refresh)
  }

  ghost predicate Conserved(sys: System, l: Ledger) {
    l.received == Held(sys) + l.uploaded + l.abandoned
  }

  /** How an event moves readings between the ledger's columns: a notification
      receives one, a successful post uploads its batch, and unloading abandons the
      batch of a task cancelled mid-post. */
  function Account(sys: System, e: Event, l: Ledger): Ledger {
    match e
    case Notify(ev) =>
      if ev.newState.Some? then l.(received := l.received + multiset{MakeReading(ev.entityId, ev.newState.value)}) else l
    case TaskReply(out, _) =>
      if TaskPosting(sys.coord) && PostSucceeds(sys.coord, out) then l.(uploaded := l.uploaded + TaskBatch(sys.coord)) else l
    case FlushReply(out, _) =>
      if sys.refresh.Flushing? && PostSucceeds(sys.coord, out) then l.(uploaded := l.uploaded + RefreshBatch(sys.refresh)) else l
    case Unload =>
      l.(abandoned := l.abandoned + TaskBatch(sys.coord))
    case _ => l
  }

  function AccountRun(sys: System, events: seq<Event>, l: Ledger): Ledger
    decreases |events|
  {
    if |events| == 0 then l else AccountRun(Step(sys, events[0]), events[1..], Account(sys, events[0], l))
  }

  lemma NotifyConserves(sys: System, ev: StateChangedEvent, l: Ledger)
    requires Conserved(sys, l)
    ensures Conserved(Step(sys, Notify(ev)), Account(sys, Notify(ev), l))
  {
  }

  lemma DebounceConserves(sys: System, l: Ledger)
    requires Conserved(sys, l)
    ensures Conserved(Step(sys, DebounceFires), Account(sys, DebounceFires, l))
  {
  }

  lemma TaskReplyConserves(sys: System, out: NetOutcome, now: string, l: Ledger)
    requires Conserved(sys, l)
    ensures Conserved(Step(sys, TaskReply(out, now)), Account(sys, TaskReply(out, now), l))
  {
  }

  lemma PollConserves(sys: System, l: Ledger)
    requires Conserved(sys, l)
    ensures Conserved(Step(sys, PollTick), Account(sys, PollTick, l))
  {
  }

  lemma FlushReplyConserves(sys: System, out: NetOutcome, now: string, l: Ledger)
    requires Conserved(sys, l)
    ensures Conserved(Step(sys, FlushReply(out, now)), Account(sys, FlushReply(out, now), l))
  {
  }

  lemma StatusReplyConserves(sys: System, out: NetOutcome, today: string, now: string, l: Ledger)
    requires Conserved(sys, l)
    ensures Conserved(Step(sys, StatusReply(out, today, now)), Account(sys, StatusReply(out, today, now), l))
  {
  }

  lemma UnloadConserves(sys: System, l: Ledger)
    requires Conserved(sys, l)
    ensures Conserved(Step(sys, Unload), Account(sys, Unload, l))
  {
  }

  /** One event neither loses nor duplicates a reading. */
  lemma StepConserves(sys: System, e: Event, l: Ledger)
    requires Conserved(sys, l)
    ensures Conserved(Step(sys, e), Account(sys, e, l))
  {
    match e
    case Notify(ev) => NotifyConserves(sys, ev, l);
    case DebounceFires => DebounceConserves(sys, l);
    case TaskReply(out, now) => TaskReplyConserves(sys, out, now, l);
    case PollTick => PollConserves(sys, l);
    case FlushReply(out, now) => FlushReplyConserves(sys, out, now, l);
    case StatusReply(out, today, now) => StatusReplyConserves(sys, out, today, now, l);
    case Unload => UnloadConserves(sys, l);
  }

  /** Only notifications add to the received readings, and only unloading abandons any. */
  lemma StepReceives(sys: System, e: Event, l: Ledger)
    ensures Account(sys, e, l).received == l.received + multiset(ReadingsOf(NotificationsOf([e])))
    ensures Account(sys, e, l).abandoned != l.abandoned ==> e.Unload?
  {
    assert NotificationsOf([e]) == (if e.Notify? then [e.ev] else []);
    if e.Notify? {
      assert ReadingsOf([e.ev]) == ReadingsOf([e.ev][..0]) + (if e.ev.newState.Some? then [MakeReading(e.ev.entityId, e.ev.newState.value)] else []);
    }
  }

  /** Over any run, every reading received is still held, uploaded, or abandoned
      by a cancellation, exactly once. */
  lemma {:induction false} RunConserves(sys: System, events: seq<Event>, l: Ledger)
    requires Conserved(sys, l)
    ensures Conserved(Run(sys, events), AccountRun(sys, events, l))
    decreases |events|
  {
    if |events| > 0 {
      StepConserves(sys, events[0], l);
      RunConserves(Step(sys, events[0]), events[1..], Account(sys, events[0], l));
    }
  }

  /** The readings received over a run are exactly those built from its notifications. */
  lemma {:induction false} RunReceives(sys: System, events: seq<Event>, l: Ledger)
    ensures AccountRun(sys, events, l).received == l.received + multiset(ReadingsOf(NotificationsOf(events)))
    decreases |events|
  {
    if |events| > 0 {
      var l' := Account(sys, events[0], l);
      StepReceives(sys, events[0], l);
      RunReceives(Step(sys, events[0]), events[1..], l');
      NotificationsCons(events);
      assert events[..1] == [events[0]];
      ReadingsOfCons(NotificationsOf(events[..1]), NotificationsOf(events[1..]));
    }
  }

  /** The notifications among a run's events, in order. */
  function NotificationsOf(events: seq<Event>): seq<StateChangedEvent>
  {
    if |events| == 0 then []
    else NotificationsOf(events[..|events| - 1]) + (if events[|events| - 1].Notify? then [events[|events| - 1].ev] else [])
  }

  lemma {:induction false} NotificationsCons(events: seq<Event>)
    requires |events| > 0
    ensures NotificationsOf(events) == NotificationsOf(events[..1]) + NotificationsOf(events[1..])
    decreases |events|
  {
    if |events| > 1 {
      var init := events[..|events| - 1];
      NotificationsCons(init);
      assert init[..1] == events[..1];
      assert init[1..] == events[1..][..|events[1..]| - 1];
    }
  }

  lemma {:induction false} ReadingsOfCons(a: seq<StateChangedEvent>, b: seq<StateChangedEvent>)
    ensures ReadingsOf(a + b) == ReadingsOf(a) + ReadingsOf(b)
    decreases |b|
  {
    if |b| > 0 {
      var b' := b[..|b| - 1];
      assert (a + b)[..|a + b| - 1] == a + b';
      ReadingsOfCons(a, b');
    } else {
      assert a + b == a;
    }
  }

  // ---------------------------------------------------------------------------
  // A single upload task

  /** The current task, if any, is the last one created: tasks are numbered in
      creation order, so there is never a second task alongside it. */
  ghost predicate TasksNumbered(s: State) {
    && (s.uploadTask.None? <==> s.tasksCreated == 0)
    && (s.uploadTask.Some? ==> s.uploadTask.value.id + 1 == s.tasksCreated)
  }

  /** While a task is pending, no event creates another: the task keeps its
      identity until it is done, and the creation count is unchanged. Every event
      keeps the numbering of tasks. */
  lemma PendingTaskIsNeverReplaced(sys: System, e: Event)
    requires TasksNumbered(sys.coord)
    ensures TasksNumbered(Step(sys, e).coord)
    ensures UploadPending(sys.coord) ==>
              && Step(sys, e).coord.tasksCreated == sys.coord.tasksCreated
              && Step(sys, e).coord.uploadTask.value.id == sys.coord.uploadTask.value.id
    ensures Step(sys, e).coord.tasksCreated >= sys.coord.tasksCreated
  {
  }

  // ---------------------------------------------------------------------------
  // Scenarios

  /** The coordinator after handling `events` in order. */
  function Notified(s: State, events: seq<StateChangedEvent>): State
    decreases |events|
  {
    if |events| == 0 then s
    else HandleStateChange(Notified(s, events[..|events| - 1]), events[|events| - 1])
  }

  /** A burst of notifications only appends their readings, in order, and creates
      at most one task: none if one was pending, else one as soon as the first
      reading arrives, which stays pending for the rest of the burst. */
  lemma {:induction false} BurstBuffersInOrder(s: State, events: seq<StateChangedEvent>)
    ensures Notified(s, events).buffer == s.buffer + ReadingsOf(events)
    ensures UploadPending(s) ==> Notified(s, events).uploadTask == s.uploadTask && Notified(s, events).tasksCreated == s.tasksCreated
    ensures !UploadPending(s) && |ReadingsOf(events)| > 0 ==>
              && Notified(s, events).uploadTask == Some(UploadTask(s.tasksCreated, Sleeping))
              && Notified(s, events).tasksCreated == s.tasksCreated + 1
    ensures |ReadingsOf(events)| == 0 ==> Notified(s, events) == s
    ensures Notified(s, events).(buffer := s.buffer, uploadTask := s.uploadTask, tasksCreated := s.tasksCreated) == s
    decreases |events|
  {
    if |events| > 0 {
      var init := events[..|events| - 1];
      BurstBuffersInOrder(s, init);
    }
  }

  /** Readings arriving within the debounce window go out in one upload: after the
      burst exactly one task was created, and when its timer fires it posts all of
      them, in arrival order; a successful post counts every one of them. Without
      credentials the task finishes at once and the readings stay buffered. */
  lemma BurstIsOneUpload(s: State, events: seq<StateChangedEvent>, out: NetOutcome, now: string)
    requires !UploadPending(s) && s.buffer == []
    requires |ReadingsOf(events)| > 0
    ensures var s1 := Notified(s, events);
            && TaskSleeping(s1)
            && s1.tasksCreated == s.tasksCreated + 1
            && (Authenticated(s.client) ==>
                  && DebounceElapsed(s1).uploadTask == Some(UploadTask(s.tasksCreated, Posting(ReadingsOf(events))))
                  && DebounceElapsed(s1).buffer == [])
            && (!Authenticated(s.client) ==>
                  && DebounceElapsed(s1).uploadTask == Some(UploadTask(s.tasksCreated, Finished))
                  && DebounceElapsed(s1).buffer == ReadingsOf(events))
    ensures PostSucceeds(s, out) ==>
              TaskPostReturned(DebounceElapsed(Notified(s, events)), out, now).readingsToday == s.readingsToday + |ReadingsOf(events)|
  {
    BurstBuffersInOrder(s, events);
    var s1 := Notified(s, events);
    assert s1.buffer == ReadingsOf(events);
    var s2 := DebounceElapsed(s1);
    assert s2.client == s.client && s2.readingsToday == s.readingsToday;
  }

  /** A failed upload loses nothing: the batch the task took returns to the
      buffer behind the readings that arrived while it was posting, the counter
      and upload time stay as they were, and the next upload takes the batch again.
      Readings can only arrive during the post when the client has credentials;
      without them the upload fails within one step (UnauthenticatedUploadIsImmediate). */
  lemma FailedUploadIsRetried(s: State, during: seq<StateChangedEvent>, out: NetOutcome, now: string)
    requires TaskSleeping(s) && |s.buffer| > 0 && Authenticated(s.client)
    requires !PostSucceeds(s, out)
    ensures var s1 := Notified(DebounceElapsed(s), during);
            && TaskPosting(s1)
            && var s2 := TaskPostReturned(s1, out, now);
            && s2.buffer == ReadingsOf(during) + s.buffer
            && s2.readingsToday == s.readingsToday
            && s2.lastUpload == s.lastUpload
            && multiset(s2.buffer) == multiset(s.buffer) + multiset(ReadingsOf(during))
            && UploadBegin(s2).batch == Some(ReadingsOf(during) + s.buffer)
  {
    var s0 := DebounceElapsed(s);
    assert s0.buffer == [] && s0.uploadTask == Some(UploadTask(s.uploadTask.value.id, Posting(s.buffer)));
    BurstBuffersInOrder(s0, during);
    var s1 := Notified(s0, during);
    assert s1.uploadTask == s0.uploadTask && s1.client == s.client;
    assert s1.buffer == ReadingsOf(during);
    assert !PostSucceeds(s1, out);
    var s2 := TaskPostReturned(s1, out, now);
    var u := UploadComplete(s1, s.buffer, out, now);
    assert u.buffer == ReadingsOf(during) + s.buffer;
    assert s2.buffer == u.buffer && s2.readingsToday == u.readingsToday && s2.lastUpload == u.lastUpload;
  }

  // ---------------------------------------------------------------------------
  // States reachable from set-up

  function EmptyLedger(): Ledger {
    Ledger(multiset{}, multiset{}, multiset{})
  }

  /** Set-up establishes both invariants: nothing is held or accounted for, and
      no task exists yet. */
  lemma StartEstablishesInvariants(data: EntryData, options: Options, statusOut: NetOutcome, today: string, now: string)
    requires Truthy(data.token) && Truthy(data.instanceId) && statusOut.Response? && statusOut.status == 200
    ensures Conserved(Start(data, options, statusOut, today, now).value, EmptyLedger())
    ensures TasksNumbered(Start(data, options, statusOut, today, now).value.coord)
    ensures Start(data, options, statusOut, today, now).value.coord.tasksCreated == 0
  {
  }

  /** Tasks stay numbered over any run, and the creation count never decreases. */
  lemma {:induction false} RunKeepsTasksNumbered(sys: System, events: seq<Event>)
    requires TasksNumbered(sys.coord)
    ensures TasksNumbered(Run(sys, events).coord)
    ensures Run(sys, events).coord.tasksCreated >= sys.coord.tasksCreated
    decreases |events|
  {
    if |events| > 0 {
      PendingTaskIsNeverReplaced(sys, events[0]);
      RunKeepsTasksNumbered(Step(sys, events[0]), events[1..]);
    }
  }

  /** From a successful set-up, whatever happens next: every reading built from a
      notification is buffered, in flight, uploaded or abandoned, exactly once, and
      there is never more than the one, most recently created, upload task. */
  lemma ReachableRunsConserve(data: EntryData, options: Options, statusOut: NetOutcome, today: string, now: string, events: seq<Event>)
    requires Truthy(data.token) && Truthy(data.instanceId) && statusOut.Response? && statusOut.status == 200
    ensures var sys := Start(data, options, statusOut, today, now).value;
            var l := AccountRun(sys, events, EmptyLedger());
            && l.received == multiset(ReadingsOf(NotificationsOf(events)))
            && l.received == Held(Run(sys, events)) + l.uploaded + l.abandoned
            && TasksNumbered(Run(sys, events).coord)
  {
    var sys := Start(data, options, statusOut, today, now).value;
    StartEstablishesInvariants(data, options, statusOut, today, now);
    RunConserves(sys, events, EmptyLedger());
    RunReceives(sys, events, EmptyLedger());
    RunKeepsTasksNumbered(sys, events);
  }

  /** A poll tick without credentials completes the whole refresh in one step, as
      the coordinator's refresh does for any network outcome and clock. */
  lemma PollTickWithoutCredentials(sys: System, flushOut: NetOutcome, statusOut: NetOutcome, today: string, now: string)
    requires sys.refresh.Idle? && !Authenticated(sys.coord.client)
    ensures var r := Refresh(sys.coord, flushOut, statusOut, today, now);
            Step(sys, PollTick) == System(r.state, Idle, Some(r.result))
  {
    UnauthenticatedRefreshFails(sys.coord, flushOut, statusOut, today, now);
  }

  /** With credentials a poll tick suspends at the flush's post (when something
      is buffered) and at the status call. When no notification or upload-task
      event comes in between, the split refresh ends exactly where the
      coordinator's refresh does: same state, and its result recorded. */
  lemma {:induction false} PollTickRefreshes(sys: System, flushOut: NetOutcome, statusOut: NetOutcome, today: string, now: string)
    requires sys.refresh.Idle? && Authenticated(sys.coord.client)
    ensures var events := [PollTick] + (if |sys.coord.buffer| > 0 then [FlushReply(flushOut, now)] else []) + [StatusReply(statusOut, today, now)];
            var r := Refresh(sys.coord, flushOut, statusOut, today, now);
            Run(sys, events) == System(r.state, Idle, Some(r.result))
  {
    var fetch := StatusReply(statusOut, today, now);
    var s1 := Step(sys, PollTick);
    if |sys.coord.buffer| > 0 {
      var flush := FlushReply(flushOut, now);
      var s2 := Step(s1, flush);
      assert s2.coord == FlushBuffer(sys.coord, flushOut, now) && s2.refresh.Fetching?;
      calc {
        Run(sys, [PollTick] + [flush] + [fetch]);
        { assert ([PollTick] + [flush] + [fetch])[1..] == [flush, fetch]; }
        Run(s1, [flush, fetch]);
        { assert [flush, fetch][1..] == [fetch]; }
        Run(s2, [fetch]);
        Step(s2, fetch);
      }
    } else {
      assert s1.coord == FlushBuffer(sys.coord, flushOut, now) && s1.refresh.Fetching?;
      calc {
        Run(sys, [PollTick] + [] + [fetch]);
        { assert ([PollTick] + [] + [fetch])[1..] == [fetch]; }
        Run(s1, [fetch]);
        Step(s1, fetch);
      }
    }
  }
}
