/** The sync coordinator: a reading buffer, a single debounced upload task, the
    daily upload counter and the refresh that flushes the buffer and fetches the
    cloud status. Each operation is a pure transition on an immutable state
    record; clocks and network outcomes are parameters. */
module Coordinator {
  import opened Wrappers
  import opened JsonValues
  import opened Readings
  import opened Api

  /** The stored configuration: `api_url` may be absent; the credentials are
      required and hold the JSON values pairing returned. */
  datatype EntryData = EntryData(apiUrl: Option<string>, token: Json, instanceId: Json)

  /** The user's monitored-entity options; `None` covers both an absent key and a stored `None`. */
  datatype Options = Options(solarEntity: Option<string>, batteryEntity: Option<string>, gridEntity: Option<string>)

  /** The lifecycle of the debounced upload task: sleeping out the 5-second
      debounce, awaiting the post of its batch, finished, or cancelled. */
  datatype TaskPhase = Sleeping | Posting(batch: seq<Reading>) | Finished | Cancelled

  /** An upload task; `id` tells tasks apart (the n-th task created has id n). */
  datatype UploadTask = UploadTask(id: nat, phase: TaskPhase) {
    /** `asyncio.Task.done()`. */
    predicate Done() {
      phase.Finished? || phase.Cancelled?
    }
  }

  /** The coordinator's state. `listeners` holds one entity list per active
      subscription. `tasksCreated` and `refreshRequests` count the calls made to
      the host's task factory and refresh debouncer. */
  datatype State = State(
    client: Client,
    options: Options,
    buffer: seq<Reading>,
    listeners: seq<seq<string>>,
    uploadTask: Option<UploadTask>,
    tasksCreated: nat,
    refreshRequests: nat,
    lastUpload: Option<string>,
    readingsToday: nat,
    readingsTodayDate: Option<string>)

  /** A task exists and is not done, so no new task may be created. */
  predicate UploadPending(s: State) {
    s.uploadTask.Some? && !s.uploadTask.value.Done()
  }

  /** The status snapshot a successful refresh hands to the entities. */
  datatype Snapshot = Snapshot(
    connected: bool,
    syncStatus: string,
    lastSync: string,
    readingsToday: nat,
    recommendation: Json,
    recommendationReason: Json,
    recommendationExpires: Json,
    savingsToday: Json,
    tariffRate: Json)

  /** Why a refresh failed, named after the `except` clause that caught the cause. */
  datatype FailReason = AuthenticationFailed | CannotConnectFailed | ApiErrorFailed
  datatype UpdateFailed = UpdateFailed(reason: FailReason, cause: ApiError)

  // ---------------------------------------------------------------------------
  // Construction and configuration

  /** A fresh coordinator: a client built from the stored URL (or the default)
      and the stored credentials, the given options, an empty buffer, no task,
      nothing uploaded or requested, and no counter date. */
  function NewCoordinator(data: EntryData, options: Options): (s: State)
    ensures s.client == NewClient(data.apiUrl.GetOr(DefaultApiUrl), data.token, data.instanceId)
    ensures s.client.token == data.token && s.client.instanceId == data.instanceId
    ensures s.client.apiUrl == StripTrailingSlashes(data.apiUrl.GetOr(DefaultApiUrl))
    ensures s.options == options
    ensures s.buffer == [] && s.listeners == [] && s.uploadTask.None?
    ensures s.tasksCreated == 0 && s.refreshRequests == 0
    ensures s.lastUpload.None? && s.readingsToday == 0 && s.readingsTodayDate.None?
    ensures Authenticated(s.client) <==> Truthy(data.token) && Truthy(data.instanceId)
  {
    State(NewClient(data.apiUrl.GetOr(DefaultApiUrl), data.token, data.instanceId),
          options, [], [], None, 0, 0, None, 0, None)
  }

  /** The coordinator's requests carry the stored credentials: the status query
      names the stored instance id, and with a truthy token every request sends
      it as the bearer token. */
  lemma ConfiguredCredentialsAreSent(data: EntryData, options: Options, readings: seq<Reading>, out: NetOutcome)
    requires Truthy(data.token) && Truthy(data.instanceId)
    ensures var c := NewCoordinator(data, options).client;
            && GetStatus(c, out).sent.value.query == map["instance_id" := data.instanceId]
            && PostReadings(c, readings, out).sent.value.payload == ReadingsPayload(data.instanceId, readings)
            && GetStatus(c, out).sent.value.headers["Authorization"] == "Bearer " + PyStr(data.token)
            && PostReadings(c, readings, out).sent.value.headers["Authorization"] == "Bearer " + PyStr(data.token)
  {
  }

  /** The configured entity id of one option, if it is set and non-empty. */
  function Configured(v: Option<string>): seq<string> {
    if v.Some? && v.value != "" then [v.value] else []
  }

  /** The entity ids among `vs` that are set and non-empty, in order. */
  function KeepConfigured(vs: seq<Option<string>>): (r: seq<string>)
    ensures |r| <= |vs|
    ensures forall i :: 0 <= i < |r| ==> r[i] != ""
    ensures forall e :: e in r <==> e != "" && Some(e) in vs
  {
    if |vs| == 0 then [] else Configured(vs[0]) + KeepConfigured(vs[1..])
  }

  /** `monitored_entities`: the solar, battery and grid ids in that order,
      skipping those that are unset or empty. */
  function MonitoredEntities(o: Options): (r: seq<string>)
    ensures |r| <= 3
    ensures r == Configured(o.solarEntity) + Configured(o.batteryEntity) + Configured(o.gridEntity)
    ensures forall e :: e in r <==> e != "" && (o.solarEntity == Some(e) || o.batteryEntity == Some(e) || o.gridEntity == Some(e))
  {
    var vs := [o.solarEntity, o.batteryEntity, o.gridEntity];
    assert KeepConfigured(vs[1..][1..]) == Configured(o.gridEntity) + KeepConfigured(vs[1..][1..][1..]);
    assert KeepConfigured(vs[1..]) == Configured(o.batteryEntity) + Configured(o.gridEntity);
    KeepConfigured(vs)
  }

  // ---------------------------------------------------------------------------
  // Listener lifecycle

  /** `async_start_listeners`: one subscription for the monitored entities, or
      nothing when none is configured. */
  function StartListeners(s: State): (r: State)
    ensures |MonitoredEntities(s.options)| == 0 ==> r == s
    ensures |MonitoredEntities(s.options)| > 0 ==> r == s.(listeners := s.listeners + [MonitoredEntities(s.options)])
  {
    var entities := MonitoredEntities(s.options);
    if |entities| == 0 then s else s.(listeners := s.listeners + [entities])
  }

  /** `async_stop_listeners`: every subscription is dropped and a task that is not
      done is cancelled; a cancelled task's in-flight batch is abandoned, never
      returned to the buffer. Buffer and counters are untouched. */
  function StopListeners(s: State): (r: State)
    ensures r.listeners == []
    ensures !UploadPending(r)
    ensures UploadPending(s) ==> r.uploadTask == Some(UploadTask(s.uploadTask.value.id, Cancelled))
    ensures !UploadPending(s) ==> r.uploadTask == s.uploadTask
    ensures r.(listeners := s.listeners, uploadTask := s.uploadTask) == s
  {
    var cleared := s.(listeners := []);
    if UploadPending(s) then cleared.(uploadTask := Some(s.uploadTask.value.(phase := Cancelled)))
    else cleared
  }

  // ---------------------------------------------------------------------------
  // Buffering and scheduling

  /** `_schedule_upload`: a new sleeping task is created only when there is no
      task or the current one is done; afterwards a task is always pending. */
  function ScheduleUpload(s: State): (r: State)
    ensures UploadPending(r)
    ensures UploadPending(s) ==> r == s
    ensures !UploadPending(s) ==> r.uploadTask == Some(UploadTask(s.tasksCreated, Sleeping))
    ensures r.tasksCreated == s.tasksCreated + (if UploadPending(s) then 0 else 1)
    ensures r.(uploadTask := s.uploadTask, tasksCreated := s.tasksCreated) == s
  {
    if UploadPending(s) then s
    else s.(uploadTask := Some(UploadTask(s.tasksCreated, Sleeping)), tasksCreated := s.tasksCreated + 1)
  }

  /** `_handle_state_change`: a removal notification changes nothing; otherwise
      exactly one reading is appended and an upload is scheduled. */
  function HandleStateChange(s: State, ev: StateChangedEvent): (r: State)
    ensures ev.newState.None? ==> r == s
    ensures ev.newState.Some? ==> r.buffer == s.buffer + [MakeReading(ev.entityId, ev.newState.value)]
    ensures ev.newState.Some? ==> UploadPending(r)
    ensures UploadPending(s) ==> r.uploadTask == s.uploadTask && r.tasksCreated == s.tasksCreated
    ensures r.tasksCreated <= s.tasksCreated + 1
    ensures r.(buffer := s.buffer, uploadTask := s.uploadTask, tasksCreated := s.tasksCreated) == s
  {
    match ev.newState
    case None => s
    case Some(st) => ScheduleUpload(s.(buffer := s.buffer + [MakeReading(ev.entityId, st)]))
  }

  // ---------------------------------------------------------------------------
  // Uploading

  /** The state once an upload has begun, and the batch it took, if any. */
  datatype Begun = Begun(state: State, batch: Option<seq<Reading>>)

  /** The first half of `_async_upload_buffered_data`: an empty buffer means no
      upload at all; otherwise the whole buffer becomes the batch and is cleared. */
  function UploadBegin(s: State): (r: Begun)
    ensures |s.buffer| == 0 ==> r == Begun(s, None)
    ensures |s.buffer| > 0 ==> r.batch == Some(s.buffer) && r.state == s.(buffer := [])
    ensures r.batch.Some? ==> |r.batch.value| > 0 && r.state.buffer == []
  {
    if |s.buffer| == 0 then Begun(s, None) else Begun(s.(buffer := []), Some(s.buffer))
  }

  /** The post of a batch succeeds exactly when the client has credentials and the server answers 200. */
  predicate PostSucceeds(s: State, out: NetOutcome) {
    Authenticated(s.client) && out.Response? && out.status == 200
  }

  /** The second half of `_async_upload_buffered_data`, after the post returned
      with outcome `out` at time `now`. On success the counter grows by exactly
      the batch size and the upload time is recorded; on any client error the
      batch goes back behind whatever arrived meanwhile, and nothing else changes. */
  function UploadComplete(s: State, batch: seq<Reading>, out: NetOutcome, now: string): (r: State)
    ensures PostSucceeds(s, out) ==> r.readingsToday == s.readingsToday + |batch| && r.lastUpload == Some(now) && r.buffer == s.buffer
    ensures !PostSucceeds(s, out) ==> r.readingsToday == s.readingsToday && r.lastUpload == s.lastUpload && r.buffer == s.buffer + batch
    ensures multiset(r.buffer) == multiset(s.buffer) + (if PostSucceeds(s, out) then multiset{} else multiset(batch))
    ensures r.(buffer := s.buffer, lastUpload := s.lastUpload, readingsToday := s.readingsToday) == s
  {
    match PostReadings(s.client, batch, out).result
    case Success(_) => s.(lastUpload := Some(now), readingsToday := s.readingsToday + |batch|)
    // `except GreenEnergyApiError` catches every client error (HierarchyRootCatchesAll).
    case Failure(_) => s.(buffer := s.buffer + batch)
  }

  /** `_async_upload_buffered_data` with no reading arriving while the post is
      awaited, as in the refresh path. */
  function FlushBuffer(s: State, out: NetOutcome, now: string): (r: State)
    ensures |s.buffer| == 0 ==> r == s
    ensures |s.buffer| > 0 && PostSucceeds(s, out) ==>
              r == s.(buffer := [], lastUpload := Some(now), readingsToday := s.readingsToday + |s.buffer|)
    ensures |s.buffer| > 0 && !PostSucceeds(s, out) ==> r == s
  {
    var b := UploadBegin(s);
    if b.batch.None? then b.state else UploadComplete(b.state, b.batch.value, out, now)
  }

  predicate TaskSleeping(s: State) {
    s.uploadTask.Some? && s.uploadTask.value.phase.Sleeping?
  }

  predicate TaskPosting(s: State) {
    s.uploadTask.Some? && s.uploadTask.value.phase.Posting?
  }

  /** The debounce sleep of `_async_debounced_upload` ends and the task takes the
      buffer as its batch. With an empty buffer it skips the upload. Without
      credentials the post raises before its first suspension, so the batch goes
      straight back into the buffer within the same step. In both cases the task
      requests a refresh and finishes at once. Otherwise it awaits the post. */
  function DebounceElapsed(s: State): (r: State)
    requires TaskSleeping(s)
    ensures |s.buffer| == 0 || !Authenticated(s.client) ==>
              r == s.(uploadTask := Some(UploadTask(s.uploadTask.value.id, Finished)), refreshRequests := s.refreshRequests + 1)
    ensures |s.buffer| > 0 && Authenticated(s.client) ==>
              r == s.(buffer := [], uploadTask := Some(UploadTask(s.uploadTask.value.id, Posting(s.buffer))))
  {
    var task := s.uploadTask.value;
    var b := UploadBegin(s);
    var s1 := b.state;
    if b.batch.None? then s1.(uploadTask := Some(task.(phase := Finished)), refreshRequests := s1.refreshRequests + 1)
    else if !Authenticated(s1.client) then
      var s2 := s1.(buffer := s1.buffer + b.batch.value);
      s2.(uploadTask := Some(task.(phase := Finished)), refreshRequests := s2.refreshRequests + 1)
    else s1.(uploadTask := Some(task.(phase := Posting(b.batch.value))))
  }

  /** The task's post returns: the upload completes as `UploadComplete` says, a
      refresh is requested and the task finishes. */
  function TaskPostReturned(s: State, out: NetOutcome, now: string): (r: State)
    requires TaskPosting(s)
    ensures r.uploadTask == Some(UploadTask(s.uploadTask.value.id, Finished))
    ensures r.refreshRequests == s.refreshRequests + 1
    ensures r.(uploadTask := s.uploadTask, refreshRequests := s.refreshRequests)
              == UploadComplete(s, s.uploadTask.value.phase.batch, out, now)
  {
    var task := s.uploadTask.value;
    var s1 := UploadComplete(s, task.phase.batch, out, now);
    s1.(uploadTask := Some(task.(phase := Finished)), refreshRequests := s1.refreshRequests + 1)
  }

  /** Without credentials the task's whole upload happens when its timer fires:
      the result is what a post returning with any outcome would have produced,
      so nothing can arrive ahead of the batch and the batch is never in flight. */
  lemma UnauthenticatedUploadIsImmediate(s: State, out: NetOutcome, now: string)
    requires TaskSleeping(s) && |s.buffer| > 0 && !Authenticated(s.client)
    ensures var posting := s.(buffer := [], uploadTask := Some(UploadTask(s.uploadTask.value.id, Posting(s.buffer))));
            DebounceElapsed(s) == TaskPostReturned(posting, out, now)
    ensures DebounceElapsed(s).buffer == s.buffer && DebounceElapsed(s).readingsToday == s.readingsToday
  {
    var posting := s.(buffer := [], uploadTask := Some(UploadTask(s.uploadTask.value.id, Posting(s.buffer))));
    assert !PostSucceeds(posting, out);
    assert UploadComplete(posting, s.buffer, out, now).buffer == s.buffer;
  }

  // ---------------------------------------------------------------------------
  // Refresh

  /** The `except` clauses of the refresh, in order. */
  const RefreshHandlers: seq<ErrorClass> := [AuthenticationErrorClass, CannotConnectClass, GreenEnergyApiErrorClass]

  /** The `UpdateFailed` a status error is turned into, by the first clause that catches it. */
  function AsUpdateFailed(e: ApiError): (r: UpdateFailed)
    ensures r.cause == e
    ensures r.reason == AuthenticationFailed <==> e.AuthenticationError?
    ensures r.reason == CannotConnectFailed <==> e.CannotConnect?
    ensures r.reason == ApiErrorFailed <==> e.InvalidPairingCode? || e.GreenEnergyApiError?
  {
    HierarchyRootCatchesAll(e, RefreshHandlers);
    match CatchingClause(e, RefreshHandlers)
    case Some(0) => UpdateFailed(AuthenticationFailed, e)
    case Some(1) => UpdateFailed(CannotConnectFailed, e)
    case _ => UpdateFailed(ApiErrorFailed, e)
  }

  /** The state after a refresh, and the snapshot it returned or the failure it raised. */
  datatype Refreshed = Refreshed(state: State, result: Result<Snapshot, UpdateFailed>)

  /** The second part of `_async_update_data`, after the flush: fetch the status;
      any error fails the refresh and leaves the state alone. Otherwise the daily
      counter is reset when its date is not `today`, and the snapshot reports it. */
  function FinishRefresh(s: State, out: NetOutcome, today: string, now: string): (r: Refreshed)
    ensures r.result.Success? <==> Authenticated(s.client) && out.Response? && out.status == 200
    ensures r.result.Failure? ==> r.state == s && r.result.error == AsUpdateFailed(GetStatus(s.client, out).result.error)
    ensures r.result.Success? ==> r.result.value.connected && r.result.value.syncStatus == "synced" && r.result.value.lastSync == now
    ensures r.result.Success? ==> r.state.readingsTodayDate == Some(today) && r.result.value.readingsToday == r.state.readingsToday
    ensures r.result.Success? && s.readingsTodayDate != Some(today) ==> r.state == s.(readingsToday := 0, readingsTodayDate := Some(today))
    ensures r.result.Success? && s.readingsTodayDate == Some(today) ==> r.state == s
  {
    match GetStatus(s.client, out).result
    case Failure(e) => Refreshed(s, Failure(AsUpdateFailed(e)))
    case Success(status) =>
      var s' := if s.readingsTodayDate != Some(today) then s.(readingsToday := 0, readingsTodayDate := Some(today)) else s;
      Refreshed(s', Success(Snapshot(
        true,
        "synced",
        now,
        s'.readingsToday,
        Get(status, "recommendation", JStr("No action needed")),
        Get(status, "recommendation_reason", JNull),
        Get(status, "recommendation_expires", JNull),
        Get(status, "savings_today_pence", JInt(0)),
        Get(status, "current_rate_pence", JNull))))
  }

  /** `_async_update_data` with nothing arriving while it awaits: flush the buffer
      first (outcome `flushOut`), then fetch the status (outcome `statusOut`). */
  function Refresh(s: State, flushOut: NetOutcome, statusOut: NetOutcome, today: string, now: string): (r: Refreshed)
    ensures r.result.Success? <==> Authenticated(s.client) && statusOut.Response? && statusOut.status == 200
    ensures r.result.Success? ==> r.result.value.connected && r.result.value.syncStatus == "synced"
    ensures r.result.Success? && s.readingsTodayDate != Some(today) ==> r.result.value.readingsToday == 0 && r.state.readingsTodayDate == Some(today)
    ensures r.result.Success? && s.readingsTodayDate == Some(today) ==>
              r.result.value.readingsToday == s.readingsToday + (if PostSucceeds(s, flushOut) then |s.buffer| else 0)
    ensures PostSucceeds(s, flushOut) ==> r.state.buffer == []
    ensures !PostSucceeds(s, flushOut) ==> r.state.buffer == s.buffer
  {
    FinishRefresh(FlushBuffer(s, flushOut, now), statusOut, today, now)
  }

  /** With an empty buffer a refresh makes no upload: its result does not depend
      on what the readings endpoint would have answered. */
  lemma EmptyBufferRefreshSkipsUpload(s: State, out1: NetOutcome, out2: NetOutcome, statusOut: NetOutcome, today: string, now: string)
    requires s.buffer == []
    ensures Refresh(s, out1, statusOut, today, now) == Refresh(s, out2, statusOut, today, now)
    ensures Refresh(s, out1, statusOut, today, now).state.readingsToday
              == (if Refresh(s, out1, statusOut, today, now).result.Success? && s.readingsTodayDate != Some(today) then 0 else s.readingsToday)
  {
  }

  /** Without credentials a refresh never suspends: the flush and the status call
      both raise before any request, so the refresh fails with an authentication
      error and leaves the state as it was, whatever the network or the clock. */
  lemma UnauthenticatedRefreshFails(s: State, flushOut: NetOutcome, statusOut: NetOutcome, today: string, now: string)
    requires !Authenticated(s.client)
    ensures Refresh(s, flushOut, statusOut, today, now) == Refreshed(s, Failure(UpdateFailed(AuthenticationFailed, AuthenticationError(NotAuthenticated))))
  {
  }
}
