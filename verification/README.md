# Green Energy sync coordinator and API client — a Dafny model

This project models the two parts of the Green Energy home-automation
integration that carry real control flow:

- the **sync coordinator** (`coordinator.py`), which buffers a reading for every
  state change of the monitored solar/battery/grid entities, uploads the buffer
  through a single debounced upload task, puts a failed batch back into the
  buffer, keeps a per-day count of uploaded readings, and on every refresh
  flushes the buffer before fetching the cloud status;
- the **API client** (`api.py`), whose four operations (pair, post readings,
  get status, unpair) map a network outcome — a timeout, a transport error, or
  an HTTP status with a decoded body — to a returned value or to one of the
  exceptions `InvalidPairingCode`, `CannotConnect`, `AuthenticationError` and
  their base `GreenEnergyApiError`.

Files and modules:

| file | module | contents |
|---|---|---|
| `wrappers.dfy` | `Wrappers` | `Option` (Python's `None`) and `Result` (value or raised error) |
| `json.dfy` | `JsonValues` | decoded JSON values, Python truthiness and `str()`, `dict.get` |
| `readings.dfy` | `Readings` | state-change notifications and the readings built from them |
| `api.dfy` | `Api` | exception hierarchy and `except` selection, client state, URL and headers, requests, outcome classification |
| `coordinator.dfy` | `Coordinator` | the coordinator's state record and one pure transition per operation |
| `lifecycle.dfy` | `Lifecycle` | the coordinator driven by interleaved events; conservation of readings; single-task and debounce scenarios |

Modelling choices:

- The network request of the upload task and of a refresh started by a poll
  tick is split into the step that issues it and the step that receives its
  reply, so readings may arrive while a post is in flight. The upload task is
  `Sleeping` (the 5-second debounce), `Posting(batch)`, `Finished` or
  `Cancelled`; the refresh is `Idle`, `Flushing(batch)` or `Fetching`. Other
  awaits are not split: decoding a reply's body is part of receiving it, the
  task's refresh request is part of the step that finishes the task, and the
  first refresh of set-up is one step (no listener is running and no task
  exists yet, so nothing can interleave with it).
- Network outcomes (`NetOutcome`), the current time and today's date are
  parameters of the transition that consumes them.
- The state records how many tasks were created (`tasksCreated`, also used as
  the task's identity) and how many refreshes were requested from the host
  (`refreshRequests`); these count calls into the host, they are not fields of
  the Python object.
- Credentials are held as decoded JSON values, because pairing stores
  `data["api_token"]` verbatim and the configuration entry keeps the values
  pairing returned (config_flow.py:70-71, 110-111); `if self._token:` is Python
  truthiness and the bearer header uses Python's `str()`.
- Exception messages are modelled structurally (`ServerError(error field)`,
  `UnexpectedStatus(status)`, the cause of a `CannotConnect` or
  `AuthenticationError`) rather than as formatted text.
- Edge cases of the code that the model keeps:
  - a failed batch is extended behind the readings that arrived during the post,
    because the buffer is copied and cleared before the post and extended after
    it (coordinator.py:197-198, 208);
  - a 400 pairing reply whose `error` is not `invalid_code` raises a generic
    error carrying `data.get("error", "Unknown error")` (api.py:82);
  - a 200 pairing reply missing `api_token` or `instance_id` raises `KeyError`
    (`MissingField`); when only `instance_id` is missing the new token has
    already been stored (api.py:93-94);
  - without credentials, `async_post_readings` and `async_get_status` raise
    before their first suspension (api.py:116-117, 155-156), so an upload or a
    refresh by an unauthenticated coordinator completes within one step.
- Behaviour the contracts make visible: the daily counter is reset after the
  status call, so readings flushed by the first refresh of a new day are added
  and then reset with the rest (`Refresh` reports 0 in that case), and a task
  cancelled while posting abandons its batch (the ledger's `abandoned` column).

## Model

| member | source | states |
|---|---|---|
| `Readings.ForwardAttributes` | custom_components/green_energy/coordinator.py:163-167 | the reading's attributes are exactly the entity attributes whose key is one of the four whitelisted keys, values unchanged, so at most four |
| `Readings.MakeReading` | custom_components/green_energy/coordinator.py:160-169 | a reading carries the entity id, the new state value, the state's last-updated time and only whitelisted attributes |
| `Api.CatchingClause` | custom_components/green_energy/api.py:15-28 | Python's `except` selection: the chosen clause is the first whose class the exception is an instance of; none is chosen only if no clause matches |
| `Api.HierarchyRootCatchesAll` | custom_components/green_energy/api.py:15-28 | the three specific exceptions derive from `GreenEnergyApiError`, so a clause for the base class catches every client error, and each specific class catches exactly its own exceptions |
| `Api.StripTrailingSlashes` | custom_components/green_energy/api.py:43 | the normalised URL is a prefix of the given one, only slashes were removed, and it does not end in `/` |
| `Api.StripTrailingSlashesIdempotent` | custom_components/green_energy/api.py:43 | normalising a normalised URL changes nothing |
| `JsonValues.NatToDecimal` | custom_components/green_energy/api.py:54 | Python's `str()` of an integer token: decimal digits without a leading zero that denote the number |
| `Api.NewClient` | custom_components/green_energy/api.py:34-45 | the client's URL has no trailing slash, the token and instance id are stored exactly as given, and the client is authenticated exactly when both are truthy |
| `Api.Headers` | custom_components/green_energy/api.py:47-55 | JSON `Content-Type` and `Accept` are always present; `Authorization` is present exactly when the token is truthy and is then `"Bearer "` followed by the token; no other header |
| `Api.Pair` | custom_components/green_energy/api.py:57-101 | the pairing request is always sent; `InvalidPairingCode` exactly for 401 or a 400 whose `error` is `invalid_code`; another 400 or non-200 status is a generic error; timeout and transport errors are `CannotConnect`; any failure other than on a 200 reply leaves the client unchanged; a 200 reply without `api_token` raises `KeyError` and stores nothing, one with `api_token` but without `instance_id` raises `KeyError` after storing the token; success exactly on 200 with both credential fields, which are then stored |
| `Api.PairAuthenticates` | custom_components/green_energy/api.py:92-96 | after a successful pairing with non-empty string credentials the client is authenticated and sends `Bearer <new token>` |
| `Api.ClassifyReply` | custom_components/green_energy/api.py:132-138 | 200 returns the body, 401 is an `AuthenticationError`, every other status a generic error, a missing response `CannotConnect`; never `InvalidPairingCode` |
| `Api.PostReadings` | custom_components/green_energy/api.py:103-143 | without token or instance id it raises `AuthenticationError` and sends nothing; otherwise it sends the batch with the instance id and succeeds exactly on a 200 reply |
| `Api.GetStatus` | custom_components/green_energy/api.py:145-177 | the same credential check and mapping as posting readings, on a GET carrying the instance id as query parameter |
| `Api.Unpair` | custom_components/green_energy/api.py:179-208 | raises only for missing credentials, 401 and transport failures; any other status returns whether it was 200 |
| `Api.UnauthenticatedSendsNothing` | custom_components/green_energy/api.py:116-117 | without credentials, posting readings, fetching the status and unpairing send no request and their results do not depend on the network (pairing always sends) |
| `Api.TransportFailuresCannotConnect` | custom_components/green_energy/api.py:98-101 | a timeout or transport error becomes `CannotConnect` in all four operations |
| `Coordinator.NewCoordinator` | custom_components/green_energy/coordinator.py:45-59 | a new coordinator's client is built from the configured or default URL and carries the stored token and instance id unchanged; it keeps the given options, has an empty buffer, no task, nothing created or requested, no upload time and a zero counter without date, and is authenticated exactly when both stored credentials are truthy |
| `Coordinator.ConfiguredCredentialsAreSent` | custom_components/green_energy/coordinator.py:48-53 | with truthy stored credentials the coordinator's status query and readings payload carry the stored instance id, and both requests send the stored token as the bearer token |
| `Coordinator.KeepConfigured` | custom_components/green_energy/coordinator.py:85-88 | the kept ids are exactly the set and non-empty options, never more than given |
| `Coordinator.MonitoredEntities` | custom_components/green_energy/coordinator.py:81-89 | the solar, battery and grid ids in that order, each only if set and non-empty, so at most three |
| `Coordinator.StartListeners` | custom_components/green_energy/coordinator.py:124-138 | no subscription when no entity is configured, otherwise one subscription for exactly the monitored entities |
| `Coordinator.StopListeners` | custom_components/green_energy/coordinator.py:140-148 | all subscriptions are dropped, a task that is not done is cancelled (a done task is left alone), afterwards no task is pending, and nothing else changes |
| `Coordinator.ScheduleUpload` | custom_components/green_energy/coordinator.py:177-184 | a task is created only when there is none or it is done; a pending task is kept; afterwards a task is always pending |
| `Coordinator.HandleStateChange` | custom_components/green_energy/coordinator.py:150-175 | a removal notification changes nothing; otherwise exactly one reading is appended, an upload is pending, and a pending task is neither replaced nor duplicated |
| `Coordinator.UploadBegin` | custom_components/green_energy/coordinator.py:192-198 | an empty buffer starts no upload and changes nothing; otherwise the whole buffer becomes the batch and the buffer is left empty |
| `Coordinator.UploadComplete` | custom_components/green_energy/coordinator.py:200-208 | on success the counter grows by exactly the batch size and the upload time is set; on any client error counter and time are unchanged and the buffer is the readings that arrived meanwhile followed by the batch |
| `Coordinator.FlushBuffer` | custom_components/green_energy/coordinator.py:192-208 | flushing an empty buffer is a no-op; a successful flush empties the buffer and counts every reading; a failed one leaves the state as it was |
| `Coordinator.DebounceElapsed` | custom_components/green_energy/coordinator.py:186-208 | when the debounce ends the task takes the entire buffer as its batch and awaits its post; with nothing buffered, or without credentials (the batch then goes straight back), it requests a refresh and finishes at once |
| `Coordinator.TaskPostReturned` | custom_components/green_energy/coordinator.py:186-190 | when the task's post returns the upload completes, exactly one refresh is requested and the task is finished |
| `Coordinator.UnauthenticatedUploadIsImmediate` | custom_components/green_energy/coordinator.py:197-208 | without credentials the task's upload completes when its timer fires, exactly as a failed post would, leaving the buffer and counter as they were |
| `Coordinator.AsUpdateFailed` | custom_components/green_energy/coordinator.py:97-104 | every status error fails the refresh; authentication and connection errors are reported as such, everything else as an API error |
| `Coordinator.FinishRefresh` | custom_components/green_energy/coordinator.py:96-122 | a status error fails the refresh and changes nothing; a success reports connected and synced, resets the counter and its date when the date is not today, and reports the counter |
| `Coordinator.Refresh` | custom_components/green_energy/coordinator.py:91-122 | the flush runs before the status call: on the same day the reported count includes the flushed batch, after a day change it is 0; the buffer is emptied exactly when the flush succeeded |
| `Coordinator.EmptyBufferRefreshSkipsUpload` | custom_components/green_energy/coordinator.py:192-195 | a refresh with an empty buffer makes no upload and its result does not depend on the readings endpoint |
| `Coordinator.UnauthenticatedRefreshFails` | custom_components/green_energy/coordinator.py:91-104 | without credentials a refresh fails with an authentication error and changes nothing, whatever the network and clock |
| `Lifecycle.Start` | custom_components/green_energy/__init__.py:18-33 | set-up runs the first refresh and fails exactly when it fails; after a successful set-up nothing is buffered, no task is pending, the counter is 0 dated today, the first snapshot is recorded, and the listeners cover the monitored entities |
| `Lifecycle.StartEstablishesInvariants` | custom_components/green_energy/__init__.py:20-29 | a successful set-up holds no readings and has created no task, so the conservation and task-numbering invariants start out true |
| `Lifecycle.StepConserves` | custom_components/green_energy/coordinator.py:192-208 | no event loses or duplicates a reading: received = buffered + in flight + uploaded + abandoned, as multisets |
| `Lifecycle.RunConserves` | custom_components/green_energy/coordinator.py:192-208 | the same conservation holds over any sequence of events |
| `Lifecycle.RunReceives` | custom_components/green_energy/coordinator.py:150-170 | the readings received over a run are exactly those built from its non-removal notifications |
| `Lifecycle.StepReceives` | custom_components/green_energy/coordinator.py:156-170 | only a non-removal notification adds a reading, and only unloading abandons any |
| `Lifecycle.PendingTaskIsNeverReplaced` | custom_components/green_energy/coordinator.py:177-184 | while a task is pending no event creates another or changes its identity; the current task is always the last one created |
| `Lifecycle.RunKeepsTasksNumbered` | custom_components/green_energy/coordinator.py:177-184 | over any run the current task is the last one created and the creation count never decreases |
| `Lifecycle.ReachableRunsConserve` | custom_components/green_energy/coordinator.py:150-208 | from a successful set-up, after any events, every reading received is buffered, in flight, uploaded or abandoned exactly once, and there is at most the one most recent task |
| `Lifecycle.PollTickRefreshes` | custom_components/green_energy/coordinator.py:91-122 | with credentials, a poll tick followed by the flush reply (when something was buffered) and the status reply ends in exactly the state and result of the coordinator's refresh |
| `Lifecycle.PollTickWithoutCredentials` | custom_components/green_energy/coordinator.py:91-104 | without credentials a poll tick completes the refresh in one step with the result the coordinator's refresh gives |
| `Lifecycle.BurstBuffersInOrder` | custom_components/green_energy/coordinator.py:150-184 | a burst of notifications appends its readings in arrival order and creates at most one task |
| `Lifecycle.BurstIsOneUpload` | custom_components/green_energy/coordinator.py:177-204 | readings arriving within the debounce window are posted in one upload containing all of them in order, and a successful post counts every one; without credentials they stay buffered |
| `Lifecycle.FailedUploadIsRetried` | custom_components/green_energy/coordinator.py:197-208 | when a post in flight fails, the batch sits behind the readings that arrived meanwhile, counter and upload time unchanged, and the next upload takes it again |

## Left out

- Real HTTP requests, `asyncio.timeout` and JSON decoding: each request's result is a `NetOutcome` parameter whose body is already decoded. A reply whose body is not valid JSON, or is not a JSON object, is not modelled. Its effect in the source: on a 200 reply to a post, `response.json()` (api.py:138) raises `ValueError`, which `except GreenEnergyApiError` (coordinator.py:205) does not catch, so the batch already taken from the buffer (coordinator.py:197-198) is neither put back nor counted; the model never loses a batch that way.
- The 30-second request timeout is represented only by the `Timeout` outcome.
- The host's refresh scheduling (`DataUpdateCoordinator`, the update interval from the scan-interval option, the refresh `Debouncer` with its 5-second cooldown): a refresh request is only counted in `refreshRequests`, and a refresh starts on the `PollTick` event.
- Only one refresh runs at a time; this is assumed of the host rather than derived.
- `await self.async_request_refresh()` (coordinator.py:190) is assumed not to suspend the task: the task is finished in the same step that requests the refresh. The host's `Debouncer` is not part of this model; if the call did suspend, a notification arriving then would find the task not yet done and would not schedule a new one.
- Delivery of notifications by `async_track_state_change_event` (filtering by entity, unsubscribe callbacks): the lifecycle delivers whatever notifications its events carry, and a subscription is recorded as the list of entity ids it covers.
- asyncio task mechanics: cancellation takes effect immediately, and a task cancelled while posting abandons its batch whether or not the server received it.
- Clocks: the upload time, the sync time and today's date are parameters.
- The stored snapshot and the entities that read it (`sensor.py`, `binary_sensor.py`), including the pence-to-pounds division.
- The `instance_id` property, the configuration flow with its input validation, `diagnostics.py`, platform set-up and unload, and logging.
