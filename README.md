# Pinpoint analytics session client, modelled in Dafny

This project models the session state machine of the AWS Pinpoint analytics
plugin, the `SessionClient` class. The client owns one analytics session.
It loads that session from the key-value store at start-up, or holds a fixed
`invalid` sentinel when the store has nothing usable. It starts a session
when asked to, or lazily when `currentSession` is read while the sentinel is
held. It reacts to application-state reports: it pauses, stops, resumes or
replaces the session. On each transition it may write the session record
under one fixed store key, and it creates an event with one of four tags:
`_session.start`, `_session.stop`, `_session.pause`, `_session.resume`.

Files:

- `wrappers.dfy`: `Option`.
- `pinpoint_session.dfy`: the `PinpointSession` value (id, start time,
  optional stop time), with the pause, resume and stop operations the client
  calls, the sentinel and the default-session id.
- `session_logic.dfy`: the client's behaviour as pure functions. They work
  over a `ClientState` snapshot: the session, the store, the list of created
  event tags, and the number of saves and of submission requests. There is
  one function per handler of the source (`StartNewSession`, `SaveSession`,
  `PauseSession`, `ResumeSession`, `EndSession`, `Respond`,
  `StartPinpointSession`, `CurrentSession`). The file also holds the pure
  queries (`RetrieveStoredSession`, `ValidateOrRetrieveSession`,
  `IsSessionExpired`) and `Run`, which replays a sequence of
  application-state reports.
- `session_properties.dfy`: lemmas. They give the outcome of each transition
  and the invariants that hold over any sequence of reports.
- `session_client.dfy`: the `SessionClient` class. Its fields are `session`
  and `store`, plus ghost tallies of created events, saves, submission
  requests, store reads and decodes. Each method changes the fields step by
  step, as the source does. Its postcondition ties the new state to the
  matching `SessionLogic` function. `StartPinpointSession` establishes the
  invariant `Started()`, and `CurrentSession` and `Respond` keep it.

Clock readings (`now`) and the id of a session started by a call (`freshId`)
are parameters. Timestamps and the timeout are integers.

Two behaviours of the code worth knowing:

- Stopping is not terminal for a session instance. `resumeSession` checks
  only `session.isPaused` (SessionClient.swift:150), which this model takes
  to mean that a stop time is set. So a session stopped by termination or by
  a stale background report is resumed by a later foreground report that
  comes within the timeout. `SessionProperties.StoppedSessionResumes` shows
  both cases.
- `startPinpointSession` registers the activity-tracker callback on every
  call, not once per client.

## Model

| member | source | states |
|---|---|---|
| `SessionLogic.RetrieveStoredSession` | AmplifyPlugins/Analytics/AWSPinpointAnalyticsPlugin/Dependency/Pinpoint/Session/SessionClient.swift:102-111 | A stored session comes back exactly when there is data under the session key, it decodes, and its id is not empty. What comes back is that record and has a non-empty id. |
| `SessionLogic.ValidateOrRetrieveSession` | AmplifyPlugins/Analytics/AWSPinpointAnalyticsPlugin/Dependency/Pinpoint/Session/SessionClient.swift:88-100 | Priority order: a candidate with a non-empty id; else the usable stored session; else a placeholder with the default id that starts and stops at `now`. The result never has an empty id. |
| `SessionProperties.CandidateWins` | AmplifyPlugins/Analytics/AWSPinpointAnalyticsPlugin/Dependency/Pinpoint/Session/SessionClient.swift:88-91 | A candidate with a non-empty id is returned unchanged, and the result does not depend on the store. |
| `SessionProperties.ExpiryIsStrict` | AmplifyPlugins/Analytics/AWSPinpointAnalyticsPlugin/Dependency/Pinpoint/Session/SessionClient.swift:186-193 | With no stop time there is no expiry. Otherwise the session has expired iff `now > stopTime + timeout`. Elapsed time equal to the timeout is not expired; one more unit is. |
| `SessionProperties.CurrentSessionLazyStart` | AmplifyPlugins/Analytics/AWSPinpointAnalyticsPlugin/Dependency/Pinpoint/Session/SessionClient.swift:64-69 | Reading while the sentinel is held starts a new session with no stop time, saves it once under the session key and adds one start event. Reading while anything else is held changes nothing. |
| `SessionProperties.StartPinpointSessionOrder` | AmplifyPlugins/Analytics/AWSPinpointAnalyticsPlugin/Dependency/Pinpoint/Session/SessionClient.swift:80-85 | With a real session held: a stop event, then a start event. With the sentinel held: only a start event. Either way the new session is saved exactly once and no submission is requested. |
| `SessionProperties.RespondToBackground` | AmplifyPlugins/Analytics/AWSPinpointAnalyticsPlugin/Dependency/Pinpoint/Session/SessionClient.swift:197-205 | A background report sets the stop time to `now`. If not stale: one save and one pause event. If stale: no save, one stop event and one submission request. |
| `SessionProperties.RespondToTerminated` | AmplifyPlugins/Analytics/AWSPinpointAnalyticsPlugin/Dependency/Pinpoint/Session/SessionClient.swift:208-209 | Termination sets the stop time to `now` and adds one stop event. There is no save and no submission request. |
| `SessionProperties.RespondToForeground` | AmplifyPlugins/Analytics/AWSPinpointAnalyticsPlugin/Dependency/Pinpoint/Session/SessionClient.swift:149-171 | A running session: nothing changes. A paused session within the timeout: the stop time is cleared, one save and one resume event. An expired one: a stop event, then a start event, with exactly one save, of the new session. |
| `SessionProperties.RespondToInitializing` | AmplifyPlugins/Analytics/AWSPinpointAnalyticsPlugin/Dependency/Pinpoint/Session/SessionClient.swift:210-211 | The initializing report leaves session, store, events and tallies unchanged. |
| `SessionProperties.RunInitializingIsNoOp` | AmplifyPlugins/Analytics/AWSPinpointAnalyticsPlugin/Dependency/Pinpoint/Session/SessionClient.swift:195-213 | Any number of initializing reports in a row leave the whole state unchanged. |
| `SessionProperties.RunSubmitsPerStaleReport` | AmplifyPlugins/Analytics/AWSPinpointAnalyticsPlugin/Dependency/Pinpoint/Session/SessionClient.swift:197-202 | Over any sequence of reports, exactly one submission is requested per stale-background report. |
| `SessionProperties.RunTouchesOnlySessionKey` | AmplifyPlugins/Analytics/AWSPinpointAnalyticsPlugin/Dependency/Pinpoint/Session/SessionClient.swift:128-135 | Over any sequence of reports, every store key except the session key keeps its contents. |
| `SessionProperties.RunOnlyAppendsSessionEvents` | AmplifyPlugins/Analytics/AWSPinpointAnalyticsPlugin/Dependency/Pinpoint/Session/SessionClient.swift:224-229 | Over any sequence of reports, earlier events are kept as a prefix, and every added event carries one of the four tags. |
| `SessionProperties.StartEstablishesConsistent` | AmplifyPlugins/Analytics/AWSPinpointAnalyticsPlugin/Dependency/Pinpoint/Session/SessionClient.swift:80-85 | From any state, starting a session establishes the invariant `Consistent`, and a `currentSession` read keeps it. `Consistent` says: the last event is start or resume iff the session is running; the store holds a record of the same session (same id and start time); that record equals the session while it runs. |
| `SessionProperties.RespondKeepsConsistent` | AmplifyPlugins/Analytics/AWSPinpointAnalyticsPlugin/Dependency/Pinpoint/Session/SessionClient.swift:195-213 | Every reaction keeps `Consistent`: a stop is never persisted, so the store still holds the last resumable record of the session. |
| `SessionProperties.RunKeepsConsistent` | AmplifyPlugins/Analytics/AWSPinpointAnalyticsPlugin/Dependency/Pinpoint/Session/SessionClient.swift:195-213 | Any sequence of reports keeps `Consistent`. |
| `SessionProperties.RunNeverReturnsToSentinel` | AmplifyPlugins/Analytics/AWSPinpointAnalyticsPlugin/Dependency/Pinpoint/Session/SessionClient.swift:64-69 | Suppose the held session and every new session have an id that is neither empty nor the sentinel's. Then so does the held session after any sequence of reports, and a `currentSession` read then changes nothing. |
| `SessionProperties.StoppedSessionResumes` | AmplifyPlugins/Analytics/AWSPinpointAnalyticsPlugin/Dependency/Pinpoint/Session/SessionClient.swift:149-162 | Termination, or a stale background report, followed by a foreground report within the timeout resumes the stopped session. The events are stop then resume, and the session is back as it was. |
| `SessionProperties.ConsistentStoreRecovers` | AmplifyPlugins/Analytics/AWSPinpointAnalyticsPlugin/Dependency/Pinpoint/Session/SessionClient.swift:61 | In a `Consistent` state with a non-empty session id, reading the store back (as a new client does at start-up) yields a session with the same id and start time, even after a stop, because a stop is never persisted. |
| `SessionClients.SessionClient.constructor` | AmplifyPlugins/Analytics/AWSPinpointAnalyticsPlugin/Dependency/Pinpoint/Session/SessionClient.swift:49-62 | Holds exactly the usable stored session, or the sentinel. Reads the store once and decodes only when data is present. No events, saves or submission requests. |
| `SessionClients.SessionClient.CurrentSession` | AmplifyPlugins/Analytics/AWSPinpointAnalyticsPlugin/Dependency/Pinpoint/Session/SessionClient.swift:64-69 | The new state is `SessionLogic.CurrentSession` of the old one, and the held session is returned. The invariant is kept. |
| `SessionClients.SessionClient.StartPinpointSession` | AmplifyPlugins/Analytics/AWSPinpointAnalyticsPlugin/Dependency/Pinpoint/Session/SessionClient.swift:71-86 | The new state is `SessionLogic.StartPinpointSession` of the old one, and the invariant holds afterwards. |
| `SessionClients.SessionClient.ValidateOrRetrieveSession` | AmplifyPlugins/Analytics/AWSPinpointAnalyticsPlugin/Dependency/Pinpoint/Session/SessionClient.swift:88-100 | Returns `SessionLogic.ValidateOrRetrieveSession`. The store is read 0 times when the candidate wins, else once. Decoding happens only when data is present. Only the read tallies change. |
| `SessionClients.SessionClient.RetrieveStoredSession` | AmplifyPlugins/Analytics/AWSPinpointAnalyticsPlugin/Dependency/Pinpoint/Session/SessionClient.swift:102-111 | Returns `SessionLogic.RetrieveStoredSession` of the store, with one read and a decode only if data is present. |
| `SessionClients.SessionClient.StartNewSession` | AmplifyPlugins/Analytics/AWSPinpointAnalyticsPlugin/Dependency/Pinpoint/Session/SessionClient.swift:113-126 | The new state is `SessionLogic.StartNewSession`: a fresh session, saved, and a start event. |
| `SessionClients.SessionClient.SaveSession` | AmplifyPlugins/Analytics/AWSPinpointAnalyticsPlugin/Dependency/Pinpoint/Session/SessionClient.swift:128-135 | Writes the session under the session key and counts one save. |
| `SessionClients.SessionClient.PauseSession` | AmplifyPlugins/Analytics/AWSPinpointAnalyticsPlugin/Dependency/Pinpoint/Session/SessionClient.swift:137-147 | The new state is `SessionLogic.PauseSession`. |
| `SessionClients.SessionClient.ResumeSession` | AmplifyPlugins/Analytics/AWSPinpointAnalyticsPlugin/Dependency/Pinpoint/Session/SessionClient.swift:149-171 | The new state is `SessionLogic.ResumeSession`, with the configured timeout. |
| `SessionClients.SessionClient.EndSession` | AmplifyPlugins/Analytics/AWSPinpointAnalyticsPlugin/Dependency/Pinpoint/Session/SessionClient.swift:173-184 | The new state is `SessionLogic.EndSession`: stopped, a stop event, nothing saved. |
| `SessionClients.SessionClient.Respond` | AmplifyPlugins/Analytics/AWSPinpointAnalyticsPlugin/Dependency/Pinpoint/Session/SessionClient.swift:195-213 | The new state is `SessionLogic.Respond` with the configured timeout, and the invariant is kept. |

## Left out

- Concurrency: the concurrent dispatch queue and its barrier blocks. Every transition is a serial method call.
- Asynchronous tasks that record events, update the endpoint profile and submit events. An event is counted when it is created, and a submission when it is requested. The order in which the analytics sink sees them is not modelled.
- Registering with the activity tracker, the weak-self callback, and logging. `Respond` is a method that can be called directly.
- The archiver and the real store. A stored value either decodes to a session or does not. Encoding never fails: on failure, `saveSession` only logs.
- `PinpointSession.swift` is not part of this model. Session ids come from the `freshId` parameter, and the `appId` / `uniqueDeviceId` configuration that feeds them is left out. The value of `PinpointSession.Constants.defaultSessionId` is fixed here as `"00000000-00000000"`; the code relies only on it being a fixed, non-empty id. The session is modelled as a value, so the sentinel cannot be mutated through a held reference.
- PinpointSession's `isPaused`, `pause()` and `stop()` are not shown. The model assumes `isPaused` means a stop time is set, and that `pause`/`stop` always set the stop time to `now`. If `stop()` kept an existing stop time, a foreground report after a pause and then a stale background would measure expiry from the earlier time.
- The sentinel's start time is the time it was first created (a constructor parameter).
- Dates and time intervals are floating point in the source. Here they are integers.
