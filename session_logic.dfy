/**
 * The session client's behaviour as pure functions over a snapshot of
 * everything the client can change or cause: the owned session, the
 * key-value store it persists into, the event tags it has created, and how
 * many saves and event submissions it has requested. Each handler of the
 * client (start, save, pause, resume, end, respond) has one function here;
 * the class in SessionClients is proved to follow them.
 */
module SessionLogic {
  import opened Wrappers
  import opened PinpointSessions

  /** The single store key under which the session record is kept. */
  const SessionKey: string := "com.amazonaws.AWSPinpointSessionKey"

  /** The four event types the client creates. */
  const StartEvent: string := "_session.start"
  const StopEvent: string := "_session.stop"
  const PauseEvent: string := "_session.pause"
  const ResumeEvent: string := "_session.resume"

  predicate IsSessionEvent(tag: string) {
    tag == StartEvent || tag == StopEvent || tag == PauseEvent || tag == ResumeEvent
  }

  /**
   * A value held by the key-value store. The codec is opaque: a value either
   * decodes to a session (everything the client itself writes does) or it
   * does not.
   */
  datatype StoredRecord = Encoded(session: PinpointSession) | Undecodable(bytes: seq<bv8>)

  type Store = map<string, StoredRecord>

  /** The application states the activity tracker reports. */
  datatype AppState = Initializing | Foreground | Background(isStale: bool) | Terminated

  /** Everything the client changes or causes. */
  datatype ClientState = ClientState(
    session: PinpointSession,
    store: Store,
    events: seq<string>,
    saves: nat,
    submits: nat)

  /**
   * The session kept in the store, if there is data under the session key,
   * it decodes, and its identifier is not empty.
   */
  function RetrieveStoredSession(store: Store): (r: Option<PinpointSession>)
    ensures r.Some? <==>
      SessionKey in store && store[SessionKey].Encoded? && store[SessionKey].session.sessionId != ""
    ensures r.Some? ==> r.value.sessionId != "" && store[SessionKey] == Encoded(r.value)
  {
    if SessionKey in store then
      match store[SessionKey]
      case Encoded(s) => if s.sessionId != "" then Some(s) else None
      case Undecodable(_) => None
    else
      None
  }

  /**
   * The best-known session: the candidate when it has an identifier, else
   * the stored session, else a placeholder with the default identifier that
   * starts and stops at `now`.
   */
  function ValidateOrRetrieveSession(candidate: Option<PinpointSession>, store: Store, now: int): (r: PinpointSession)
    ensures candidate.Some? && candidate.value.sessionId != "" ==> r == candidate.value
    ensures !(candidate.Some? && candidate.value.sessionId != "") ==>
      if SessionKey in store && store[SessionKey].Encoded? && store[SessionKey].session.sessionId != ""
      then r == store[SessionKey].session
      else r.sessionId == DefaultSessionId && r.startTime == now && r.stopTime == Some(now)
    ensures r.sessionId != ""
  {
    if candidate.Some? && candidate.value.sessionId != "" then
      candidate.value
    else
      match RetrieveStoredSession(store)
      case Some(s) => s
      case None => PinpointSession(DefaultSessionId, now, Some(now))
  }

  /**
   * A session has expired when it carries a stop time and strictly more than
   * `timeout` has elapsed since it.
   */
  predicate IsSessionExpired(session: PinpointSession, now: int, timeout: int) {
    match session.stopTime
    case None => false
    case Some(stopTime) => now - stopTime > timeout
  }

  /** Writes the owned session under the session key. */
  function SaveSession(c: ClientState): ClientState {
    c.(store := c.store[SessionKey := Encoded(c.session)], saves := c.saves + 1)
  }

  /** Replaces the session with a fresh one, saves it and creates a start event. */
  function StartNewSession(c: ClientState, now: int, freshId: string): ClientState {
    var saved := SaveSession(c.(session := NewSession(freshId, now)));
    saved.(events := saved.events + [StartEvent])
  }

  /** Pauses the session, saves it and creates a pause event. */
  function PauseSession(c: ClientState, now: int): ClientState {
    var saved := SaveSession(c.(session := c.session.Pause(now)));
    saved.(events := saved.events + [PauseEvent])
  }

  /** Stops the session and creates a stop event; nothing is saved. */
  function EndSession(c: ClientState, now: int): ClientState {
    c.(session := c.session.Stop(now), events := c.events + [StopEvent])
  }

  /**
   * Does nothing to a session that is not paused; replaces an expired one
   * (stop, then start); otherwise resumes it, saves it and creates a resume
   * event.
   */
  function ResumeSession(c: ClientState, now: int, freshId: string, timeout: int): ClientState {
    if !c.session.IsPaused() then
      c
    else if IsSessionExpired(c.session, now, timeout) then
      StartNewSession(EndSession(c, now), now, freshId)
    else
      var saved := SaveSession(c.(session := c.session.Resume()));
      saved.(events := saved.events + [ResumeEvent])
  }

  /** The reaction to one application state reported by the activity tracker. */
  function Respond(c: ClientState, state: AppState, now: int, freshId: string, timeout: int): ClientState {
    match state
    case Background(isStale) =>
      if isStale then
        var ended := EndSession(c, now);
        ended.(submits := ended.submits + 1)
      else
        PauseSession(c, now)
    case Foreground => ResumeSession(c, now, freshId, timeout)
    case Terminated => EndSession(c, now)
    case Initializing => c
  }

  /** Ends the held session unless it is the sentinel, then starts a new one. */
  function StartPinpointSession(c: ClientState, invalid: PinpointSession, now: int, freshId: string): ClientState {
    var prepared := if c.session != invalid then EndSession(c, now) else c;
    StartNewSession(prepared, now, freshId)
  }

  /** The state after reading `currentSession`: a session is started only while the sentinel is held. */
  function CurrentSession(c: ClientState, invalid: PinpointSession, now: int, freshId: string): ClientState {
    if c.session == invalid then StartNewSession(c, now, freshId) else c
  }

  /**
   * One report from the activity tracker, with the clock reading at that
   * moment and the identifier a session started in response would get.
   */
  datatype Signal = Signal(state: AppState, now: int, freshId: string)

  /** The state after the client has responded to each signal in turn. */
  function Run(c: ClientState, signals: seq<Signal>, timeout: int): ClientState
    decreases |signals|
  {
    if signals == [] then
      c
    else
      var s := signals[0];
      Run(Respond(c, s.state, s.now, s.freshId, timeout), signals[1..], timeout)
  }

  /** How many of the signals report a stale background. */
  function StaleCount(signals: seq<Signal>): nat
    decreases |signals|
  {
    if signals == [] then 0
    else (if signals[0].state == Background(true) then 1 else 0) + StaleCount(signals[1..])
  }
}
