/**
 * What the session client promises, stated as lemmas about the functions in
 * SessionLogic: the outcome of each transition (which event tags, in which
 * order, whether the store is written), and invariants that hold over any
 * sequence of application-state reports.
 */
module SessionProperties {
  import opened Wrappers
  import opened PinpointSessions
  import opened SessionLogic

  /** Expiry is a strict comparison: elapsed time equal to the timeout has not expired. */
  lemma ExpiryIsStrict(session: PinpointSession, now: int, timeout: int)
    ensures session.stopTime.None? ==> !IsSessionExpired(session, now, timeout)
    ensures session.stopTime.Some? ==>
      (IsSessionExpired(session, now, timeout) <==> now > session.stopTime.value + timeout)
    ensures session.stopTime.Some? ==>
      !IsSessionExpired(session, session.stopTime.value + timeout, timeout) &&
      IsSessionExpired(session, session.stopTime.value + timeout + 1, timeout)
  {
  }

  /** A non-empty candidate is returned unchanged whatever the store holds. */
  lemma CandidateWins(candidate: PinpointSession, store: Store, other: Store, now: int)
    requires candidate.sessionId != ""
    ensures ValidateOrRetrieveSession(Some(candidate), store, now) == candidate
    ensures ValidateOrRetrieveSession(Some(candidate), store, now)
         == ValidateOrRetrieveSession(Some(candidate), other, now)
  {
  }

  /** Reading `currentSession` starts a session only when the sentinel is held. */
  lemma CurrentSessionLazyStart(c: ClientState, invalid: PinpointSession, now: int, freshId: string)
    ensures var r := CurrentSession(c, invalid, now, freshId);
      if c.session == invalid then
        && r.session == NewSession(freshId, now)
        && !r.session.IsPaused()
        && r.store == c.store[SessionKey := Encoded(r.session)]
        && r.saves == c.saves + 1
        && r.events == c.events + [StartEvent]
        && r.submits == c.submits
      else
        r == c
  {
  }

  /**
   * Starting a session while a real one is held creates a stop event and then a
   * start event; while the sentinel is held only the start event. Either way
   * the new session is saved exactly once.
   */
  lemma StartPinpointSessionOrder(c: ClientState, invalid: PinpointSession, now: int, freshId: string)
    ensures var r := StartPinpointSession(c, invalid, now, freshId);
      && r.session == NewSession(freshId, now)
      && r.store == c.store[SessionKey := Encoded(r.session)]
      && r.saves == c.saves + 1
      && r.submits == c.submits
      && r.events == c.events + (if c.session != invalid then [StopEvent, StartEvent] else [StartEvent])
  {
  }

  /**
   * Going to the background pauses the session (saved, pause event) unless
   * the report is stale, in which case the session is stopped (not saved,
   * stop event) and one submission is requested.
   */
  lemma RespondToBackground(c: ClientState, isStale: bool, now: int, freshId: string, timeout: int)
    ensures var r := Respond(c, Background(isStale), now, freshId, timeout);
      && r.session == c.session.(stopTime := Some(now))
      && (if isStale then
            && r.store == c.store && r.saves == c.saves
            && r.events == c.events + [StopEvent]
            && r.submits == c.submits + 1
          else
            && r.store == c.store[SessionKey := Encoded(r.session)] && r.saves == c.saves + 1
            && r.events == c.events + [PauseEvent]
            && r.submits == c.submits)
  {
  }

  /** Termination stops the session: stop event, no save, no submission. */
  lemma RespondToTerminated(c: ClientState, now: int, freshId: string, timeout: int)
    ensures var r := Respond(c, Terminated, now, freshId, timeout);
      && r.session == c.session.(stopTime := Some(now))
      && r.store == c.store && r.saves == c.saves
      && r.events == c.events + [StopEvent]
      && r.submits == c.submits
  {
  }

  /**
   * Coming to the foreground does nothing to a running session, resumes a
   * paused one that has not expired (saved, resume event), and replaces an
   * expired one: stop event, then start event, one save for the new session.
   */
  lemma RespondToForeground(c: ClientState, now: int, freshId: string, timeout: int)
    ensures var r := Respond(c, Foreground, now, freshId, timeout);
      if c.session.stopTime.None? then
        r == c
      else if now - c.session.stopTime.value <= timeout then
        && r.session == c.session.(stopTime := None)
        && r.store == c.store[SessionKey := Encoded(r.session)] && r.saves == c.saves + 1
        && r.events == c.events + [ResumeEvent]
        && r.submits == c.submits
      else
        && r.session == NewSession(freshId, now)
        && r.store == c.store[SessionKey := Encoded(r.session)] && r.saves == c.saves + 1
        && r.events == c.events + [StopEvent, StartEvent]
        && r.submits == c.submits
  {
  }

  /** The initializing report changes nothing. */
  lemma RespondToInitializing(c: ClientState, now: int, freshId: string, timeout: int)
    ensures Respond(c, Initializing, now, freshId, timeout) == c
  {
  }

  /** However many initializing reports arrive, nothing changes. */
  lemma {:induction false} RunInitializingIsNoOp(c: ClientState, signals: seq<Signal>, timeout: int)
    requires forall i :: 0 <= i < |signals| ==> signals[i].state == Initializing
    ensures Run(c, signals, timeout) == c
    decreases |signals|
  {
    if signals != [] {
      RunInitializingIsNoOp(c, signals[1..], timeout);
    }
  }

  /** Exactly one submission is requested per stale-background report. */
  lemma {:induction false} RunSubmitsPerStaleReport(c: ClientState, signals: seq<Signal>, timeout: int)
    ensures Run(c, signals, timeout).submits == c.submits + StaleCount(signals)
    decreases |signals|
  {
    if signals != [] {
      var s := signals[0];
      RunSubmitsPerStaleReport(Respond(c, s.state, s.now, s.freshId, timeout), signals[1..], timeout);
    }
  }

  /** The client writes nothing under any key but the session key. */
  lemma {:induction false} RunTouchesOnlySessionKey(c: ClientState, signals: seq<Signal>, timeout: int)
    ensures Run(c, signals, timeout).store - {SessionKey} == c.store - {SessionKey}
    decreases |signals|
  {
    if signals != [] {
      var s := signals[0];
      var next := Respond(c, s.state, s.now, s.freshId, timeout);
      assert next.store - {SessionKey} == c.store - {SessionKey};
      RunTouchesOnlySessionKey(next, signals[1..], timeout);
    }
  }

  /** Events are only ever appended, and each appended one is one of the four tags. */
  lemma {:induction false} RunOnlyAppendsSessionEvents(c: ClientState, signals: seq<Signal>, timeout: int)
    ensures var r := Run(c, signals, timeout);
      && c.events <= r.events
      && forall i :: |c.events| <= i < |r.events| ==> IsSessionEvent(r.events[i])
    decreases |signals|
  {
    if signals != [] {
      var s := signals[0];
      var next := Respond(c, s.state, s.now, s.freshId, timeout);
      RunOnlyAppendsSessionEvents(next, signals[1..], timeout);
    }
  }

  /**
   * Once a session has been started: the last event tag is a start or a
   * resume exactly when the session is running, and the store holds a record
   * of the same session (the same record while it is running).
   */
  ghost predicate Consistent(c: ClientState) {
    && |c.events| > 0
    && (c.session.stopTime.None? <==>
          (c.events[|c.events| - 1] == StartEvent || c.events[|c.events| - 1] == ResumeEvent))
    && SessionKey in c.store
    && c.store[SessionKey].Encoded?
    && c.store[SessionKey].session.sessionId == c.session.sessionId
    && c.store[SessionKey].session.startTime == c.session.startTime
    && (c.session.stopTime.None? ==> c.store[SessionKey].session == c.session)
  }

  /** Starting a session establishes the invariant from any state. */
  lemma StartEstablishesConsistent(c: ClientState, invalid: PinpointSession, now: int, freshId: string)
    ensures Consistent(StartPinpointSession(c, invalid, now, freshId))
    ensures Consistent(c) ==> Consistent(CurrentSession(c, invalid, now, freshId))
  {
  }

  /** Every reaction keeps the invariant. */
  lemma RespondKeepsConsistent(c: ClientState, state: AppState, now: int, freshId: string, timeout: int)
    requires Consistent(c)
    ensures Consistent(Respond(c, state, now, freshId, timeout))
  {
  }

  /** Any sequence of reports keeps the invariant. */
  lemma {:induction false} RunKeepsConsistent(c: ClientState, signals: seq<Signal>, timeout: int)
    requires Consistent(c)
    ensures Consistent(Run(c, signals, timeout))
    decreases |signals|
  {
    if signals != [] {
      var s := signals[0];
      RespondKeepsConsistent(c, s.state, s.now, s.freshId, timeout);
      RunKeepsConsistent(Respond(c, s.state, s.now, s.freshId, timeout), signals[1..], timeout);
    }
  }

  /** An identifier a real session can carry: neither empty nor the sentinel's. */
  predicate Genuine(id: string) {
    id != "" && id != InvalidId
  }

  /**
   * When every new session gets a genuine identifier, the held session keeps
   * one through any sequence of reports; so, once a session has been
   * started, reading `currentSession` never starts another.
   */
  lemma {:induction false} RunNeverReturnsToSentinel(c: ClientState, signals: seq<Signal>, timeout: int, createdAt: int, now: int, freshId: string)
    requires Genuine(c.session.sessionId)
    requires forall i :: 0 <= i < |signals| ==> Genuine(signals[i].freshId)
    ensures Genuine(Run(c, signals, timeout).session.sessionId)
    ensures CurrentSession(Run(c, signals, timeout), Invalid(createdAt), now, freshId) == Run(c, signals, timeout)
    decreases |signals|
  {
    if signals != [] {
      var s := signals[0];
      RunNeverReturnsToSentinel(Respond(c, s.state, s.now, s.freshId, timeout), signals[1..], timeout, createdAt, now, freshId);
    }
  }

  /**
   * A stopped session is not told apart from a paused one: after termination
   * or a stale background report, coming back to the foreground before the
   * timeout resumes the stopped session instead of starting a new one.
   */
  lemma StoppedSessionResumes(c: ClientState, stoppedAt: int, now: int, freshId: string, timeout: int)
    requires c.session.stopTime.None?
    requires stoppedAt <= now <= stoppedAt + timeout
    ensures var stopped := Respond(c, Terminated, stoppedAt, freshId, timeout);
      var r := Respond(stopped, Foreground, now, freshId, timeout);
      && r.session == c.session
      && r.events == c.events + [StopEvent, ResumeEvent]
    ensures var stopped := Respond(c, Background(true), stoppedAt, freshId, timeout);
      var r := Respond(stopped, Foreground, now, freshId, timeout);
      && r.session == c.session
      && r.events == c.events + [StopEvent, ResumeEvent]
  {
  }

  /**
   * The store of a consistent state names the held session: a client built
   * from it (after a crash, say) recovers the same session id and start
   * time, even when the session was stopped, since a stop is never saved.
   */
  lemma ConsistentStoreRecovers(c: ClientState)
    requires Consistent(c)
    requires c.session.sessionId != ""
    ensures RetrieveStoredSession(c.store).Some?
    ensures RetrieveStoredSession(c.store).value.sessionId == c.session.sessionId
    ensures RetrieveStoredSession(c.store).value.startTime == c.session.startTime
  {
  }
}
