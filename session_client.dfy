/**
 * The session client as an object: it owns the current session, reads and
 * writes the session record in the key-value store, and creates lifecycle
 * events. Every transition is a method whose postcondition ties the new state
 * to the matching function of SessionLogic; the properties of those
 * functions are in SessionProperties.
 */
module SessionClients {
  import opened Wrappers
  import opened PinpointSessions
  import opened SessionLogic
  import SessionProperties

  class SessionClient {
    /** The owned session. */
    var session: PinpointSession
    /** The key-value store, of which the client uses only the session key. */
    var store: Store
    /** The configured session timeout. */
    const sessionTimeout: int
    /** The sentinel held while no real session exists. */
    const invalid: PinpointSession

    /** The event tags created so far, in order of creation. */
    ghost var events: seq<string>
    /** How many times the session record has been written. */
    ghost var saves: nat
    /** How many event submissions have been requested. */
    ghost var submits: nat
    /** How many times the session key has been read from the store. */
    ghost var storeReads: nat
    /** How many times a stored record has been handed to the decoder. */
    ghost var decodes: nat

    ghost function State(): ClientState
      reads this
    {
      ClientState(session, store, events, saves, submits)
    }

    /**
     * A session has been started and the state is consistent with it; this
     * is established by StartPinpointSession, not by the constructor.
     */
    ghost predicate Started()
      reads this
    {
      SessionProperties.Consistent(State())
    }

    /**
     * Takes the stored session when the store holds a usable one, and the
     * sentinel otherwise.
     */
    constructor (timeout: int, initialStore: Store, sentinelCreatedAt: int)
      ensures sessionTimeout == timeout && invalid == Invalid(sentinelCreatedAt)
      ensures session == (match SessionLogic.RetrieveStoredSession(initialStore)
                          case Some(stored) => stored
                          case None => invalid)
      ensures store == initialStore
      ensures events == [] && saves == 0 && submits == 0
      ensures storeReads == 1 && decodes == (if SessionKey in initialStore then 1 else 0)
    {
      sessionTimeout := timeout;
      invalid := Invalid(sentinelCreatedAt);
      store := initialStore;
      var stored := SessionLogic.RetrieveStoredSession(initialStore);
      session := if stored.Some? then stored.value else Invalid(sentinelCreatedAt);
      events, saves, submits := [], 0, 0;
      storeReads := 1;
      decodes := if SessionKey in initialStore then 1 else 0;
    }

    /** Reads the current session, starting one first while the sentinel is held. */
    method CurrentSession(now: int, freshId: string) returns (current: PinpointSession)
      modifies this
      ensures State() == SessionLogic.CurrentSession(old(State()), invalid, now, freshId)
      ensures current == session
      ensures storeReads == old(storeReads) && decodes == old(decodes)
      ensures old(Started()) ==> Started()
    {
      if session == invalid {
        StartNewSession(now, freshId);
      }
      current := session;
      SessionProperties.StartEstablishesConsistent(old(State()), invalid, now, freshId);
    }

    /** Ends the held session unless it is the sentinel, then starts a new one. */
    method StartPinpointSession(now: int, freshId: string)
      modifies this
      ensures State() == SessionLogic.StartPinpointSession(old(State()), invalid, now, freshId)
      ensures storeReads == old(storeReads) && decodes == old(decodes)
      ensures Started()
    {
      if session != invalid {
        EndSession(now);
      }
      StartNewSession(now, freshId);
      SessionProperties.StartEstablishesConsistent(old(State()), invalid, now, freshId);
    }

    /**
     * The best-known session, leaving the owned session, the store and the
     * events alone; the store is read only when the candidate has no
     * identifier, and a record is decoded only when one is present.
     */
    method ValidateOrRetrieveSession(candidate: Option<PinpointSession>, now: int) returns (r: PinpointSession)
      modifies this`storeReads, this`decodes
      ensures r == SessionLogic.ValidateOrRetrieveSession(candidate, store, now)
      ensures var candidateWins := candidate.Some? && candidate.value.sessionId != "";
        && storeReads == old(storeReads) + (if candidateWins then 0 else 1)
        && decodes == old(decodes) + (if !candidateWins && SessionKey in store then 1 else 0)
    {
      if candidate.Some? && candidate.value.sessionId != "" {
        return candidate.value;
      }
      var stored := RetrieveStoredSession();
      if stored.Some? {
        return stored.value;
      }
      r := PinpointSession(DefaultSessionId, now, Some(now));
    }

    /** Reads the session key and decodes what is there. */
    method RetrieveStoredSession() returns (stored: Option<PinpointSession>)
      modifies this`storeReads, this`decodes
      ensures stored == SessionLogic.RetrieveStoredSession(store)
      ensures storeReads == old(storeReads) + 1
      ensures decodes == old(decodes) + (if SessionKey in store then 1 else 0)
    {
      storeReads := storeReads + 1;
      if SessionKey !in store {
        return None;
      }
      decodes := decodes + 1;
      match store[SessionKey]
      case Encoded(s) =>
        stored := if s.sessionId != "" then Some(s) else None;
      case Undecodable(_) =>
        stored := None;
    }

    method StartNewSession(now: int, freshId: string)
      modifies this
      ensures State() == SessionLogic.StartNewSession(old(State()), now, freshId)
      ensures storeReads == old(storeReads) && decodes == old(decodes)
    {
      session := NewSession(freshId, now);
      SaveSession();
      events := events + [StartEvent];
    }

    method SaveSession()
      modifies this
      ensures State() == SessionLogic.SaveSession(old(State()))
      ensures storeReads == old(storeReads) && decodes == old(decodes)
    {
      store := store[SessionKey := Encoded(session)];
      saves := saves + 1;
    }

    method PauseSession(now: int)
      modifies this
      ensures State() == SessionLogic.PauseSession(old(State()), now)
      ensures storeReads == old(storeReads) && decodes == old(decodes)
    {
      session := session.Pause(now);
      SaveSession();
      events := events + [PauseEvent];
    }

    method ResumeSession(now: int, freshId: string)
      modifies this
      ensures State() == SessionLogic.ResumeSession(old(State()), now, freshId, sessionTimeout)
      ensures storeReads == old(storeReads) && decodes == old(decodes)
    {
      if !session.IsPaused() {
        return;
      }
      if IsSessionExpired(session, now, sessionTimeout) {
        EndSession(now);
        StartNewSession(now, freshId);
        return;
      }
      session := session.Resume();
      SaveSession();
      events := events + [ResumeEvent];
    }

    method EndSession(now: int)
      modifies this
      ensures State() == SessionLogic.EndSession(old(State()), now)
      ensures storeReads == old(storeReads) && decodes == old(decodes)
    {
      session := session.Stop(now);
      events := events + [StopEvent];
    }

    /** Reacts to one application state reported by the activity tracker. */
    method Respond(state: AppState, now: int, freshId: string)
      modifies this
      ensures State() == SessionLogic.Respond(old(State()), state, now, freshId, sessionTimeout)
      ensures storeReads == old(storeReads) && decodes == old(decodes)
      ensures old(Started()) ==> Started()
    {
      match state {
        case Background(isStale) =>
          if isStale {
            EndSession(now);
            submits := submits + 1;
          } else {
            PauseSession(now);
          }
        case Foreground =>
          ResumeSession(now, freshId);
        case Terminated =>
          EndSession(now);
        case Initializing =>
      }
      if old(Started()) {
        SessionProperties.RespondKeepsConsistent(old(State()), state, now, freshId, sessionTimeout);
      }
    }
  }
}
