/**
 * The session value that the client owns: an identifier, a start time and an
 * optional stop time. Only the operations the client calls are modelled:
 * pause and stop record the current time, resume clears it, and a session is
 * "paused" exactly when a stop time is present.
 */
module PinpointSessions {
  import opened Wrappers

  datatype PinpointSession = PinpointSession(sessionId: string, startTime: int, stopTime: Option<int>)
  {
    /** True once the session has been paused or stopped. */
    predicate IsPaused() {
      stopTime.Some?
    }

    function Pause(now: int): PinpointSession {
      this.(stopTime := Some(now))
    }

    function Resume(): PinpointSession {
      this.(stopTime := None)
    }

    function Stop(now: int): PinpointSession {
      this.(stopTime := Some(now))
    }
  }

  /** The identifier of the session the client holds before any real session exists. */
  const InvalidId: string := "InvalidId"

  /** The identifier given to the placeholder that `validateOrRetrieveSession` builds. */
  const DefaultSessionId: string := "00000000-00000000"

  /** The sentinel session: fixed identifier, the time it was first created, no stop time. */
  function Invalid(createdAt: int): PinpointSession {
    PinpointSession(InvalidId, createdAt, None)
  }

  /** A session freshly created by `PinpointSession(appId:uniqueId:)`. */
  function NewSession(id: string, now: int): PinpointSession {
    PinpointSession(id, now, None)
  }
}
