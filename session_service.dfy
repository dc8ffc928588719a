/** `SessionService` of src/api/services/session_service.py: the in-memory map
    from session id to `Session`. Fresh ids and the clock are parameters. */
module Sessions {
  import opened Wrappers
  import opened SessionModels

  /** A session whose last activity falls strictly before the cutoff is stale. */
  predicate IsStale(s: Session, cutoff: int)
    reads s
  {
    s.lastActivity < cutoff
  }

  /** `now - timedelta(hours=timeoutHours)` in seconds. */
  function Cutoff(now: int, timeoutHours: int): int {
    now - timeoutHours * 3600
  }

  /** The sessions a purge at `cutoff` keeps: exactly the ones last active at or after it. */
  function LiveSessions(sessions: map<string, Session>, cutoff: int): (live: map<string, Session>)
    reads sessions.Values
    ensures live.Keys <= sessions.Keys
    ensures forall sid :: sid in live <==> sid in sessions && !IsStale(sessions[sid], cutoff)
    ensures forall sid :: sid in live ==> live[sid] == sessions[sid]
  {
    map sid | sid in sessions && !IsStale(sessions[sid], cutoff) :: sessions[sid]
  }

  /** No two ids share a session object, so no two sessions share a history: a turn that
      writes the session under one id is seen under that id alone. */
  predicate DistinctSessions(sessions: map<string, Session>) {
    forall a, b :: a in sessions && b in sessions && a != b ==> sessions[a] != sessions[b]
  }

  /** Storing an object no other id holds keeps the sessions distinct. */
  lemma DistinctAfterStore(sessions: map<string, Session>, id: string, s: Session)
    requires DistinctSessions(sessions)
    requires forall k :: k in sessions && k != id ==> sessions[k] != s
    ensures DistinctSessions(sessions[id := s])
  {
  }

  /** A purge keeps the sessions distinct. */
  lemma DistinctAfterPurge(sessions: map<string, Session>, cutoff: int)
    requires DistinctSessions(sessions)
    ensures DistinctSessions(LiveSessions(sessions, cutoff))
  {
  }

  class SessionService {
    var sessions: map<string, Session>

    constructor ()
      ensures sessions == map[] && DistinctSessions(sessions)
    {
      sessions := map[];
    }

    /** Whether `sessionId` names a stored session (`None` and `""` never do). */
    predicate Known(sessionId: Option<string>)
      reads this
    {
      sessionId.Some? && sessionId.value != "" && sessionId.value in sessions
    }

    /** `get_or_create`: a known id gives back the same id and object and refreshes its
        activity; anything else stores a new default session under the fresh id. */
    method GetOrCreate(sessionId: Option<string>, freshId: string, now: int)
      returns (id: string, session: Session)
      requires DistinctSessions(sessions)
      modifies this, if Known(sessionId) then {sessions[sessionId.value]} else {}
      ensures DistinctSessions(sessions)
      ensures old(Known(sessionId)) ==>
        id == sessionId.value && session == old(sessions[sessionId.value])
        && sessions == old(sessions)
        && session.lastActivity == now
        && session.history == old(session.history) && session.travelIndent == old(session.travelIndent)
        && session.createdAt == old(session.createdAt)
      ensures !old(Known(sessionId)) ==>
        id == freshId && fresh(session)
        && sessions == old(sessions)[freshId := session]
        && session.history == [SystemMessage(HrBookingPrompt)]
        && session.createdAt == now && session.lastActivity == now
        && session.travelIndent == None
    {
      if Known(sessionId) {
        id := sessionId.value;
        session := sessions[id];
        session.UpdateActivity(now);
        return;
      }
      id := freshId;
      session := new Session.Default(now);
      sessions := sessions[freshId := session];
    }

    /** `cleanup_old_sessions`: removes exactly the stale sessions, one by one. */
    method CleanupOldSessions(now: int, timeoutHours: int)
      requires DistinctSessions(sessions)
      modifies this
      ensures sessions == old(LiveSessions(sessions, Cutoff(now, timeoutHours)))
      ensures DistinctSessions(sessions)
    {
      var cutoff := Cutoff(now, timeoutHours);
      var toRemove := set sid | sid in sessions && IsStale(sessions[sid], cutoff);
      ghost var removed: set<string> := {};
      while toRemove != {}
        invariant toRemove !! removed
        invariant toRemove + removed == set sid | sid in old(sessions) && IsStale(old(sessions)[sid], cutoff)
        invariant sessions == map sid | sid in old(sessions) && sid !in removed :: old(sessions)[sid]
        decreases toRemove
      {
        var sid :| sid in toRemove;
        sessions := map k | k in sessions && k != sid :: sessions[k];
        toRemove := toRemove - {sid};
        removed := removed + {sid};
      }
    }

    /** `delete_session`: True and the entry removed iff it was present. */
    method DeleteSession(sessionId: string) returns (deleted: bool)
      requires DistinctSessions(sessions)
      modifies this
      ensures DistinctSessions(sessions)
      ensures deleted <==> sessionId in old(sessions)
      ensures sessions == old(sessions) - {sessionId}
      ensures !deleted ==> sessions == old(sessions)
    {
      if sessionId in sessions {
        sessions := sessions - {sessionId};
        return true;
      }
      return false;
    }

    /** `get_session`: a lookup that refreshes nothing. */
    function GetSession(sessionId: string): (r: Option<Session>)
      reads this
      ensures r.None? <==> sessionId !in sessions
      ensures r.Some? ==> r.value == sessions[sessionId]
    {
      if sessionId in sessions then Some(sessions[sessionId]) else None
    }

    /** `get_active_session_count`. */
    function ActiveCount(): (n: nat)
      reads this
      ensures n == 0 <==> sessions == map[]
    {
      |sessions.Keys|
    }
  }

  /** Creating under an unused fresh id grows the store by exactly one session. */
  lemma CreateGrowsByOne(sessions: map<string, Session>, freshId: string, s: Session)
    requires freshId !in sessions
    ensures |sessions[freshId := s].Keys| == |sessions.Keys| + 1
  {
    assert sessions[freshId := s].Keys == sessions.Keys + {freshId};
  }
}
