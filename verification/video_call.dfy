/** The video-call session map: one record per session id holding the user's
    connection, the agent id and a transcript of `{role, message}` lines. The
    connection is an opaque handle; whether a send to it succeeds is an input
    (`delivered`), since the socket itself is transport. */
module VideoCall {
  import opened Base
  import opened Json

  /** An opaque handle for the user's WebSocket. */
  type Socket = nat

  /** `{"role": role, "message": message}`; the message is whatever the user's
      frame carried under "message", so any JSON value. */
  datatype Line = Line(role: string, message: Value)

  /** `{"user": ..., "agent_id": ..., "transcript": [...]}`. */
  datatype CallSession = CallSession(user: Socket, agentId: string, transcript: seq<Line>)

  /** `VideoCallManager.active_sessions`. */
  datatype Manager = Manager(sessions: map<string, CallSession>)

  /** `VideoCallManager()`: no sessions. */
  function NewManager(): (r: Manager)
    ensures r.sessions.Keys == {}
  {
    Manager(map[])
  }

  /** Whether the rest of the map is as before outside `id`. */
  predicate OthersUnchanged(m: Manager, r: Manager, id: string) {
    (forall k :: k in m.sessions && k != id ==> k in r.sessions && r.sessions[k] == m.sessions[k]) &&
    (forall k :: k in r.sessions && k != id ==> k in m.sessions)
  }

  // ---------------------------------------------------------------------------
  // Operations
  // ---------------------------------------------------------------------------

  /** `create_session` (state part): the id gets the new user and agent and an
      empty transcript, whether or not it existed before. */
  function Create(m: Manager, id: string, user: Socket, agentId: string): (r: Manager)
    ensures r.sessions.Keys == m.sessions.Keys + {id}
    ensures id in r.sessions && r.sessions[id].user == user && r.sessions[id].agentId == agentId
    ensures r.sessions[id].transcript == []
    ensures OthersUnchanged(m, r, id)
  {
    Manager(m.sessions[id := CallSession(user, agentId, [])])
  }

  /** `end_session`: the id is gone; an absent id leaves the map as it was. */
  function End(m: Manager, id: string): (r: Manager)
    ensures r.sessions.Keys == m.sessions.Keys - {id}
    ensures id !in m.sessions ==> r == m
    ensures OthersUnchanged(m, r, id)
  {
    if id in m.sessions then Manager(m.sessions - {id}) else m
  }

  /** `get_session`: the record, or `None` for an unknown id. */
  function Get(m: Manager, id: string): (r: Option<CallSession>)
    ensures r.Some? <==> id in m.sessions
    ensures r.Some? ==> r.value == m.sessions[id]
  {
    if id in m.sessions then Some(m.sessions[id]) else None
  }

  /** `add_to_transcript`: one line at the end of the id's transcript if the id
      exists; otherwise nothing happens. */
  function AddToTranscript(m: Manager, id: string, role: string, message: Value): (r: Manager)
    ensures r.sessions.Keys == m.sessions.Keys
    ensures id !in m.sessions ==> r == m
    ensures id in m.sessions ==>
      && r.sessions[id].transcript == m.sessions[id].transcript + [Line(role, message)]
      && r.sessions[id].user == m.sessions[id].user
      && r.sessions[id].agentId == m.sessions[id].agentId
    ensures OthersUnchanged(m, r, id)
  {
    if id in m.sessions then
      var s := m.sessions[id];
      Manager(m.sessions[id := s.(transcript := s.transcript + [Line(role, message)])])
    else m
  }

  /** `get_transcript`: the id's transcript, or `[]` for an unknown id. */
  function GetTranscript(m: Manager, id: string): (r: seq<Line>)
    ensures id !in m.sessions ==> r == []
    ensures id in m.sessions ==> r == m.sessions[id].transcript
  {
    match Get(m, id)
    case Some(s) => s.transcript
    case None => []
  }

  /** `send_to_user`: a send to a known session that fails ends that session;
      a delivered send, or one to an unknown id, changes nothing. */
  function SendToUser(m: Manager, id: string, delivered: bool): (r: Manager)
    ensures id in r.sessions <==> id in m.sessions && delivered
    ensures delivered ==> r == m
    ensures OthersUnchanged(m, r, id)
  {
    if id in m.sessions && !delivered then End(m, id) else m
  }

  /** The reply of `GET /video/session/{session_id}`. */
  datatype SessionInfo =
    | NotFound(sessionId: string)
    | Active(sessionId: string, agentId: string, transcriptLength: nat)

  /** `get_session_info`: the agent and the transcript length of a known
      session. A stored record is never an empty dict, so `not session` holds
      only for a missing id. */
  function SessionInfoOf(m: Manager, id: string): (r: SessionInfo)
    ensures r.sessionId == id
    ensures r.NotFound? <==> id !in m.sessions
    ensures r.Active? ==> r.agentId == m.sessions[id].agentId && r.transcriptLength == |GetTranscript(m, id)|
  {
    match Get(m, id)
    case None => NotFound(id)
    case Some(s) => Active(id, s.agentId, |s.transcript|)
  }

  // ---------------------------------------------------------------------------
  // The call endpoint's state transitions
  // ---------------------------------------------------------------------------

  /** A "message" frame: the text joins the transcript as a user line, then the
      acknowledgement is sent, and a failed acknowledgement ends the call. */
  function OnUserMessage(m: Manager, id: string, message: Value, delivered: bool): (r: Manager)
    ensures id in m.sessions && delivered ==>
      id in r.sessions && r.sessions[id].transcript == m.sessions[id].transcript + [Line("user", message)]
    ensures id !in m.sessions || !delivered ==> id !in r.sessions
    ensures OthersUnchanged(m, r, id)
  {
    SendToUser(AddToTranscript(m, id, "user", message), id, delivered)
  }

  /** An "end_call" frame: the status reply is sent and the session ends,
      whether or not the reply got through. */
  function OnEndCall(m: Manager, id: string, delivered: bool): (r: Manager)
    ensures r.sessions.Keys == m.sessions.Keys - {id}
    ensures OthersUnchanged(m, r, id)
  {
    End(SendToUser(m, id, delivered), id)
  }

  // ---------------------------------------------------------------------------
  // Properties
  // ---------------------------------------------------------------------------

  /** After `create_session` the session is found with the new user and agent
      and an empty transcript, even if the id had a transcript before. */
  lemma CreateThenGet(m: Manager, id: string, user: Socket, agentId: string)
    ensures Get(Create(m, id, user, agentId), id) == Some(CallSession(user, agentId, []))
    ensures GetTranscript(Create(m, id, user, agentId), id) == []
  {
  }

  /** After `end_session` the id is unknown: no record, an empty transcript. */
  lemma EndThenGet(m: Manager, id: string)
    ensures Get(End(m, id), id) == None
    ensures GetTranscript(End(m, id), id) == []
    ensures End(End(m, id), id) == End(m, id)
  {
  }

  /** Ending a freshly created session restores the map when the id was new. */
  lemma CreateThenEnd(m: Manager, id: string, user: Socket, agentId: string)
    requires id !in m.sessions
    ensures End(Create(m, id, user, agentId), id) == m
  {
    assert End(Create(m, id, user, agentId), id).sessions == m.sessions;
  }

  /** A failed send to a known session leaves it unknown. */
  lemma FailedSendEnds(m: Manager, id: string)
    requires id in m.sessions
    ensures SendToUser(m, id, false) == End(m, id)
    ensures Get(SendToUser(m, id, false), id) == None
  {
  }

  /** The lines added one after another, in order. */
  function AddAll(m: Manager, id: string, lines: seq<Line>): (r: Manager)
    ensures r.sessions.Keys == m.sessions.Keys
    decreases |lines|
  {
    if lines == [] then m
    else AddAll(AddToTranscript(m, id, lines[0].role, lines[0].message), id, lines[1..])
  }

  /** The transcript is append-only: adding lines to a known session extends its
      transcript by exactly those lines in order, keeps its user and agent, and
      leaves every other session alone. */
  lemma {:induction false} AddAllAppends(m: Manager, id: string, lines: seq<Line>)
    requires id in m.sessions
    ensures GetTranscript(AddAll(m, id, lines), id) == GetTranscript(m, id) + lines
    ensures AddAll(m, id, lines).sessions[id].user == m.sessions[id].user
    ensures AddAll(m, id, lines).sessions[id].agentId == m.sessions[id].agentId
    ensures OthersUnchanged(m, AddAll(m, id, lines), id)
    decreases |lines|
  {
    if lines != [] {
      var m1 := AddToTranscript(m, id, lines[0].role, lines[0].message);
      AddAllAppends(m1, id, lines[1..]);
      assert [lines[0]] + lines[1..] == lines;
    }
  }

  /** Adding to an unknown id changes nothing, however many lines. */
  lemma {:induction false} AddAllUnknown(m: Manager, id: string, lines: seq<Line>)
    requires id !in m.sessions
    ensures AddAll(m, id, lines) == m
    decreases |lines|
  {
    if lines != [] {
      AddAllUnknown(m, id, lines[1..]);
    }
  }

  /** Re-creating a session after any number of lines discards them. */
  lemma RecreateResets(m: Manager, id: string, user: Socket, agentId: string, lines: seq<Line>, user2: Socket, agentId2: string)
    ensures GetTranscript(Create(AddAll(Create(m, id, user, agentId), id, lines), id, user2, agentId2), id) == []
  {
  }
}
