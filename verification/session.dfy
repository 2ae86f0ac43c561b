/** The negotiation session record: a status state machine, an append-only
    transcript whose turn numbers are driven by the `add_*` operations, the
    transcript projections handed to the agents, message counts, and the
    dictionary (de)serialisation used for storage. Clock readings and fresh
    identifiers are inputs (`now`, `freshId`). */
module Session {
  import opened Base
  import opened Json
  import opened Chat

  // ---------------------------------------------------------------------------
  // Status
  // ---------------------------------------------------------------------------

  datatype Status = Created | Briefing | InProgress | Paused | Completed | Abandoned

  /** `SessionStatus.value`. */
  function StatusValue(s: Status): string {
    match s
    case Created => "created"
    case Briefing => "briefing"
    case InProgress => "in_progress"
    case Paused => "paused"
    case Completed => "completed"
    case Abandoned => "abandoned"
  }

  /** `SessionStatus(v)`: the member with value `v`, or `None` for the ValueError. */
  function ParseStatus(v: string): Option<Status> {
    if v == "created" then Some(Created)
    else if v == "briefing" then Some(Briefing)
    else if v == "in_progress" then Some(InProgress)
    else if v == "paused" then Some(Paused)
    else if v == "completed" then Some(Completed)
    else if v == "abandoned" then Some(Abandoned)
    else None
  }

  /** The status values are a bijection between `Status` and six strings. */
  lemma StatusValueBijective(s: Status, v: string)
    ensures ParseStatus(StatusValue(s)) == Some(s)
    ensures ParseStatus(v) == Some(s) ==> StatusValue(s) == v
  {
  }

  // ---------------------------------------------------------------------------
  // Records
  // ---------------------------------------------------------------------------

  datatype Entry = Entry(
    role: string,
    content: string,
    timestamp: string,
    turn: int,
    audioDurationMs: Option<int>,
    latencyMs: Option<int>)

  datatype NegotiationSession = NegotiationSession(
    scenarioId: string,
    userBriefing: map<string, Value>,
    opponentConfig: map<string, Value>,
    coachConfig: map<string, Value>,
    sessionId: string,
    createdAt: string,
    status: Status,
    currentTurn: int,
    transcript: seq<Entry>,
    startedAt: Option<string>,
    endedAt: Option<string>,
    scenarioTitle: Option<string>,
    opponentName: Value,
    videoUrl: Option<string>)

  /** A fresh session: CREATED, turn 0, empty transcript, and the opponent's
      name read from the opponent configuration. */
  function NewSession(
    scenarioId: string,
    userBriefing: map<string, Value>,
    opponentConfig: map<string, Value>,
    coachConfig: map<string, Value>,
    freshId: string,
    now: string): (r: NegotiationSession)
    ensures r.status == Created && r.currentTurn == 0 && r.transcript == []
    ensures r.startedAt == None && r.endedAt == None && r.createdAt == now
    ensures "counterparty_name" in opponentConfig ==> r.opponentName == opponentConfig["counterparty_name"]
    ensures "counterparty_name" !in opponentConfig ==> r.opponentName == Str("Opponent")
  {
    NegotiationSession(
      scenarioId, userBriefing, opponentConfig, coachConfig, freshId, now,
      Created, 0, [], None, None, None,
      GetOr(Object(opponentConfig), "counterparty_name", Str("Opponent")),
      None)
  }

  /** Two sessions agree on everything the lifecycle operations must not touch. */
  predicate SameContent(a: NegotiationSession, b: NegotiationSession) {
    && a.scenarioId == b.scenarioId && a.sessionId == b.sessionId
    && a.userBriefing == b.userBriefing && a.opponentConfig == b.opponentConfig
    && a.coachConfig == b.coachConfig && a.createdAt == b.createdAt
    && a.currentTurn == b.currentTurn && a.transcript == b.transcript
    && a.scenarioTitle == b.scenarioTitle && a.opponentName == b.opponentName
    && a.videoUrl == b.videoUrl
  }

  // ---------------------------------------------------------------------------
  // Lifecycle (no guards: every operation except `resume` is unconditional)
  // ---------------------------------------------------------------------------

  function Start(s: NegotiationSession, now: string): (r: NegotiationSession)
    ensures r.status == InProgress && r.startedAt == Some(now) && r.endedAt == s.endedAt
    ensures SameContent(s, r)
  {
    s.(status := InProgress, startedAt := Some(now))
  }

  function Pause(s: NegotiationSession): (r: NegotiationSession)
    ensures r.status == Paused && r.startedAt == s.startedAt && r.endedAt == s.endedAt
    ensures SameContent(s, r)
  {
    s.(status := Paused)
  }

  /** Only a PAUSED session changes; any other session is returned unchanged. */
  function Resume(s: NegotiationSession): (r: NegotiationSession)
    ensures s.status == Paused ==> r.status == InProgress
    ensures s.status != Paused ==> r == s
    ensures r.startedAt == s.startedAt && r.endedAt == s.endedAt && SameContent(s, r)
  {
    if s.status == Paused then s.(status := InProgress) else s
  }

  function End(s: NegotiationSession, now: string): (r: NegotiationSession)
    ensures r.status == Completed && r.endedAt == Some(now) && r.startedAt == s.startedAt
    ensures SameContent(s, r)
  {
    s.(status := Completed, endedAt := Some(now))
  }

  function Abandon(s: NegotiationSession, now: string): (r: NegotiationSession)
    ensures r.status == Abandoned && r.endedAt == Some(now) && r.startedAt == s.startedAt
    ensures SameContent(s, r)
  {
    s.(status := Abandoned, endedAt := Some(now))
  }

  /** The lifecycle does not protect its terminal states: ending an abandoned
      session makes it COMPLETED, and starting a completed one makes it IN_PROGRESS. */
  lemma TerminalStatesNotAbsorbing(s: NegotiationSession, now: string)
    ensures End(Abandon(s, now), now).status == Completed
    ensures Start(End(s, now), now).status == InProgress
  {
  }

  /** `pause` followed by `resume` returns any session to IN_PROGRESS with its
      content untouched; a second `resume` changes nothing. */
  lemma PauseResume(s: NegotiationSession)
    ensures Resume(Pause(s)).status == InProgress
    ensures SameContent(s, Resume(Pause(s)))
    ensures Resume(Resume(Pause(s))) == Resume(Pause(s))
  {
  }

  // ---------------------------------------------------------------------------
  // Transcript management
  // ---------------------------------------------------------------------------

  /** `timestamp or now`: an absent or empty timestamp falls back to the clock. */
  function Stamp(timestamp: Option<string>, now: string): string {
    if timestamp.Some? && timestamp.value != "" then timestamp.value else now
  }

  /** The entry an `add_*` call returns: the last one of the transcript. */
  function LastEntry(s: NegotiationSession): Entry
    requires |s.transcript| > 0
  {
    s.transcript[|s.transcript| - 1]
  }

  /** `r` is `s` with exactly one entry appended and every earlier entry kept;
      apart from the transcript and the turn counter, every field (status,
      times, configurations, title, opponent name, video URL) is unchanged. */
  predicate AppendsOne(s: NegotiationSession, r: NegotiationSession) {
    && |r.transcript| == |s.transcript| + 1
    && r.transcript[..|s.transcript|] == s.transcript
    && r == s.(transcript := r.transcript, currentTurn := r.currentTurn)
  }

  /** A user message opens a new turn. */
  function AddUserMessage(
    s: NegotiationSession, content: string, audioDurationMs: Option<int>,
    timestamp: Option<string>, now: string): (r: NegotiationSession)
    ensures r.currentTurn == s.currentTurn + 1
    ensures AppendsOne(s, r)
    ensures LastEntry(r) == Entry(UserRole, content, Stamp(timestamp, now), r.currentTurn, audioDurationMs, None)
  {
    var turn := s.currentTurn + 1;
    var e := Entry(UserRole, content, Stamp(timestamp, now), turn, audioDurationMs, None);
    s.(currentTurn := turn, transcript := s.transcript + [e])
  }

  /** An opponent message shares the turn of the user message it answers. */
  function AddOpponentMessage(
    s: NegotiationSession, content: string, latencyMs: Option<int>,
    audioDurationMs: Option<int>, timestamp: Option<string>, now: string): (r: NegotiationSession)
    ensures r.currentTurn == s.currentTurn
    ensures AppendsOne(s, r)
    ensures LastEntry(r) == Entry(AssistantRole, content, Stamp(timestamp, now), s.currentTurn, audioDurationMs, latencyMs)
  {
    var e := Entry(AssistantRole, content, Stamp(timestamp, now), s.currentTurn, audioDurationMs, latencyMs);
    s.(transcript := s.transcript + [e])
  }

  /** The opening message is always an assistant entry of turn 0. */
  function AddOpeningMessage(s: NegotiationSession, content: string, audioDurationMs: Option<int>, now: string): (r: NegotiationSession)
    ensures r.currentTurn == s.currentTurn
    ensures AppendsOne(s, r)
    ensures LastEntry(r) == Entry(AssistantRole, content, now, 0, audioDurationMs, None)
  {
    s.(transcript := s.transcript + [Entry(AssistantRole, content, now, 0, audioDurationMs, None)])
  }

  // ---------------------------------------------------------------------------
  // Turn numbering invariant
  // ---------------------------------------------------------------------------

  /** The number of entries with the given role. */
  function CountRole(t: seq<Entry>, role: string): nat
    ensures CountRole(t, role) <= |t|
  {
    if |t| == 0 then 0
    else CountRole(t[..|t| - 1], role) + (if t[|t| - 1].role == role then 1 else 0)
  }

  /** Counting over a prefix never exceeds counting over a longer prefix, and a
      matching entry in between adds at least one. */
  lemma {:induction false} CountRoleMonotone(t: seq<Entry>, role: string, i: nat, j: nat)
    requires i <= j <= |t|
    ensures CountRole(t[..i], role) <= CountRole(t[..j], role)
    ensures i < j && t[j - 1].role == role ==> CountRole(t[..i], role) < CountRole(t[..j], role)
    decreases j - i
  {
    if i < j {
      CountRoleMonotone(t, role, i, j - 1);
      assert t[..j][..j - 1] == t[..j - 1];
    }
  }

  lemma CountRoleAppend(t: seq<Entry>, e: Entry, role: string)
    ensures CountRole(t + [e], role) == CountRole(t, role) + (if e.role == role then 1 else 0)
  {
    assert (t + [e])[..|t|] == t;
  }

  /** The transcript invariant that `add_*` keeps when the opening comes first:
      every entry's turn is the number of user entries up to and including it,
      and the current turn is the number of user entries. */
  ghost predicate Numbered(s: NegotiationSession) {
    && s.currentTurn == CountRole(s.transcript, UserRole)
    && forall j :: 0 <= j < |s.transcript| ==>
         s.transcript[j].turn == CountRole(s.transcript[..j + 1], UserRole)
  }

  lemma NewSessionNumbered(
    scenarioId: string, userBriefing: map<string, Value>, opponentConfig: map<string, Value>,
    coachConfig: map<string, Value>, freshId: string, now: string)
    ensures Numbered(NewSession(scenarioId, userBriefing, opponentConfig, coachConfig, freshId, now))
  {
  }

  /** Appending one entry keeps the numbering iff the entry carries the turn
      that counting the users up to it gives. */
  lemma NumberedAppend(s: NegotiationSession, r: NegotiationSession)
    requires Numbered(s) && AppendsOne(s, r)
    requires r.currentTurn == CountRole(r.transcript, UserRole)
    ensures Numbered(r) <==> LastEntry(r).turn == CountRole(r.transcript, UserRole)
  {
    var t := s.transcript;
    var t' := r.transcript;
    assert t' == t + [LastEntry(r)];
    forall j | 0 <= j < |t|
      ensures t'[j] == t[j] && CountRole(t'[..j + 1], UserRole) == CountRole(t[..j + 1], UserRole)
    {
      assert t'[..j + 1] == t[..j + 1];
    }
    assert t'[..|t| + 1] == t';
  }

  /** `add_user_message` keeps the numbering invariant. */
  lemma AddUserKeepsNumbered(
    s: NegotiationSession, content: string, audioDurationMs: Option<int>,
    timestamp: Option<string>, now: string)
    requires Numbered(s)
    ensures Numbered(AddUserMessage(s, content, audioDurationMs, timestamp, now))
  {
    var r := AddUserMessage(s, content, audioDurationMs, timestamp, now);
    assert r.transcript == s.transcript + [LastEntry(r)];
    CountRoleAppend(s.transcript, LastEntry(r), UserRole);
    NumberedAppend(s, r);
  }

  /** `add_opponent_message` keeps the numbering invariant. */
  lemma AddOpponentKeepsNumbered(
    s: NegotiationSession, content: string, latencyMs: Option<int>,
    audioDurationMs: Option<int>, timestamp: Option<string>, now: string)
    requires Numbered(s)
    ensures Numbered(AddOpponentMessage(s, content, latencyMs, audioDurationMs, timestamp, now))
  {
    var r := AddOpponentMessage(s, content, latencyMs, audioDurationMs, timestamp, now);
    assert r.transcript == s.transcript + [LastEntry(r)];
    CountRoleAppend(s.transcript, LastEntry(r), UserRole);
    NumberedAppend(s, r);
  }

  /** `add_opening_message` keeps the numbering invariant exactly when no user
      message has been added yet. */
  lemma AddOpeningNumberedIff(s: NegotiationSession, content: string, audioDurationMs: Option<int>, now: string)
    requires Numbered(s)
    ensures Numbered(AddOpeningMessage(s, content, audioDurationMs, now)) <==> s.currentTurn == 0
  {
    var r := AddOpeningMessage(s, content, audioDurationMs, now);
    assert r.transcript == s.transcript + [LastEntry(r)];
    CountRoleAppend(s.transcript, LastEntry(r), UserRole);
    NumberedAppend(s, r);
  }

  /** Under the invariant, turn numbers never decrease along the transcript. */
  lemma NumberedTurnsNonDecreasing(s: NegotiationSession, i: nat, j: nat)
    requires Numbered(s)
    requires i <= j < |s.transcript|
    ensures s.transcript[i].turn <= s.transcript[j].turn
  {
    CountRoleMonotone(s.transcript, UserRole, i + 1, j + 1);
  }

  /** Under the invariant, two user entries never share a turn: later user
      entries have strictly larger turns. */
  lemma NumberedUserTurnsIncrease(s: NegotiationSession, i: nat, j: nat)
    requires Numbered(s)
    requires i < j < |s.transcript|
    requires s.transcript[j].role == UserRole
    ensures s.transcript[i].turn < s.transcript[j].turn
  {
    CountRoleMonotone(s.transcript, UserRole, i + 1, j + 1);
  }

  /** An opening added after a user message breaks monotonicity: the turn-0
      entry follows an entry of turn 1. */
  lemma OpeningAfterUserBreaksOrder(s: NegotiationSession, now: string)
    requires s.transcript == [] && s.currentTurn == 0
    ensures var r := AddOpeningMessage(AddUserMessage(s, "hi", None, None, now), "hello", None, now);
            r.transcript[0].turn == 1 && r.transcript[1].turn == 0
  {
  }

  // ---------------------------------------------------------------------------
  // Transcript access
  // ---------------------------------------------------------------------------

  /** `TranscriptEntry.to_dict()`. */
  function EntryDict(e: Entry): Value {
    Object(map[
      "role" := Str(e.role),
      "content" := Str(e.content),
      "timestamp" := Str(e.timestamp),
      "turn" := Int(e.turn),
      "audio_duration_ms" := OptInt(e.audioDurationMs),
      "latency_ms" := OptInt(e.latencyMs)])
  }

  /** The dictionaries of a list of entries, in order. */
  function Dicts(t: seq<Entry>): (r: seq<Value>)
    ensures |r| == |t|
    ensures forall i :: 0 <= i < |t| ==> r[i] == EntryDict(t[i])
  {
    if |t| == 0 then [] else [EntryDict(t[0])] + Dicts(t[1..])
  }

  /** `get_transcript`: every entry as a dictionary, in order. */
  function GetTranscript(s: NegotiationSession): seq<Value> {
    Dicts(s.transcript)
  }

  /** `get_llm_transcript`: the role/content pair of every entry, in order. */
  function GetLlmTranscript(s: NegotiationSession): (r: seq<Msg>)
    ensures |r| == |s.transcript|
    ensures forall i :: 0 <= i < |r| ==>
              r[i].role == s.transcript[i].role && r[i].content == s.transcript[i].content
              && r[i].turn.None? && r[i].timestamp.None?
  {
    seq(|s.transcript|, i requires 0 <= i < |s.transcript| =>
      Plain(s.transcript[i].role, s.transcript[i].content))
  }

  /** The entries `get_recent_transcript(n)` selects:
      `transcript[-n:] if len(transcript) >= n else transcript`. */
  function RecentEntries(t: seq<Entry>, n: int): (r: seq<Entry>)
    ensures n >= 1 ==> r == t[|t| - Min(n, |t|)..]
    ensures n == 0 ==> r == t
    ensures n < 0 ==> r == t[Min(-n, |t|)..]
  {
    if |t| >= n then
      if n > 0 then t[|t| - n..]
      else t[Min(-n, |t|)..]
    else t
  }

  /** `get_recent_transcript(n)`. */
  function GetRecentTranscript(s: NegotiationSession, n: int): seq<Value> {
    Dicts(RecentEntries(s.transcript, n))
  }

  /** The index of the last entry with the given role among the first `n`. */
  function LastIndexWithRole(t: seq<Entry>, role: string, n: nat): (r: Option<nat>)
    requires n <= |t|
    ensures r.None? <==> forall i :: 0 <= i < n ==> t[i].role != role
    ensures r.Some? ==> r.value < n && t[r.value].role == role
    ensures r.Some? ==> forall j :: r.value < j < n ==> t[j].role != role
  {
    if n == 0 then None
    else if t[n - 1].role == role then Some(n - 1)
    else LastIndexWithRole(t, role, n - 1)
  }

  /** The content of the last entry with the given role, scanning from the end. */
  function LastWithRole(t: seq<Entry>, role: string): (r: Option<string>)
    ensures r.None? <==> forall i :: 0 <= i < |t| ==> t[i].role != role
    ensures r.Some? ==> exists i :: 0 <= i < |t| && t[i].role == role && t[i].content == r.value
                                    && forall j :: i < j < |t| ==> t[j].role != role
  {
    match LastIndexWithRole(t, role, |t|)
    case None => None
    case Some(i) => Some(t[i].content)
  }

  function GetLastUserMessage(s: NegotiationSession): Option<string> {
    LastWithRole(s.transcript, UserRole)
  }

  function GetLastOpponentMessage(s: NegotiationSession): Option<string> {
    LastWithRole(s.transcript, AssistantRole)
  }

  // ---------------------------------------------------------------------------
  // Metrics
  // ---------------------------------------------------------------------------

  datatype MessageCount = MessageCount(user: nat, opponent: nat, total: nat)

  /** `get_turn_count`. */
  function GetTurnCount(s: NegotiationSession): int {
    s.currentTurn
  }

  /** `get_message_count`: users, assistants and all entries, counted in one pass. */
  method GetMessageCount(s: NegotiationSession) returns (c: MessageCount)
    ensures c.user == CountRole(s.transcript, UserRole)
    ensures c.opponent == CountRole(s.transcript, AssistantRole)
    ensures c.total == |s.transcript|
    ensures c.user + c.opponent <= c.total
  {
    var t := s.transcript;
    var users, opponents := 0, 0;
    var i := 0;
    while i < |t|
      invariant 0 <= i <= |t|
      invariant users == CountRole(t[..i], UserRole)
      invariant opponents == CountRole(t[..i], AssistantRole)
      invariant users + opponents <= i
    {
      assert t[..i + 1][..i] == t[..i];
      if t[i].role == UserRole {
        users := users + 1;
      } else if t[i].role == AssistantRole {
        opponents := opponents + 1;
      }
      i := i + 1;
    }
    assert t[..|t|] == t;
    c := MessageCount(users, opponents, |t|);
  }

  /** When the transcript was built by the `add_*` operations in order, the
      number of user messages is the turn count. */
  lemma NumberedUserCountIsTurnCount(s: NegotiationSession)
    requires Numbered(s)
    ensures CountRole(s.transcript, UserRole) == GetTurnCount(s)
  {
  }

  // ---------------------------------------------------------------------------
  // Serialisation
  // ---------------------------------------------------------------------------

  /** Reads a transcript dictionary back: `role`, `content`, `timestamp` and
      `turn` are required, the two durations optional. */
  function EntryFromDict(v: Value): Result<Entry> {
    if !v.Object? then Err("transcript entry is not a dict")
    else if "role" !in v.fields || "content" !in v.fields
         || "timestamp" !in v.fields || "turn" !in v.fields then Err("KeyError")
    else if !v.fields["role"].Str? || !v.fields["content"].Str?
         || !v.fields["timestamp"].Str? || !v.fields["turn"].Int? then Err("wrong field type")
    else
      var audio :- ReadOptInt(GetOr(v, "audio_duration_ms", Null));
      var latency :- ReadOptInt(GetOr(v, "latency_ms", Null));
      Ok(Entry(v.fields["role"].s, v.fields["content"].s, v.fields["timestamp"].s,
               v.fields["turn"].i, audio, latency))
  }

  function EntriesFromDicts(vs: seq<Value>): Result<seq<Entry>> {
    if |vs| == 0 then Ok([])
    else
      var e :- EntryFromDict(vs[0]);
      var rest :- EntriesFromDicts(vs[1..]);
      Ok([e] + rest)
  }

  /** `to_dict()`, without `duration_seconds` (a clock-dependent float). */
  function ToDict(s: NegotiationSession): Value {
    Object(map k | k in DictKeys :: DictField(s, k))
  }

  /** The keys `to_dict()` writes. */
  const DictKeys: set<string> := {
    "session_id", "scenario_id", "scenario_title", "opponent_name", "status",
    "current_turn", "created_at", "started_at", "ended_at", "message_count",
    "transcript", "user_briefing", "opponent_config", "coach_config", "video_url"}

  /** The value `to_dict()` writes under `key`. */
  function DictField(s: NegotiationSession, key: string): Value {
    if key == "session_id" then Str(s.sessionId)
    else if key == "scenario_id" then Str(s.scenarioId)
    else if key == "scenario_title" then OptStr(s.scenarioTitle)
    else if key == "opponent_name" then s.opponentName
    else if key == "status" then Str(StatusValue(s.status))
    else if key == "current_turn" then Int(s.currentTurn)
    else if key == "created_at" then Str(s.createdAt)
    else if key == "started_at" then OptStr(s.startedAt)
    else if key == "ended_at" then OptStr(s.endedAt)
    else if key == "message_count" then
      Object(map[
        "user" := Int(CountRole(s.transcript, UserRole)),
        "opponent" := Int(CountRole(s.transcript, AssistantRole)),
        "total" := Int(|s.transcript|)])
    else if key == "transcript" then List(GetTranscript(s))
    else if key == "user_briefing" then Object(s.userBriefing)
    else if key == "opponent_config" then Object(s.opponentConfig)
    else if key == "coach_config" then Object(s.coachConfig)
    else OptStr(s.videoUrl)
  }

  /** `from_dict(data)`: the four constructor fields are required; the other
      fields fall back to the constructor's defaults (`freshId`, `now`). The
      assignments run in the source's order: identity and clock fields, then
      the optional fields, then the transcript. */
  function FromDict(data: Value, freshId: string, now: string): Result<NegotiationSession> {
    if !data.Object? then Err("data is not a dict")
    else if "scenario_id" !in data.fields || "user_briefing" !in data.fields
         || "opponent_config" !in data.fields || "coach_config" !in data.fields then Err("KeyError")
    else if !data.fields["scenario_id"].Str? || !data.fields["user_briefing"].Object?
         || !data.fields["opponent_config"].Object? || !data.fields["coach_config"].Object? then
      Err("wrong field type")
    else
      var base := NewSession(data.fields["scenario_id"].s, data.fields["user_briefing"].fields,
                             data.fields["opponent_config"].fields, data.fields["coach_config"].fields,
                             freshId, now);
      var identified :- ReadState(data, base);
      var completed :- ReadOptionals(data, identified);
      ReadTranscript(data, completed)
  }

  /** `session_id`, `status`, `current_turn` and `created_at`, each falling
      back to the value `s` already holds (`status` to "created"). */
  function ReadState(data: Value, s: NegotiationSession): Result<NegotiationSession> {
    var sessionId := GetOr(data, "session_id", Str(s.sessionId));
    var statusValue := GetOr(data, "status", Str("created"));
    var turn := GetOr(data, "current_turn", Int(0));
    var createdAt := GetOr(data, "created_at", Str(s.createdAt));
    if !sessionId.Str? || !statusValue.Str? || !turn.Int? || !createdAt.Str? then Err("wrong field type")
    else if ParseStatus(statusValue.s).None? then Err("ValueError: not a valid SessionStatus")
    else Ok(s.(sessionId := sessionId.s, status := ParseStatus(statusValue.s).value,
               currentTurn := turn.i, createdAt := createdAt.s))
  }

  /** The optional fields, `None` when absent. */
  function ReadOptionals(data: Value, s: NegotiationSession): Result<NegotiationSession> {
    var startedAt :- ReadOptStr(GetOr(data, "started_at", Null));
    var endedAt :- ReadOptStr(GetOr(data, "ended_at", Null));
    var title :- ReadOptStr(GetOr(data, "scenario_title", Null));
    var video :- ReadOptStr(GetOr(data, "video_url", Null));
    Ok(s.(startedAt := startedAt, endedAt := endedAt, scenarioTitle := title,
          opponentName := GetOr(data, "opponent_name", Null), videoUrl := video))
  }

  /** The transcript rebuilt entry by entry from `data.get("transcript", [])`. */
  function ReadTranscript(data: Value, s: NegotiationSession): Result<NegotiationSession> {
    var entries := GetOr(data, "transcript", List([]));
    if !entries.List? then Err("transcript is not a list")
    else
      var transcript :- EntriesFromDicts(entries.items);
      Ok(s.(transcript := transcript))
  }

  lemma EntryRoundTrip(e: Entry)
    ensures EntryFromDict(EntryDict(e)) == Ok(e)
  {
    OptionalRoundTrip(None, e.audioDurationMs);
    OptionalRoundTrip(None, e.latencyMs);
  }

  lemma {:induction false} EntriesRoundTrip(t: seq<Entry>)
    ensures EntriesFromDicts(Dicts(t)) == Ok(t)
  {
    if |t| > 0 {
      EntryRoundTrip(t[0]);
      EntriesRoundTrip(t[1..]);
      assert Dicts(t)[1..] == Dicts(t[1..]);
      assert [t[0]] + t[1..] == t;
    }
  }

  /** The fields `from_dict` requires, as `to_dict` writes them. */
  lemma ToDictRequiredFields(s: NegotiationSession)
    ensures ToDict(s).Object?
    ensures ToDict(s).fields["scenario_id"] == Str(s.scenarioId)
    ensures ToDict(s).fields["user_briefing"] == Object(s.userBriefing)
    ensures ToDict(s).fields["opponent_config"] == Object(s.opponentConfig)
    ensures ToDict(s).fields["coach_config"] == Object(s.coachConfig)
  {
  }

  /** The identity and status fields, as `to_dict` writes them. */
  lemma ToDictIdentityFields(s: NegotiationSession)
    ensures ToDict(s).Object?
    ensures ToDict(s).fields["session_id"] == Str(s.sessionId)
    ensures ToDict(s).fields["status"] == Str(StatusValue(s.status))
  {
  }

  /** The turn counter and creation time, as `to_dict` writes them. */
  lemma ToDictClockFields(s: NegotiationSession)
    ensures ToDict(s).Object?
    ensures ToDict(s).fields["current_turn"] == Int(s.currentTurn)
    ensures ToDict(s).fields["created_at"] == Str(s.createdAt)
  {
  }

  /** The optional fields, as `to_dict` writes them. */
  lemma ToDictOptionalFields(s: NegotiationSession)
    ensures ToDict(s).Object?
    ensures ToDict(s).fields["started_at"] == OptStr(s.startedAt)
    ensures ToDict(s).fields["ended_at"] == OptStr(s.endedAt)
    ensures ToDict(s).fields["scenario_title"] == OptStr(s.scenarioTitle)
    ensures ToDict(s).fields["video_url"] == OptStr(s.videoUrl)
  {
  }

  /** The opponent's name and the transcript, as `to_dict` writes them. */
  lemma ToDictContentFields(s: NegotiationSession)
    ensures ToDict(s).Object?
    ensures ToDict(s).fields["opponent_name"] == s.opponentName
    ensures ToDict(s).fields["transcript"] == List(Dicts(s.transcript))
  {
  }

  lemma ReadStateRoundTrip(s: NegotiationSession, b: NegotiationSession)
    ensures ReadState(ToDict(s), b) ==
            Ok(b.(sessionId := s.sessionId, status := s.status, currentTurn := s.currentTurn, createdAt := s.createdAt))
  {
    ToDictIdentityFields(s);
    ToDictClockFields(s);
    StatusValueBijective(s.status, StatusValue(s.status));
  }

  lemma ReadOptionalsRoundTrip(s: NegotiationSession, b: NegotiationSession)
    ensures ReadOptionals(ToDict(s), b) ==
            Ok(b.(startedAt := s.startedAt, endedAt := s.endedAt, scenarioTitle := s.scenarioTitle,
                  opponentName := s.opponentName, videoUrl := s.videoUrl))
  {
    ToDictOptionalFields(s);
    ToDictContentFields(s);
    OptionalRoundTrip(s.startedAt, None);
    OptionalRoundTrip(s.endedAt, None);
    OptionalRoundTrip(s.scenarioTitle, None);
    OptionalRoundTrip(s.videoUrl, None);
  }

  lemma ReadTranscriptRoundTrip(s: NegotiationSession, b: NegotiationSession)
    ensures ReadTranscript(ToDict(s), b) == Ok(b.(transcript := s.transcript))
  {
    ToDictContentFields(s);
    EntriesRoundTrip(s.transcript);
  }

  /** Serialising a session and reading it back gives the same session,
      whatever fresh identifier and clock reading `from_dict` would fall back to. */
  lemma ToDictFromDict(s: NegotiationSession, freshId: string, now: string)
    ensures FromDict(ToDict(s), freshId, now) == Ok(s)
  {
    ToDictRequiredFields(s);
    var d := ToDict(s);
    var base := NewSession(s.scenarioId, s.userBriefing, s.opponentConfig, s.coachConfig, freshId, now);
    ReadStateRoundTrip(s, base);
    var b1 := base.(sessionId := s.sessionId, status := s.status, currentTurn := s.currentTurn, createdAt := s.createdAt);
    ReadOptionalsRoundTrip(s, b1);
    var b2 := b1.(startedAt := s.startedAt, endedAt := s.endedAt, scenarioTitle := s.scenarioTitle,
                  opponentName := s.opponentName, videoUrl := s.videoUrl);
    ReadTranscriptRoundTrip(s, b2);
    assert b2.(transcript := s.transcript) == s;
  }
}
