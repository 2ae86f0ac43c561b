/** The decision logic of a live negotiation over the WebSocket: the
    acceptance-phrase list and classifier, the coach cadence, the coach-tip
    filter, the debounce buffer between speech fragments and the agents, and
    the turn handler that ties the opponent and the coach together.
    Transport, speech recognition and speech synthesis are not modelled: the
    messages the handler sends are listed as `Outgoing` values, audio as one
    `Speak` event, and each language-model reply is an input. */
module Negotiation {
  import opened Base
  import opened Json
  import opened Text
  import opened Chat
  import Coach
  import Opponent

  // ---------------------------------------------------------------------------
  // Acceptance phrases
  // ---------------------------------------------------------------------------

  /** The phrase list used when `NEGOTIATION_ACCEPT_PHRASES` is not set. */
  const DefaultAcceptPhrases: string :=
    "i accept,i'll take,i will take,sounds good,that works,deal,i agree,i'll go with,i would take,i can take"

  /** Each non-blank part, stripped and lower-cased, in order. */
  function CleanPhrases(parts: seq<string>): (r: seq<string>)
    ensures |r| <= |parts|
    ensures forall i :: 0 <= i < |r| ==> r[i] != ""
  {
    if |parts| == 0 then []
    else
      var rest := CleanPhrases(parts[1..]);
      if Strip(parts[0]) != "" then [Lower(Strip(parts[0]))] + rest else rest
  }

  /** A phrase is kept exactly when some part strips to a non-blank text
      whose lower-case form it is. */
  lemma {:induction false} CleanPhrasesMembers(parts: seq<string>, x: string)
    ensures x in CleanPhrases(parts) <==>
              exists i :: 0 <= i < |parts| && Strip(parts[i]) != "" && x == Lower(Strip(parts[i]))
  {
    if |parts| > 0 {
      CleanPhrasesMembers(parts[1..], x);
      if exists i :: 0 <= i < |parts| && Strip(parts[i]) != "" && x == Lower(Strip(parts[i])) {
        var i :| 0 <= i < |parts| && Strip(parts[i]) != "" && x == Lower(Strip(parts[i]));
        if i > 0 {
          assert parts[1..][i - 1] == parts[i];
        }
      }
      if x in CleanPhrases(parts[1..]) {
        var i :| 0 <= i < |parts| - 1 && Strip(parts[1..][i]) != "" && x == Lower(Strip(parts[1..][i]));
        assert parts[i + 1] == parts[1..][i];
      }
    }
  }

  /** The acceptance phrases read from the comma-separated setting. */
  function ParsePhrases(raw: string): (r: seq<string>)
    ensures forall i :: 0 <= i < |r| ==> r[i] != ""
    ensures |r| <= |Split(raw, ',')|
  {
    CleanPhrases(Split(raw, ','))
  }

  /** Cleaning introduces no character that is not a letter: one that no
      part contains is contained in no phrase. */
  lemma {:induction false} CleanPhrasesKeepOut(parts: seq<string>, c: char)
    requires !IsAsciiLetter(c)
    requires forall i :: 0 <= i < |parts| ==> c !in parts[i]
    ensures forall i :: 0 <= i < |CleanPhrases(parts)| ==> c !in CleanPhrases(parts)[i]
  {
    if |parts| > 0 {
      var rest := CleanPhrases(parts[1..]);
      assert forall i :: 0 <= i < |parts| - 1 ==> parts[1..][i] == parts[i + 1];
      CleanPhrasesKeepOut(parts[1..], c);
      if Strip(parts[0]) != "" {
        StripKeepsOut(parts[0], c);
        LowerKeepsOut(Strip(parts[0]), c);
        var r := CleanPhrases(parts);
        assert r == [Lower(Strip(parts[0]))] + rest;
        forall i | 0 <= i < |r|
          ensures c !in r[i]
        {
          if i > 0 {
            assert r[i] == rest[i - 1];
          }
        }
      }
    }
  }

  /** A phrase never contains the separator it was split on. */
  lemma PhrasesHaveNoComma(raw: string)
    ensures forall i :: 0 <= i < |ParsePhrases(raw)| ==> ',' !in ParsePhrases(raw)[i]
  {
    CleanPhrasesKeepOut(Split(raw, ','), ',');
  }

  /** Text that is lower-cased and stripped as the classifier reads it. */
  function Normalise(text: string): string {
    Strip(Lower(text))
  }

  /** The negation guard: "accept" together with "not", "don't" or "do not". */
  predicate NegatedAccept(lowered: string) {
    Contains(lowered, "accept")
    && (Contains(lowered, "not") || Contains(lowered, "don't") || Contains(lowered, "do not"))
  }

  /** `_is_acceptance(text)`. */
  predicate IsAcceptance(phrases: seq<string>, text: string) {
    var lowered := Normalise(text);
    if lowered == "" then false
    else if NegatedAccept(lowered) then false
    else exists i :: 0 <= i < |phrases| && Contains(lowered, phrases[i])
  }

  /** Lower-casing an upper-cased character gives its lower-case form. */
  lemma LowerOfUpper(t: string)
    ensures Lower(Upper(t)) == Lower(t)
  {
    forall i | 0 <= i < |t|
      ensures Lower(Upper(t))[i] == Lower(t)[i]
    {
      var c := t[i];
      if IsLowerAscii(c) {
        assert UpperChar(c) as int == c as int - 32;
      }
    }
  }

  /** The classifier ignores letter case: shouting a phrase accepts exactly
      when saying it does. */
  lemma AcceptanceIgnoresCase(phrases: seq<string>, text: string)
    ensures IsAcceptance(phrases, Upper(text)) == IsAcceptance(phrases, text)
  {
    LowerOfUpper(text);
  }

  /** Configured phrases act independently: text is accepted under a
      concatenated phrase list exactly when it is accepted under one of the
      two parts, so adding phrases only ever widens what is accepted. */
  lemma AcceptancePhraseUnion(p: seq<string>, q: seq<string>, text: string)
    ensures IsAcceptance(p + q, text) <==> IsAcceptance(p, text) || IsAcceptance(q, text)
  {
    var lowered := Normalise(text);
    if exists i :: 0 <= i < |p + q| && Contains(lowered, (p + q)[i]) {
      var i :| 0 <= i < |p + q| && Contains(lowered, (p + q)[i]);
      if i < |p| {
        assert Contains(lowered, p[i]);
      } else {
        assert Contains(lowered, q[i - |p|]);
      }
    }
    if exists i :: 0 <= i < |p| && Contains(lowered, p[i]) {
      var i :| 0 <= i < |p| && Contains(lowered, p[i]);
      assert (p + q)[i] == p[i];
    }
    if exists i :: 0 <= i < |q| && Contains(lowered, q[i]) {
      var i :| 0 <= i < |q| && Contains(lowered, q[i]);
      assert (p + q)[|p| + i] == q[i];
    }
  }

  /** Lower-casing keeps whitespace, so blank text normalises to "". */
  lemma BlankNeverAccepts(phrases: seq<string>, text: string)
    requires AllSpace(text)
    ensures !IsAcceptance(phrases, text)
  {
    var l := Lower(text);
    assert forall k :: 0 <= k < |l| ==> l[k] == LowerChar(text[k]) && IsSpace(l[k]);
    StripBlankIff(l);
  }

  /** "do not" contains "not", so the third negation word adds nothing. */
  lemma DoNotImpliesNot(lowered: string)
    requires Contains(lowered, "do not")
    ensures Contains(lowered, "not")
  {
    assert PrefixAt("do not", 3, "not");
    ContainsTransitive(lowered, "do not", "not");
  }

  /** The negation guard looks at substrings, not words: "nothing" contains
      "not", so "accept nothing" is rejected whatever the phrases. */
  lemma NothingBlocksAccept(phrases: seq<string>)
    ensures !IsAcceptance(phrases, "accept nothing")
  {
    var s := "accept nothing";
    assert s[0..6] == "accept";
    assert s[7..10] == "not";
    LowerNoUpper(s);
    StripNoEdgeSpace(s);
    assert PrefixAt(s, 0, "accept");
    assert PrefixAt(s, 7, "not");
  }

  /** Without "accept" in the text, a negation does not block a phrase match. */
  lemma NegationWithoutAcceptIsIgnored(phrases: seq<string>, text: string, i: nat)
    requires Normalise(text) != ""
    requires !Contains(Normalise(text), "accept")
    requires i < |phrases| && Contains(Normalise(text), phrases[i])
    ensures IsAcceptance(phrases, text)
  {
  }

  // ---------------------------------------------------------------------------
  // Coach cadence and tip filter
  // ---------------------------------------------------------------------------

  /** The coach settings: `COACH_EVERY_N_TURNS`, `COACH_MAX_CHARS`,
      `COACH_EARLY_TURNS` and `COACH_EARLY_EVERY_N_TURNS`. */
  datatype CoachSchedule = CoachSchedule(everyNTurns: int, maxChars: int, earlyTurns: int, earlyEveryNTurns: int)

  const DefaultSchedule: CoachSchedule := CoachSchedule(3, 220, 4, 2)

  /** The early cadence up to `earlyTurns` user turns, the steady one after. */
  function Cadence(cfg: CoachSchedule, userTurns: int): (r: int)
    ensures userTurns <= cfg.earlyTurns ==> r == cfg.earlyEveryNTurns
    ensures userTurns > cfg.earlyTurns ==> r == cfg.everyNTurns
  {
    if userTurns <= cfg.earlyTurns then cfg.earlyEveryNTurns else cfg.everyNTurns
  }

  /** The coach is asked exactly on the turns that are a positive multiple of the cadence. */
  predicate ShouldCoach(cfg: CoachSchedule, userTurns: int) {
    var cadence := Cadence(cfg, userTurns);
    cadence > 0 && MultipleOf(userTurns, cadence)
  }

  /** A non-positive cadence switches the coach off for its range of turns. */
  lemma NonPositiveCadenceNeverCoaches(cfg: CoachSchedule, userTurns: int)
    requires Cadence(cfg, userTurns) <= 0
    ensures !ShouldCoach(cfg, userTurns)
  {
  }

  /** With the default settings the coach is asked on turns 2 and 4, then on
      every third turn, so no three consecutive turns go without it. */
  lemma DefaultCadenceGap(n: int)
    requires n >= 1
    ensures ShouldCoach(DefaultSchedule, n) || ShouldCoach(DefaultSchedule, n + 1) || ShouldCoach(DefaultSchedule, n + 2)
  {
    if n > 4 {
      MultipleOfIff(n, 3);
      MultipleOfIff(n + 1, 3);
      MultipleOfIff(n + 2, 3);
      assert n % 3 == 0 || (n + 1) % 3 == 0 || (n + 2) % 3 == 0;
    }
  }

  lemma DefaultCadenceEarlyTurns()
    ensures !ShouldCoach(DefaultSchedule, 1) && ShouldCoach(DefaultSchedule, 2)
    ensures !ShouldCoach(DefaultSchedule, 3) && ShouldCoach(DefaultSchedule, 4)
    ensures !ShouldCoach(DefaultSchedule, 5) && ShouldCoach(DefaultSchedule, 6)
  {
  }

  const TipMarker: char := '\U{1F4A1}'

  /** A tip is forwarded when it is non-empty, starts with the light-bulb
      marker and fits within `maxChars`; any other tip is dropped whole. */
  function ForwardTip(tip: Option<string>, maxChars: int): (r: Option<string>)
    ensures r.Some? <==> tip.Some? && |tip.value| > 0 && tip.value[0] == TipMarker && |tip.value| <= maxChars
    ensures r.Some? ==> r == tip
  {
    if tip.Some? && tip.value != "" && StartsWith(tip.value, [TipMarker]) && |tip.value| <= maxChars then tip
    else None
  }

  /** Tips are never shortened: a tip one character over the limit is dropped. */
  lemma LongTipDropped(tip: string, maxChars: int)
    requires |tip| == maxChars + 1
    ensures ForwardTip(Some(tip), maxChars) == None
  {
  }

  // ---------------------------------------------------------------------------
  // Session state
  // ---------------------------------------------------------------------------

  /** The pending flush: none, or the one scheduled with the given generation.
      Scheduling a new flush cancels the previous one by moving the generation on. */
  datatype Timer = Idle | Armed(generation: nat)

  datatype LiveSession = LiveSession(
    sessionId: string,
    opponent: Opponent.OpponentAgent,
    coach: Coach.CoachAgent,
    schedule: CoachSchedule,
    phrases: seq<string>,
    userTurns: int,
    currentTranscription: string,
    pendingTranscript: string,
    timer: Timer,
    generation: nat,
    hasLoop: bool)

  /** A new live session around freshly built agents. */
  function NewLiveSession(
    sessionId: string, opponent: Opponent.OpponentAgent, coach: Coach.CoachAgent,
    schedule: CoachSchedule, phrasesSetting: string, hasLoop: bool): (r: LiveSession)
    ensures r.userTurns == 0 && r.pendingTranscript == "" && r.timer == Idle
    ensures r.phrases == ParsePhrases(phrasesSetting)
  {
    LiveSession(sessionId, opponent, coach, schedule, ParsePhrases(phrasesSetting),
                0, "", "", Idle, 0, hasLoop)
  }

  /** The coach's cursor never runs past the transcript it reads. */
  predicate Valid(s: LiveSession) {
    s.coach.lastAnalyzedTurn <= |s.opponent.transcript|
  }

  lemma NewLiveSessionValid(
    sessionId: string,
    opponentConfig: map<string, Value>, buildOpponent: Opponent.Persona -> string, buildOpening: Value -> string,
    coachConfig: map<string, Value>, buildCoach: Coach.CoachContext -> string, buildFinal: (Value, Value, Value) -> string,
    schedule: CoachSchedule, phrasesSetting: string, hasLoop: bool)
    ensures Valid(NewLiveSession(sessionId, Opponent.NewOpponent(opponentConfig, buildOpponent, buildOpening),
                                 Coach.NewCoach(coachConfig, buildCoach, buildFinal), schedule, phrasesSetting, hasLoop))
  {
  }

  /** The messages the handler sends to the client. `Speak` stands for the
      synthesised audio of a text; `autoEnded` is true exactly when the
      completion message carries `auto_ended`. */
  datatype Outgoing =
    | Transcription(text: string, isFinal: bool)
    | OpponentOpening(text: string)
    | OpponentText(text: string)
    | Speak(text: string)
    | CoachTip(text: string)
    | NegotiationComplete(finalAdvice: Option<string>, hiddenState: Value, transcript: seq<Msg>, autoEnded: bool)
    | TranscriptReply(transcript: seq<Msg>)
    | Error(message: string)
    | Close

  /** A request made to the language model. The opponent's requests carry
      their messages; the coach's carry the agent and the transcript from
      which its messages are built (see `Messages`). */
  datatype Request =
    | OpeningCall(messages: seq<Msg>)
    | ResponseCall(messages: seq<Msg>)
    | AnalysisCall(coach: Coach.CoachAgent, transcript: seq<Msg>)
    | FinalReviewCall(coach: Coach.CoachAgent, transcript: seq<Msg>)

  /** The messages a request sends. */
  function Messages(r: Request): seq<Msg> {
    match r
    case OpeningCall(m) => m
    case ResponseCall(m) => m
    case AnalysisCall(c, t) => Coach.AnalysisRequest(c, t)
    case FinalReviewCall(c, t) => Coach.FinalAdviceRequest(c, t)
  }

  /** The replies the language model gives in one turn, one per possible request. */
  datatype Replies = Replies(opponent: Completion, coach: Completion, finalReview: Completion)

  datatype Step = Step(state: LiveSession, out: seq<Outgoing>, calls: seq<Request>)

  const ProcessingError: string := "Failed to process your message"

  // ---------------------------------------------------------------------------
  // A user turn
  // ---------------------------------------------------------------------------

  /** The acceptance path: record the user's message, ask for the final
      review, send the completion and close. */
  function AcceptTurn(s: LiveSession, text: string, finalReview: Completion): (r: Step)
    ensures r.state.opponent.transcript == s.opponent.transcript + [Plain(UserRole, text)]
    ensures r.state.coach == s.coach && r.state.userTurns == s.userTurns
    ensures r.calls == [FinalReviewCall(s.coach, r.state.opponent.transcript)]
    ensures finalReview.CallFailed? ==> r.out == [Error(ProcessingError)]
    ensures finalReview.Returned? ==>
              r.out == [NegotiationComplete(finalReview.content, Opponent.HiddenState(s.opponent),
                                            r.state.opponent.transcript, true), Close]
  {
    var opp := Opponent.WithUserMessage(s.opponent, text);
    var s' := s.(opponent := opp);
    var calls := [FinalReviewCall(s.coach, opp.transcript)];
    match Coach.FinalAdvice(finalReview)
    case Err(_) => Step(s', [Error(ProcessingError)], calls)
    case Ok(advice) =>
      Opponent.HiddenStateReadsPersona(s.opponent, opp.transcript);
      Step(s', [NegotiationComplete(advice, Opponent.HiddenState(opp), opp.transcript, true), Close], calls)
  }

  /** What the handler sends for an analysis: nothing when skipped, the
      processing error when the call failed, the tip when it passes the filter. */
  function AnalysisOut(a: Coach.Analysis, maxChars: int): (r: seq<Outgoing>)
    ensures a.Skipped? ==> r == []
    ensures a.Failed? ==> r == [Error(ProcessingError)]
    ensures a.Analyzed? ==> r == (if ForwardTip(a.tip, maxChars).Some? then [CoachTip(a.tip.value)] else [])
  {
    match a
    case Skipped => []
    case Failed => [Error(ProcessingError)]
    case Analyzed(tip) => if ForwardTip(tip, maxChars).Some? then [CoachTip(tip.value)] else []
  }

  /** The coaching step after a successful response, for the new turn count. */
  function CoachStep(s: LiveSession, reply: Completion): (r: Step)
    ensures r.state.opponent == s.opponent && r.state.userTurns == s.userTurns
    ensures !ShouldCoach(s.schedule, s.userTurns) ==> r == Step(s, [], [])
    ensures ShouldCoach(s.schedule, s.userTurns) && |s.opponent.transcript| > s.coach.lastAnalyzedTurn ==>
              r.calls == [AnalysisCall(s.coach, s.opponent.transcript)]
  {
    if !ShouldCoach(s.schedule, s.userTurns) then Step(s, [], [])
    else
      var analyzed := Coach.AnalyzeTurn(s.coach, s.opponent.transcript, reply);
      var calls := if analyzed.1.Skipped? then [] else [AnalysisCall(s.coach, s.opponent.transcript)];
      Step(s.(coach := analyzed.0), AnalysisOut(analyzed.1, s.schedule.maxChars), calls)
  }

  /** `process_user_message(text)`. */
  function ProcessUserMessage(s: LiveSession, text: string, replies: Replies): (r: Step)
    ensures IsAcceptance(s.phrases, text) ==> r == AcceptTurn(s, text, replies.finalReview)
    ensures !IsAcceptance(s.phrases, text) ==>
              |r.calls| >= 1 && r.calls[0] == ResponseCall(Opponent.ResponseRequest(s.opponent, text))
    ensures !IsAcceptance(s.phrases, text) && replies.opponent.CallFailed? ==>
              r.out == [Error(ProcessingError)] && r.calls == [ResponseCall(Opponent.ResponseRequest(s.opponent, text))]
              && r.state.userTurns == s.userTurns && r.state.coach == s.coach
              && r.state.opponent.transcript == s.opponent.transcript + [Plain(UserRole, text)]
    ensures !IsAcceptance(s.phrases, text) && replies.opponent.Returned? ==>
              var reply := Opponent.ReplyText(replies.opponent.content);
              && r.state.userTurns == s.userTurns + 1
              && |r.out| >= 2 && r.out[..2] == [OpponentText(reply), Speak(reply)]
              && r.state.opponent.transcript == s.opponent.transcript + [Plain(UserRole, text), Plain(AssistantRole, reply)]
    ensures r.state.phrases == s.phrases && r.state.schedule == s.schedule
    ensures r.state.pendingTranscript == s.pendingTranscript && r.state.timer == s.timer
  {
    if IsAcceptance(s.phrases, text) then AcceptTurn(s, text, replies.finalReview)
    else
      var (opp, response) := Opponent.GetResponse(s.opponent, text, replies.opponent);
      var call := ResponseCall(Opponent.ResponseRequest(s.opponent, text));
      match response
      case Err(_) => Step(s.(opponent := opp), [Error(ProcessingError)], [call])
      case Ok(reply) =>
        var s1 := s.(opponent := opp, userTurns := s.userTurns + 1);
        var coached := CoachStep(s1, replies.coach);
        Step(coached.state, [OpponentText(reply), Speak(reply)] + coached.out, [call] + coached.calls)
  }

  /** Every turn keeps the coach's cursor within the transcript. */
  lemma ProcessKeepsValid(s: LiveSession, text: string, replies: Replies)
    requires Valid(s)
    ensures Valid(ProcessUserMessage(s, text, replies).state)
  {
  }

  /** Inside the negotiation the coach is never short-circuited: each
      successful response grows the transcript past the cursor, so every turn
      that the cadence selects makes an analysis call. */
  lemma CoachAlwaysAnalyses(s: LiveSession, text: string, replies: Replies)
    requires Valid(s)
    requires !IsAcceptance(s.phrases, text) && replies.opponent.Returned?
    ensures var r := ProcessUserMessage(s, text, replies);
            |r.calls| == (if ShouldCoach(s.schedule, s.userTurns + 1) then 2 else 1)
  {
  }

  /** After a successful response, everything sent beyond the opponent's text
      and audio comes from the coaching step for the new turn count. */
  lemma ResponseThenCoach(s: LiveSession, text: string, replies: Replies)
    requires !IsAcceptance(s.phrases, text) && replies.opponent.Returned?
    ensures var opp := Opponent.GetResponse(s.opponent, text, replies.opponent).0;
            var reply := Opponent.ReplyText(replies.opponent.content);
            var coached := CoachStep(s.(opponent := opp, userTurns := s.userTurns + 1), replies.coach);
            ProcessUserMessage(s, text, replies).out == [OpponentText(reply), Speak(reply)] + coached.out
  {
  }

  /** The texts of the coach tips among the sent messages, in order. */
  function TipsSent(out: seq<Outgoing>): seq<string> {
    if |out| == 0 then []
    else (if out[0].CoachTip? then [out[0].text] else []) + TipsSent(out[1..])
  }

  /** The tips an analysis result sends: its tip when there is one and it
      passes the filter, nothing otherwise. */
  lemma AnalysisOutTips(a: Coach.Analysis, maxChars: int)
    ensures TipsSent(AnalysisOut(a, maxChars)) ==
              if a.Analyzed? && ForwardTip(a.tip, maxChars).Some? then [a.tip.value] else []
  {
    var out := AnalysisOut(a, maxChars);
    if |out| == 1 {
      assert out[1..] == [];
    }
  }

  /** A coach tip is sent exactly when the cadence selects the turn, the model
      answers with a tip that is not a pass, and the tip passes the filter;
      it is sent as the model wrote it, stripped, never shortened. */
  lemma CoachTipSentIff(s: LiveSession, text: string)
    requires |s.opponent.transcript| > s.coach.lastAnalyzedTurn
    ensures var tip := Strip(text);
            TipsSent(CoachStep(s, Returned(Some(text))).out) ==
              if ShouldCoach(s.schedule, s.userTurns) && !Coach.IsPass(tip) && ForwardTip(Some(tip), s.schedule.maxChars).Some?
              then [tip] else []
  {
    var r := CoachStep(s, Returned(Some(text)));
    if ShouldCoach(s.schedule, s.userTurns) {
      var analyzed := Coach.AnalyzeTurn(s.coach, s.opponent.transcript, Returned(Some(text)));
      assert r.out == AnalysisOut(analyzed.1, s.schedule.maxChars);
      AnalysisOutTips(analyzed.1, s.schedule.maxChars);
      Coach.PassSuppressedIff(s.coach, s.opponent.transcript, text);
    } else {
      assert r.out == [];
    }
  }

  /** Without a text from the model no tip is sent. */
  lemma NoReplyNoTip(s: LiveSession, reply: Completion)
    requires reply.CallFailed? || reply.content.None?
    ensures TipsSent(CoachStep(s, reply).out) == []
  {
    var r := CoachStep(s, reply);
    if ShouldCoach(s.schedule, s.userTurns) {
      var analyzed := Coach.AnalyzeTurn(s.coach, s.opponent.transcript, reply);
      assert r.out == AnalysisOut(analyzed.1, s.schedule.maxChars);
      AnalysisOutTips(analyzed.1, s.schedule.maxChars);
    } else {
      assert r.out == [];
    }
  }

  // ---------------------------------------------------------------------------
  // Debounce buffer
  // ---------------------------------------------------------------------------

  /** `_schedule_transcript_flush()`: without an event loop nothing happens;
      otherwise a new flush is armed and any earlier one is cancelled. */
  function Schedule(s: LiveSession): (r: LiveSession)
    ensures !s.hasLoop ==> r == s
    ensures s.hasLoop ==> r.timer == Armed(r.generation) && r.generation == s.generation + 1
    ensures r.pendingTranscript == s.pendingTranscript && r.opponent == s.opponent && r.coach == s.coach
  {
    if !s.hasLoop then s
    else s.(generation := s.generation + 1, timer := Armed(s.generation + 1))
  }

  /** `on_deepgram_message` for a recognition result with the given
      alternatives: the first alternative is echoed to the client when it is
      non-empty, and buffered (replacing what was pending) when it is not blank. */
  function OnTranscript(s: LiveSession, alternatives: seq<string>, isFinal: bool): (r: (LiveSession, seq<Outgoing>))
    ensures |alternatives| == 0 ==> r == (s, [])
    ensures |alternatives| > 0 && Strip(alternatives[0]) != "" ==>
              r.0.pendingTranscript == alternatives[0] && r.0.currentTranscription == alternatives[0]
              && r.0 == Schedule(s.(pendingTranscript := alternatives[0], currentTranscription := alternatives[0]))
    ensures |alternatives| > 0 && Strip(alternatives[0]) == "" ==> r.0 == s
    ensures r.1 != [] <==> |alternatives| > 0 && alternatives[0] != "" && s.hasLoop
    ensures r.1 != [] ==> r.1 == [Transcription(alternatives[0], isFinal)]
    ensures Valid(s) ==> Valid(r.0)
  {
    if |alternatives| == 0 then (s, [])
    else
      var text := alternatives[0];
      var out := if text != "" && s.hasLoop then [Transcription(text, isFinal)] else [];
      if Strip(text) != "" then
        (Schedule(s.(currentTranscription := text, pendingTranscript := text)), out)
      else (s, out)
  }

  /** `_flush_transcript_after_pause()` when the timer of generation `g` goes
      off. A cancelled (older) timer does nothing; a blank buffer dispatches
      nothing; otherwise the buffer is cleared and its stripped text processed. */
  function Fire(s: LiveSession, g: nat, replies: Replies): (r: Step)
    ensures s.timer != Armed(g) ==> r == Step(s, [], [])
    ensures s.timer == Armed(g) && Strip(s.pendingTranscript) == "" ==>
              r == Step(s.(timer := Idle), [], [])
    ensures s.timer == Armed(g) && Strip(s.pendingTranscript) != "" ==>
              r == ProcessUserMessage(s.(timer := Idle, pendingTranscript := ""), Strip(s.pendingTranscript), replies)
    ensures s.timer == Armed(g) ==> r.state.pendingTranscript == "" || r.state.pendingTranscript == s.pendingTranscript
  {
    if s.timer != Armed(g) then Step(s, [], [])
    else
      var s1 := s.(timer := Idle);
      var text := Strip(s.pendingTranscript);
      if text == "" then Step(s1, [], [])
      else ProcessUserMessage(s1.(pendingTranscript := ""), text, replies)
  }

  /** Flushing keeps the coach's cursor within the transcript. */
  lemma FireKeepsValid(s: LiveSession, g: nat, replies: Replies)
    requires Valid(s)
    ensures Valid(Fire(s, g, replies).state)
  {
    if s.timer == Armed(g) && Strip(s.pendingTranscript) != "" {
      ProcessKeepsValid(s.(timer := Idle, pendingTranscript := ""), Strip(s.pendingTranscript), replies);
    }
  }

  /** The latest fragment wins: of two non-blank fragments only the second is
      buffered, and the flush scheduled for the first is cancelled. */
  lemma LatestFragmentWins(s: LiveSession, a: string, b: string, replies: Replies)
    requires s.hasLoop && Strip(a) != "" && Strip(b) != ""
    ensures var s1 := OnTranscript(s, [a], true).0;
            var s2 := OnTranscript(s1, [b], true).0;
            && s2.pendingTranscript == b
            && Fire(s2, s1.generation, replies) == Step(s2, [], [])
            && Fire(s2, s2.generation, replies).state.pendingTranscript == ""
  {
  }

  /** A timer fires at most once: after it has gone off, firing it again does nothing. */
  lemma FireOnce(s: LiveSession, g: nat, replies: Replies, again: Replies)
    requires s.timer == Armed(g)
    ensures var r := Fire(s, g, replies);
            Fire(r.state, g, again) == Step(r.state, [], [])
  {
  }

  // ---------------------------------------------------------------------------
  // Opening and the client's control messages
  // ---------------------------------------------------------------------------

  /** `get_opening_message()`: the opening is sent and spoken; a failure is
      only logged, so nothing is sent. */
  function GetOpeningMessage(s: LiveSession, reply: Completion): (r: Step)
    ensures r.calls == [OpeningCall(Opponent.OpeningRequest(s.opponent))]
    ensures reply.CallFailed? ==> r.out == [] && r.state == s
    ensures reply.Returned? ==>
              var text := Opponent.ReplyText(reply.content);
              r.out == [OpponentOpening(text), Speak(text)]
              && r.state.opponent.transcript == s.opponent.transcript + [Plain(AssistantRole, text)]
    ensures Valid(s) ==> Valid(r.state)
  {
    var res := Opponent.GetOpening(s.opponent, reply);
    var calls := [OpeningCall(Opponent.OpeningRequest(s.opponent))];
    if res.1.Err? then Step(s, [], calls)
    else Step(s.(opponent := res.0), [OpponentOpening(res.1.value), Speak(res.1.value)], calls)
  }

  /** The client's `end_negotiation` message: the final review over the whole
      transcript, sent without `auto_ended`; a failed review sends the error text. */
  function EndNegotiation(s: LiveSession, finalReview: Completion): (r: Step)
    ensures r.state == s
    ensures r.calls == [FinalReviewCall(s.coach, s.opponent.transcript)]
    ensures finalReview.Returned? ==>
              r.out == [NegotiationComplete(finalReview.content, Opponent.HiddenState(s.opponent), s.opponent.transcript, false)]
    ensures finalReview.CallFailed? ==> |r.out| == 1 && r.out[0].Error?
  {
    var calls := [FinalReviewCall(s.coach, s.opponent.transcript)];
    match Coach.FinalAdvice(finalReview)
    case Err(e) => Step(s, [Error(e)], calls)
    case Ok(advice) =>
      Step(s, [NegotiationComplete(advice, Opponent.HiddenState(s.opponent), s.opponent.transcript, false)], calls)
  }

  /** The client's `get_transcript` message. */
  function GetTranscriptMessage(s: LiveSession): (r: Outgoing)
    ensures r == TranscriptReply(s.opponent.transcript)
  {
    TranscriptReply(s.opponent.transcript)
  }

  /** What `get_transcript` reports after a user turn: the earlier transcript
      with the user's text appended on every path, followed by the opponent's
      reply when the response call returned. */
  lemma TranscriptAfterTurn(s: LiveSession, text: string, replies: Replies)
    ensures var before := GetTranscriptMessage(s).transcript;
            var after := GetTranscriptMessage(ProcessUserMessage(s, text, replies).state).transcript;
            && |after| >= |before| + 1
            && after[..|before| + 1] == before + [Plain(UserRole, text)]
            && (!IsAcceptance(s.phrases, text) && replies.opponent.Returned? ==>
                  after == before + [Plain(UserRole, text), Plain(AssistantRole, Opponent.ReplyText(replies.opponent.content))])
            && (IsAcceptance(s.phrases, text) || replies.opponent.CallFailed? ==> after == before + [Plain(UserRole, text)])
  {
    var before := s.opponent.transcript;
    var r := ProcessUserMessage(s, text, replies);
    var user := Plain(UserRole, text);
    if IsAcceptance(s.phrases, text) {
      assert r.state.opponent.transcript == before + [user];
    } else if replies.opponent.CallFailed? {
      assert r.state.opponent.transcript == before + [user];
    } else {
      var reply := Plain(AssistantRole, Opponent.ReplyText(replies.opponent.content));
      assert r.state.opponent.transcript == before + [user, reply];
      assert (before + [user, reply])[..|before| + 1] == before + [user];
    }
  }
}
