# A Dafny model of the impasse negotiation-practice core

impasse is a negotiation-practice platform. A scenario text is parsed into a
briefing for two agents: an opponent that role-plays the counterparty and a
coach that whispers tips. A live session relays speech between the user and
the opponent, with the coach on a cadence, and a post-mortem agent reviews
the finished transcript. This project models, as pure Dafny functions over
immutable datatypes:

- the negotiation session record (`Session`): its status lifecycle, the
  append-only transcript and its turn numbering, the transcript projections,
  the message counts and the dictionary round trip used for storage;
- the live negotiation handler (`Negotiation`): the acceptance-phrase list and
  classifier, the coach cadence, the coach-tip filter, the debounce buffer
  between speech fragments, and the turn handler tying opponent and coach
  together;
- the coach agent's cursor, window, PASS filter and transcript formatter
  (`Coach`);
- the opponent agent's configuration defaults, transcript bookkeeping, the
  exact message list it sends, and its hidden state (`Opponent`);
- the post-mortem agent (`PostMortem`): its transcript formatter and turn
  headers, the timeline, the JSON fallback chain, the summary and the
  opponent reveal;
- the post-mortem routes (`PostMortemRoutes`): the frontend transformation
  (grade table, strengths, improvements, the six metrics, key moments), the
  session and analysis stores, and the request, read and video endpoints;
- the scenario parser (`ScenarioParser`), with Python's regular-expression
  semantics written out: leftmost match, lazy groups that end at the first
  position where the lookahead holds, `$` before a final newline, greedy
  classes;
- the video-call session map (`VideoCall`).

The shared modules are `Base` (Option and Result), `Text` (Python's `strip`,
`lower`, `upper`, `title`, `in`, `find`, `split`, `join` and `str(int)`), `Json`
(a dynamic value standing for a Python dict, list, str, int, bool or None, with
`.get`, truthiness and `str()`), and `Chat` (chat messages and the outcome of a
language-model call).

Everything the code gets from outside is a parameter:

- A language-model call is a `Completion`: either the call raised, or it
  returned a content that may be `None`.
- `json.loads` is a partial function `decode`.
- `datetime.fromisoformat(...).strftime(...)` is a partial function `clock`.
- The current time, fresh identifiers and the event-loop flag are arguments.
- The wording of every system prompt is a function given at construction.
- Whether a WebSocket send succeeds is an argument.

Some behaviour of the code is worth stating up front:

- The handler detects only acceptance in the user's words. The code has no
  deal-close or walk-away detector, no barge-in and no retry on another
  model.
- The session lifecycle has no guards. Ending an abandoned session makes it
  COMPLETED (`Session.TerminalStatesNotAbsorbing`).
- The turn-numbering invariant holds only when the opening is added before
  any user message (`Session.AddOpeningNumberedIff`,
  `Session.OpeningAfterUserBreaksOrder`).

## Model

| member | source | states |
|---|---|---|
| Session.StatusValueBijective | backend/app/core/session.py:18-24 | the six status values and the six statuses correspond one to one: a status's value parses back to it, and a value that parses to a status is that status's value |
| Session.NewSession | backend/app/core/session.py:77-106 | a new session is CREATED at turn 0 with an empty transcript and no start or end time; its opponent name is the configuration's "counterparty_name", or "Opponent" when that key is missing |
| Session.Start | backend/app/core/session.py:112-115 | the status becomes IN_PROGRESS with the start time set; the end time, turn, transcript and every other field are kept |
| Session.Pause | backend/app/core/session.py:117-119 | the status becomes PAUSED and nothing else changes |
| Session.Resume | backend/app/core/session.py:121-124 | only a PAUSED session changes, to IN_PROGRESS; a session in any other status is returned unchanged |
| Session.End | backend/app/core/session.py:126-129 | the status becomes COMPLETED with the end time set, from any status; the start time and the content are kept |
| Session.Abandon | backend/app/core/session.py:131-134 | the status becomes ABANDONED with the end time set, from any status; the content is kept |
| Session.TerminalStatesNotAbsorbing | backend/app/core/session.py:112-134 | the terminal statuses are not absorbing: ending an abandoned session gives COMPLETED, and starting a completed one gives IN_PROGRESS |
| Session.PauseResume | backend/app/core/session.py:117-124 | pause then resume gives IN_PROGRESS with the content untouched, and a second resume changes nothing |
| Session.AddUserMessage | backend/app/core/session.py:140-169 | the turn counter goes up by one and exactly one user entry is appended, carrying the new turn; the timestamp is the given one, or the clock when it is missing or empty; earlier entries are kept, and every other field (status, start and end times, configurations, title, opponent name, video URL) is unchanged |
| Session.AddOpponentMessage | backend/app/core/session.py:171-200 | exactly one assistant entry is appended, carrying the current turn (the turn of the user message it answers); the counter does not move, earlier entries are kept and every other field is unchanged |
| Session.AddOpeningMessage | backend/app/core/session.py:202-220 | exactly one assistant entry of turn 0 is appended, the counter does not move, earlier entries are kept and every other field is unchanged |
| Session.NewSessionNumbered | backend/app/core/session.py:86-91 | a fresh session satisfies the numbering invariant: each entry's turn is the number of user entries up to it, and the counter is the number of user entries |
| Session.AddUserKeepsNumbered | backend/app/core/session.py:140-169 | adding a user message keeps the numbering invariant |
| Session.AddOpponentKeepsNumbered | backend/app/core/session.py:171-200 | adding an opponent message keeps the numbering invariant |
| Session.AddOpeningNumberedIff | backend/app/core/session.py:202-220 | adding the opening keeps the numbering invariant if and only if no user message has been added yet |
| Session.NumberedTurnsNonDecreasing | backend/app/core/session.py:151-162 | under the invariant, turn numbers never decrease along the transcript |
| Session.NumberedUserTurnsIncrease | backend/app/core/session.py:151-162 | under the invariant, a later user entry has a strictly larger turn than any earlier entry, so no two user entries share a turn |
| Session.OpeningAfterUserBreaksOrder | backend/app/core/session.py:202-220 | an opening added after a user message gives a turn-0 entry after a turn-1 entry, so the turns decrease |
| Session.Dicts | backend/app/core/session.py:226-231 | one dictionary per entry, in order, each that entry's dictionary |
| Session.GetLlmTranscript | backend/app/core/session.py:233-241 | the same length as the transcript, and entry i carries exactly entry i's role and content, with no turn or timestamp |
| Session.RecentEntries | backend/app/core/session.py:243-248 | for n >= 1 the last min(n, len) entries; for n = 0 the whole transcript, since `transcript[-0:]` is the whole list; for negative n, Python's slice from -n |
| Session.LastWithRole | backend/app/core/session.py:250-262 | None if and only if no entry has the role; otherwise the content of an entry with the role after which no entry has it |
| Session.GetMessageCount | backend/app/core/session.py:284-288 | the user count and the opponent count are the numbers of entries with those roles, the total is the transcript length, and user plus opponent is at most the total |
| Session.NumberedUserCountIsTurnCount | backend/app/core/session.py:280-288 | under the numbering invariant, the number of user entries equals the turn count |
| Session.EntryRoundTrip | backend/app/core/session.py:37-46 | reading an entry's dictionary back gives the same entry |
| Session.EntriesRoundTrip | backend/app/core/session.py:342-352 | reading a list of entry dictionaries back gives the same entries in order |
| Session.ToDictRequiredFields | backend/app/core/session.py:301-320 | the dictionary holds the four fields `from_dict` requires, as the session has them |
| Session.ToDictIdentityFields | backend/app/core/session.py:301-320 | the dictionary holds the session id and the status's value |
| Session.ToDictClockFields | backend/app/core/session.py:301-320 | the dictionary holds the turn counter and the creation time |
| Session.ToDictOptionalFields | backend/app/core/session.py:301-320 | the dictionary holds the start and end times, the title and the video URL, with None for a missing one |
| Session.ToDictContentFields | backend/app/core/session.py:301-320 | the dictionary holds the opponent's name and the transcript's dictionaries |
| Session.ReadStateRoundTrip | backend/app/core/session.py:331-334 | reading the identity, status, turn and creation fields from a session's dictionary gives back the session's values |
| Session.ReadOptionalsRoundTrip | backend/app/core/session.py:335-340 | reading the optional fields from a session's dictionary gives back the session's values |
| Session.ReadTranscriptRoundTrip | backend/app/core/session.py:342-352 | reading the transcript from a session's dictionary gives back the session's transcript |
| Session.ToDictFromDict | backend/app/core/session.py:301-354 | serialising a session and reading it back gives the same session, whatever fresh id and clock reading `from_dict` would fall back to |
| Coach.ReadContext | agents/coach_agent/coach.py:43-48 | each of the six context fields is the configuration's value under its key, or "" when the key is missing |
| Coach.NewCoach | agents/coach_agent/coach.py:28-50 | a new coach has cursor 0, the context read from the configuration, and the system prompt built from that context |
| Coach.SpeakerLabel | agents/coach_agent/coach.py:216 | "User" exactly for the user role and "Opponent" for every other role |
| Coach.FormatLine | agents/coach_agent/coach.py:216-224 | "[Turn t] Role: content" when the message has a turn, otherwise "Role: content" |
| Coach.FormatLines | agents/coach_agent/coach.py:214-225 | one formatted line per message, in order |
| Coach.FormatTranscriptLines | agents/coach_agent/coach.py:207-226 | for a non-empty list in which no content holds a newline, splitting the formatted transcript on newlines gives back exactly one line per message |
| Coach.RecentWindow | agents/coach_agent/coach.py:140 | the last min(4, len) messages |
| Coach.AnalysisRequest | agents/coach_agent/coach.py:143-146 | two messages: the system prompt, then "Analyze this exchange:" over the formatted window |
| Coach.AnalyzeTurn | agents/coach_agent/coach.py:124-164 | no call is made if and only if the transcript is no longer than the cursor; an analysed call moves the cursor to the transcript length, strictly forward; a skipped or failed call leaves the coach unchanged; a tip is never a pass and has no whitespace at its ends |
| Coach.PassSuppressedIff | agents/coach_agent/coach.py:155-164 | the tip is None if and only if the stripped reply upper-cases to "PASS"; otherwise it is the stripped reply |
| Coach.LowerCasePassSuppressed | agents/coach_agent/coach.py:161-162 | "pass" in lower case is suppressed too |
| Coach.PassWithPeriodReturned | agents/coach_agent/coach.py:161-164 | "PASS." is not a pass and is returned as the tip |
| Coach.SecondCallSkipped | agents/coach_agent/coach.py:136-158 | after an analysed call, the same transcript again makes no call and leaves the coach as it is, even when the first tip was suppressed |
| Coach.Reset | agents/coach_agent/coach.py:203-205 | the cursor returns to 0 and nothing else changes |
| Coach.ResetReanalyzes | agents/coach_agent/coach.py:203-205 | after a reset, any non-empty transcript is analysed again |
| Coach.FinalAdviceRequest | agents/coach_agent/coach.py:176-192 | two messages: the final-review prompt, then the whole formatted transcript with no window |
| Coach.FinalAdvice | agents/coach_agent/coach.py:194-201 | an error exactly when the call fails; otherwise the reply's content as it is, None included |
| Coach.FinalAdviceIgnoresCursor | agents/coach_agent/coach.py:166-201 | the final review's request does not depend on the cursor |
| Opponent.ReadPersona | agents/op_agent/op.py:27-35 | each of the nine persona fields is the configuration's value, or its default: "Counterparty" for the name, "neutral" for the personality, an empty list for the constraints, "" otherwise |
| Opponent.NewOpponent | agents/op_agent/op.py:11-44 | a new opponent has an empty transcript, the persona read from the configuration, and prompts built from that persona |
| Opponent.EmptyConfigDefaults | agents/op_agent/op.py:27-35 | an empty configuration gives every default at once |
| Opponent.OpeningRequest | agents/op_agent/op.py:120-123 | two messages: the system prompt, then the opening instruction |
| Opponent.ReplyText | agents/op_agent/op.py:132 | the reply's content, or "" when it is None |
| Opponent.GetOpening | agents/op_agent/op.py:108-137 | a failed call is an error and leaves the opponent unchanged; otherwise the reply's text ("" for None) is returned and appended as one assistant entry |
| Opponent.WithUserMessage | agents/op_agent/op.py:143-144 | the user's message is appended as one user entry |
| Opponent.ResponseRequest | agents/op_agent/op.py:146-149 | the system prompt followed by the whole transcript, including the new user message and with no window |
| Opponent.GetResponse | agents/op_agent/op.py:139-164 | the user entry is appended before the call, so it stays even when the call fails; a returned reply appends one assistant entry holding the returned text |
| Opponent.ResponseAppendsOnly | agents/op_agent/op.py:139-164 | the old transcript is a prefix of the new one, which grows by exactly two entries when the call returns |
| Opponent.ResponseKeepsAlternating | agents/op_agent/op.py:139-164 | an odd-length transcript that alternates assistant and user, starting with the assistant, still alternates and has odd length after a returned response |
| Opponent.OpeningStartsAlternating | agents/op_agent/op.py:108-137 | a returned opening on an empty transcript gives one assistant entry, which starts the alternation |
| Opponent.HiddenState | agents/op_agent/op.py:166-177 | a dictionary with exactly the eight keys name, objectives, interests, batna, constraints, info_asymmetries, personality and disposition, each holding the persona's value for it unchanged |
| Opponent.HiddenStateReadsPersona | agents/op_agent/op.py:166-177 | the hidden state does not depend on the transcript, and each of its eight values is the persona's value unchanged |
| Negotiation.CleanPhrases | backend/app/websockets/v1/negotiation.py:109-115 | at most one phrase per part, and no phrase is empty |
| Negotiation.CleanPhrasesMembers | backend/app/websockets/v1/negotiation.py:109-115 | a text is a phrase if and only if some part strips to a non-blank text whose lower-case form it is |
| Negotiation.ParsePhrases | backend/app/websockets/v1/negotiation.py:109-115 | the phrases from the comma-separated setting: none empty, at most one per comma-separated part |
| Negotiation.CleanPhrasesKeepOut | backend/app/websockets/v1/negotiation.py:109-115 | cleaning adds no character that is not a letter |
| Negotiation.PhrasesHaveNoComma | backend/app/websockets/v1/negotiation.py:109-115 | no phrase contains a comma |
| Negotiation.AcceptanceIgnoresCase | backend/app/websockets/v1/negotiation.py:329-335 | the classifier lower-cases before it compares, so an upper-cased text is accepted exactly when the text itself is |
| Negotiation.AcceptancePhraseUnion | backend/app/websockets/v1/negotiation.py:329-335 | the configured phrases act independently: under a concatenated phrase list a text is accepted if and only if it is accepted under one of the two parts, so adding phrases never rejects a text that was accepted |
| Negotiation.BlankNeverAccepts | backend/app/websockets/v1/negotiation.py:330-332 | a blank text never accepts |
| Negotiation.DoNotImpliesNot | backend/app/websockets/v1/negotiation.py:333 | "do not" contains "not", so the third negation word adds nothing |
| Negotiation.NothingBlocksAccept | backend/app/websockets/v1/negotiation.py:333-334 | the negation test is on substrings, so "accept nothing" is blocked by the "not" inside "nothing" |
| Negotiation.NegationWithoutAcceptIsIgnored | backend/app/websockets/v1/negotiation.py:333-335 | without "accept" in the text, a negation word does not stop a phrase match |
| Negotiation.Cadence | backend/app/websockets/v1/negotiation.py:248 | the early cadence up to the early-turns bound, the steady cadence after it |
| Negotiation.NonPositiveCadenceNeverCoaches | backend/app/websockets/v1/negotiation.py:248-249 | a cadence of zero or less never asks the coach |
| Negotiation.DefaultCadenceGap | backend/app/websockets/v1/negotiation.py:105-108 | with the default settings the coach is asked at least once in every three consecutive turns |
| Negotiation.DefaultCadenceEarlyTurns | backend/app/websockets/v1/negotiation.py:105-108 | with the default settings the coach is asked on turns 2, 4 and 6 and not on 1, 3 or 5 |
| Negotiation.ForwardTip | backend/app/websockets/v1/negotiation.py:251 | a tip is forwarded unchanged if and only if it is non-empty, starts with the light bulb, and is at most the character limit |
| Negotiation.LongTipDropped | backend/app/websockets/v1/negotiation.py:251 | tips are never shortened: one character over the limit and the tip is dropped |
| Negotiation.NewLiveSession | backend/app/websockets/v1/negotiation.py:96-115 | a new live session has no user turns, an empty buffer, no timer, and the phrases parsed from the setting |
| Negotiation.NewLiveSessionValid | backend/app/websockets/v1/negotiation.py:49-115 | a new live session satisfies the cursor invariant: the coach's cursor does not pass the opponent's transcript |
| Negotiation.AcceptTurn | backend/app/websockets/v1/negotiation.py:219-231 | the acceptance path appends exactly one user entry, asks for the final review and not for an opponent reply, and sends `negotiation_complete` with auto-ended set and closes, or sends an error when the review call fails |
| Negotiation.AnalysisOut | backend/app/websockets/v1/negotiation.py:250-256 | a skipped analysis sends nothing, a failed one sends the processing error, and an analysed one sends its tip only when the tip filter forwards it |
| Negotiation.CoachStep | backend/app/websockets/v1/negotiation.py:247-256 | the coach is consulted only on cadence turns; on other turns nothing is sent or called |
| Negotiation.ProcessUserMessage | backend/app/websockets/v1/negotiation.py:216-263 | an accepting text takes the acceptance path; otherwise the opponent is asked, a failed call sends only the error, and a returned reply is sent, spoken and followed by the coaching step for the incremented turn count |
| Negotiation.ProcessKeepsValid | backend/app/websockets/v1/negotiation.py:216-263 | every turn keeps the coach's cursor within the opponent's transcript |
| Negotiation.CoachAlwaysAnalyses | backend/app/websockets/v1/negotiation.py:234-250 | a returned reply makes the opponent call plus exactly one coach call on cadence turns: the coach's cursor check never skips, because each response adds two entries |
| Negotiation.ResponseThenCoach | backend/app/websockets/v1/negotiation.py:237-256 | after a returned reply, the first message sent is the opponent's text and the rest comes from the coaching step |
| Negotiation.AnalysisOutTips | backend/app/websockets/v1/negotiation.py:250-256 | the tips an analysis sends are its tip when there is one and it passes the filter, and nothing otherwise |
| Negotiation.CoachTipSentIff | backend/app/websockets/v1/negotiation.py:248-256 | a tip is sent if and only if the cadence selects the turn, the stripped reply is not a pass, and it passes the filter |
| Negotiation.NoReplyNoTip | backend/app/websockets/v1/negotiation.py:250-256 | without a text from the model no tip is sent |
| Negotiation.Schedule | backend/app/websockets/v1/negotiation.py:337-345 | without an event loop nothing happens; otherwise a new timer generation replaces the pending one |
| Negotiation.OnTranscript | backend/app/websockets/v1/negotiation.py:151-185 | no alternatives: nothing; a non-empty fragment is echoed when there is a loop; a non-blank fragment replaces the buffer and rearms the timer; a blank one changes nothing |
| Negotiation.Fire | backend/app/websockets/v1/negotiation.py:347-353 | a timer that is not the current one does nothing; a blank buffer does nothing; otherwise the buffer is emptied and its stripped text is processed as a user message |
| Negotiation.FireKeepsValid | backend/app/websockets/v1/negotiation.py:347-353 | flushing keeps the cursor invariant |
| Negotiation.LatestFragmentWins | backend/app/websockets/v1/negotiation.py:179-182 | of two non-blank fragments only the second is processed, and the first timer no longer fires |
| Negotiation.FireOnce | backend/app/websockets/v1/negotiation.py:347-353 | a timer that has fired does nothing when fired again |
| Negotiation.GetOpeningMessage | backend/app/websockets/v1/negotiation.py:355-370 | the opening is requested; a failure sends nothing and changes nothing, a returned opening is sent and spoken |
| Negotiation.EndNegotiation | backend/app/websockets/v1/negotiation.py:458-469 | the final review over the whole transcript is sent with the hidden state, and the state is unchanged |
| Negotiation.GetTranscriptMessage | backend/app/websockets/v1/negotiation.py:471-475 | the reply carries the opponent's transcript; how it changes across a turn is stated by `Negotiation.TranscriptAfterTurn` |
| Negotiation.TranscriptAfterTurn | backend/app/websockets/v1/negotiation.py:471-475 | after a user turn the reported transcript is the earlier one with the user's text appended on every path (acceptance, failed call, returned call), followed by exactly the opponent's reply when the response call returned |
| PostMortem.ReadBriefing | agents/post_mortem/mortem.py:31-34 | each briefing field is the given value, or `{}` (or `[]` for the negotiables) when it is missing |
| PostMortem.ReadHidden | agents/post_mortem/mortem.py:37-42 | each hidden-state field is the given value, or "Opponent" for the name, `[]` for the constraints, "" otherwise |
| PostMortem.ReadCoachView | agents/post_mortem/mortem.py:45-47 | each coach field is the given value, or "" when it is missing |
| PostMortem.NewMortem | agents/post_mortem/mortem.py:16-47 | the agent holds the three readings and the prompt built from them |
| PostMortem.TimePrefix | agents/post_mortem/mortem.py:366-373 | empty exactly for a falsy timestamp; the parsed clock time in brackets when the timestamp parses; the timestamp itself in brackets otherwise |
| PostMortem.Speaker | agents/post_mortem/mortem.py:359 | "User" exactly for a user message, "Opponent" otherwise |
| PostMortem.Turns | agents/post_mortem/mortem.py:357 | each message's turn, 0 when it is missing |
| PostMortem.SaidLines | agents/post_mortem/mortem.py:375 | one line per message, in order |
| PostMortem.RenderLines | agents/post_mortem/mortem.py:364-375 | one rendered line per layout line |
| PostMortem.FormatTranscript | agents/post_mortem/mortem.py:351-377 | succeeds if and only if every message has a role and a content, and is then the rendered layout joined by newlines |
| PostMortem.LayoutKeepsEveryMessage | agents/post_mortem/mortem.py:356-375 | the layout holds exactly one line per message, in order, plus the headers |
| PostMortem.LayoutHeadersWellFormed | agents/post_mortem/mortem.py:361-364 | headers name only positive turns that occur in the transcript, no header repeats the turn of the one before it, and the first differs from the turn already headed |
| PostMortem.OneTurnOneHeader | agents/post_mortem/mortem.py:361-364 | messages all of one positive turn not headed before get exactly one header |
| PostMortem.NoNewHeader | agents/post_mortem/mortem.py:361-364 | messages of the turn just headed add no header |
| PostMortem.TranscriptLayoutShape | agents/post_mortem/mortem.py:351-377 | for a whole transcript: one line per message in order, and well-formed headers |
| PostMortem.EntryOf | agents/post_mortem/mortem.py:289-296 | the timeline entry copies the turn (0 when missing), the content and the timestamp, with role "user" exactly for a user message and "opponent" otherwise |
| PostMortem.Timeline | agents/post_mortem/mortem.py:281-313 | succeeds if and only if every message has a role and a content; then one entry per message, in order |
| PostMortem.TimelineAgreesWithTranscript | agents/post_mortem/mortem.py:281-377 | the timeline and the formatter accept the same transcripts and agree on roles; an integer turn in the timeline is the turn the formatter lays out, and any other turn value, passed through unchanged by the timeline, is laid out as turn 0 |
| PostMortem.FenceBounds | agents/post_mortem/mortem.py:389 | the lazy body of the first fenced block lies within the text and holds no fence |
| PostMortem.FencedBodyClean | agents/post_mortem/mortem.py:389 | the fenced body contains no fence |
| PostMortem.TwoFencesFound | agents/post_mortem/mortem.py:389-390 | two fences that do not overlap give a fenced block |
| PostMortem.FencedBodyIff | agents/post_mortem/mortem.py:389-390 | a fenced block is found if and only if the text holds two fences that do not overlap |
| PostMortem.BraceSpan | agents/post_mortem/mortem.py:397 | the greedy match starts with '{' and ends with '}' |
| PostMortem.BraceSpanIff | agents/post_mortem/mortem.py:397-398 | a brace span is found if and only if some '{' comes before some '}'; it runs from the first '{' to the last '}' |
| PostMortem.ErrorRecord | agents/post_mortem/mortem.py:405 | exactly the keys parse_error (true) and raw_response (the text) |
| PostMortem.Attempts | agents/post_mortem/mortem.py:382-402 | one to three candidate texts, the whole text first |
| PostMortem.FirstDecoded | agents/post_mortem/mortem.py:382-402 | None if and only if no candidate decodes; otherwise the decoding of some candidate |
| PostMortem.ParseJson | agents/post_mortem/mortem.py:379-405 | a text that decodes is returned decoded; when no attempt decodes the error record comes back; any other result is the decoding of one of the attempts |
| PostMortem.ParseJsonTakesFirst | agents/post_mortem/mortem.py:379-402 | when some attempt (whole text, fenced body, brace span) decodes, the result is the decoding of the first attempt, in that order, that does |
| PostMortem.FenceBeforeBraces | agents/post_mortem/mortem.py:387-402 | when the whole text does not decode and the fenced body does, the fenced body wins over the brace span |
| PostMortem.BracesLast | agents/post_mortem/mortem.py:397-402 | when neither the whole text nor the fenced body decodes, the decoded brace span is the result |
| PostMortem.AnalysisRequest | agents/post_mortem/mortem.py:160-165 | two messages: the system prompt and the analysis prompt over the formatted transcript |
| PostMortem.Analyze | agents/post_mortem/mortem.py:49-171 | succeeds if and only if every message has a role and a content and the call returns a content; the result is the stripped reply through the JSON fallback chain |
| PostMortem.Marker | agents/post_mortem/mortem.py:211 | one of the five markers, "[?]" exactly for an effectiveness outside the four known ones |
| PostMortem.MarkerRoundTrip | agents/post_mortem/mortem.py:211 | each known effectiveness can be read back from its marker, and only "[?]" reads back as unknown |
| PostMortem.TacticBlocks | agents/post_mortem/mortem.py:209-214 | one block per tactic, in order |
| PostMortem.MissedBlocks | agents/post_mortem/mortem.py:220-224 | one block per missed opportunity, in order |
| PostMortem.TurningBlocks | agents/post_mortem/mortem.py:230-232 | one block per turning point, in order |
| PostMortem.LessonBlocks | agents/post_mortem/mortem.py:238-241 | one block per lesson, numbered from 1 |
| PostMortem.HeadLines | agents/post_mortem/mortem.py:183-187 | the two header lines |
| PostMortem.OutcomeLines | agents/post_mortem/mortem.py:190-203 | five outcome lines, six when a value was left on the table; the objective line reads ACHIEVED if and only if the objective field is truthy |
| PostMortem.BottomLines | agents/post_mortem/mortem.py:244-246 | the three bottom-line lines |
| PostMortem.BodyLines | agents/post_mortem/mortem.py:189-241 | at least the five outcome lines |
| PostMortem.SummaryLines | agents/post_mortem/mortem.py:180-248 | at least ten lines, starting with the header and ending with the bottom line |
| PostMortem.GetSummary | agents/post_mortem/mortem.py:173-248 | for a parse error the raw response ("Analysis failed to parse." when missing); otherwise the summary lines joined by newlines |
| PostMortem.UnparsedReplyIsSummary | agents/post_mortem/mortem.py:170-178 | a reply none of whose attempts decodes becomes the summary itself, stripped |
| PostMortem.ErrorRecordSummary | agents/post_mortem/mortem.py:177-178 | the summary of the error record is its raw text |
| PostMortem.TacticSectionShape | agents/post_mortem/mortem.py:209-214 | three lines per tactic, tactic i at lines 3i to 3i+3 |
| PostMortem.MissedSectionShape | agents/post_mortem/mortem.py:220-224 | four lines per missed opportunity, opportunity i at lines 4i to 4i+4 |
| PostMortem.TurningSectionShape | agents/post_mortem/mortem.py:230-232 | two lines per turning point, point i at lines 2i to 2i+2 |
| PostMortem.LessonSectionShape | agents/post_mortem/mortem.py:238-241 | three lines per lesson, and lesson i is numbered i+1 |
| PostMortem.ConstraintLines | agents/post_mortem/mortem.py:263-267 | one "- c" line per element of a list, otherwise the value itself on one line |
| PostMortem.RevealShape | agents/post_mortem/mortem.py:250-279 | nine fixed lines, the constraint lines from line 5 on, and two more lines exactly when the interests are truthy; the name in bold on line 1; the reveal ends with the interests when they are truthy and with the planned tactics otherwise |
| PostMortemRoutes.MetricsOf | backend/app/routes/v1/postmortem.py:233-271 | six metrics labelled Communication, Strategy, Persuasion, Listening, Confidence, Adaptability in that order, each with change 0 and its own score |
| PostMortemRoutes.ParseErrorFrontend | backend/app/routes/v1/postmortem.py:145-159 | score 50, the fixed strength, one improvement that is exactly the first min(200, length) characters of the raw response (default "Unknown error"), six labelled metrics at 50, no key moments |
| PostMortemRoutes.GradePoints | backend/app/routes/v1/postmortem.py:166-174 | every grade scores between 45 and 95 |
| PostMortemRoutes.GradeScore | backend/app/routes/v1/postmortem.py:173-174 | a string grade scores its table entry; any other value scores 70 |
| PostMortemRoutes.GradeTableRoundTrip | backend/app/routes/v1/postmortem.py:166-172 | every grade of the table can be read back from its score, and a better grade scores strictly more |
| PostMortemRoutes.UnknownGradeLooksLikeCMinus | backend/app/routes/v1/postmortem.py:173-174 | a grade missing from the table scores 70, the score of "C-", so the two cannot be told apart |
| PostMortemRoutes.ConfidenceScore | backend/app/routes/v1/postmortem.py:264-265 | excellent 92, good 82, fair 68, poor 52; between 52 and 92, and 70 exactly when the rating is not one of the four known ratings |
| PostMortemRoutes.CountWhere | backend/app/routes/v1/postmortem.py:237-238 | the count of the elements that satisfy the test is at most the length |
| PostMortemRoutes.CommunicationScore | backend/app/routes/v1/postmortem.py:236-239 | between 50 and 95 |
| PostMortemRoutes.StrategyScore | backend/app/routes/v1/postmortem.py:243-247 | between 40 and 95: the overall score, raised by 10 (capped at 95) when only the objective was achieved, lowered by 15 (floored at 40) when only the outcome is worse than the BATNA, and min(80, overall - 5) when both hold, always below the overall score when the outcome is worse |
| PostMortemRoutes.PersuasionScore | backend/app/routes/v1/postmortem.py:251-255 | between 45 and 95 |
| PostMortemRoutes.ListeningScore | backend/app/routes/v1/postmortem.py:259-260 | between 50 and 95 |
| PostMortemRoutes.AdaptabilityScore | backend/app/routes/v1/postmortem.py:269-270 | between 55 and 95 |
| PostMortemRoutes.ListeningAndAdaptabilityClosedForm | backend/app/routes/v1/postmortem.py:259-270 | listening is 90 minus 10 per missed opportunity down to 50 at four, never above 90; adaptability is 75 plus 5 per turning point, capped at 95 |
| PostMortemRoutes.ScoresMonotone | backend/app/routes/v1/postmortem.py:234-260 | more effective tactics or fewer failed ones never lower persuasion, more intentional or fewer unintentional reveals never lower communication, and more missed opportunities never raise listening |
| PostMortemRoutes.NeutralAndFloorScores | backend/app/routes/v1/postmortem.py:234-255 | with nothing counted communication is 80 and persuasion 70; three or more unintentional reveals (failed tactics) with nothing on the other side give the floor of 50 (45) |
| PostMortemRoutes.Metrics | backend/app/routes/v1/postmortem.py:233-271 | six metrics with the six labels in order, each score in its own range and each given by its own formula over the analysis: the reveal counts, the overall score with the objective and BATNA flags, the tactic counts, the missed-opportunity count, the rating (default "fair") and the turning-point count |
| PostMortemRoutes.MissingRatingScoresFair | backend/app/routes/v1/postmortem.py:264-265 | an outcome without an overall rating is read as "fair", giving confidence 68 rather than the 70 of an unknown rating |
| PostMortemRoutes.EffectiveTacticNotes | backend/app/routes/v1/postmortem.py:184-186 | one strength per effective user tactic |
| PostMortemRoutes.FailedTacticNotes | backend/app/routes/v1/postmortem.py:223-225 | one improvement per ineffective or backfired user tactic |
| PostMortemRoutes.PositiveLessonNotes | backend/app/routes/v1/postmortem.py:189-191 | one strength per lesson that mentions "well" or "good" |
| PostMortemRoutes.AdviceLessonNotes | backend/app/routes/v1/postmortem.py:216-220 | one improvement per lesson that mentions an advice word |
| PostMortemRoutes.MissedNotes | backend/app/routes/v1/postmortem.py:212-213 | one "At turn t: ..." improvement per missed opportunity given, in order |
| PostMortemRoutes.OrDefault | backend/app/routes/v1/postmortem.py:201-202 | the list when it is non-empty, otherwise the default message alone |
| PostMortemRoutes.AllStrengths | backend/app/routes/v1/postmortem.py:177-202 | never empty |
| PostMortemRoutes.AllImprovements | backend/app/routes/v1/postmortem.py:205-229 | never empty |
| PostMortemRoutes.StrengthCount | backend/app/routes/v1/postmortem.py:177-202 | one strength per truthy biggest win, effective user tactic, positive lesson among the first two, achieved objective and better-than-BATNA outcome; the default alone when there is none |
| PostMortemRoutes.ImprovementCount | backend/app/routes/v1/postmortem.py:205-229 | one improvement per truthy biggest miss, missed opportunity among the first two, advice lesson and failed user tactic; the default alone when there is none |
| PostMortemRoutes.TurningMoments | backend/app/routes/v1/postmortem.py:277-283 | one moment per turning point given, in order |
| PostMortemRoutes.TacticMoments | backend/app/routes/v1/postmortem.py:286-292 | one positive moment per effective user tactic among those given |
| PostMortemRoutes.MissedMoments | backend/app/routes/v1/postmortem.py:295-300 | one moment per missed opportunity given, in order |
| PostMortemRoutes.CandidateMoments | backend/app/routes/v1/postmortem.py:274-300 | at most six moments |
| PostMortemRoutes.FallbackMoment | backend/app/routes/v1/postmortem.py:303-308 | time "0:00", and positive exactly when the overall score is at least 70 |
| PostMortemRoutes.KeyMoments | backend/app/routes/v1/postmortem.py:303-311 | one to five moments: the fallback alone when there is no candidate, otherwise the first five candidates |
| PostMortemRoutes.OverallScore | backend/app/routes/v1/postmortem.py:173-174 | between 45 and 95 |
| PostMortemRoutes.GradedFrontend | backend/app/routes/v1/postmortem.py:161-319 | the overall score, one to three strengths and improvements (the first three of each list), the metrics and one to five key moments |
| PostMortemRoutes.Transform | backend/app/routes/v1/postmortem.py:138-319 | the parse-error result exactly for an analysis marked as a parse error; otherwise the graded result for the analysis's overall score |
| PostMortemRoutes.MissingGradeScoresC | backend/app/routes/v1/postmortem.py:173-174 | an analysis without a grade scores 73, the score of the default "C" |
| PostMortemRoutes.OnlyFallbackMoment | backend/app/routes/v1/postmortem.py:274-308 | with no turning points, tactics or missed opportunities the only key moment is the fallback |
| PostMortemRoutes.TacticNotesMatchPersuasion | backend/app/routes/v1/postmortem.py:184-255 | the strengths and improvements drawn from tactics are counted by the same tests that drive the persuasion score |
| PostMortemRoutes.EffectiveAndFailedDisjoint | backend/app/routes/v1/postmortem.py:251-254 | no tactic is counted as both effective and failed |
| PostMortemRoutes.StoreSessionData | backend/app/routes/v1/postmortem.py:127-130 | the cached analyses are untouched |
| PostMortemRoutes.GetSessionData | backend/app/routes/v1/postmortem.py:133-135 | found if and only if the id was stored |
| PostMortemRoutes.StoreThenGet | backend/app/routes/v1/postmortem.py:127-135 | reading after storing gives the stored data back, and other ids are unaffected |
| PostMortemRoutes.AgentFor | backend/app/routes/v1/postmortem.py:349-367 | the agent's briefing (objectives, BATNA, success criteria, negotiables, with their defaults) and coach view are read from the coach configuration; its hidden state is the stored hidden state, or the opponent configuration when that is falsy |
| PostMortemRoutes.HiddenStateFeedsReveal | backend/app/routes/v1/postmortem.py:349-367 | when the stored hidden state is the one the opponent agent reports, the post-mortem's opponent holds exactly the persona's name, objectives, BATNA, constraints, disposition and interests, none replaced by a default |
| PostMortemRoutes.FallbackRevealLosesName | backend/app/routes/v1/postmortem.py:352-367 | without a hidden state the reveal reads the opponent configuration, whose name key is absent, so the opponent is called "Opponent" |
| PostMortemRoutes.RunAnalysis | backend/app/routes/v1/postmortem.py:347-385 | succeeds if and only if the transcript is a list, the analysis succeeds and its decoded value is a dictionary; the record holds that analysis and the agent built from the session |
| PostMortemRoutes.NonObjectAnalysisFails | backend/app/routes/v1/postmortem.py:145 | a reply that decodes to a list, number, string or null fails the request, since the transform reads "parse_error" from it as a dictionary |
| PostMortemRoutes.RequestPostMortem | backend/app/routes/v1/postmortem.py:322-399 | a cached id returns at once; a missing or empty session is a 404; a failed analysis is a 500 and leaves the stores unchanged; a success caches exactly that id; the session store never changes |
| PostMortemRoutes.RequestRunsAgent | backend/app/routes/v1/postmortem.py:322-399 | with the agent as the analysis, a success caches what the agent produced |
| PostMortemRoutes.RequestIdempotent | backend/app/routes/v1/postmortem.py:333-336 | a second request after a success changes nothing, whatever the analysis would give now |
| PostMortemRoutes.GetPostMortem | backend/app/routes/v1/postmortem.py:402-431 | runs the request when the id is not cached; 404 and 500 exactly when the request gives them; otherwise the frontend result of the cached record |
| PostMortemRoutes.GetFullPostMortem | backend/app/routes/v1/postmortem.py:434-451 | the cached record if and only if the id is cached, otherwise a 404 |
| PostMortemRoutes.ServedMatchesFull | backend/app/routes/v1/postmortem.py:402-451 | the frontend result served is the one in the full record |
| PostMortemRoutes.StoreKeepsCachedAnalysis | backend/app/routes/v1/postmortem.py:454-463 | storing new session data does not change a cached analysis |
| PostMortemRoutes.UpdateVideoUrl | backend/app/routes/v1/postmortem.py:471-490 | only the session's "video_url" changes; analyses, other sessions and the set of ids are kept, and an unknown id changes nothing |
| ScenarioParser.LazyEnd | agents/scenario_agent/scenario_parser.py:17-18 | a lazy group ends at the first position where its lookahead holds, and at none before |
| ScenarioParser.FirstGroup | agents/scenario_agent/scenario_parser.py:17-19 | a search for a literal followed by a lazy group and a lookahead gives "" when the literal does not occur in the text |
| ScenarioParser.FirstGroupAt | agents/scenario_agent/scenario_parser.py:17-19 | when the literal first occurs at `i` (and nowhere before), the match is that leftmost occurrence and the group is the stripped text after it up to the first position where the lookahead holds, or the end |
| ScenarioParser.ExtractSection | agents/scenario_agent/scenario_parser.py:15-19 | "" when the text does not contain "name:"; otherwise it is the `FirstGroup` search for "name:" with the header-line lookahead, so `FirstGroupAt` gives the section as the stripped text after the leftmost "name:" up to the first header line or the end |
| ScenarioParser.SectionIsStripped | agents/scenario_agent/scenario_parser.py:19 | a section has no whitespace at either end |
| ScenarioParser.SectionRoundTrip | agents/scenario_agent/scenario_parser.py:15-19 | a one-line section at the start, followed by the end of the text or a header line, comes back stripped |
| ScenarioParser.LowerSecondWordIsNoHeader | agents/scenario_agent/scenario_parser.py:17 | a line whose second word starts in lower case ("Points of Tension:") does not end a section |
| ScenarioParser.YourBatnaLineIsNoHeader | agents/scenario_agent/scenario_parser.py:17 | a line starting "Your BATNA" does not end a section |
| ScenarioParser.LabelledItem | agents/scenario_agent/scenario_parser.py:34-39 | "" when the label does not occur; otherwise it is the `FirstGroup` search for the label with the bullet lookahead, so `FirstGroupAt` gives the stripped text after its leftmost occurrence up to the first "\n- " or the end |
| ScenarioParser.PossessiveAt | agents/scenario_agent/scenario_parser.py:36-37 | a match starts with "- " and ends with the tail |
| ScenarioParser.FirstPossessive | agents/scenario_agent/scenario_parser.py:36-37 | a result is the end of some possessive match, and no result means no match exists; that it is the leftmost match is `ScenarioParser.FirstPossessiveAt` |
| ScenarioParser.FirstPossessiveAt | agents/scenario_agent/scenario_parser.py:36-37 | the search returns the leftmost match: when the pattern matches at `p` and nowhere before it, the result is that match |
| ScenarioParser.PartyAt | agents/scenario_agent/scenario_parser.py:45 | a match starts with "- " and its group is a non-empty run of letters and spaces |
| ScenarioParser.FirstParty | agents/scenario_agent/scenario_parser.py:45 | None if and only if no party line matches; otherwise some match's group; that it is the leftmost match is `ScenarioParser.FirstPartyAt` |
| ScenarioParser.FirstPartyAt | agents/scenario_agent/scenario_parser.py:45 | the search returns the leftmost party line: when the pattern matches at `p` and nowhere before it, the result is that match's name group |
| ScenarioParser.CounterpartyName | agents/scenario_agent/scenario_parser.py:45-46 | "Counterparty" when no party line matches; otherwise the stripped name of a matching line; which line is `ScenarioParser.CounterpartyIsFirstParty` |
| ScenarioParser.CounterpartyIsFirstParty | agents/scenario_agent/scenario_parser.py:45-46 | the counterparty is named by the first party line of the section, stripped, never by a later one |
| ScenarioParser.PartyLineMatches | agents/scenario_agent/scenario_parser.py:45 | the party pattern matches a line "- Name (Role):" at its start, with the name as its group |
| ScenarioParser.PartyLineRoundTrip | agents/scenario_agent/scenario_parser.py:45-46 | a section that starts with "- Name (Role):" gives the name back |
| ScenarioParser.UserLineIsNotPossessive | agents/scenario_agent/scenario_parser.py:34-37 | a "- Your ..." line never matches the counterparty's possessive pattern |
| ScenarioParser.TheyDontKnowStart | agents/scenario_agent/scenario_parser.py:55 | found if and only if the text holds "- " and its last " doesn't know:" starts at least three characters after the first "- "; the group then starts right after that last label |
| ScenarioParser.TheyDontKnowItem | agents/scenario_agent/scenario_parser.py:55-56 | "" without a match; otherwise the stripped rest of the line after the last label |
| ScenarioParser.LineHasNoNewline | agents/scenario_agent/scenario_parser.py:55 | a group that ends at the line's end holds no newline |
| ScenarioParser.NegotiableItem | agents/scenario_agent/scenario_parser.py:61-62 | "" when the scope does not contain "Negotiable:"; otherwise it is the `FirstGroup` search for "Negotiable:", so `FirstGroupAt` gives the stripped text after its leftmost occurrence up to the first "Non-negotiable:" or the end |
| ScenarioParser.YouDontKnowGuardRedundant | agents/scenario_agent/scenario_parser.py:51-53 | the `in` guard never changes the result: the guarded reading equals the unguarded one |
| ScenarioParser.TheyDontKnowGuardRedundant | agents/scenario_agent/scenario_parser.py:54-56 | the `in` guard never changes the result |
| ScenarioParser.NegotiableGuardRedundant | agents/scenario_agent/scenario_parser.py:60-62 | the `in` guard never changes the result |
| ScenarioParser.ParseScenario | agents/scenario_agent/scenario_parser.py:64-90 | every one of the sixteen fields comes from its own section: the opponent's objectives and interests are the counterparty's possessive lines of the objectives section, the coach's objectives the "- Your objectives:" line; the opponent's "batna" is what the user does not know and its "information_asymmetries" what the counterparty does not know; the coach gets the whole asymmetries section; personality is "professional"; the full text is kept |
| VideoCall.NewManager | backend/app/websockets/v1/api.py:22-23 | no sessions |
| VideoCall.Create | backend/app/websockets/v1/api.py:25-34 | the id gets the new user and agent and an empty transcript, even when it existed before; other sessions are unchanged |
| VideoCall.End | backend/app/websockets/v1/api.py:38-42 | the id is removed and other sessions are unchanged; an absent id changes nothing |
| VideoCall.Get | backend/app/websockets/v1/api.py:53-55 | None if and only if the id is unknown |
| VideoCall.AddToTranscript | backend/app/websockets/v1/api.py:57-63 | exactly one {role, message} line at the end of the transcript if the id exists, nothing otherwise; user, agent and other sessions are unchanged |
| VideoCall.GetTranscript | backend/app/websockets/v1/api.py:65-69 | the transcript, or [] for an unknown id |
| VideoCall.SendToUser | backend/app/websockets/v1/api.py:44-51 | a failed send to a known session ends it; a delivered send, or one to an unknown id, changes nothing |
| VideoCall.SessionInfoOf | backend/app/websockets/v1/api.py:168-180 | not found exactly for an unknown id; otherwise the agent and the transcript length |
| VideoCall.OnUserMessage | backend/app/websockets/v1/api.py:110-119 | a text frame adds one user line, unless the acknowledgement fails, which ends the call |
| VideoCall.OnEndCall | backend/app/websockets/v1/api.py:149-157 | the call ends whether or not the status reply got through |
| VideoCall.CreateThenGet | backend/app/websockets/v1/api.py:25-34 | after a create the session is found with an empty transcript |
| VideoCall.EndThenGet | backend/app/websockets/v1/api.py:38-42 | after an end the id is unknown, and ending again changes nothing |
| VideoCall.CreateThenEnd | backend/app/websockets/v1/api.py:25-42 | ending a session just created under a new id restores the map |
| VideoCall.FailedSendEnds | backend/app/websockets/v1/api.py:47-51 | a failed send to a known session leaves the id unknown |
| VideoCall.AddAllAppends | backend/app/websockets/v1/api.py:57-63 | the transcript is append-only: adding lines extends it by exactly those lines in order, and other sessions are unchanged |
| VideoCall.AddAllUnknown | backend/app/websockets/v1/api.py:57-63 | adding any number of lines to an unknown id changes nothing |
| VideoCall.RecreateResets | backend/app/websockets/v1/api.py:29-34 | creating the session again after any number of lines discards them |

## Left out

- Transport: WebSocket accept, receive and send loops, JSON framing, the
  initialise handshake, the HTTP route shells and the WebSocket `close`.
  Only the state changes and the messages a handler sends are modelled.
- Speech: speech-to-text and text-to-speech. The audio of a reply is one
  `Speak` event, and `on_utterance_end` is never registered as a handler.
- Concurrency: the scheduled flush is a timer generation. A stale timer
  firing is a no-op, and cancelling is arming a new generation.
- Language-model calls, prompt wording, model names, temperatures and token
  limits: a call is an input, and a prompt is a function given at
  construction.
- Floating point: `duration_seconds`, `get_average_response_latency`, and the
  timeline's `elapsed_seconds` and `elapsed_formatted` (datetime arithmetic).
  `Json.Value` has no case for a JSON number with a fraction or an exponent:
  `decode` cannot return what `json.loads` gives for a reply holding
  `"turn": 2.5`, and no formatted text such as "At turn 2.5: ..." is
  produced for one.
- Database persistence of post-mortems (`persist_postmortem_to_db`) and the
  `final_advice` argument of the frontend transformation, which is unused.
- Exception texts are not reproduced: an error is `Err` with a short reason.
- Dynamic typing: in the agents, the post-mortem routes and the scenario
  reader, a dictionary field holding a JSON type other than the one the code
  expects is read as absent, and the default is used. Python would raise or
  format such a value instead.
- Session.FromDict: a stored field of the wrong JSON type (for example
  `"current_turn": "3"`, `"started_at": 5`, `"user_briefing": []`, or a
  transcript entry whose `"turn"` is a string) gives `Err("wrong field
  type")`. Python's `from_dict` stores such a value as it is. The model's
  session fields are typed, so it cannot hold one; the round trip
  `Session.ToDictFromDict` is unaffected, since `to_dict` writes every field
  with its own type.
- PostMortemRoutes.GradeScore: a grade that is a dict or list would raise a
  TypeError in Python; the model scores it like a grade not in the
  table (70).
- Text: `lower`, `upper` and `title` map ASCII letters only. Python's
  `upper()` also maps letters such as 'ſ' to 'S', so a reply of "paſs" is a
  pass in Python but not in the model.
- Json.Show: `str()` of a list or dict is not written out character by
  character.
- PostMortem.FencedBodyClean: that the fenced body has no whitespace at its
  edges is not stated, only that it holds no fence.
- PostMortemRoutes.Transform: its contract only selects between the two
  results. Every shape property is stated on `ParseErrorFrontend`,
  `GradedFrontend`, `Metrics` and `KeyMoments`.
- PostMortemRoutes.Stored: the cached frontend result, summary text and
  reveal are computed from the cached analysis and agent. They are
  deterministic functions of those two, so caching the two is equivalent.
- PostMortemRoutes.KeyMoments: the source's comment says the moments are
  sorted by time, but no sort happens; the model keeps insertion order.
- ScenarioParser.ParseScenario: the user's underlying interests are
  extracted by the source and never used, so they are not modelled.
- ScenarioParser.ExtractSection: the section header regex recognises only two
  capitalised words. As written, "Constraints and Pressures:", "Points of
  Tension:" and "Your BATNA (...):" do not end the section before them. A
  header "Your BATNA (...):" also does not match "Your BATNA:", so the
  user's BATNA is "" for such a text. This is modelled as written.
