/** The real-time negotiation coach: a cursor over the transcript that
    short-circuits repeated analysis, the four-message analysis window, the
    suppression of "PASS" replies, the final review request and the
    transcript formatter. The language model's reply is an input. */
module Coach {
  import opened Base
  import opened Json
  import opened Text
  import opened Chat

  /** The scenario context the coach is configured with, each field as
      `scenario_data.get(key, "")` reads it. */
  datatype CoachContext = CoachContext(
    userObjectives: Value,
    userBatna: Value,
    tensions: Value,
    negotiable: Value,
    successCriteria: Value,
    infoAsymmetries: Value)

  /** The coach: its cursor, its context, and the system prompts of the turn
      analysis and of the final review, whose wording is fixed at construction. */
  datatype CoachAgent = CoachAgent(
    lastAnalyzedTurn: int,
    context: CoachContext,
    systemPrompt: string,
    finalPrompt: string)

  /** The context read from the configuration dictionary, missing keys as "". */
  function ReadContext(data: map<string, Value>): (r: CoachContext)
    ensures "user_objectives" in data ==> r.userObjectives == data["user_objectives"]
    ensures "user_objectives" !in data ==> r.userObjectives == Str("")
    ensures "user_batna" in data ==> r.userBatna == data["user_batna"]
    ensures "user_batna" !in data ==> r.userBatna == Str("")
    ensures "points_of_tension" in data ==> r.tensions == data["points_of_tension"]
    ensures "points_of_tension" !in data ==> r.tensions == Str("")
    ensures "negotiable_items" in data ==> r.negotiable == data["negotiable_items"]
    ensures "negotiable_items" !in data ==> r.negotiable == Str("")
    ensures "success_criteria" in data ==> r.successCriteria == data["success_criteria"]
    ensures "success_criteria" !in data ==> r.successCriteria == Str("")
    ensures "info_asymmetries" in data ==> r.infoAsymmetries == data["info_asymmetries"]
    ensures "info_asymmetries" !in data ==> r.infoAsymmetries == Str("")
  {
    var d := Object(data);
    CoachContext(
      GetOr(d, "user_objectives", Str("")),
      GetOr(d, "user_batna", Str("")),
      GetOr(d, "points_of_tension", Str("")),
      GetOr(d, "negotiable_items", Str("")),
      GetOr(d, "success_criteria", Str("")),
      GetOr(d, "info_asymmetries", Str("")))
  }

  /** `CoachAgent(scenario_data)`: the cursor starts at 0. The wording of the
      two system prompts is an input computed from the context (the final
      review's reads only the objectives, the BATNA and the success criteria). */
  function NewCoach(
    data: map<string, Value>,
    buildPrompt: CoachContext -> string,
    buildFinalPrompt: (Value, Value, Value) -> string): (r: CoachAgent)
    ensures r.lastAnalyzedTurn == 0
    ensures r.context == ReadContext(data)
    ensures r.systemPrompt == buildPrompt(r.context)
    ensures r.finalPrompt == buildFinalPrompt(r.context.userObjectives, r.context.userBatna, r.context.successCriteria)
  {
    var ctx := ReadContext(data);
    CoachAgent(0, ctx, buildPrompt(ctx), buildFinalPrompt(ctx.userObjectives, ctx.userBatna, ctx.successCriteria))
  }

  // ---------------------------------------------------------------------------
  // Transcript formatting
  // ---------------------------------------------------------------------------

  /** The speaker label: "User" for the user, "Opponent" for every other role. */
  function SpeakerLabel(role: string): (r: string)
    ensures r == "User" <==> role == UserRole
    ensures r == "Opponent" <==> role != UserRole
  {
    if role == UserRole then "User" else "Opponent"
  }

  /** One formatted line: "[Turn t] Role: content" when the message carries a
      turn, "Role: content" otherwise. */
  function FormatLine(m: Msg): (r: string)
    ensures m.turn.None? ==> r == SpeakerLabel(m.role) + ": " + m.content
    ensures m.turn.Some? ==>
              r == "[Turn " + IntToString(m.turn.value) + "] " + SpeakerLabel(m.role) + ": " + m.content
  {
    var prefix := if m.turn.Some? then "[Turn " + IntToString(m.turn.value) + "] " else "";
    prefix + SpeakerLabel(m.role) + ": " + m.content
  }

  /** The formatted lines, one per message, in order. */
  function FormatLines(messages: seq<Msg>): (r: seq<string>)
    ensures |r| == |messages|
    ensures forall i :: 0 <= i < |r| ==> r[i] == FormatLine(messages[i])
  {
    seq(|messages|, i requires 0 <= i < |messages| => FormatLine(messages[i]))
  }

  /** `_format_transcript(messages)`: the lines joined by newlines. */
  function FormatTranscript(messages: seq<Msg>): string {
    Join("\n", FormatLines(messages))
  }

  /** The rendering of an integer holds no newline. */
  lemma IntToStringNoNewline(i: int)
    ensures '\n' !in IntToString(i)
  {
    var n: nat := if i < 0 then -i else i;
    var d := NatToString(n);
    forall k | 0 <= k < |d|
      ensures d[k] != '\n'
    {
      assert IsDigit(d[k]);
    }
    assert IntToString(i) == (if i < 0 then "-" else "") + d;
  }

  /** A line holds no newline when the message content holds none. */
  lemma FormatLineNoNewline(m: Msg)
    requires '\n' !in m.content
    ensures '\n' !in FormatLine(m)
  {
    if m.turn.Some? {
      IntToStringNoNewline(m.turn.value);
    }
  }

  /** When no message content holds a newline, splitting the formatted
      transcript at newlines gives back exactly one line per message. */
  lemma FormatTranscriptLines(messages: seq<Msg>)
    requires |messages| >= 1
    requires forall i :: 0 <= i < |messages| ==> '\n' !in messages[i].content
    ensures Split(FormatTranscript(messages), '\n') == FormatLines(messages)
  {
    var lines := FormatLines(messages);
    forall i | 0 <= i < |lines|
      ensures '\n' !in lines[i]
    {
      FormatLineNoNewline(messages[i]);
    }
    JoinSplit(lines, '\n');
  }

  // ---------------------------------------------------------------------------
  // Turn analysis
  // ---------------------------------------------------------------------------

  /** What `analyze_turn` produced: no call because nothing is new, an
      exception from the call or from stripping a `None` reply, or the tip
      (`None` when the coach passed). */
  datatype Analysis = Skipped | Failed | Analyzed(tip: Option<string>)

  /** `transcript[-4:] if len(transcript) >= 4 else transcript`. */
  function RecentWindow(t: seq<Msg>): (r: seq<Msg>)
    ensures |r| == Min(4, |t|)
    ensures r == t[|t| - |r|..]
  {
    if |t| >= 4 then t[|t| - 4..] else t
  }

  /** The messages sent to the model to analyse the latest exchange. */
  function AnalysisRequest(c: CoachAgent, t: seq<Msg>): (r: seq<Msg>)
    ensures |r| == 2 && r[0] == Plain(SystemRole, c.systemPrompt)
    ensures r[1] == Plain(UserRole, "Analyze this exchange:\n\n" + FormatTranscript(RecentWindow(t)))
  {
    [Plain(SystemRole, c.systemPrompt),
     Plain(UserRole, "Analyze this exchange:\n\n" + FormatTranscript(RecentWindow(t)))]
  }

  /** The stripped reply is a pass exactly when it upper-cases to "PASS". */
  predicate IsPass(tip: string) {
    Upper(tip) == "PASS"
  }

  /** `analyze_turn(transcript)` with `reply` as the model's answer to
      `AnalysisRequest(c, t)`. */
  function AnalyzeTurn(c: CoachAgent, t: seq<Msg>, reply: Completion): (r: (CoachAgent, Analysis))
    ensures r.1.Skipped? <==> |t| <= c.lastAnalyzedTurn
    ensures r.1.Analyzed? ==> r.0.lastAnalyzedTurn == |t| > c.lastAnalyzedTurn
    ensures !r.1.Analyzed? ==> r.0 == c
    ensures r.0.context == c.context && r.0.systemPrompt == c.systemPrompt && r.0.finalPrompt == c.finalPrompt
    ensures r.1.Analyzed? && r.1.tip.Some? ==>
              !IsPass(r.1.tip.value) && Strip(r.1.tip.value) == r.1.tip.value
  {
    if |t| <= c.lastAnalyzedTurn then (c, Skipped)
    else if reply.CallFailed? || reply.content.None? then (c, Failed)
    else
      var tip := Strip(reply.content.value);
      var c' := c.(lastAnalyzedTurn := |t|);
      StripIdempotent(reply.content.value);
      if IsPass(tip) then (c', Analyzed(None)) else (c', Analyzed(Some(tip)))
  }

  /** A tip is returned unchanged (after stripping) unless it is "PASS" in
      some letter case: the pass test is exact, not a prefix test. */
  lemma PassSuppressedIff(c: CoachAgent, t: seq<Msg>, text: string)
    requires |t| > c.lastAnalyzedTurn
    ensures AnalyzeTurn(c, t, Returned(Some(text))).1 ==
            (if Upper(Strip(text)) == "PASS" then Analyzed(None) else Analyzed(Some(Strip(text))))
  {
  }

  /** "pass" in lower case is suppressed. */
  lemma LowerCasePassSuppressed(c: CoachAgent, t: seq<Msg>)
    requires |t| > c.lastAnalyzedTurn
    ensures AnalyzeTurn(c, t, Returned(Some("pass"))).1 == Analyzed(None)
  {
    StripNoEdgeSpace("pass");
    assert Upper("pass") == "PASS";
  }

  /** "PASS." is not a pass: it is returned as the tip. */
  lemma PassWithPeriodReturned(c: CoachAgent, t: seq<Msg>)
    requires |t| > c.lastAnalyzedTurn
    ensures AnalyzeTurn(c, t, Returned(Some("PASS."))).1 == Analyzed(Some("PASS."))
  {
    StripNoEdgeSpace("PASS.");
    assert |Upper("PASS.")| == 5;
  }

  /** Once a transcript has been analysed, analysing it again makes no call,
      whatever the reply would have been, and leaves the coach unchanged. */
  lemma SecondCallSkipped(c: CoachAgent, t: seq<Msg>, reply: Completion, again: Completion)
    requires AnalyzeTurn(c, t, reply).1.Analyzed?
    ensures AnalyzeTurn(AnalyzeTurn(c, t, reply).0, t, again) == (AnalyzeTurn(c, t, reply).0, Skipped)
  {
  }

  /** `reset()`: the cursor returns to 0 and nothing else changes. */
  function Reset(c: CoachAgent): (r: CoachAgent)
    ensures r.lastAnalyzedTurn == 0
    ensures r.context == c.context && r.systemPrompt == c.systemPrompt && r.finalPrompt == c.finalPrompt
  {
    c.(lastAnalyzedTurn := 0)
  }

  /** After a reset, any non-empty transcript is analysed again. */
  lemma ResetReanalyzes(c: CoachAgent, t: seq<Msg>, reply: Completion)
    requires |t| > 0
    ensures !AnalyzeTurn(Reset(c), t, reply).1.Skipped?
  {
  }

  // ---------------------------------------------------------------------------
  // Final advice
  // ---------------------------------------------------------------------------

  /** The messages `get_final_advice(transcript)` sends: the whole transcript,
      no window. */
  function FinalAdviceRequest(c: CoachAgent, t: seq<Msg>): (r: seq<Msg>)
    ensures |r| == 2 && r[0] == Plain(SystemRole, c.finalPrompt)
    ensures r[1] == Plain(UserRole, "Here's the full negotiation:\n\n" + FormatTranscript(t))
  {
    [Plain(SystemRole, c.finalPrompt),
     Plain(UserRole, "Here's the full negotiation:\n\n" + FormatTranscript(t))]
  }

  /** `get_final_advice`: the reply's content, `None` included; a failed call
      is an error. The coach itself is not an output: the cursor is untouched. */
  function FinalAdvice(reply: Completion): (r: Result<Option<string>>)
    ensures r.Err? <==> reply.CallFailed?
    ensures reply.Returned? ==> r == Ok(reply.content)
  {
    if reply.CallFailed? then Err("completion call failed") else Ok(reply.content)
  }

  /** The final review does not read the cursor either: the request is the same
      whatever `last_analyzed_turn` holds. */
  lemma FinalAdviceIgnoresCursor(c: CoachAgent, t: seq<Msg>, k: int)
    ensures FinalAdviceRequest(c.(lastAnalyzedTurn := k), t) == FinalAdviceRequest(c, t)
  {
  }
}
