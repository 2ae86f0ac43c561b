/** The opponent agent's bookkeeping: configuration defaults, the transcript
    it keeps of the conversation, the exact message lists it sends to the
    language model, and the hidden state it reveals afterwards. The model's
    reply to each request is an input. */
module Opponent {
  import opened Base
  import opened Json
  import opened Chat

  /** The persona configuration, each field as `scenario_data.get(key, default)` reads it. */
  datatype Persona = Persona(
    context: Value,
    name: Value,
    objectives: Value,
    interests: Value,
    batna: Value,
    constraints: Value,
    infoAsymmetries: Value,
    disposition: Value,
    personality: Value)

  /** The agent: its persona, the conversation so far, and the two prompts
      whose wording is fixed at construction (the persona system prompt and
      the instruction asking for the opening line, which names the persona). */
  datatype OpponentAgent = OpponentAgent(
    persona: Persona,
    transcript: seq<Msg>,
    systemPrompt: string,
    openingPrompt: string)

  /** The persona read from a configuration dictionary with the constructor's defaults. */
  function ReadPersona(data: map<string, Value>): (r: Persona)
    ensures "counterparty_name" !in data ==> r.name == Str("Counterparty")
    ensures "personality" !in data ==> r.personality == Str("neutral")
    ensures "constraints" !in data ==> r.constraints == List([])
    ensures "context" !in data ==> r.context == Str("")
    ensures "counterparty_objectives" !in data ==> r.objectives == Str("")
    ensures "counterparty_interests" !in data ==> r.interests == Str("")
    ensures "batna" !in data ==> r.batna == Str("")
    ensures "information_asymmetries" !in data ==> r.infoAsymmetries == Str("")
    ensures "disposition" !in data ==> r.disposition == Str("")
    ensures "counterparty_name" in data ==> r.name == data["counterparty_name"]
    ensures "personality" in data ==> r.personality == data["personality"]
    ensures "constraints" in data ==> r.constraints == data["constraints"]
    ensures "context" in data ==> r.context == data["context"]
    ensures "counterparty_objectives" in data ==> r.objectives == data["counterparty_objectives"]
    ensures "counterparty_interests" in data ==> r.interests == data["counterparty_interests"]
    ensures "batna" in data ==> r.batna == data["batna"]
    ensures "information_asymmetries" in data ==> r.infoAsymmetries == data["information_asymmetries"]
    ensures "disposition" in data ==> r.disposition == data["disposition"]
  {
    var d := Object(data);
    Persona(
      GetOr(d, "context", Str("")),
      GetOr(d, "counterparty_name", Str("Counterparty")),
      GetOr(d, "counterparty_objectives", Str("")),
      GetOr(d, "counterparty_interests", Str("")),
      GetOr(d, "batna", Str("")),
      GetOr(d, "constraints", List([])),
      GetOr(d, "information_asymmetries", Str("")),
      GetOr(d, "disposition", Str("")),
      GetOr(d, "personality", Str("neutral")))
  }

  /** `OpponentAgent(scenario_data)`: an empty transcript. The wording of the
      persona system prompt is an input computed from the persona, and that of
      the opening instruction an input computed from the persona's name. */
  function NewOpponent(data: map<string, Value>, buildPrompt: Persona -> string, buildOpening: Value -> string): (r: OpponentAgent)
    ensures r.transcript == []
    ensures r.persona == ReadPersona(data)
    ensures r.systemPrompt == buildPrompt(r.persona)
    ensures r.openingPrompt == buildOpening(r.persona.name)
  {
    var p := ReadPersona(data);
    OpponentAgent(p, [], buildPrompt(p), buildOpening(p.name))
  }

  /** An empty configuration gives the documented defaults. */
  lemma EmptyConfigDefaults(buildPrompt: Persona -> string, buildOpening: Value -> string)
    ensures NewOpponent(map[], buildPrompt, buildOpening).persona ==
            Persona(Str(""), Str("Counterparty"), Str(""), Str(""), Str(""), List([]), Str(""), Str(""), Str("neutral"))
  {
  }

  // ---------------------------------------------------------------------------
  // Opening
  // ---------------------------------------------------------------------------

  /** The messages `get_opening_message` sends: the system prompt and the
      opening instruction, without the transcript. */
  function OpeningRequest(o: OpponentAgent): (r: seq<Msg>)
    ensures |r| == 2 && r[0] == Plain(SystemRole, o.systemPrompt) && r[1] == Plain(UserRole, o.openingPrompt)
  {
    [Plain(SystemRole, o.systemPrompt), Plain(UserRole, o.openingPrompt)]
  }

  /** The text of a reply: `content or ""`. */
  function ReplyText(content: Option<string>): (r: string)
    ensures content.Some? ==> r == content.value
    ensures content.None? ==> r == ""
  {
    content.GetOr("")
  }

  /** `get_opening_message()`: on a reply, exactly one assistant entry equal to
      the returned text is appended; a failed call appends nothing. */
  function GetOpening(o: OpponentAgent, reply: Completion): (r: (OpponentAgent, Result<string>))
    ensures r.0.persona == o.persona && r.0.systemPrompt == o.systemPrompt && r.0.openingPrompt == o.openingPrompt
    ensures reply.CallFailed? ==> r.0 == o && r.1.Err?
    ensures reply.Returned? ==> r.1 == Ok(ReplyText(reply.content))
    ensures reply.Returned? ==> r.0.transcript == o.transcript + [Plain(AssistantRole, r.1.value)]
  {
    if reply.CallFailed? then (o, Err("completion call failed"))
    else
      var text := ReplyText(reply.content);
      (o.(transcript := o.transcript + [Plain(AssistantRole, text)]), Ok(text))
  }

  // ---------------------------------------------------------------------------
  // Responses
  // ---------------------------------------------------------------------------

  /** The transcript after the user's message is recorded. */
  function WithUserMessage(o: OpponentAgent, userMessage: string): (r: OpponentAgent)
    ensures r.transcript == o.transcript + [Plain(UserRole, userMessage)]
    ensures r.persona == o.persona && r.systemPrompt == o.systemPrompt && r.openingPrompt == o.openingPrompt
  {
    o.(transcript := o.transcript + [Plain(UserRole, userMessage)])
  }

  /** The messages `get_response(user_message)` sends: the system prompt
      followed by the whole transcript, new user message included. */
  function ResponseRequest(o: OpponentAgent, userMessage: string): (r: seq<Msg>)
    ensures |r| == |o.transcript| + 2
    ensures r[0] == Plain(SystemRole, o.systemPrompt)
    ensures r[1..] == WithUserMessage(o, userMessage).transcript
    ensures r[|r| - 1] == Plain(UserRole, userMessage)
  {
    [Plain(SystemRole, o.systemPrompt)] + WithUserMessage(o, userMessage).transcript
  }

  /** `get_response(user_message)`. The user entry is appended before the call,
      so it stays even when the call fails; on a reply the assistant entry
      follows it. */
  function GetResponse(o: OpponentAgent, userMessage: string, reply: Completion): (r: (OpponentAgent, Result<string>))
    ensures r.0.persona == o.persona && r.0.systemPrompt == o.systemPrompt && r.0.openingPrompt == o.openingPrompt
    ensures reply.CallFailed? ==> r.1.Err? && r.0.transcript == o.transcript + [Plain(UserRole, userMessage)]
    ensures reply.Returned? ==> r.1 == Ok(ReplyText(reply.content))
    ensures reply.Returned? ==>
              r.0.transcript == o.transcript + [Plain(UserRole, userMessage), Plain(AssistantRole, r.1.value)]
  {
    var o1 := WithUserMessage(o, userMessage);
    if reply.CallFailed? then (o1, Err("completion call failed"))
    else
      var text := ReplyText(reply.content);
      (o1.(transcript := o1.transcript + [Plain(AssistantRole, text)]), Ok(text))
  }

  /** Responses only ever append: the earlier transcript is a prefix of the new
      one, and a successful exchange adds exactly two entries. */
  lemma ResponseAppendsOnly(o: OpponentAgent, userMessage: string, reply: Completion)
    ensures var t := GetResponse(o, userMessage, reply).0.transcript;
            |o.transcript| < |t| && t[..|o.transcript|] == o.transcript
    ensures reply.Returned? ==> |GetResponse(o, userMessage, reply).0.transcript| == |o.transcript| + 2
  {
    var t := GetResponse(o, userMessage, reply).0.transcript;
    assert t[..|o.transcript|] == o.transcript;
  }

  /** When the transcript starts with the opening and every exchange succeeds,
      roles alternate: assistant entries sit at even positions. */
  ghost predicate Alternating(t: seq<Msg>) {
    forall i :: 0 <= i < |t| ==> t[i].role == (if i % 2 == 0 then AssistantRole else UserRole)
  }

  lemma ResponseKeepsAlternating(o: OpponentAgent, userMessage: string, content: Option<string>)
    requires Alternating(o.transcript) && |o.transcript| % 2 == 1
    ensures Alternating(GetResponse(o, userMessage, Returned(content)).0.transcript)
    ensures |GetResponse(o, userMessage, Returned(content)).0.transcript| % 2 == 1
  {
  }

  lemma OpeningStartsAlternating(o: OpponentAgent, content: Option<string>)
    requires o.transcript == []
    ensures Alternating(GetOpening(o, Returned(content)).0.transcript)
    ensures |GetOpening(o, Returned(content)).0.transcript| == 1
  {
  }

  // ---------------------------------------------------------------------------
  // Hidden state
  // ---------------------------------------------------------------------------

  /** `get_hidden_state()`: the eight stored persona fields, unchanged. */
  function HiddenState(o: OpponentAgent): (r: Value)
    ensures r.Object?
    ensures r.fields.Keys == {"name", "objectives", "interests", "batna", "constraints",
                              "info_asymmetries", "personality", "disposition"}
    ensures r.fields["name"] == o.persona.name && r.fields["objectives"] == o.persona.objectives
    ensures r.fields["interests"] == o.persona.interests && r.fields["batna"] == o.persona.batna
    ensures r.fields["constraints"] == o.persona.constraints
    ensures r.fields["info_asymmetries"] == o.persona.infoAsymmetries
    ensures r.fields["personality"] == o.persona.personality
    ensures r.fields["disposition"] == o.persona.disposition
  {
    Object(map[
      "name" := o.persona.name,
      "objectives" := o.persona.objectives,
      "interests" := o.persona.interests,
      "batna" := o.persona.batna,
      "constraints" := o.persona.constraints,
      "info_asymmetries" := o.persona.infoAsymmetries,
      "personality" := o.persona.personality,
      "disposition" := o.persona.disposition])
  }

  /** The hidden state depends on the persona alone: the transcript does not
      affect it, and each persona field can be read back from it. */
  lemma HiddenStateReadsPersona(o: OpponentAgent, t: seq<Msg>)
    ensures HiddenState(o.(transcript := t)) == HiddenState(o)
    ensures var f := HiddenState(o).fields;
            && f["name"] == o.persona.name && f["constraints"] == o.persona.constraints
            && f["info_asymmetries"] == o.persona.infoAsymmetries && f["personality"] == o.persona.personality
            && f["objectives"] == o.persona.objectives && f["interests"] == o.persona.interests
            && f["batna"] == o.persona.batna && f["disposition"] == o.persona.disposition
  {
  }
}
