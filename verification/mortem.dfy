/** The post-mortem agent: it formats the finished transcript for the
    language model, recovers a JSON analysis from the model's reply through a
    three-stage fallback, and renders the analysis and the opponent's hidden
    state as text. Transcript messages and the analysis are dynamically typed
    dictionaries (`Json.Value`); the model's reply, the JSON decoder and
    timestamp parsing are inputs. */
module PostMortem {
  import opened Base
  import opened Json
  import opened Chat
  import Text

  // ---------------------------------------------------------------------------
  // Construction
  // ---------------------------------------------------------------------------

  /** The user's side as the constructor reads it from `user_briefing`. */
  datatype Briefing = Briefing(objectives: Value, batna: Value, successCriteria: Value, negotiables: Value)

  /** The opponent's hidden state as read from `opponent_hidden_state`. */
  datatype Hidden = Hidden(name: Value, objectives: Value, batna: Value, constraints: Value,
                           disposition: Value, interests: Value)

  /** What the coach knew, as read from `coach_config`. */
  datatype CoachView = CoachView(tensions: Value, infoAsymmetries: Value, successCriteria: Value)

  /** The agent. Its system prompt is fixed at construction from the three
      records above; its wording is an input. */
  datatype MortemAgent = MortemAgent(briefing: Briefing, opponent: Hidden, coachView: CoachView, systemPrompt: string)

  const EmptyDict: Value := Object(map[])

  /** The user briefing with the constructor's defaults: `{}` for the first
      three fields and `[]` for the negotiables. */
  function ReadBriefing(d: Value): (r: Briefing)
    ensures Get(d, "objectives").None? ==> r.objectives == EmptyDict
    ensures Get(d, "batna").None? ==> r.batna == EmptyDict
    ensures Get(d, "success_criteria").None? ==> r.successCriteria == EmptyDict
    ensures Get(d, "negotiables").None? ==> r.negotiables == List([])
    ensures Get(d, "objectives").Some? ==> r.objectives == d.fields["objectives"]
    ensures Get(d, "batna").Some? ==> r.batna == d.fields["batna"]
    ensures Get(d, "success_criteria").Some? ==> r.successCriteria == d.fields["success_criteria"]
    ensures Get(d, "negotiables").Some? ==> r.negotiables == d.fields["negotiables"]
  {
    Briefing(GetOr(d, "objectives", EmptyDict), GetOr(d, "batna", EmptyDict),
             GetOr(d, "success_criteria", EmptyDict), GetOr(d, "negotiables", List([])))
  }

  /** The hidden state with the constructor's defaults: name "Opponent",
      constraints `[]`, and "" for the other fields. */
  function ReadHidden(d: Value): (r: Hidden)
    ensures Get(d, "name").None? ==> r.name == Str("Opponent")
    ensures Get(d, "constraints").None? ==> r.constraints == List([])
    ensures Get(d, "objectives").None? ==> r.objectives == Str("")
    ensures Get(d, "batna").None? ==> r.batna == Str("")
    ensures Get(d, "disposition").None? ==> r.disposition == Str("")
    ensures Get(d, "interests").None? ==> r.interests == Str("")
    ensures Get(d, "name").Some? ==> r.name == d.fields["name"]
    ensures Get(d, "constraints").Some? ==> r.constraints == d.fields["constraints"]
    ensures Get(d, "objectives").Some? ==> r.objectives == d.fields["objectives"]
    ensures Get(d, "batna").Some? ==> r.batna == d.fields["batna"]
    ensures Get(d, "disposition").Some? ==> r.disposition == d.fields["disposition"]
    ensures Get(d, "interests").Some? ==> r.interests == d.fields["interests"]
  {
    Hidden(GetOr(d, "name", Str("Opponent")), GetOr(d, "objectives", Str("")), GetOr(d, "batna", Str("")),
           GetOr(d, "constraints", List([])), GetOr(d, "disposition", Str("")), GetOr(d, "interests", Str("")))
  }

  /** The coach's view with "" for every missing field. */
  function ReadCoachView(d: Value): (r: CoachView)
    ensures Get(d, "points_of_tension").None? ==> r.tensions == Str("")
    ensures Get(d, "info_asymmetries").None? ==> r.infoAsymmetries == Str("")
    ensures Get(d, "success_criteria").None? ==> r.successCriteria == Str("")
    ensures Get(d, "points_of_tension").Some? ==> r.tensions == d.fields["points_of_tension"]
    ensures Get(d, "info_asymmetries").Some? ==> r.infoAsymmetries == d.fields["info_asymmetries"]
    ensures Get(d, "success_criteria").Some? ==> r.successCriteria == d.fields["success_criteria"]
  {
    CoachView(GetOr(d, "points_of_tension", Str("")), GetOr(d, "info_asymmetries", Str("")),
              GetOr(d, "success_criteria", Str("")))
  }

  /** `PostMortemAgent(user_briefing, opponent_hidden_state, coach_config)`. */
  function NewMortem(briefing: Value, hidden: Value, coach: Value,
                     buildPrompt: (Briefing, Hidden, CoachView) -> string): (r: MortemAgent)
    ensures r.briefing == ReadBriefing(briefing) && r.opponent == ReadHidden(hidden)
    ensures r.coachView == ReadCoachView(coach)
    ensures r.systemPrompt == buildPrompt(r.briefing, r.opponent, r.coachView)
  {
    var b := ReadBriefing(briefing);
    var h := ReadHidden(hidden);
    var c := ReadCoachView(coach);
    MortemAgent(b, h, c, buildPrompt(b, h, c))
  }

  // ---------------------------------------------------------------------------
  // Transcript formatting
  // ---------------------------------------------------------------------------

  /** One line of the formatted transcript before rendering: a turn header or
      the line for one message. */
  datatype Line = Header(turn: int) | Said(text: string)

  /** `msg.get("turn", 0)`, an integer; a value of another type is read as 0. */
  function TurnOf(m: Value): int {
    match GetOr(m, "turn", Int(0))
    case Int(i) => i
    case _ => 0
  }

  /** Whether the message is a user message (`msg["role"] == "user"`). */
  predicate IsUserMessage(m: Value) {
    Get(m, "role") == Some(Str(UserRole))
  }

  /** `msg["role"]` and `msg["content"]` are both present: the formatter and
      the timeline raise `KeyError` otherwise. */
  predicate HasRoleAndContent(m: Value) {
    Get(m, "role").Some? && Get(m, "content").Some?
  }

  predicate AllHaveRoleAndContent(msgs: seq<Value>) {
    forall i :: 0 <= i < |msgs| ==> HasRoleAndContent(msgs[i])
  }

  /** The time prefix of a message line. An empty or missing timestamp gives
      no prefix; one the clock can read gives its `HH:MM:SS`; any other is
      shown as written. `clock` stands for `datetime.fromisoformat` followed
      by `strftime('%H:%M:%S')`. */
  function TimePrefix(ts: Value, clock: string -> Option<string>): (r: string)
    ensures r == "" <==> !Truthy(ts)
    ensures ts.Str? && Truthy(ts) && clock(ts.s).Some? ==> r == "[" + clock(ts.s).value + "] "
    ensures Truthy(ts) && !(ts.Str? && clock(ts.s).Some?) ==> r == "[" + Show(ts) + "] "
  {
    if !Truthy(ts) then ""
    else if ts.Str? && clock(ts.s).Some? then "[" + clock(ts.s).value + "] "
    else "[" + Show(ts) + "] "
  }

  /** The label in front of a message: "User" for a user message, "Opponent"
      for every other role. */
  function Speaker(m: Value): (r: string)
    ensures r == "User" <==> IsUserMessage(m)
    ensures r == "User" || r == "Opponent"
  {
    if IsUserMessage(m) then "User" else "Opponent"
  }

  /** The line for one message: time prefix, speaker, content. */
  function SaidLine(m: Value, clock: string -> Option<string>): string {
    TimePrefix(GetOr(m, "timestamp", Str("")), clock) + Speaker(m) + ": " + Show(GetOr(m, "content", Null))
  }

  /** The turn of each message. */
  function Turns(msgs: seq<Value>): (r: seq<int>)
    ensures |r| == |msgs| && forall i :: 0 <= i < |msgs| ==> r[i] == TurnOf(msgs[i])
  {
    seq(|msgs|, i requires 0 <= i < |msgs| => TurnOf(msgs[i]))
  }

  /** The line of each message. */
  function SaidLines(msgs: seq<Value>, clock: string -> Option<string>): (r: seq<string>)
    ensures |r| == |msgs| && forall i :: 0 <= i < |msgs| ==> r[i] == SaidLine(msgs[i], clock)
  {
    seq(|msgs|, i requires 0 <= i < |msgs| => SaidLine(msgs[i], clock))
  }

  /** The lines of the formatted transcript, given each message's turn and
      line: a header goes before a message whose turn is positive and differs
      from the last headed turn `current`. */
  function Layout(turns: seq<int>, texts: seq<string>, current: Option<int>): seq<Line>
    requires |turns| == |texts|
    decreases |turns|
  {
    if |turns| == 0 then []
    else
      var t := turns[0];
      if Some(t) != current && t > 0 then [Header(t), Said(texts[0])] + Layout(turns[1..], texts[1..], Some(t))
      else [Said(texts[0])] + Layout(turns[1..], texts[1..], current)
  }

  function RenderLine(l: Line): string {
    match l
    case Header(t) => "\n=== Turn " + Text.IntToString(t) + " ==="
    case Said(text) => text
  }

  function RenderLines(ls: seq<Line>): (r: seq<string>)
    ensures |r| == |ls|
    ensures forall i :: 0 <= i < |ls| ==> r[i] == RenderLine(ls[i])
  {
    seq(|ls|, i requires 0 <= i < |ls| => RenderLine(ls[i]))
  }

  /** The layout of a whole transcript, no turn headed yet. */
  function TranscriptLayout(msgs: seq<Value>, clock: string -> Option<string>): seq<Line> {
    Layout(Turns(msgs), SaidLines(msgs, clock), None)
  }

  /** `_format_transcript(transcript)`: the rendered lines joined by newlines,
      or an error when some message lacks its role or content. */
  function FormatTranscript(msgs: seq<Value>, clock: string -> Option<string>): (r: Result<string>)
    ensures r.Ok? <==> AllHaveRoleAndContent(msgs)
    ensures r.Ok? ==> r.value == Text.Join("\n", RenderLines(TranscriptLayout(msgs, clock)))
  {
    if AllHaveRoleAndContent(msgs) then Ok(Text.Join("\n", RenderLines(TranscriptLayout(msgs, clock))))
    else Err("KeyError: a transcript message lacks its role or content")
  }

  /** The message lines of a layout, in order. */
  function SaidTexts(ls: seq<Line>): seq<string>
    decreases |ls|
  {
    if |ls| == 0 then []
    else (if ls[0].Said? then [ls[0].text] else []) + SaidTexts(ls[1..])
  }

  /** The turns of the headers of a layout, in order. */
  function HeaderTurns(ls: seq<Line>): seq<int>
    decreases |ls|
  {
    if |ls| == 0 then []
    else (if ls[0].Header? then [ls[0].turn] else []) + HeaderTurns(ls[1..])
  }

  /** Headers are for positive turns, no two successive headers name the same
      turn, and the first differs from the turn headed before. */
  ghost predicate HeadersWellFormed(hs: seq<int>, current: Option<int>) {
    (forall i :: 0 <= i < |hs| ==> hs[i] > 0)
    && (forall i :: 0 <= i < |hs| - 1 ==> hs[i] != hs[i + 1])
    && (|hs| > 0 && current.Some? ==> hs[0] != current.value)
  }

  lemma LinesHead(l: Line, rest: seq<Line>)
    ensures SaidTexts([l] + rest) == (if l.Said? then [l.text] else []) + SaidTexts(rest)
    ensures HeaderTurns([l] + rest) == (if l.Header? then [l.turn] else []) + HeaderTurns(rest)
  {
    assert ([l] + rest)[1..] == rest;
  }

  /** The layout of a non-empty transcript: its first message's line, preceded
      by a header when one is due, then the layout of the rest. */
  lemma LayoutStep(turns: seq<int>, texts: seq<string>, current: Option<int>)
    requires |turns| == |texts| > 0
    ensures var t := turns[0];
            var headed := Some(t) != current && t > 0;
            var rest := Layout(turns[1..], texts[1..], if headed then Some(t) else current);
            SaidTexts(Layout(turns, texts, current)) == [texts[0]] + SaidTexts(rest)
            && HeaderTurns(Layout(turns, texts, current)) == (if headed then [t] else []) + HeaderTurns(rest)
            && |Layout(turns, texts, current)| == |rest| + (if headed then 2 else 1)
  {
    var t := turns[0];
    var said := Said(texts[0]);
    if Some(t) != current && t > 0 {
      var rest := Layout(turns[1..], texts[1..], Some(t));
      LinesHead(said, rest);
      LinesHead(Header(t), [said] + rest);
      assert [Header(t), said] + rest == [Header(t)] + ([said] + rest);
    } else {
      LinesHead(said, Layout(turns[1..], texts[1..], current));
    }
  }

  /** Every message gives exactly one message line, in order, and the layout
      holds one line per message plus one per header. */
  lemma {:induction false} LayoutKeepsEveryMessage(turns: seq<int>, texts: seq<string>, current: Option<int>)
    requires |turns| == |texts|
    ensures SaidTexts(Layout(turns, texts, current)) == texts
    ensures |Layout(turns, texts, current)| == |texts| + |HeaderTurns(Layout(turns, texts, current))|
    decreases |turns|
  {
    if |turns| > 0 {
      var t := turns[0];
      LayoutStep(turns, texts, current);
      LayoutKeepsEveryMessage(turns[1..], texts[1..], if Some(t) != current && t > 0 then Some(t) else current);
      assert texts == [texts[0]] + texts[1..];
    }
  }

  /** A "=== Turn t ===" header is written only for a positive turn, and only
      when the turn differs from the last headed one: a turn-0 message never
      gets a header, a turn is never headed twice in a row, and every header
      names the turn of some message. */
  lemma {:induction false} LayoutHeadersWellFormed(turns: seq<int>, texts: seq<string>, current: Option<int>)
    requires |turns| == |texts|
    ensures HeadersWellFormed(HeaderTurns(Layout(turns, texts, current)), current)
    ensures forall h :: h in HeaderTurns(Layout(turns, texts, current)) ==> h in turns
    decreases |turns|
  {
    if |turns| > 0 {
      var t := turns[0];
      var next := if Some(t) != current && t > 0 then Some(t) else current;
      LayoutStep(turns, texts, current);
      LayoutHeadersWellFormed(turns[1..], texts[1..], next);
      assert forall h :: h in turns[1..] ==> h in turns;
    }
  }

  /** Messages all of one positive turn, not headed before, get exactly one
      header. */
  lemma {:induction false} OneTurnOneHeader(turns: seq<int>, texts: seq<string>, t: int, current: Option<int>)
    requires |turns| == |texts| > 0 && t > 0 && current != Some(t)
    requires forall i :: 0 <= i < |turns| ==> turns[i] == t
    ensures HeaderTurns(Layout(turns, texts, current)) == [t]
  {
    LayoutStep(turns, texts, current);
    NoNewHeader(turns[1..], texts[1..], t);
  }

  /** Messages of the turn just headed add no header. */
  lemma {:induction false} NoNewHeader(turns: seq<int>, texts: seq<string>, t: int)
    requires |turns| == |texts|
    requires forall i :: 0 <= i < |turns| ==> turns[i] == t
    ensures HeaderTurns(Layout(turns, texts, Some(t))) == []
    decreases |turns|
  {
    if |turns| > 0 {
      LayoutStep(turns, texts, Some(t));
      NoNewHeader(turns[1..], texts[1..], t);
    }
  }

  /** For a whole transcript: one line per message in order, headers only
      for positive turns and never twice in a row. */
  lemma TranscriptLayoutShape(msgs: seq<Value>, clock: string -> Option<string>)
    ensures SaidTexts(TranscriptLayout(msgs, clock)) == SaidLines(msgs, clock)
    ensures HeadersWellFormed(HeaderTurns(TranscriptLayout(msgs, clock)), None)
  {
    LayoutKeepsEveryMessage(Turns(msgs), SaidLines(msgs, clock), None);
    LayoutHeadersWellFormed(Turns(msgs), SaidLines(msgs, clock), None);
  }

  // ---------------------------------------------------------------------------
  // Timeline
  // ---------------------------------------------------------------------------

  /** One timeline entry. The elapsed-time fields are not modelled. */
  datatype TimelineEntry = TimelineEntry(turn: Value, role: string, content: Value, timestamp: Value)

  /** The entry for one message: turn defaults to 0, the role is "user" for a
      user message and "opponent" for every other role, and a missing
      timestamp is `None`. */
  function EntryOf(m: Value): (r: TimelineEntry)
    requires HasRoleAndContent(m)
    ensures Get(m, "turn").None? ==> r.turn == Int(0)
    ensures Get(m, "turn").Some? ==> r.turn == m.fields["turn"]
    ensures r.role == "user" <==> IsUserMessage(m)
    ensures r.role == "user" || r.role == "opponent"
    ensures r.content == m.fields["content"]
    ensures Get(m, "timestamp").None? ==> r.timestamp == Null
    ensures Get(m, "timestamp").Some? ==> r.timestamp == m.fields["timestamp"]
  {
    TimelineEntry(GetOr(m, "turn", Int(0)), if IsUserMessage(m) then "user" else "opponent",
                  m.fields["content"], GetOr(m, "timestamp", Null))
  }

  /** `get_timeline(transcript)`: one entry per message, in order, or an error
      when some message lacks its role or content. */
  function Timeline(msgs: seq<Value>): (r: Result<seq<TimelineEntry>>)
    ensures r.Ok? <==> AllHaveRoleAndContent(msgs)
    ensures r.Ok? ==> |r.value| == |msgs|
    ensures r.Ok? ==> forall i :: 0 <= i < |msgs| ==> r.value[i] == EntryOf(msgs[i])
  {
    if AllHaveRoleAndContent(msgs) then Ok(seq(|msgs|, i requires 0 <= i < |msgs| => EntryOf(msgs[i])))
    else Err("KeyError: a transcript message lacks its role or content")
  }

  /** The timeline and the formatted transcript accept the same transcripts,
      and agree on who spoke: entry `i` is a user entry exactly when line `i`
      of the transcript is labelled "User". They agree on turns where the turn
      is an integer; the timeline passes any other value through unchanged,
      where the transcript's layout reads it as turn 0. */
  lemma TimelineAgreesWithTranscript(msgs: seq<Value>, clock: string -> Option<string>)
    ensures Timeline(msgs).Ok? <==> FormatTranscript(msgs, clock).Ok?
    ensures Timeline(msgs).Ok? ==> forall i :: 0 <= i < |msgs| ==>
              (Timeline(msgs).value[i].role == "user" <==> Speaker(msgs[i]) == "User")
    ensures Timeline(msgs).Ok? ==> forall i :: 0 <= i < |msgs| ==>
              (Timeline(msgs).value[i].turn.Int? ==> Timeline(msgs).value[i].turn == Int(TurnOf(msgs[i])))
    ensures Timeline(msgs).Ok? ==> forall i :: 0 <= i < |msgs| ==>
              (!Timeline(msgs).value[i].turn.Int? ==> TurnOf(msgs[i]) == 0)
  {
  }

  // ---------------------------------------------------------------------------
  // Recovering JSON from the reply
  // ---------------------------------------------------------------------------

  const Fence: string := "```"

  /** Where the first group of `re.search(r'```(?:json)?\s*([\s\S]*?)\s*```', text)`
      lies: after the first fence (and an optional "json" tag) and any
      whitespace, up to the whitespace before the next fence. */
  function FenceBounds(text: string): (r: Option<(nat, nat)>)
    ensures r.Some? ==> r.value.0 <= r.value.1 <= |text|
    ensures r.Some? ==> forall p :: r.value.0 <= p < r.value.1 ==> !Text.PrefixAt(text, p, Fence)
  {
    match Text.FindFrom(text, Fence, 0)
    case None => None
    case Some(i) =>
      var j := BodyStart(text, i);
      match Text.FindFrom(text, Fence, j)
      case None => None
      case Some(f) => Some((j, Text.TrimEnd(text, j, f)))
  }

  /** The body of the first fenced block. */
  function FencedBody(text: string): Option<string> {
    var bounds := FenceBounds(text);
    if bounds.Some? then Some(text[bounds.value.0..bounds.value.1]) else None
  }

  /** The fenced body holds no fence. */
  lemma FencedBodyClean(text: string)
    requires FencedBody(text).Some?
    ensures !Text.Contains(FencedBody(text).value, Fence)
  {
    var bounds := FenceBounds(text).value;
    NoFenceInSlice(text, bounds.0, bounds.1);
  }

  /** A slice of the text with no fence starting inside it holds no fence. */
  lemma NoFenceInSlice(text: string, j: nat, e: nat)
    requires j <= e <= |text|
    requires forall p :: j <= p < e ==> !Text.PrefixAt(text, p, Fence)
    ensures !Text.Contains(text[j..e], Fence)
  {
    var body := text[j..e];
    forall q | 0 <= q <= |body| ensures !Text.PrefixAt(body, q, Fence) {
      Text.PrefixAtSlice(text, j, e, q, Fence);
    }
  }

  /** Where the search for the closing fence starts, given the first fence at `i`. */
  function BodyStart(text: string, i: nat): (j: nat)
    requires Text.PrefixAt(text, i, Fence)
    ensures j <= |text|
  {
    Text.SkipSpace(text, if Text.PrefixAt(text, i + 3, "json") then i + 7 else i + 3)
  }

  /** A fence at least three characters after the first one lies at or after
      the start of the body: the tag and the whitespace hold no backquote. */
  lemma FenceAfterTag(text: string, i: nat, b: nat)
    requires Text.PrefixAt(text, i, Fence) && i + 3 <= b && Text.PrefixAt(text, b, Fence)
    ensures b >= BodyStart(text, i)
  {
    assert text[b] == '`' by {
      assert text[b] == text[b..b + 3][0];
    }
    if Text.PrefixAt(text, i + 3, "json") && b < i + 7 {
      assert false;
    }
  }

  /** Two non-overlapping fences give a fenced block. */
  lemma TwoFencesFound(text: string, a: nat, b: nat)
    requires a + 3 <= b && Text.PrefixAt(text, a, Fence) && Text.PrefixAt(text, b, Fence)
    ensures FencedBody(text).Some?
  {
    var i := Text.FindFrom(text, Fence, 0).value;
    FenceAfterTag(text, i, b);
    assert Text.FindFrom(text, Fence, BodyStart(text, i)).Some?;
  }

  /** A fenced block is found exactly when the text holds two fences that do
      not overlap. */
  lemma FencedBodyIff(text: string)
    ensures FencedBody(text).Some? <==>
            exists a, b :: 0 <= a && a + 3 <= b && Text.PrefixAt(text, a, Fence) && Text.PrefixAt(text, b, Fence)
  {
    if exists a, b :: 0 <= a && a + 3 <= b && Text.PrefixAt(text, a, Fence) && Text.PrefixAt(text, b, Fence) {
      var a, b :| 0 <= a && a + 3 <= b && Text.PrefixAt(text, a, Fence) && Text.PrefixAt(text, b, Fence);
      TwoFencesFound(text, a, b);
    }
    if FencedBody(text).Some? {
      var i := Text.FindFrom(text, Fence, 0).value;
      var f := Text.FindFrom(text, Fence, BodyStart(text, i)).value;
      assert Text.PrefixAt(text, i, Fence) && Text.PrefixAt(text, f, Fence) && i + 3 <= f;
    }
  }

  /** The match of `re.search(r'\{[\s\S]*\}', text)`: from the first `{` to
      the last `}`, when the latter comes after the former. */
  function BraceSpan(text: string): (r: Option<string>)
    ensures r.Some? ==> |r.value| >= 2 && r.value[0] == '{' && r.value[|r.value| - 1] == '}'
  {
    match Text.IndexOfChar(text, '{', 0)
    case None => None
    case Some(a) =>
      match Text.LastIndexOfChar(text, '}')
      case None => None
      case Some(z) => if a < z then Some(text[a..z + 1]) else None
  }

  /** A brace span is found exactly when some `{` comes before some `}`; it is
      the widest such span: no `{` before it and no `}` after it. */
  lemma BraceSpanIff(text: string)
    ensures BraceSpan(text).Some? <==> exists a, b :: 0 <= a < b < |text| && text[a] == '{' && text[b] == '}'
    ensures BraceSpan(text).Some? ==>
              var r := BraceSpan(text).value;
              exists a :: 0 <= a && a + |r| <= |text| && text[a] == '{' && text[a..a + |r|] == r
                && (forall i :: 0 <= i < a ==> text[i] != '{')
                && (forall i :: a + |r| <= i < |text| ==> text[i] != '}')
  {
    match Text.IndexOfChar(text, '{', 0)
    case None =>
    case Some(a) =>
      match Text.LastIndexOfChar(text, '}')
      case None =>
      case Some(z) =>
        if a < z {
          var r := text[a..z + 1];
          assert text[a..a + |r|] == r;
        }
  }

  /** The dictionary returned when nothing in the reply parses. */
  function ErrorRecord(text: string): (r: Value)
    ensures r.Object? && r.fields.Keys == {"parse_error", "raw_response"}
    ensures Get(r, "parse_error") == Some(Bool(true)) && Get(r, "raw_response") == Some(Str(text))
  {
    Object(map["parse_error" := Bool(true), "raw_response" := Str(text)])
  }

  /** The texts `_parse_json` hands to the decoder, in order: the whole text,
      then the fenced body if there is one, then the brace span if there is one. */
  function Attempts(text: string): (r: seq<string>)
    ensures 1 <= |r| <= 3 && r[0] == text
  {
    [text]
    + (match FencedBody(text) case Some(g) => [g] case None => [])
    + (match BraceSpan(text) case Some(g) => [g] case None => [])
  }

  /** The decoding of the first candidate that decodes. */
  function FirstDecoded(cands: seq<string>, decode: string -> Option<Value>): (r: Option<Value>)
    ensures r.None? <==> forall i :: 0 <= i < |cands| ==> decode(cands[i]).None?
    ensures r.Some? ==> exists i :: 0 <= i < |cands| && decode(cands[i]) == r
                          && forall j :: 0 <= j < i ==> decode(cands[j]).None?
    decreases |cands|
  {
    if |cands| == 0 then None
    else if decode(cands[0]).Some? then decode(cands[0])
    else
      var r := FirstDecoded(cands[1..], decode);
      assert forall i :: 1 <= i < |cands| ==> cands[i] == cands[1..][i - 1];
      r
  }

  /** `_parse_json(text)`: the first of the attempts that decodes, or the error
      record carrying the text unchanged. `decode` stands for `json.loads`,
      `None` where it raises. */
  function ParseJson(text: string, decode: string -> Option<Value>): (r: Value)
    ensures decode(text).Some? ==> r == decode(text).value
    ensures (forall i :: 0 <= i < |Attempts(text)| ==> decode(Attempts(text)[i]).None?) ==> r == ErrorRecord(text)
    ensures r != ErrorRecord(text) ==> exists i :: 0 <= i < |Attempts(text)| && decode(Attempts(text)[i]) == Some(r)
  {
    match FirstDecoded(Attempts(text), decode)
    case Some(v) => v
    case None => ErrorRecord(text)
  }

  /** When the whole text does not decode but a fenced body does, the fenced
      body wins over the brace span. */
  lemma FenceBeforeBraces(text: string, decode: string -> Option<Value>)
    requires decode(text).None? && FencedBody(text).Some? && decode(FencedBody(text).value).Some?
    ensures ParseJson(text, decode) == decode(FencedBody(text).value).value
  {
    var g := FencedBody(text).value;
    var tail := match BraceSpan(text) case Some(b) => [b] case None => [];
    assert Attempts(text) == [text, g] + tail;
    assert ([text, g] + tail)[1..] == [g] + tail;
    assert FirstDecoded([g] + tail, decode) == decode(g);
    assert FirstDecoded([text, g] + tail, decode) == FirstDecoded([g] + tail, decode);
  }

  /** The attempts are tried in order: when some attempt decodes, the result
      is the decoding of the first one that does. */
  lemma ParseJsonTakesFirst(text: string, decode: string -> Option<Value>)
    ensures (exists i :: 0 <= i < |Attempts(text)| && decode(Attempts(text)[i]).Some?) ==>
              exists i :: 0 <= i < |Attempts(text)| && decode(Attempts(text)[i]) == Some(ParseJson(text, decode))
                          && forall j :: 0 <= j < i ==> decode(Attempts(text)[j]).None?
  {
    var found := FirstDecoded(Attempts(text), decode);
    if found.Some? {
      assert ParseJson(text, decode) == found.value;
    }
  }

  /** When neither the whole text nor a fenced body decodes, the greedy brace
      span is tried last, and its decoding is the result when it decodes. */
  lemma BracesLast(text: string, decode: string -> Option<Value>)
    requires decode(text).None?
    requires FencedBody(text).None? || decode(FencedBody(text).value).None?
    requires BraceSpan(text).Some? && decode(BraceSpan(text).value).Some?
    ensures ParseJson(text, decode) == decode(BraceSpan(text).value).value
  {
    var b := BraceSpan(text).value;
    var mid := match FencedBody(text) case Some(g) => [g] case None => [];
    assert Attempts(text) == [text] + mid + [b];
    assert FirstDecoded([b], decode) == decode(b) by {
      assert [b][1..] == [];
    }
    if FencedBody(text).Some? {
      var g := FencedBody(text).value;
      assert ([text] + mid + [b])[1..] == [g, b];
      assert [g, b][1..] == [b];
      assert FirstDecoded([g, b], decode) == FirstDecoded([b], decode);
    } else {
      assert ([text] + mid + [b])[1..] == [b];
    }
  }

  // ---------------------------------------------------------------------------
  // Analysis
  // ---------------------------------------------------------------------------

  /** The two messages `analyze` sends: the system prompt, then the analysis
      prompt wrapped around the formatted transcript (its wording is an input). */
  function AnalysisRequest(agent: MortemAgent, formatted: string, analysisPrompt: string -> string): (r: seq<Msg>)
    ensures |r| == 2 && r[0] == Plain(SystemRole, agent.systemPrompt)
    ensures r[1] == Plain(UserRole, analysisPrompt(formatted))
  {
    [Plain(SystemRole, agent.systemPrompt), Plain(UserRole, analysisPrompt(formatted))]
  }

  /** `analyze(transcript)`: the stripped reply through `_parse_json`. A
      transcript message without role or content, a failed call and a reply
      without content are errors. */
  function Analyze(msgs: seq<Value>, clock: string -> Option<string>, reply: Completion,
                   decode: string -> Option<Value>): (r: Result<Value>)
    ensures r.Ok? <==> AllHaveRoleAndContent(msgs) && reply.Returned? && reply.content.Some?
    ensures r.Ok? ==> r.value == ParseJson(Text.Strip(reply.content.value), decode)
  {
    var _ :- FormatTranscript(msgs, clock);
    match reply
    case CallFailed => Err("completion call failed")
    case Returned(None) => Err("reply has no content")
    case Returned(Some(content)) => Ok(ParseJson(Text.Strip(content), decode))
  }

  // ---------------------------------------------------------------------------
  // Summary
  // ---------------------------------------------------------------------------

  /** The lines of consecutive blocks, one after another. */
  function Concat(blocks: seq<seq<string>>): seq<string>
    decreases |blocks|
  {
    if |blocks| == 0 then [] else blocks[0] + Concat(blocks[1..])
  }

  /** `a + b` read from past `a`. */
  lemma SliceAfter<T>(a: seq<T>, b: seq<T>, x: nat, y: nat)
    requires x <= y <= |b|
    ensures (a + b)[|a| + x..|a| + y] == b[x..y]
  {
  }

  lemma MulPred(n: nat, i: nat)
    requires i > 0
    ensures n * i == n + n * (i - 1)
  {
  }

  /** Blocks of `n` lines each give `n` lines per block, block `i` at lines
      `n*i` to `n*i + n`. */
  lemma {:induction false} ConcatUniform(blocks: seq<seq<string>>, n: nat)
    requires forall i :: 0 <= i < |blocks| ==> |blocks[i]| == n
    ensures |Concat(blocks)| == n * |blocks|
    ensures forall i :: 0 <= i < |blocks| ==>
              n * i + n <= |Concat(blocks)| && Concat(blocks)[n * i..n * i + n] == blocks[i]
    decreases |blocks|
  {
    if |blocks| > 0 {
      var rest := blocks[1..];
      var c := Concat(rest);
      ConcatUniform(rest, n);
      assert Concat(blocks) == blocks[0] + c;
      MulPred(n, |blocks|);
      forall i | 0 <= i < |blocks|
        ensures n * i + n <= |Concat(blocks)| && Concat(blocks)[n * i..n * i + n] == blocks[i]
      {
        if i == 0 {
          assert Concat(blocks)[0..n] == blocks[0];
        } else {
          MulPred(n, i);
          assert rest[i - 1] == blocks[i];
          SliceAfter(blocks[0], c, n * (i - 1), n * (i - 1) + n);
        }
      }
    }
  }

  /** The effectiveness marker: a total map with "[?]" for anything unknown. */
  function Marker(eff: Value): (r: string)
    ensures r in {"[+]", "[~]", "[-]", "[X]", "[?]"}
    ensures r == "[?]" <==> eff !in {Str("effective"), Str("partially_effective"), Str("ineffective"), Str("backfired")}
  {
    if eff == Str("effective") then "[+]"
    else if eff == Str("partially_effective") then "[~]"
    else if eff == Str("ineffective") then "[-]"
    else if eff == Str("backfired") then "[X]"
    else "[?]"
  }

  /** The effectiveness a marker stands for. */
  function MarkerMeaning(m: string): Option<string> {
    if m == "[+]" then Some("effective")
    else if m == "[~]" then Some("partially_effective")
    else if m == "[-]" then Some("ineffective")
    else if m == "[X]" then Some("backfired")
    else None
  }

  /** Each known effectiveness can be read back from its marker, and every
      other value gets the marker that stands for none. */
  lemma MarkerRoundTrip(eff: Value)
    ensures eff.Str? && MarkerMeaning(Marker(eff)).Some? ==> MarkerMeaning(Marker(eff)).value == eff.s
    ensures MarkerMeaning(Marker(eff)).None? <==> Marker(eff) == "[?]"
  {
  }

  /** `f"{d.get(key, default)}"`. */
  function Field(d: Value, key: string, default: string): string {
    Show(GetOr(d, key, Str(default)))
  }

  function TacticBlock(t: Value): seq<string> {
    ["\n" + Marker(GetOr(t, "effectiveness", Str(""))) + " **Turn " + Show(GetOr(t, "turn", Null)) + "** ("
       + Field(t, "timestamp", "") + ") - " + Text.Title(StrOr(GetOr(t, "speaker", Str("")), "")) + ": **"
       + Show(GetOr(t, "tactic_name", Null)) + "**",
     "   \"" + Field(t, "quote", "") + "\"",
     "   " + Field(t, "analysis", "")]
  }

  function MissedBlock(m: Value): seq<string> {
    ["\n**Turn " + Show(GetOr(m, "turn", Null)) + "** (" + Field(m, "timestamp", "") + ")",
     "   You said: \"" + Field(m, "what_user_said", "") + "\"",
     "   Opportunity: " + Field(m, "opportunity", ""),
     "   Better response: \"" + Field(m, "better_response", "") + "\""]
  }

  function TurningBlock(tp: Value): seq<string> {
    ["\n**Turn " + Show(GetOr(tp, "turn", Null)) + "** (" + Field(tp, "timestamp", "") + "): "
       + Field(tp, "description", ""),
     "   Impact: " + Field(tp, "impact", "")]
  }

  /** The block of the lesson numbered `n` (numbering starts at 1). */
  function LessonBlock(n: int, l: Value): seq<string> {
    ["\n" + Text.IntToString(n) + ". **" + Field(l, "lesson", "") + "**",
     "   Evidence: " + Field(l, "evidence", ""),
     "   Practice tip: " + Field(l, "practice_tip", "")]
  }

  function TacticBlocks(ts: seq<Value>): (r: seq<seq<string>>)
    ensures |r| == |ts| && forall i :: 0 <= i < |ts| ==> r[i] == TacticBlock(ts[i])
  {
    seq(|ts|, i requires 0 <= i < |ts| => TacticBlock(ts[i]))
  }

  function MissedBlocks(ms: seq<Value>): (r: seq<seq<string>>)
    ensures |r| == |ms| && forall i :: 0 <= i < |ms| ==> r[i] == MissedBlock(ms[i])
  {
    seq(|ms|, i requires 0 <= i < |ms| => MissedBlock(ms[i]))
  }

  function TurningBlocks(tps: seq<Value>): (r: seq<seq<string>>)
    ensures |r| == |tps| && forall i :: 0 <= i < |tps| ==> r[i] == TurningBlock(tps[i])
  {
    seq(|tps|, i requires 0 <= i < |tps| => TurningBlock(tps[i]))
  }

  function LessonBlocks(ls: seq<Value>): (r: seq<seq<string>>)
    ensures |r| == |ls| && forall i :: 0 <= i < |ls| ==> r[i] == LessonBlock(i + 1, ls[i])
  {
    seq(|ls|, i requires 0 <= i < |ls| => LessonBlock(i + 1, ls[i]))
  }

  /** A section: its heading and blocks when the analysis field is truthy,
      nothing otherwise. */
  function Section(field: Value, heading: string, blocks: seq<seq<string>>): seq<string> {
    if Truthy(field) then [heading] + Concat(blocks) else []
  }

  function HeadLines(summary: Value): (r: seq<string>)
    ensures |r| == 2
  {
    ["# Post-Mortem Analysis (Grade: " + Field(summary, "grade", "?") + ")",
     "\n" + Field(summary, "one_sentence", "") + "\n"]
  }

  function OutcomeLines(outcome: Value): (r: seq<string>)
    ensures |r| == if Truthy(GetOr(outcome, "value_left_on_table", Null)) then 6 else 5
    ensures r[1] == "Primary objective: ACHIEVED" <==> Truthy(GetOr(outcome, "primary_objective_achieved", Null))
  {
    ["## Outcome",
     if Truthy(GetOr(outcome, "primary_objective_achieved", Null)) then "Primary objective: ACHIEVED"
     else "Primary objective: NOT ACHIEVED",
     "  " + Field(outcome, "primary_objective_details", "") + "\n",
     "Compared to BATNA: " + Text.Upper(StrOr(GetOr(outcome, "compared_to_batna", Str("unknown")), "unknown")),
     "  " + Field(outcome, "batna_comparison_details", "") + "\n"]
    + (if Truthy(GetOr(outcome, "value_left_on_table", Null))
       then ["Value left on table: " + Field(outcome, "value_left_on_table", "") + "\n"] else [])
  }

  function BottomLines(summary: Value): (r: seq<string>)
    ensures |r| == 3
  {
    ["\n## Bottom Line",
     "Biggest win: " + Field(summary, "biggest_win", "N/A"),
     "Biggest miss: " + Field(summary, "biggest_miss", "N/A")]
  }

  /** The outcome and the four optional sections. */
  function BodyLines(analysis: Value): (r: seq<string>)
    ensures |r| >= 5
  {
    var tactics := GetOr(analysis, "tactics_used", List([]));
    var missed := GetOr(analysis, "missed_opportunities", List([]));
    var turning := GetOr(analysis, "turning_points", List([]));
    var lessons := GetOr(analysis, "key_lessons", List([]));
    OutcomeLines(GetOr(analysis, "outcome_assessment", EmptyDict))
    + Section(tactics, "## Tactics Detected", TacticBlocks(Items(tactics)))
    + Section(missed, "\n## Missed Opportunities", MissedBlocks(Items(missed)))
    + Section(turning, "\n## Key Turning Points", TurningBlocks(Items(turning)))
    + Section(lessons, "\n## Key Lessons", LessonBlocks(Items(lessons)))
  }

  /** The lines `get_summary` joins for an analysis that parsed: the
      two-line grade header first, the three-line bottom line last, and at
      least the five outcome lines between them. */
  function SummaryLines(analysis: Value): (r: seq<string>)
    ensures |r| >= 10
    ensures r[..2] == HeadLines(GetOr(analysis, "summary", EmptyDict))
    ensures r[|r| - 3..] == BottomLines(GetOr(analysis, "summary", EmptyDict))
  {
    var summary := GetOr(analysis, "summary", EmptyDict);
    FrameOf(HeadLines(summary), BodyLines(analysis), BottomLines(summary));
    HeadLines(summary) + BodyLines(analysis) + BottomLines(summary)
  }

  /** Whether an analysis is the parse-error record (or any dictionary with a
      truthy `parse_error`). */
  predicate IsParseError(analysis: Value) {
    Truthy(GetOr(analysis, "parse_error", Null))
  }

  /** `get_summary(analysis)`: for a parse error the raw response as it is,
      otherwise the summary lines joined by newlines. */
  function GetSummary(analysis: Value): (r: string)
    ensures IsParseError(analysis) ==> r == Show(GetOr(analysis, "raw_response", Str("Analysis failed to parse.")))
    ensures !IsParseError(analysis) ==> r == Text.Join("\n", SummaryLines(analysis))
  {
    if IsParseError(analysis) then Show(GetOr(analysis, "raw_response", Str("Analysis failed to parse.")))
    else Text.Join("\n", SummaryLines(analysis))
  }

  /** A reply none of whose attempts decodes is shown as the summary exactly
      as the model wrote it, after stripping. */
  lemma UnparsedReplyIsSummary(msgs: seq<Value>, clock: string -> Option<string>, content: string,
                               decode: string -> Option<Value>)
    requires AllHaveRoleAndContent(msgs)
    requires var t := Text.Strip(content);
             forall i :: 0 <= i < |Attempts(t)| ==> decode(Attempts(t)[i]).None?
    ensures Analyze(msgs, clock, Returned(Some(content)), decode).Ok?
    ensures GetSummary(Analyze(msgs, clock, Returned(Some(content)), decode).value) == Text.Strip(content)
  {
    var t := Text.Strip(content);
    assert Analyze(msgs, clock, Returned(Some(content)), decode).value == ErrorRecord(t);
    ErrorRecordSummary(t);
  }

  /** The summary of the parse-error record is the raw text. */
  lemma ErrorRecordSummary(text: string)
    ensures GetSummary(ErrorRecord(text)) == text
  {
    var r := ErrorRecord(text);
    assert IsParseError(r);
    assert GetOr(r, "raw_response", Str("Analysis failed to parse.")) == Str(text);
  }

  /** Three lines per tactic, tactic `i` at lines `3*i` to `3*i + 3`. */
  lemma TacticSectionShape(ts: seq<Value>)
    ensures |Concat(TacticBlocks(ts))| == 3 * |ts|
    ensures forall i :: 0 <= i < |ts| ==>
              3 * i + 3 <= |Concat(TacticBlocks(ts))| && Concat(TacticBlocks(ts))[3 * i..3 * i + 3] == TacticBlock(ts[i])
  {
    ConcatUniform(TacticBlocks(ts), 3);
  }

  /** Four lines per missed opportunity. */
  lemma MissedSectionShape(ms: seq<Value>)
    ensures |Concat(MissedBlocks(ms))| == 4 * |ms|
    ensures forall i :: 0 <= i < |ms| ==>
              4 * i + 4 <= |Concat(MissedBlocks(ms))| && Concat(MissedBlocks(ms))[4 * i..4 * i + 4] == MissedBlock(ms[i])
  {
    ConcatUniform(MissedBlocks(ms), 4);
  }

  /** Two lines per turning point. */
  lemma TurningSectionShape(tps: seq<Value>)
    ensures |Concat(TurningBlocks(tps))| == 2 * |tps|
    ensures forall i :: 0 <= i < |tps| ==>
              2 * i + 2 <= |Concat(TurningBlocks(tps))| && Concat(TurningBlocks(tps))[2 * i..2 * i + 2] == TurningBlock(tps[i])
  {
    ConcatUniform(TurningBlocks(tps), 2);
  }

  /** Three lines per lesson, and lesson `i` is numbered `i + 1`. */
  lemma LessonSectionShape(ls: seq<Value>)
    ensures |Concat(LessonBlocks(ls))| == 3 * |ls|
    ensures forall i :: 0 <= i < |ls| ==>
              3 * i < |Concat(LessonBlocks(ls))|
              && Concat(LessonBlocks(ls))[3 * i] == "\n" + Text.IntToString(i + 1) + ". **" + Field(ls[i], "lesson", "") + "**"
  {
    var blocks := LessonBlocks(ls);
    var c := Concat(blocks);
    ConcatUniform(blocks, 3);
    forall i | 0 <= i < |ls|
      ensures 3 * i < |c| && c[3 * i] == "\n" + Text.IntToString(i + 1) + ". **" + Field(ls[i], "lesson", "") + "**"
    {
      assert c[3 * i..3 * i + 3] == blocks[i] == LessonBlock(i + 1, ls[i]);
      assert c[3 * i] == c[3 * i..3 * i + 3][0];
    }
  }

  lemma FrameOf(h: seq<string>, m: seq<string>, b: seq<string>)
    ensures (h + m + b)[..|h|] == h && (h + m + b)[|h + m + b| - |b|..] == b
  {
  }

  // ---------------------------------------------------------------------------
  // Opponent reveal
  // ---------------------------------------------------------------------------

  /** The constraint lines: one "- c" per element of a list, otherwise the
      value itself on one line. */
  function ConstraintLines(c: Value): (r: seq<string>)
    ensures c.List? ==> |r| == |c.items| && forall i :: 0 <= i < |c.items| ==> r[i] == "- " + Show(c.items[i])
    ensures !c.List? ==> r == [Show(c)]
  {
    if c.List? then seq(|c.items|, i requires 0 <= i < |c.items| => "- " + Show(c.items[i]))
    else [Show(c)]
  }

  function RevealIntro(h: Hidden): seq<string> {
    ["# What Your Opponent Was Really Thinking",
     "\n**" + Show(h.name) + "**\n",
     "## Their True Objectives",
     Show(h.objectives) + "\n",
     "## Their Real Constraints"]
  }

  function RevealMiddle(h: Hidden): seq<string> {
    ["\n## Their BATNA (Walkaway Alternative)",
     Show(h.batna) + "\n",
     "## Their Planned Tactics",
     Show(h.disposition) + "\n"]
  }

  function InterestLines(h: Hidden): seq<string> {
    if Truthy(h.interests) then ["## Their Underlying Interests", Show(h.interests)] else []
  }

  /** The lines `get_opponent_reveal` joins. */
  function RevealLines(h: Hidden): seq<string> {
    RevealIntro(h) + ConstraintLines(h.constraints) + RevealMiddle(h) + InterestLines(h)
  }

  /** `get_opponent_reveal()`. */
  function OpponentReveal(agent: MortemAgent): string {
    Text.Join("\n", RevealLines(agent.opponent))
  }

  /** The reveal has nine fixed lines, the constraint lines after the fifth,
      and the two-line interests section at the end exactly when the interests
      are non-empty. */
  lemma RevealShape(h: Hidden)
    ensures var l := RevealLines(h);
            var c := ConstraintLines(h.constraints);
            |l| == 9 + |c| + (if Truthy(h.interests) then 2 else 0)
            && l[5..5 + |c|] == c
            && l[1] == "\n**" + Show(h.name) + "**\n"
    ensures Truthy(h.interests) ==>
              RevealLines(h)[|RevealLines(h)| - 2..] == ["## Their Underlying Interests", Show(h.interests)]
    ensures !Truthy(h.interests) ==>
              RevealLines(h)[|RevealLines(h)| - 2..] == ["## Their Planned Tactics", Show(h.disposition) + "\n"]
  {
    var a := RevealIntro(h);
    var c := ConstraintLines(h.constraints);
    var m := RevealMiddle(h);
    var t := InterestLines(h);
    var l := a + c + m + t;
    assert l[5..5 + |c|] == c;
    assert l[|l| - 2..] == (m + t)[|m + t| - 2..];
  }
}
