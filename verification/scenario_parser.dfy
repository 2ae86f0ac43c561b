/** The scenario text parser: the sections of a scenario description, the
    objective and asymmetry items inside them, and the opponent and coach
    configurations built from those. Each regular expression of the parser is
    modelled by the match Python's `re.search` finds for it: the leftmost
    start, greedy classes, lazy groups that end at the first position where
    the lookahead holds, and `$` that also matches before a final newline. */
module ScenarioParser {
  import opened Base
  import Text

  // ---------------------------------------------------------------------------
  // Pattern pieces
  // ---------------------------------------------------------------------------

  /** Python's `$` without MULTILINE: the end of the text, or just before a
      newline that ends it. */
  predicate EndAnchor(text: string, k: nat) {
    k == |text| || (k + 1 == |text| && text[k] == '\n')
  }

  /** The end of the longest run of characters of a class starting at `p`. */
  function RunEnd(text: string, p: nat, inClass: char -> bool): (e: nat)
    requires p <= |text|
    ensures p <= e <= |text|
    ensures forall j :: p <= j < e ==> inClass(text[j])
    ensures e == |text| || !inClass(text[e])
    decreases |text| - p
  {
    if p == |text| || !inClass(text[p]) then p else RunEnd(text, p + 1, inClass)
  }

  /** `[A-Za-z']`, the class of a possessive name. */
  predicate IsNameChar(c: char) {
    Text.IsAsciiLetter(c) || c == '\''
  }

  /** `[A-Za-z ]`, the class of a party name or role. */
  predicate IsNameOrSpace(c: char) {
    Text.IsAsciiLetter(c) || c == ' '
  }

  /** `[A-Z][a-z]+` at the start of `t`: the index after the word. Since the
      pattern is always followed by a character that is not a lower-case
      letter, only the longest run of lower-case letters can match. */
  function CapWord(t: string, p: nat): (r: Option<nat>)
    requires p <= |t|
    ensures r.Some? ==> p + 2 <= r.value <= |t| && Text.IsUpperAscii(t[p])
    ensures r.Some? ==> forall j :: p + 1 <= j < r.value ==> Text.IsLowerAscii(t[j])
  {
    if p < |t| && Text.IsUpperAscii(t[p]) then
      var e := RunEnd(t, p + 1, Text.IsLowerAscii);
      if e >= p + 2 then Some(e) else None
    else None
  }

  /** `\n[A-Z][a-z]+ [A-Z][a-z]+:` at the start of `t`: a new line opening
      with two capitalised words and a colon. */
  predicate IsHeader(t: string) {
    |t| > 0 && t[0] == '\n' &&
    match CapWord(t, 1)
    case None => false
    case Some(e1) =>
      e1 < |t| && t[e1] == ' ' &&
      match CapWord(t, e1 + 1)
      case None => false
      case Some(e2) => e2 < |t| && t[e2] == ':'
  }

  /** What may end a lazy group. */
  datatype Stop =
    | HeaderLine          // `(?=\n[A-Z][a-z]+ [A-Z][a-z]+:|$)`
    | Bullet              // `(?=\n- |$)`
    | LineEnd             // `(?=\n|$)`
    | Before(pat: string) // `(?=pat|$)`

  /** Whether the lookahead of `stop` holds at `k`. */
  predicate StopsAt(text: string, k: nat, stop: Stop)
    requires k <= |text|
  {
    EndAnchor(text, k) ||
    match stop
    case HeaderLine => IsHeader(text[k..])
    case Bullet => Text.PrefixAt(text, k, "\n- ")
    case LineEnd => k < |text| && text[k] == '\n'
    case Before(pat) => Text.PrefixAt(text, k, pat)
  }

  /** Where a lazy group `(.*?)` starting at `s` ends: the first position at
      which the lookahead holds. The end of the text always qualifies. */
  function LazyEnd(text: string, s: nat, stop: Stop): (k: nat)
    requires s <= |text|
    ensures s <= k <= |text| && StopsAt(text, k, stop)
    ensures forall j :: s <= j < k ==> !StopsAt(text, j, stop)
    decreases |text| - s
  {
    if StopsAt(text, s, stop) then s
    else
      assert s < |text|;
      LazyEnd(text, s + 1, stop)
  }

  /** The stripped lazy group from `s` (`match.group(1).strip()`). */
  function Captured(text: string, s: nat, stop: Stop): (r: string)
    requires s <= |text|
  {
    Text.Strip(text[s..LazyEnd(text, s, stop)])
  }

  /** `re.search(re.escape(pat) + "(.*?)" + lookahead, text)`, group 1
      stripped, or "" without a match: the lazy group after the leftmost
      occurrence of the literal `pat`. */
  function FirstGroup(text: string, pat: string, stop: Stop): (r: string)
    ensures !Text.Contains(text, pat) ==> r == ""
  {
    Text.FindFromContains(text, pat);
    GroupAt(text, pat, stop, Text.FindFrom(text, pat, 0))
  }

  /** The group after the occurrence of `pat` found at `found`, or "". */
  function GroupAt(text: string, pat: string, stop: Stop, found: Option<nat>): string
    requires found.Some? ==> found.value + |pat| <= |text|
  {
    match found
    case None => ""
    case Some(i) => Captured(text, i + |pat|, stop)
  }

  /** The match is the leftmost occurrence of `pat`: the group after it runs
      to the first position where the lookahead holds (`LazyEnd`). */
  lemma FirstGroupAt(text: string, pat: string, stop: Stop, i: nat)
    requires Text.FirstAt(text, pat, i)
    ensures i + |pat| <= |text|
    ensures FirstGroup(text, pat, stop) == Captured(text, i + |pat|, stop)
  {
    Text.FindFromFirst(text, pat);
    assert Text.FindFrom(text, pat, 0) == Some(i);
    GroupAtSome(text, pat, stop, i);
  }

  /** A found occurrence selects the group after it. */
  lemma GroupAtSome(text: string, pat: string, stop: Stop, i: nat)
    requires i + |pat| <= |text|
    ensures GroupAt(text, pat, stop, Some(i)) == Captured(text, i + |pat|, stop)
  {
  }

  // ---------------------------------------------------------------------------
  // Sections and items
  // ---------------------------------------------------------------------------

  /** `extract_section(text, name)`: the stripped text after the first
      "name:" up to the next header line or the end, or "" without one. */
  function ExtractSection(text: string, name: string): (r: string)
    ensures !Text.Contains(text, name + ":") ==> r == ""
  {
    FirstGroup(text, name + ":", HeaderLine)
  }

  /** A section never starts or ends with whitespace, and a section read
      again from its own text under no header is empty. */
  lemma SectionIsStripped(text: string, name: string)
    ensures Text.Strip(ExtractSection(text, name)) == ExtractSection(text, name)
  {
    match Text.FindFrom(text, name + ":", 0)
    case None =>
    case Some(i) =>
      Text.StripIdempotent(text[i + |name| + 1..LazyEnd(text, i + |name| + 1, HeaderLine)]);
  }

  /** A pattern at the start of the text is found there. */
  lemma FoundAtStart(pat: string, rest: string)
    ensures Text.FindFrom(pat + rest, pat, 0) == Some(0)
  {
    assert (pat + rest)[..|pat|] == pat;
  }

  /** A line without newlines followed by a stop ends its lazy group at that stop. */
  lemma LazyEndAtLineEnd(text: string, s: nat, n: nat, stop: Stop)
    requires s + n <= |text|
    requires '\n' !in text[s..s + n]
    requires !stop.Before?
    requires StopsAt(text, s + n, stop)
    ensures LazyEnd(text, s, stop) == s + n
  {
    forall j | s <= j < s + n
      ensures !StopsAt(text, j, stop)
    {
      assert text[j..][0] == text[j] == text[s..s + n][j - s];
    }
  }

  /** A section found at the very start is the group after its colon. */
  lemma SectionAtStart(name: string, tail: string)
    ensures ExtractSection(name + ":" + tail, name) == Captured(name + ":" + tail, |name| + 1, HeaderLine)
  {
    FoundAtStart(name + ":", tail);
  }

  /** A section that starts the text, holds one line, and is followed by the
      end of the text or another header line comes back stripped. */
  lemma SectionRoundTrip(name: string, body: string, rest: string)
    requires '\n' !in body
    requires rest == [] || IsHeader(rest)
    ensures ExtractSection(name + ":" + body + rest, name) == Text.Strip(body)
  {
    var text := name + ":" + (body + rest);
    assert text == name + ":" + body + rest;
    SectionAtStart(name, body + rest);
    var s := |name| + 1;
    assert text[s..s + |body|] == body;
    assert StopsAt(text, s + |body|, HeaderLine) by {
      assert text[s + |body|..] == rest;
    }
    LazyEndAtLineEnd(text, s, |body|, HeaderLine);
  }

  /** A run that stops at `e` ends at `e`. */
  lemma {:induction false} RunEndAt(text: string, p: nat, e: nat, inClass: char -> bool)
    requires p <= e <= |text|
    requires forall j :: p <= j < e ==> inClass(text[j])
    requires e == |text| || !inClass(text[e])
    ensures RunEnd(text, p, inClass) == e
    decreases e - p
  {
    if p < e {
      RunEndAt(text, p + 1, e, inClass);
    }
  }

  /** A line opening with a capitalised word, a space and a lower-case word is
      no header: "Points of Tension:" and "Constraints and Pressures:" do not
      end the section before them. */
  lemma LowerSecondWordIsNoHeader(t: string, e1: nat)
    requires 2 < e1 + 1 < |t| && t[0] == '\n' && Text.IsUpperAscii(t[1])
    requires forall j :: 2 <= j < e1 ==> Text.IsLowerAscii(t[j])
    requires t[e1] == ' ' && Text.IsLowerAscii(t[e1 + 1])
    ensures !IsHeader(t)
  {
    RunEndAt(t, 2, e1, Text.IsLowerAscii);
  }

  /** A line opening "Your BATNA" is no header, so the section before the
      "Your BATNA (...):" line runs on past it. */
  lemma YourBatnaLineIsNoHeader(rest: string)
    ensures !IsHeader("\nYour BATNA" + rest)
  {
    var t := "\nYour BATNA" + rest;
    assert t[1] == 'Y' && t[2] == 'o' && t[3] == 'u' && t[4] == 'r' && t[5] == ' ';
    RunEndAt(t, 2, 5, Text.IsLowerAscii);
    assert t[6] == 'B' && t[7] == 'A';
    RunEndAt(t, 7, 7, Text.IsLowerAscii);
  }

  /** `re.search(tag + "(.*?)(?=\n- |$)", text)` stripped, or "": the item
      after the first occurrence of a literal tag, up to the next bullet. */
  function LabelledItem(text: string, tag: string): (r: string)
    ensures !Text.Contains(text, tag) ==> r == ""
  {
    FirstGroup(text, tag, Bullet)
  }

  /** `- [A-Za-z']+s` followed by `tail` at `p`: the index after `tail`. The
      name run must end with the 's' of the pattern, since the character after
      that 's' is a space. */
  function PossessiveAt(text: string, p: nat, tail: string): (r: Option<nat>)
    requires p <= |text|
    ensures r.Some? ==> p + 4 + |tail| <= r.value <= |text|
    ensures r.Some? ==> Text.PrefixAt(text, p, "- ") && Text.PrefixAt(text, r.value - |tail|, tail)
  {
    if Text.PrefixAt(text, p, "- ") then
      var e := RunEnd(text, p + 2, IsNameChar);
      if e >= p + 4 && text[e - 1] == 's' && Text.PrefixAt(text, e, tail) then Some(e + |tail|) else None
    else None
  }

  /** The leftmost `p >= from` at which `PossessiveAt` matches. */
  function FirstPossessive(text: string, from: nat, tail: string): (r: Option<nat>)
    requires from <= |text|
    ensures r.Some? ==> exists p :: from <= p <= |text| && PossessiveAt(text, p, tail) == Some(r.value)
    ensures r.None? ==> forall p :: from <= p <= |text| ==> PossessiveAt(text, p, tail).None?
    decreases |text| - from
  {
    match PossessiveAt(text, from, tail)
    case Some(e) => Some(e)
    case None => if from == |text| then None else FirstPossessive(text, from + 1, tail)
  }

  /** `re.search` returns the leftmost match: when the pattern matches at `p`
      and at no position from `from` up to `p`, the search finds that match. */
  lemma {:induction false} FirstPossessiveAt(text: string, from: nat, tail: string, p: nat)
    requires from <= p <= |text|
    requires PossessiveAt(text, p, tail).Some?
    requires forall q :: from <= q < p ==> PossessiveAt(text, q, tail).None?
    ensures FirstPossessive(text, from, tail) == PossessiveAt(text, p, tail)
    decreases p - from
  {
    if from < p {
      assert from < |text|;
      assert FirstPossessive(text, from, tail) == FirstPossessive(text, from + 1, tail) by {
        assert PossessiveAt(text, from, tail).None?;
      }
      FirstPossessiveAt(text, from + 1, tail, p);
    }
  }

  /** `re.search(r"- [A-Za-z']+s" + tail + "(.*?)(?=\n- |$)", text)` stripped, or "". */
  function PossessiveItem(text: string, tail: string): string {
    match FirstPossessive(text, 0, tail)
    case None => ""
    case Some(s) => Captured(text, s, Bullet)
  }

  /** `- ([A-Za-z ]+) \([A-Za-z ]+\):` at `p`: the name group. The name run
      must end with the space before '(', which ends the run. */
  function PartyAt(text: string, p: nat): (r: Option<string>)
    requires p <= |text|
    ensures r.Some? ==> Text.PrefixAt(text, p, "- ") && |r.value| >= 1
    ensures r.Some? ==> forall j :: 0 <= j < |r.value| ==> IsNameOrSpace(r.value[j])
  {
    if Text.PrefixAt(text, p, "- ") then
      var e := RunEnd(text, p + 2, IsNameOrSpace);
      if e >= p + 4 && e < |text| && text[e - 1] == ' ' && text[e] == '(' then
        var e2 := RunEnd(text, e + 1, IsNameOrSpace);
        if e2 >= e + 2 && Text.PrefixAt(text, e2, "):") then Some(text[p + 2..e - 1]) else None
      else None
    else None
  }

  /** The leftmost `p >= from` at which a party line matches. */
  function FirstPartyIndex(text: string, from: nat): (r: Option<nat>)
    requires from <= |text|
    ensures r.Some? ==> from <= r.value <= |text| && PartyAt(text, r.value).Some?
    ensures r.None? ==> forall p :: from <= p <= |text| ==> PartyAt(text, p).None?
    decreases |text| - from
  {
    if PartyAt(text, from).Some? then Some(from)
    else if from == |text| then None
    else FirstPartyIndex(text, from + 1)
  }

  /** The name group of the leftmost party line at or after `from`. */
  function FirstParty(text: string, from: nat): (r: Option<string>)
    requires from <= |text|
    ensures r.None? <==> forall p :: from <= p <= |text| ==> PartyAt(text, p).None?
    ensures r.Some? ==> exists p :: from <= p <= |text| && PartyAt(text, p) == r
  {
    match FirstPartyIndex(text, from)
    case None => None
    case Some(p) => PartyAt(text, p)
  }

  /** The index search stops at the leftmost party line. */
  lemma {:induction false} FirstPartyIndexAt(text: string, from: nat, p: nat)
    requires from <= p <= |text|
    requires PartyAt(text, p).Some?
    requires forall q :: from <= q < p ==> PartyAt(text, q).None?
    ensures FirstPartyIndex(text, from) == Some(p)
    decreases p - from
  {
    if from < p {
      assert PartyAt(text, from).None?;
      FirstPartyIndexAt(text, from + 1, p);
    }
  }

  /** The search returns the leftmost party line: when the pattern matches at
      `p` and at no position from `from` up to `p`, its group is the result. */
  lemma FirstPartyAt(text: string, from: nat, p: nat)
    requires from <= p <= |text|
    requires PartyAt(text, p).Some?
    requires forall q :: from <= q < p ==> PartyAt(text, q).None?
    ensures FirstParty(text, from) == PartyAt(text, p)
  {
    FirstPartyIndexAt(text, from, p);
  }

  /** The counterparty's name from the parties section, or "Counterparty". */
  function CounterpartyName(parties: string): (r: string)
    ensures (forall p :: 0 <= p <= |parties| ==> PartyAt(parties, p).None?) ==> r == "Counterparty"
    ensures (exists p :: 0 <= p <= |parties| && PartyAt(parties, p).Some?) ==>
              exists p :: 0 <= p <= |parties| && PartyAt(parties, p).Some? && r == Text.Strip(PartyAt(parties, p).value)
  {
    match FirstParty(parties, 0)
    case None => "Counterparty"
    case Some(n) => Text.Strip(n)
  }

  /** The counterparty is named by the first party line of the section, not
      by any later one. */
  lemma CounterpartyIsFirstParty(parties: string, p: nat)
    requires p <= |parties|
    requires PartyAt(parties, p).Some?
    requires forall q :: 0 <= q < p ==> PartyAt(parties, q).None?
    ensures CounterpartyName(parties) == Text.Strip(PartyAt(parties, p).value)
  {
    FirstPartyAt(parties, 0, p);
  }

  /** A line "- Name (Role):" at the start of the parties section gives the
      name back, stripped. */
  lemma PartyLineRoundTrip(name: string, role: string, rest: string)
    requires |name| >= 1 && |role| >= 1
    requires forall j :: 0 <= j < |name| ==> Text.IsAsciiLetter(name[j])
    requires forall j :: 0 <= j < |role| ==> IsNameOrSpace(role[j])
    ensures CounterpartyName("- " + name + " (" + role + "):" + rest) == name
  {
    PartyLineMatches(name, role, rest);
    assert Text.StripStart(name) == 0 && Text.StripEnd(name) == |name| by {
      assert !Text.IsSpace(name[0]) && !Text.IsSpace(name[|name| - 1]);
    }
  }

  /** The party pattern matches such a line at its start, with the name as
      its group. */
  lemma PartyLineMatches(name: string, role: string, rest: string)
    requires |name| >= 1 && |role| >= 1
    requires forall j :: 0 <= j < |name| ==> Text.IsAsciiLetter(name[j])
    requires forall j :: 0 <= j < |role| ==> IsNameOrSpace(role[j])
    ensures PartyAt("- " + name + " (" + role + "):" + rest, 0) == Some(name)
  {
    var text := "- " + name + " (" + role + "):" + rest;
    var e := |name| + 3;
    var e2 := e + 1 + |role|;
    assert text[..2] == "- ";
    forall j | 2 <= j < e
      ensures IsNameOrSpace(text[j])
    {
      if j < e - 1 {
        assert text[j] == name[j - 2];
      }
    }
    assert text[e] == '(';
    RunEndAt(text, 2, e, IsNameOrSpace);
    forall j | e + 1 <= j < e2
      ensures IsNameOrSpace(text[j])
    {
      assert text[j] == role[j - e - 1];
    }
    assert text[e2] == ')';
    RunEndAt(text, e + 1, e2, IsNameOrSpace);
    assert text[e2..e2 + 2] == "):";
    assert text[2..e - 1] == name;
  }

  /** The user's own lines ("- Your objectives:", "- Your underlying
      interests:") are never taken for the counterparty's: "Your" does not
      end with the 's' of the pattern. */
  lemma UserLineIsNotPossessive(text: string, p: nat, tail: string)
    requires Text.PrefixAt(text, p, "- Your ")
    ensures PossessiveAt(text, p, tail).None?
  {
    var t := text[p..p + 7];
    assert t == "- Your ";
    assert text[p + 2] == t[2] && text[p + 3] == t[3] && text[p + 4] == t[4];
    assert text[p + 5] == t[5] && text[p + 6] == t[6];
    assert RunEnd(text, p + 2, IsNameChar) == p + 6;
  }

  const TheyDontKnowTag: string := " doesn't know:"

  /** Where the group of `re.search(r"- .+ doesn't know:(.*?)(?=\n|$)", text,
      re.DOTALL)` starts. The greedy `.+` runs to the LAST " doesn't know:",
      which must start at least three characters after the first "- ". */
  function TheyDontKnowStart(text: string): (r: Option<nat>)
    ensures r.Some? <==>
              Text.FindFrom(text, "- ", 0).Some? && Text.FindLast(text, TheyDontKnowTag).Some?
              && Text.FindLast(text, TheyDontKnowTag).value >= Text.FindFrom(text, "- ", 0).value + 3
    ensures r.Some? ==> |TheyDontKnowTag| <= r.value <= |text|
    ensures r.Some? ==> Text.PrefixAt(text, r.value - |TheyDontKnowTag|, TheyDontKnowTag)
    ensures r.Some? ==> forall j :: r.value - |TheyDontKnowTag| < j ==> !Text.PrefixAt(text, j, TheyDontKnowTag)
  {
    var dash := Text.FindFrom(text, "- ", 0);
    var tag := Text.FindLast(text, TheyDontKnowTag);
    if dash.Some? && tag.Some? && tag.value >= dash.value + 3 then Some(tag.value + |TheyDontKnowTag|)
    else None
  }

  /** The stripped group, or "" without a match: the rest of the line after
      the last "doesn't know:" label. */
  function TheyDontKnowItem(text: string): (r: string)
    ensures TheyDontKnowStart(text).None? ==> r == ""
    ensures TheyDontKnowStart(text).Some? ==>
              var s := TheyDontKnowStart(text).value;
              var k := LazyEnd(text, s, LineEnd);
              r == Text.Strip(text[s..k]) && forall j :: s <= j < k ==> text[j] != '\n'
  {
    match TheyDontKnowStart(text)
    case None => ""
    case Some(s) =>
      LineHasNoNewline(text, s);
      Captured(text, s, LineEnd)
  }

  /** A group that ends at the line's end holds no newline. */
  lemma LineHasNoNewline(text: string, s: nat)
    requires s <= |text|
    ensures forall j :: s <= j < LazyEnd(text, s, LineEnd) ==> text[j] != '\n'
  {
    var k := LazyEnd(text, s, LineEnd);
    forall j | s <= j < k
      ensures text[j] != '\n'
    {
      assert !StopsAt(text, j, LineEnd);
    }
  }

  // ---------------------------------------------------------------------------
  // Guards
  // ---------------------------------------------------------------------------

  /** `you_dont_know`: the "- You don't know:" item, read only when the section
      contains "You don't know:". */
  function YouDontKnow(info: string): string {
    if Text.Contains(info, "You don't know:") then LabelledItem(info, "- You don't know:") else ""
  }

  /** `they_dont_know`, read only when the section contains "doesn't know:". */
  function TheyDontKnow(info: string): string {
    if Text.Contains(info, "doesn't know:") then TheyDontKnowItem(info) else ""
  }

  /** `negotiable`: the text after "Negotiable:" up to "Non-negotiable:",
      read only when the scope contains "Negotiable:". */
  function Negotiable(scope: string): string {
    if Text.Contains(scope, "Negotiable:") then NegotiableItem(scope) else ""
  }

  /** The negotiable item itself. */
  function NegotiableItem(scope: string): (r: string)
    ensures !Text.Contains(scope, "Negotiable:") ==> r == ""
  {
    FirstGroup(scope, "Negotiable:", Before("Non-negotiable:"))
  }

  /** Each `in` guard is implied by the pattern it protects, so it never
      changes the result: the guarded reading equals the unguarded one. */
  lemma YouDontKnowGuardRedundant(info: string)
    ensures YouDontKnow(info) == LabelledItem(info, "- You don't know:")
  {
    if !Text.Contains(info, "You don't know:") && Text.Contains(info, "- You don't know:") {
      assert ("- You don't know:")[2..] == "You don't know:";
      assert Text.PrefixAt("- You don't know:", 2, "You don't know:");
      Text.ContainsTransitive(info, "- You don't know:", "You don't know:");
    }
  }

  lemma TheyDontKnowGuardRedundant(info: string)
    ensures TheyDontKnow(info) == TheyDontKnowItem(info)
  {
    var q := Text.FindLast(info, TheyDontKnowTag);
    if !Text.Contains(info, "doesn't know:") && q.Some? {
      assert TheyDontKnowTag[1..] == "doesn't know:";
      assert Text.PrefixAt(TheyDontKnowTag, 1, "doesn't know:");
      Text.ContainsAt(info, TheyDontKnowTag, q.value);
      Text.ContainsTransitive(info, TheyDontKnowTag, "doesn't know:");
    }
  }

  lemma NegotiableGuardRedundant(scope: string)
    ensures Negotiable(scope) == NegotiableItem(scope)
  {
  }

  // ---------------------------------------------------------------------------
  // The configurations
  // ---------------------------------------------------------------------------

  /** The "opponent" dictionary. */
  datatype OpponentConfig = OpponentConfig(
    context: string,
    counterpartyName: string,
    counterpartyObjectives: string,
    counterpartyInterests: string,
    batna: string,
    constraints: string,
    informationAsymmetries: string,
    disposition: string,
    personality: string)

  /** The "coach" dictionary. */
  datatype CoachConfig = CoachConfig(
    userObjectives: string,
    userBatna: string,
    pointsOfTension: string,
    negotiableItems: string,
    successCriteria: string,
    infoAsymmetries: string)

  /** The result of `parse_scenario_text`. */
  datatype Parsed = Parsed(opponent: OpponentConfig, coach: CoachConfig, fullScenario: string)

  /** `parse_scenario_text(text)`. The opponent's "batna" is what the user
      does not know and its "information_asymmetries" what the counterparty
      does not know; the coach receives the whole asymmetries section. */
  function ParseScenario(text: string): (r: Parsed)
    ensures r.fullScenario == text
    ensures r.opponent.personality == "professional"
    ensures r.opponent.batna == YouDontKnow(ExtractSection(text, "Information Asymmetries"))
    ensures r.opponent.informationAsymmetries == TheyDontKnow(ExtractSection(text, "Information Asymmetries"))
    ensures r.coach.infoAsymmetries == ExtractSection(text, "Information Asymmetries")
    ensures r.coach.userBatna == ExtractSection(text, "Your BATNA")
    ensures r.opponent.counterpartyName == CounterpartyName(ExtractSection(text, "Parties Involved"))
    ensures r.opponent.context == ExtractSection(text, "Context and Background")
    ensures r.opponent.counterpartyObjectives == PossessiveItem(ExtractSection(text, "Objectives and Interests"), " objectives:")
    ensures r.opponent.counterpartyInterests == PossessiveItem(ExtractSection(text, "Objectives and Interests"), " underlying interests:")
    ensures r.opponent.constraints == ExtractSection(text, "Constraints and Pressures")
    ensures r.opponent.disposition == ExtractSection(text, "Counterparty Disposition")
    ensures r.coach.userObjectives == LabelledItem(ExtractSection(text, "Objectives and Interests"), "- Your objectives:")
    ensures r.coach.pointsOfTension == ExtractSection(text, "Points of Tension")
    ensures r.coach.negotiableItems == Negotiable(ExtractSection(text, "Negotiation Scope"))
    ensures r.coach.successCriteria == ExtractSection(text, "Success Criteria")
  {
    var objectives := ExtractSection(text, "Objectives and Interests");
    var info := ExtractSection(text, "Information Asymmetries");
    Parsed(
      OpponentConfig(
        ExtractSection(text, "Context and Background"),
        CounterpartyName(ExtractSection(text, "Parties Involved")),
        PossessiveItem(objectives, " objectives:"),
        PossessiveItem(objectives, " underlying interests:"),
        YouDontKnow(info),
        ExtractSection(text, "Constraints and Pressures"),
        TheyDontKnow(info),
        ExtractSection(text, "Counterparty Disposition"),
        "professional"),
      CoachConfig(
        LabelledItem(objectives, "- Your objectives:"),
        ExtractSection(text, "Your BATNA"),
        ExtractSection(text, "Points of Tension"),
        Negotiable(ExtractSection(text, "Negotiation Scope")),
        ExtractSection(text, "Success Criteria"),
        info),
      text)
  }
}
