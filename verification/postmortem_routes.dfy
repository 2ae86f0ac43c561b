/** The post-mortem endpoints: the in-memory session and analysis stores,
    the caching and not-found decisions around running the post-mortem agent,
    and the transformation of the agent's analysis into the scores, lists and
    key moments the frontend shows. Database persistence is not modelled. */
module PostMortemRoutes {
  import opened Base
  import opened Json
  import opened Chat
  import Text
  import PostMortem
  import Opponent

  // ---------------------------------------------------------------------------
  // Frontend result
  // ---------------------------------------------------------------------------

  datatype Metric = Metric(title: string, score: int, change: int)

  datatype MomentKind = Positive | Negative

  /** A key moment. Its time and description are copied from the analysis, so
      they are whatever values the analysis holds. */
  datatype Moment = Moment(time: Value, desc: Value, kind: MomentKind)

  datatype Frontend = Frontend(
    overallScore: int,
    strengths: seq<string>,
    improvements: seq<string>,
    metrics: seq<Metric>,
    keyMoments: seq<Moment>)

  const MetricLabels: seq<string> :=
    ["Communication", "Strategy", "Persuasion", "Listening", "Confidence", "Adaptability"]

  /** Six metrics carrying the six labels in order, each with change 0. */
  predicate Labelled(ms: seq<Metric>) {
    |ms| == 6 && forall i :: 0 <= i < 6 ==> ms[i].title == MetricLabels[i] && ms[i].change == 0
  }

  /** The six metrics with the given scores. */
  function MetricsOf(scores: seq<int>): (r: seq<Metric>)
    requires |scores| == 6
    ensures Labelled(r)
    ensures forall i :: 0 <= i < 6 ==> r[i].score == scores[i]
  {
    seq(6, i requires 0 <= i < 6 => Metric(MetricLabels[i], scores[i], 0))
  }

  /** The result for an analysis that did not parse: every score 50, no key
      moments, and the first 200 characters of the raw reply as the only
      improvement. */
  function ParseErrorFrontend(analysis: Value): (r: Frontend)
    ensures r.overallScore == 50 && r.keyMoments == []
    ensures r.strengths == ["Analysis could not be parsed. Please try again."]
    ensures var raw := StrOr(GetOr(analysis, "raw_response", Str("Unknown error")), "Unknown error");
            && |r.improvements| == 1
            && |r.improvements[0]| == Min(200, |raw|)
            && r.improvements[0] == raw[..|r.improvements[0]|]
    ensures Labelled(r.metrics) && forall i :: 0 <= i < 6 ==> r.metrics[i].score == 50
  {
    Frontend(
      50,
      ["Analysis could not be parsed. Please try again."],
      [Take(StrOr(GetOr(analysis, "raw_response", Str("Unknown error")), "Unknown error"), 200)],
      MetricsOf([50, 50, 50, 50, 50, 50]),
      [])
  }

  // ---------------------------------------------------------------------------
  // Grade and rating tables
  // ---------------------------------------------------------------------------

  /** The grades of the table, best first. */
  const Grades: seq<string> := ["A", "A-", "B+", "B", "B-", "C+", "C", "C-", "D+", "D", "D-", "F"]

  /** The score of a single-letter grade. */
  function LetterPoints(c: char): int {
    match c
    case 'A' => 95 case 'B' => 83 case 'C' => 73 case 'D' => 63 case 'F' => 45 case _ => 70
  }

  /** The score of a letter followed by '-'. */
  function MinusPoints(c: char): int {
    match c
    case 'A' => 90 case 'B' => 80 case 'C' => 70 case 'D' => 60 case _ => 70
  }

  /** The score of a letter followed by '+'. */
  function PlusPoints(c: char): int {
    match c
    case 'B' => 87 case 'C' => 77 case 'D' => 67 case _ => 70
  }

  /** `grade_to_score.get(g, 70)` for a string grade, looked up by its
      letter and sign. */
  function GradePoints(g: string): (r: int)
    ensures 45 <= r <= 95
  {
    if |g| == 1 then LetterPoints(g[0])
    else if |g| == 2 && g[1] == '-' then MinusPoints(g[0])
    else if |g| == 2 && g[1] == '+' then PlusPoints(g[0])
    else 70
  }

  /** `grade_to_score.get(grade, 70)`; a grade that is not a string is looked
      up as a missing key. */
  function GradeScore(grade: Value): (r: int)
    ensures 45 <= r <= 95
    ensures grade.Str? ==> r == GradePoints(grade.s)
    ensures !grade.Str? ==> r == 70
  {
    if grade.Str? then GradePoints(grade.s) else 70
  }

  /** The grade a score stands for, read back from the table. */
  function GradeOfScore(score: int): Option<string>
  {
    if score == 95 then Some("A")
    else if score == 90 then Some("A-")
    else if score == 87 then Some("B+")
    else if score == 83 then Some("B")
    else if score == 80 then Some("B-")
    else if score == 77 then Some("C+")
    else if score == 73 then Some("C")
    else if score == 70 then Some("C-")
    else if score == 67 then Some("D+")
    else if score == 63 then Some("D")
    else if score == 60 then Some("D-")
    else if score == 45 then Some("F")
    else None
  }

  /** Every grade of the table can be read back from its score, and a better
      grade always scores higher. */
  lemma GradeTableRoundTrip(i: nat)
    requires i < |Grades|
    ensures GradeOfScore(GradePoints(Grades[i])) == Some(Grades[i])
    ensures i + 1 < |Grades| ==> GradePoints(Grades[i]) > GradePoints(Grades[i + 1])
  {
  }

  /** A grade missing from the table scores like "C-": the frontend cannot
      tell the two apart. */
  lemma UnknownGradeLooksLikeCMinus(grade: Value)
    requires !(grade.Str? && grade.s in Grades)
    ensures GradeScore(grade) == 70 == GradeScore(Str("C-")) && GradeOfScore(GradeScore(grade)) == Some("C-")
  {
    if grade.Str? && |grade.s| == 1 {
      assert grade.s == [grade.s[0]];
    } else if grade.Str? && |grade.s| == 2 {
      assert grade.s == [grade.s[0], grade.s[1]];
    }
  }

  /** `rating_to_confidence.get(rating, 70)`. */
  function ConfidenceScore(rating: Value): (r: int)
    ensures 52 <= r <= 92
    ensures r == 70 <==> rating !in {Str("excellent"), Str("good"), Str("fair"), Str("poor")}
    ensures rating == Str("excellent") ==> r == 92
    ensures rating == Str("good") ==> r == 82
    ensures rating == Str("fair") ==> r == 68
    ensures rating == Str("poor") ==> r == 52
  {
    if rating == Str("excellent") then 92
    else if rating == Str("good") then 82
    else if rating == Str("fair") then 68
    else if rating == Str("poor") then 52
    else 70
  }

  // ---------------------------------------------------------------------------
  // Counting
  // ---------------------------------------------------------------------------

  predicate ByUser(x: Value) {
    Get(x, "speaker") == Some(Str(UserRole))
  }

  /** A user tactic judged "effective". */
  predicate EffectiveUserTactic(t: Value) {
    ByUser(t) && Get(t, "effectiveness") == Some(Str("effective"))
  }

  /** A user tactic judged "ineffective" or "backfired". */
  predicate FailedUserTactic(t: Value) {
    ByUser(t) && (Get(t, "effectiveness") == Some(Str("ineffective")) || Get(t, "effectiveness") == Some(Str("backfired")))
  }

  /** A user reveal, intentional or not. */
  predicate IntentionalUserReveal(r: Value) {
    ByUser(r) && Truthy(GetOr(r, "was_intentional", Null))
  }

  predicate UnintentionalUserReveal(r: Value) {
    ByUser(r) && !Truthy(GetOr(r, "was_intentional", Null))
  }

  /** `sum(1 for x in xs if p(x))`. */
  function CountWhere(xs: seq<Value>, p: Value -> bool): (r: nat)
    ensures r <= |xs|
    decreases |xs|
  {
    if |xs| == 0 then 0 else (if p(xs[0]) then 1 else 0) + CountWhere(xs[1..], p)
  }

  // ---------------------------------------------------------------------------
  // Metrics
  // ---------------------------------------------------------------------------

  /** Communication: 80, plus 5 per intentional and minus 10 per unintentional
      user reveal, clamped to [50, 95]. */
  function CommunicationScore(intentional: nat, unintentional: nat): (r: int)
    ensures 50 <= r <= 95
  {
    Clamp(50, 95, 80 + intentional * 5 - unintentional * 10)
  }

  /** Strategy: the overall score, raised by 10 (to at most 95) when the
      primary objective was achieved, then lowered by 15 (to at least 40)
      when the outcome was worse than the BATNA. */
  function StrategyScore(overall: int, achieved: bool, worse: bool): (r: int)
    requires 45 <= overall <= 95
    ensures 40 <= r <= 95
    ensures !achieved && !worse ==> r == overall
    ensures achieved && !worse ==> r == Min(95, overall + 10) && r >= overall
    ensures worse && !achieved ==> r == Max(40, overall - 15) && r < overall
    ensures achieved && worse ==> r == Min(80, overall - 5) && r < overall
  {
    var s1 := if achieved then Min(95, overall + 10) else overall;
    if worse then Max(40, s1 - 15) else s1
  }

  /** Persuasion: 70, plus 8 per effective and minus 10 per failed user
      tactic, clamped to [45, 95]. */
  function PersuasionScore(effective: nat, failed: nat): (r: int)
    ensures 45 <= r <= 95
  {
    Clamp(45, 95, 70 + effective * 8 - failed * 10)
  }

  /** Listening: 90 minus 10 per missed opportunity, clamped to [50, 95]. */
  function ListeningScore(missed: nat): (r: int)
    ensures 50 <= r <= 95
  {
    Clamp(50, 95, 90 - missed * 10)
  }

  /** Adaptability: 75 plus 5 per turning point, clamped to [55, 95]. */
  function AdaptabilityScore(turningPoints: nat): (r: int)
    ensures 55 <= r <= 95
  {
    Clamp(55, 95, 75 + turningPoints * 5)
  }

  /** Listening drops by 10 per missed opportunity down to 50 at four, and
      never reaches the upper clamp; adaptability never reaches the lower one. */
  lemma ListeningAndAdaptabilityClosedForm(missed: nat, turningPoints: nat)
    ensures missed <= 4 ==> ListeningScore(missed) == 90 - 10 * missed
    ensures missed >= 4 ==> ListeningScore(missed) == 50
    ensures ListeningScore(missed) <= 90
    ensures AdaptabilityScore(turningPoints) == Min(95, 75 + 5 * turningPoints)
    ensures AdaptabilityScore(turningPoints) >= 75
  {
  }

  /** More effective tactics never lower persuasion and more failed ones never
      raise it; more missed opportunities never raise listening. */
  lemma ScoresMonotone(e1: nat, e2: nat, f1: nat, f2: nat, m1: nat, m2: nat)
    requires e1 <= e2 && f2 <= f1 && m1 <= m2
    ensures PersuasionScore(e1, f1) <= PersuasionScore(e2, f2)
    ensures CommunicationScore(e1, f1) <= CommunicationScore(e2, f2)
    ensures ListeningScore(m1) >= ListeningScore(m2)
  {
  }

  /** With nothing to count, communication is 80 and persuasion 70; three
      unintentional reveals, or three failed tactics, with nothing on the other
      side reach the floor. */
  lemma NeutralAndFloorScores(n: nat)
    requires n >= 3
    ensures CommunicationScore(0, 0) == 80 && PersuasionScore(0, 0) == 70
    ensures CommunicationScore(0, n) == 50 && PersuasionScore(0, n) == 45
  {
  }

  /** The six metrics `transform_to_frontend_format` computes, each within its
      clamp. */
  function Metrics(analysis: Value, overall: int): (r: seq<Metric>)
    requires 45 <= overall <= 95
    ensures Labelled(r)
    ensures 50 <= r[0].score <= 95 && 40 <= r[1].score <= 95 && 45 <= r[2].score <= 95
    ensures 50 <= r[3].score <= 95 && 52 <= r[4].score <= 92 && 55 <= r[5].score <= 95
    ensures var infoReveals := Items(GetOr(analysis, "information_reveals", List([])));
            r[0].score == CommunicationScore(CountWhere(infoReveals, IntentionalUserReveal),
                                             CountWhere(infoReveals, UnintentionalUserReveal))
    ensures var outcome := GetOr(analysis, "outcome_assessment", PostMortem.EmptyDict);
            r[1].score == StrategyScore(overall, Truthy(GetOr(outcome, "primary_objective_achieved", Null)),
                                        Get(outcome, "compared_to_batna") == Some(Str("worse")))
    ensures var tactics := Items(GetOr(analysis, "tactics_used", List([])));
            r[2].score == PersuasionScore(CountWhere(tactics, EffectiveUserTactic), CountWhere(tactics, FailedUserTactic))
    ensures r[3].score == ListeningScore(|Items(GetOr(analysis, "missed_opportunities", List([])))|)
    ensures var outcome := GetOr(analysis, "outcome_assessment", PostMortem.EmptyDict);
            r[4].score == ConfidenceScore(GetOr(outcome, "overall_rating", Str("fair")))
    ensures r[5].score == AdaptabilityScore(|Items(GetOr(analysis, "turning_points", List([])))|)
  {
    var outcome := GetOr(analysis, "outcome_assessment", PostMortem.EmptyDict);
    var infoReveals := Items(GetOr(analysis, "information_reveals", List([])));
    var tactics := Items(GetOr(analysis, "tactics_used", List([])));
    MetricsOf([
      CommunicationScore(CountWhere(infoReveals, IntentionalUserReveal), CountWhere(infoReveals, UnintentionalUserReveal)),
      StrategyScore(overall, Truthy(GetOr(outcome, "primary_objective_achieved", Null)),
                    Get(outcome, "compared_to_batna") == Some(Str("worse"))),
      PersuasionScore(CountWhere(tactics, EffectiveUserTactic), CountWhere(tactics, FailedUserTactic)),
      ListeningScore(|Items(GetOr(analysis, "missed_opportunities", List([])))|),
      ConfidenceScore(GetOr(outcome, "overall_rating", Str("fair"))),
      AdaptabilityScore(|Items(GetOr(analysis, "turning_points", List([])))|)])
  }
  /** An outcome without an "overall_rating" is read as "fair": confidence 68,
      not the 70 of an unknown rating. */
  lemma MissingRatingScoresFair(analysis: Value, overall: int)
    requires 45 <= overall <= 95
    requires Get(GetOr(analysis, "outcome_assessment", PostMortem.EmptyDict), "overall_rating").None?
    ensures Metrics(analysis, overall)[4].score == 68
  {
  }


  // ---------------------------------------------------------------------------
  // Strengths and improvements
  // ---------------------------------------------------------------------------

  /** "Effective use of ..." for each effective user tactic, in order. */
  function EffectiveTacticNotes(ts: seq<Value>): (r: seq<string>)
    ensures |r| == CountWhere(ts, EffectiveUserTactic)
    decreases |ts|
  {
    if |ts| == 0 then []
    else
      (if EffectiveUserTactic(ts[0])
       then ["Effective use of " + PostMortem.Field(ts[0], "tactic_name", "tactic") + ": "
             + PostMortem.Field(ts[0], "analysis", "")]
       else [])
      + EffectiveTacticNotes(ts[1..])
  }

  /** "Reconsider ..." for each failed user tactic, in order. */
  function FailedTacticNotes(ts: seq<Value>): (r: seq<string>)
    ensures |r| == CountWhere(ts, FailedUserTactic)
    decreases |ts|
  {
    if |ts| == 0 then []
    else
      (if FailedUserTactic(ts[0])
       then ["Reconsider " + PostMortem.Field(ts[0], "tactic_name", "approach") + ": "
             + PostMortem.Field(ts[0], "analysis", "")]
       else [])
      + FailedTacticNotes(ts[1..])
  }

  /** The lesson text as `lesson.get("lesson", "")` reads it for `.lower()`. */
  function LessonText(l: Value): string {
    StrOr(GetOr(l, "lesson", Str("")), "")
  }

  /** A lesson that reads as praise: it mentions "well" or "good". */
  predicate PositiveLesson(l: Value) {
    var t := Text.Lower(LessonText(l));
    Text.Contains(t, "well") || Text.Contains(t, "good")
  }

  /** A lesson that reads as advice: it mentions one of the improvement words. */
  predicate AdviceLesson(l: Value) {
    var t := Text.Lower(LessonText(l));
    Text.Contains(t, "could") || Text.Contains(t, "should") || Text.Contains(t, "avoid")
    || Text.Contains(t, "improve") || Text.Contains(t, "next time")
  }

  function PositiveLessonNotes(ls: seq<Value>): (r: seq<string>)
    ensures |r| == CountWhere(ls, PositiveLesson)
    decreases |ls|
  {
    if |ls| == 0 then []
    else (if PositiveLesson(ls[0]) then [LessonText(ls[0])] else []) + PositiveLessonNotes(ls[1..])
  }

  /** The advice lessons, each followed by its practice tip when it has one. */
  function AdviceLessonNotes(ls: seq<Value>): (r: seq<string>)
    ensures |r| == CountWhere(ls, AdviceLesson)
    decreases |ls|
  {
    if |ls| == 0 then []
    else
      var tip := GetOr(ls[0], "practice_tip", Str(""));
      (if AdviceLesson(ls[0])
       then [if Truthy(tip) then LessonText(ls[0]) + ". " + Show(tip) else LessonText(ls[0])]
       else [])
      + AdviceLessonNotes(ls[1..])
  }

  /** "At turn t: opportunity" for each missed opportunity given. */
  function MissedNotes(ms: seq<Value>): (r: seq<string>)
    ensures |r| == |ms|
    ensures forall i :: 0 <= i < |ms| ==>
              r[i] == "At turn " + PostMortem.Field(ms[i], "turn", "?") + ": "
                      + PostMortem.Field(ms[i], "opportunity", "Missed opportunity")
  {
    seq(|ms|, i requires 0 <= i < |ms| =>
      "At turn " + PostMortem.Field(ms[i], "turn", "?") + ": " + PostMortem.Field(ms[i], "opportunity", "Missed opportunity"))
  }

  /** A list, or the default message alone when it is empty. */
  function OrDefault(xs: seq<string>, default: string): (r: seq<string>)
    ensures |r| >= 1
    ensures |xs| > 0 ==> r == xs
    ensures |xs| == 0 ==> r == [default]
  {
    if |xs| == 0 then [default] else xs
  }

  /** Every strength, before the list is cut to three. */
  function AllStrengths(analysis: Value): (r: seq<string>)
    ensures |r| >= 1
  {
    var summary := GetOr(analysis, "summary", PostMortem.EmptyDict);
    var outcome := GetOr(analysis, "outcome_assessment", PostMortem.EmptyDict);
    var win := GetOr(summary, "biggest_win", Null);
    OrDefault(
      (if Truthy(win) then ["Strong move: " + Show(win)] else [])
      + EffectiveTacticNotes(Items(GetOr(analysis, "tactics_used", List([]))))
      + PositiveLessonNotes(Take(Items(GetOr(analysis, "key_lessons", List([]))), 2))
      + (if Truthy(GetOr(outcome, "primary_objective_achieved", Null))
         then ["Primary objective achieved: " + PostMortem.Field(outcome, "primary_objective_details", "")] else [])
      + (if Get(outcome, "compared_to_batna") == Some(Str("better"))
         then ["Outcome better than BATNA: " + PostMortem.Field(outcome, "batna_comparison_details", "")] else []),
      "Completed the negotiation session")
  }

  /** Every improvement, before the list is cut to three. */
  function AllImprovements(analysis: Value): (r: seq<string>)
    ensures |r| >= 1
  {
    var summary := GetOr(analysis, "summary", PostMortem.EmptyDict);
    var miss := GetOr(summary, "biggest_miss", Null);
    var tactics := Items(GetOr(analysis, "tactics_used", List([])));
    OrDefault(
      (if Truthy(miss) then ["Opportunity missed: " + Show(miss)] else [])
      + MissedNotes(Take(Items(GetOr(analysis, "missed_opportunities", List([]))), 2))
      + AdviceLessonNotes(Items(GetOr(analysis, "key_lessons", List([]))))
      + FailedTacticNotes(tactics),
      "Continue practicing to refine your negotiation skills")
  }

  /** How many strengths the analysis yields: one per truthy biggest win,
      effective user tactic, positive lesson among the first two, achieved
      objective and better-than-BATNA outcome, or the default alone. */
  lemma StrengthCount(analysis: Value)
    ensures var summary := GetOr(analysis, "summary", PostMortem.EmptyDict);
      var outcome := GetOr(analysis, "outcome_assessment", PostMortem.EmptyDict);
      var n := (if Truthy(GetOr(summary, "biggest_win", Null)) then 1 else 0)
        + CountWhere(Items(GetOr(analysis, "tactics_used", List([]))), EffectiveUserTactic)
        + CountWhere(Take(Items(GetOr(analysis, "key_lessons", List([]))), 2), PositiveLesson)
        + (if Truthy(GetOr(outcome, "primary_objective_achieved", Null)) then 1 else 0)
        + (if Get(outcome, "compared_to_batna") == Some(Str("better")) then 1 else 0);
      |AllStrengths(analysis)| == Max(1, n)
      && (n == 0 ==> AllStrengths(analysis) == ["Completed the negotiation session"])
  {
  }

  /** How many improvements the analysis yields: one per truthy biggest miss,
      missed opportunity among the first two, advice lesson and failed user
      tactic, or the default alone. */
  lemma ImprovementCount(analysis: Value)
    ensures var miss := GetOr(GetOr(analysis, "summary", PostMortem.EmptyDict), "biggest_miss", Null);
      var n := (if Truthy(miss) then 1 else 0)
        + Min(2, |Items(GetOr(analysis, "missed_opportunities", List([])))|)
        + CountWhere(Items(GetOr(analysis, "key_lessons", List([]))), AdviceLesson)
        + CountWhere(Items(GetOr(analysis, "tactics_used", List([]))), FailedUserTactic);
      |AllImprovements(analysis)| == Max(1, n)
      && (n == 0 ==> AllImprovements(analysis) == ["Continue practicing to refine your negotiation skills"])
  {
  }

  // ---------------------------------------------------------------------------
  // Key moments
  // ---------------------------------------------------------------------------

  /** A turning point is a negative moment when its better alternative
      mentions "better", a positive one otherwise. */
  function TurningMoment(tp: Value): Moment {
    var alt := Text.Lower(StrOr(GetOr(tp, "better_alternative", Str("")), ""));
    Moment(GetOr(tp, "timestamp", Str("0:00")), GetOr(tp, "description", Str("Key moment")),
           if Text.Contains(alt, "better") then Negative else Positive)
  }

  function TurningMoments(tps: seq<Value>): (r: seq<Moment>)
    ensures |r| == |tps| && forall i :: 0 <= i < |tps| ==> r[i] == TurningMoment(tps[i])
  {
    seq(|tps|, i requires 0 <= i < |tps| => TurningMoment(tps[i]))
  }

  /** A positive moment for each effective user tactic among those given. */
  function TacticMoments(ts: seq<Value>): (r: seq<Moment>)
    ensures |r| == CountWhere(ts, EffectiveUserTactic)
    ensures forall i :: 0 <= i < |r| ==> r[i].kind == Positive
    decreases |ts|
  {
    if |ts| == 0 then []
    else
      (if EffectiveUserTactic(ts[0])
       then [Moment(GetOr(ts[0], "timestamp", Str("0:00")),
                    Str(PostMortem.Field(ts[0], "tactic_name", "Tactic") + ": " + PostMortem.Field(ts[0], "analysis", "")),
                    Positive)]
       else [])
      + TacticMoments(ts[1..])
  }

  function MissedMoment(m: Value): Moment {
    Moment(GetOr(m, "timestamp", Str("0:00")), GetOr(m, "opportunity", Str("Missed opportunity")), Negative)
  }

  function MissedMoments(ms: seq<Value>): (r: seq<Moment>)
    ensures |r| == |ms| && forall i :: 0 <= i < |ms| ==> r[i] == MissedMoment(ms[i])
  {
    seq(|ms|, i requires 0 <= i < |ms| => MissedMoment(ms[i]))
  }

  /** The moments from the first two turning points, the effective user
      tactics among the first two tactics, and the first two missed
      opportunities, in that order. */
  function CandidateMoments(analysis: Value): (r: seq<Moment>)
    ensures |r| <= 6
  {
    TurningMoments(Take(Items(GetOr(analysis, "turning_points", List([]))), 2))
    + TacticMoments(Take(Items(GetOr(analysis, "tactics_used", List([]))), 2))
    + MissedMoments(Take(Items(GetOr(analysis, "missed_opportunities", List([]))), 2))
  }

  /** The moment used when the analysis gives none. */
  function FallbackMoment(analysis: Value, overall: int): (r: Moment)
    ensures r.time == Str("0:00")
    ensures r.kind == Positive <==> overall >= 70
  {
    var summary := GetOr(analysis, "summary", PostMortem.EmptyDict);
    Moment(Str("0:00"), GetOr(summary, "one_sentence", Str("Negotiation completed")),
           if overall >= 70 then Positive else Negative)
  }

  /** The key moments: the candidates, or the fallback moment alone when there
      are none, cut to five. */
  function KeyMoments(analysis: Value, overall: int): (r: seq<Moment>)
    ensures 1 <= |r| <= 5
    ensures |CandidateMoments(analysis)| == 0 ==> r == [FallbackMoment(analysis, overall)]
    ensures |CandidateMoments(analysis)| > 0 ==> r == Take(CandidateMoments(analysis), 5)
  {
    var c := CandidateMoments(analysis);
    if |c| == 0 then [FallbackMoment(analysis, overall)] else Take(c, 5)
  }

  // ---------------------------------------------------------------------------
  // The transformation
  // ---------------------------------------------------------------------------

  /** The overall score: the summary's grade (default "C") through the table. */
  function OverallScore(analysis: Value): (r: int)
    ensures 45 <= r <= 95
  {
    GradeScore(GetOr(GetOr(analysis, "summary", PostMortem.EmptyDict), "grade", Str("C")))
  }

  /** The result for a parsed analysis with the given overall score: the
      first three strengths and improvements, the six metrics, and the key
      moments. */
  function GradedFrontend(analysis: Value, overall: int): (r: Frontend)
    requires 45 <= overall <= 95
    ensures r.overallScore == overall
    ensures 1 <= |r.strengths| <= 3 && 1 <= |r.improvements| <= 3 && 1 <= |r.keyMoments| <= 5
    ensures r.strengths == Take(AllStrengths(analysis), 3) && r.improvements == Take(AllImprovements(analysis), 3)
    ensures r.metrics == Metrics(analysis, overall) && r.keyMoments == KeyMoments(analysis, overall)
  {
    Frontend(overall, Take(AllStrengths(analysis), 3), Take(AllImprovements(analysis), 3),
             Metrics(analysis, overall), KeyMoments(analysis, overall))
  }

  /** `transform_to_frontend_format(analysis)`: the parse-error result for a
      parse error, otherwise the graded result for the summary's grade. */
  function Transform(analysis: Value): (r: Frontend)
    ensures PostMortem.IsParseError(analysis) ==> r == ParseErrorFrontend(analysis)
    ensures !PostMortem.IsParseError(analysis) ==> r == GradedFrontend(analysis, OverallScore(analysis))
  {
    if PostMortem.IsParseError(analysis) then ParseErrorFrontend(analysis)
    else GradedFrontend(analysis, OverallScore(analysis))
  }

  /** An analysis without a grade scores 73 (the default grade "C"). */
  lemma MissingGradeScoresC(analysis: Value)
    requires Get(GetOr(analysis, "summary", PostMortem.EmptyDict), "grade").None?
    ensures OverallScore(analysis) == 73
  {
    assert GradePoints("C") == 73;
  }

  /** With no turning points, tactics or missed opportunities the only key
      moment is the fallback, positive exactly when the score is at least 70. */
  lemma OnlyFallbackMoment(analysis: Value, overall: int)
    requires Items(GetOr(analysis, "turning_points", List([]))) == []
    requires Items(GetOr(analysis, "tactics_used", List([]))) == []
    requires Items(GetOr(analysis, "missed_opportunities", List([]))) == []
    ensures var m := KeyMoments(analysis, overall);
            |m| == 1 && m[0].time == Str("0:00") && (m[0].kind == Positive <==> overall >= 70)
  {
    assert CandidateMoments(analysis) == [];
  }

  /** The number of "Effective use of" strengths found is the number of
      effective user tactics that raise the persuasion score, and the number
      of "Reconsider" improvements the number that lower it. */
  lemma TacticNotesMatchPersuasion(ts: seq<Value>)
    ensures |EffectiveTacticNotes(ts)| == CountWhere(ts, EffectiveUserTactic)
    ensures |FailedTacticNotes(ts)| == CountWhere(ts, FailedUserTactic)
    ensures PersuasionScore(|EffectiveTacticNotes(ts)|, |FailedTacticNotes(ts)|)
            == PersuasionScore(CountWhere(ts, EffectiveUserTactic), CountWhere(ts, FailedUserTactic))
  {
  }

  /** No tactic is counted both as effective and as failed. */
  lemma {:induction false} EffectiveAndFailedDisjoint(ts: seq<Value>)
    ensures CountWhere(ts, EffectiveUserTactic) + CountWhere(ts, FailedUserTactic) <= |ts|
    decreases |ts|
  {
    if |ts| > 0 {
      EffectiveAndFailedDisjoint(ts[1..]);
    }
  }

  // ---------------------------------------------------------------------------
  // Stores and endpoints
  // ---------------------------------------------------------------------------

  /** What is cached for an analysed session: the raw analysis and the agent
      that produced it. The other three cached entries are computed from
      these two alone, so they are derived here rather than stored. */
  datatype Stored = Stored(raw: Value, agent: PostMortem.MortemAgent) {

    /** The cached "frontend_result". */
    function Frontend(): Frontend {
      Transform(raw)
    }

    /** The cached "summary_text". */
    function SummaryText(): string {
      PostMortem.GetSummary(raw)
    }

    /** The cached "opponent_reveal". */
    function Reveal(): string {
      PostMortem.OpponentReveal(agent)
    }
  }

  /** The two module-level dictionaries. */
  datatype Stores = Stores(sessions: map<string, map<string, Value>>, analyses: map<string, Stored>)

  /** An endpoint's answer: a value, an HTTP 404, or an HTTP 500 with its detail. */
  datatype Outcome<+T> = Done(value: T) | NotFound | Failed(detail: string)

  /** What the agent's calls produce: the parse of each timestamp, the
      model's reply, the JSON decoder, and the wording of the system prompt. */
  datatype Oracles = Oracles(
    clock: string -> Option<string>,
    reply: Completion,
    decode: string -> Option<Value>,
    buildPrompt: (PostMortem.Briefing, PostMortem.Hidden, PostMortem.CoachView) -> string)

  /** `store_session_data(session_id, data)`. */
  function StoreSessionData(st: Stores, id: string, data: map<string, Value>): (r: Stores)
    ensures r.analyses == st.analyses
  {
    st.(sessions := st.sessions[id := data])
  }

  /** `get_session_data(session_id)`. */
  function GetSessionData(st: Stores, id: string): (r: Option<map<string, Value>>)
    ensures r.Some? <==> id in st.sessions
  {
    if id in st.sessions then Some(st.sessions[id]) else None
  }

  /** Storing then reading gives the stored data back; other sessions are
      unaffected. */
  lemma StoreThenGet(st: Stores, id: string, data: map<string, Value>, other: string)
    requires other != id
    ensures GetSessionData(StoreSessionData(st, id, data), id) == Some(data)
    ensures GetSessionData(StoreSessionData(st, id, data), other) == GetSessionData(st, other)
  {
  }

  /** The agent the endpoint builds: the briefing from the coach configuration,
      and the hidden state, or the opponent configuration when the hidden
      state is missing or empty. */
  function AgentFor(data: map<string, Value>, buildPrompt: (PostMortem.Briefing, PostMortem.Hidden, PostMortem.CoachView) -> string): (r: PostMortem.MortemAgent)
    ensures var hidden := GetOr(Object(data), "hidden_state", PostMortem.EmptyDict);
            r.opponent == PostMortem.ReadHidden(if Truthy(hidden) then hidden else GetOr(Object(data), "opponent_config", PostMortem.EmptyDict))
    ensures var coach := GetOr(Object(data), "coach_config", PostMortem.EmptyDict);
            r.briefing.objectives == GetOr(coach, "user_objectives", PostMortem.EmptyDict)
            && r.briefing.batna == GetOr(coach, "user_batna", PostMortem.EmptyDict)
            && r.briefing.successCriteria == GetOr(coach, "success_criteria", PostMortem.EmptyDict)
            && r.briefing.negotiables == GetOr(coach, "negotiables", List([]))
            && r.coachView == PostMortem.ReadCoachView(coach)
  {
    var d := Object(data);
    var coach := GetOr(d, "coach_config", PostMortem.EmptyDict);
    var hidden := GetOr(d, "hidden_state", PostMortem.EmptyDict);
    var b := PostMortem.Briefing(GetOr(coach, "user_objectives", PostMortem.EmptyDict),
                                 GetOr(coach, "user_batna", PostMortem.EmptyDict),
                                 GetOr(coach, "success_criteria", PostMortem.EmptyDict),
                                 GetOr(coach, "negotiables", List([])));
    var h := PostMortem.ReadHidden(if Truthy(hidden) then hidden else GetOr(d, "opponent_config", PostMortem.EmptyDict));
    var c := PostMortem.ReadCoachView(coach);
    PostMortem.MortemAgent(b, h, c, buildPrompt(b, h, c))
  }

  /** Without a hidden state the reveal reads the opponent configuration, whose
      name is stored under "counterparty_name": the reveal then names
      "Opponent" whatever that name is. */
  lemma FallbackRevealLosesName(data: map<string, Value>, buildPrompt: (PostMortem.Briefing, PostMortem.Hidden, PostMortem.CoachView) -> string)
    requires "hidden_state" !in data || !Truthy(data["hidden_state"])
    requires "opponent_config" in data && data["opponent_config"].Object?
    requires "name" !in data["opponent_config"].fields
    ensures AgentFor(data, buildPrompt).opponent.name == Str("Opponent")
  {
  }
  /** The hidden state the live negotiation reports when it ends, stored as
      the session's "hidden_state", is what the post-mortem reveals: every
      field reads back as the opponent's persona field and none falls back to
      its default. */
  lemma HiddenStateFeedsReveal(o: Opponent.OpponentAgent, data: map<string, Value>, buildPrompt: (PostMortem.Briefing, PostMortem.Hidden, PostMortem.CoachView) -> string)
    requires "hidden_state" in data && data["hidden_state"] == Opponent.HiddenState(o)
    ensures AgentFor(data, buildPrompt).opponent
            == PostMortem.Hidden(o.persona.name, o.persona.objectives, o.persona.batna,
                                 o.persona.constraints, o.persona.disposition, o.persona.interests)
  {
    var h := Opponent.HiddenState(o);
    assert "name" in h.fields;
    assert Truthy(h);
  }


  /** Runs the agent on stored session data and records the analysis with
      the agent. A transcript that is not a list is an error, as is every
      failure of the analysis itself, and so is a decoded reply that is not a
      dictionary: reading its "parse_error" field fails in the transform. */
  function RunAnalysis(data: map<string, Value>, o: Oracles): (r: Result<Stored>)
    ensures var transcript := GetOr(Object(data), "transcript", List([]));
            r.Ok? <==> && transcript.List?
                       && PostMortem.Analyze(transcript.items, o.clock, o.reply, o.decode).Ok?
                       && PostMortem.Analyze(transcript.items, o.clock, o.reply, o.decode).value.Object?
    ensures r.Ok? ==> r.value.raw == PostMortem.Analyze(GetOr(Object(data), "transcript", List([])).items, o.clock, o.reply, o.decode).value
    ensures r.Ok? ==> r.value.raw.Object?
    ensures r.Ok? ==> r.value.agent == AgentFor(data, o.buildPrompt)
  {
    var transcript := GetOr(Object(data), "transcript", List([]));
    if !transcript.List? then Err("transcript is not a list")
    else
      var analysis :- PostMortem.Analyze(transcript.items, o.clock, o.reply, o.decode);
      if !analysis.Object? then Err("analysis is not a dictionary")
      else Ok(Stored(analysis, AgentFor(data, o.buildPrompt)))
  }

  /** A reply that decodes to JSON other than an object (a list, a number, a
      string, null) is never cached: the request fails. */
  lemma NonObjectAnalysisFails(data: map<string, Value>, o: Oracles)
    requires GetOr(Object(data), "transcript", List([])).List?
    requires var a := PostMortem.Analyze(GetOr(Object(data), "transcript", List([])).items, o.clock, o.reply, o.decode);
             a.Ok? && !a.value.Object?
    ensures RunAnalysis(data, o).Err?
  {
  }

  /** `request_post_mortem`, for any way `analyse` of turning stored session
      data into the cached record (the endpoint uses `RunAnalysis`, see
      `RequestRunsAgent`): a cached analysis answers at once; missing or empty
      session data is a 404; a failure while analysing is a 500 and stores
      nothing; otherwise the record is cached under the session id alone. */
  function RequestPostMortem(st: Stores, id: string, analyse: map<string, Value> -> Result<Stored>): (r: (Stores, Outcome<()>))
    ensures r.0.sessions == st.sessions
    ensures id in st.analyses ==> r == (st, Done(()))
    ensures r.1.NotFound? <==> id !in st.analyses && (id !in st.sessions || |st.sessions[id]| == 0)
    ensures r.1.Failed? <==> id !in st.analyses && id in st.sessions && |st.sessions[id]| > 0 && analyse(st.sessions[id]).Err?
    ensures !r.1.Done? ==> r.0 == st
    ensures r.1.Done? ==> id in r.0.analyses
    ensures id !in st.analyses && r.1.Done? ==>
              r.0.analyses == st.analyses[id := analyse(st.sessions[id]).value]
  {
    if id in st.analyses then (st, Done(()))
    else if id !in st.sessions || |st.sessions[id]| == 0 then (st, NotFound)
    else
      match analyse(st.sessions[id])
      case Err(e) => (st, Failed("Analysis failed: " + e))
      case Ok(stored) => (st.(analyses := st.analyses[id := stored]), Done(()))
  }

  /** With the agent as the analysis, a request that succeeds caches what
      the agent returned for the stored session data, and one that fails is
      a failure of the agent. */
  lemma RequestRunsAgent(st: Stores, id: string, o: Oracles)
    requires id !in st.analyses && id in st.sessions && |st.sessions[id]| > 0
    ensures var (st1, out) := RequestPostMortem(st, id, d => RunAnalysis(d, o));
            (out.Done? <==> RunAnalysis(st.sessions[id], o).Ok?)
            && (out.Done? ==> st1.analyses[id] == RunAnalysis(st.sessions[id], o).value)
  {
  }

  /** A second request changes nothing, whatever the analysis would now give. */
  lemma RequestIdempotent(st: Stores, id: string, a1: map<string, Value> -> Result<Stored>, a2: map<string, Value> -> Result<Stored>)
    requires RequestPostMortem(st, id, a1).1.Done?
    ensures var st1 := RequestPostMortem(st, id, a1).0;
            RequestPostMortem(st1, id, a2) == (st1, Done(()))
  {
  }

  /** `get_post_mortem`: runs the analysis when it is not cached and session
      data exists, then answers with the cached frontend result. */
  function GetPostMortem(st: Stores, id: string, analyse: map<string, Value> -> Result<Stored>): (r: (Stores, Outcome<Frontend>))
    ensures r.0 == RequestPostMortem(st, id, analyse).0
    ensures id in st.analyses ==> r == (st, Done(st.analyses[id].Frontend()))
    ensures r.1.NotFound? <==> RequestPostMortem(st, id, analyse).1.NotFound?
    ensures r.1.Failed? <==> RequestPostMortem(st, id, analyse).1.Failed?
    ensures r.1.Done? ==> id in r.0.analyses && r.1.value == r.0.analyses[id].Frontend()
  {
    if id !in st.analyses && (id !in st.sessions || |st.sessions[id]| == 0) then (st, NotFound)
    else
      var (st1, out) := RequestPostMortem(st, id, analyse);
      if out.Failed? then (st1, Failed(out.detail))
      else if id !in st1.analyses then (st1, NotFound)
      else (st1, Done(st1.analyses[id].Frontend()))
  }

  /** `get_full_post_mortem`: the cached record or a 404. */
  function GetFullPostMortem(st: Stores, id: string): (r: Outcome<Stored>)
    ensures r.Done? <==> id in st.analyses
    ensures r.Done? ==> r.value == st.analyses[id]
    ensures !r.Done? ==> r.NotFound?
  {
    if id in st.analyses then Done(st.analyses[id]) else NotFound
  }

  /** The frontend result served is the one in the full record. */
  lemma ServedMatchesFull(st: Stores, id: string, analyse: map<string, Value> -> Result<Stored>)
    requires GetPostMortem(st, id, analyse).1.Done?
    ensures var (st1, out) := GetPostMortem(st, id, analyse);
            GetFullPostMortem(st1, id).Done? && GetFullPostMortem(st1, id).value.Frontend() == out.value
  {
  }

  /** Storing new session data does not touch a cached analysis: the old
      result keeps being served. */
  lemma StoreKeepsCachedAnalysis(st: Stores, id: string, data: map<string, Value>, analyse: map<string, Value> -> Result<Stored>)
    requires id in st.analyses
    ensures GetPostMortem(StoreSessionData(st, id, data), id, analyse).1 == Done(st.analyses[id].Frontend())
  {
  }

  /** `update_session_video_url`: sets "video_url" in the stored session data
      when there is any; every other field and session, and the analyses,
      are unchanged. */
  function UpdateVideoUrl(st: Stores, id: string, url: string): (r: Stores)
    ensures r.analyses == st.analyses
    ensures r.sessions.Keys == st.sessions.Keys
    ensures id in st.sessions ==> r.sessions[id] == st.sessions[id]["video_url" := Str(url)]
    ensures forall other :: other in st.sessions && other != id ==> r.sessions[other] == st.sessions[other]
    ensures id !in st.sessions ==> r == st
  {
    if id in st.sessions then st.(sessions := st.sessions[id := st.sessions[id]["video_url" := Str(url)]])
    else st
  }
}
