/**
  The weighted, banded CV score (utils/scoring_system.py).

  Five component scores are read off the analysis results through threshold
  tables, combined with fixed weights that sum to one, and turned into a
  grade, a percentile band, strengths, weaknesses and next steps.
*/
module ScoringSystem {
  import CvAnalyzer
  import KeywordExtractor

  // ---------------------------------------------------------------------------
  // Components and weights
  // ---------------------------------------------------------------------------

  datatype Component = KeywordMatch | Structure | ContentQuality | TechnicalSkills | Formatting

  /** The components in the order the scores dictionary is filled. */
  const Components: seq<Component> := [KeywordMatch, Structure, ContentQuality, TechnicalSkills, Formatting]

  function Weight(c: Component): real {
    match c
    case KeywordMatch => 0.35
    case Structure => 0.25
    case ContentQuality => 0.20
    case TechnicalSkills => 0.15
    case Formatting => 0.05
  }

  /** The dictionary key of a component. */
  function Key(c: Component): string {
    match c
    case KeywordMatch => "keyword_match"
    case Structure => "structure"
    case ContentQuality => "content_quality"
    case TechnicalSkills => "technical_skills"
    case Formatting => "formatting"
  }

  function WeightSum(cs: seq<Component>): real {
    if cs == [] then 0.0 else WeightSum(cs[..|cs| - 1]) + Weight(cs[|cs| - 1])
  }

  /** The five weights sum to exactly one. */
  lemma WeightsSumToOne()
    ensures WeightSum(Components) == 1.0
  {
    assert [KeywordMatch][..0] == [];
    assert WeightSum([KeywordMatch]) == 0.35;
    assert [KeywordMatch, Structure][..1] == [KeywordMatch];
    assert WeightSum([KeywordMatch, Structure]) == 0.60;
    assert [KeywordMatch, Structure, ContentQuality][..2] == [KeywordMatch, Structure];
    assert WeightSum([KeywordMatch, Structure, ContentQuality]) == 0.80;
    assert Components[..4][..3] == [KeywordMatch, Structure, ContentQuality];
    assert WeightSum(Components[..4]) == 0.95;
  }

  // ---------------------------------------------------------------------------
  // Analysis results and component scores
  // ---------------------------------------------------------------------------

  /** The entries of the analysis results the scoring reads. */
  datatype AnalysisResults = AnalysisResults(
    keywordMatchPercentage: real,
    structure: CvAnalyzer.StructureAnalysis,
    readabilityScore: real,
    wordCount: nat,
    enhancementOpportunities: seq<CvAnalyzer.Opportunity>,
    technicalSkillsMatch: set<string>,
    missingTechnicalSkills: set<string>)

  datatype ComponentScores = ComponentScores(
    keywordMatch: real,
    structure: real,
    contentQuality: real,
    technicalSkills: real,
    formatting: real)

  function ScoreOf(s: ComponentScores, c: Component): real {
    match c
    case KeywordMatch => s.keywordMatch
    case Structure => s.structure
    case ContentQuality => s.contentQuality
    case TechnicalSkills => s.technicalSkills
    case Formatting => s.formatting
  }

  predicate InRange(s: ComponentScores) {
    forall c :: 0.0 <= ScoreOf(s, c) <= 100.0
  }

  /** `_calculate_keyword_score`: one of five bands by match percentage. */
  function KeywordScore(matchPercentage: real): (r: real)
    ensures r == 95.0 || r == 85.0 || r == 70.0 || r == 50.0 || r == 30.0
  {
    if matchPercentage >= 80.0 then 95.0
    else if matchPercentage >= 60.0 then 85.0
    else if matchPercentage >= 40.0 then 70.0
    else if matchPercentage >= 20.0 then 50.0
    else 30.0
  }

  /** A higher match percentage never gives a lower keyword score. */
  lemma KeywordScoreMonotone(p: real, q: real)
    requires p <= q
    ensures KeywordScore(p) <= KeywordScore(q)
  {
  }

  /** The structure points before the cap. */
  function StructurePoints(a: CvAnalyzer.StructureAnalysis): nat {
    (if a.hasContactInfo then 10 else 0)
      + (if a.hasSummary then 10 else 0)
      + (if a.hasExperience then 15 else 0)
      + (if a.hasEducation then 5 else 0)
      + (if a.hasSkills then 10 else 0)
      + (if a.usesBulletPoints then 10 else 0)
      + (if a.hasQuantifiedAchievements then 10 else 0)
      + (if a.appropriateLength then 15 else 0)
      + (if a.sectionCount >= 5 then 15 else if a.sectionCount >= 3 then 10 else if a.sectionCount >= 2 then 5 else 0)
  }

  /** `_calculate_structure_score`: the points, capped at 100. */
  function StructureScore(a: CvAnalyzer.StructureAnalysis): (r: real)
    ensures 0.0 <= r <= 100.0
  {
    var points := StructurePoints(a);
    if points <= 100 then points as real else 100.0
  }

  /** The allocations total at most 100, so the cap never binds; the full 100
      needs every detector and at least five sections. */
  lemma StructurePointsAtMost100(a: CvAnalyzer.StructureAnalysis)
    ensures StructurePoints(a) <= 100
    ensures StructureScore(a) == StructurePoints(a) as real
    ensures StructurePoints(a) == 100 <==>
      a.hasContactInfo && a.hasSummary && a.hasExperience && a.hasEducation && a.hasSkills
      && a.usesBulletPoints && a.hasQuantifiedAchievements && a.appropriateLength && a.sectionCount >= 5
  {
  }

  /** The enhancement-opportunity penalty, `min(3 n, 15)`. */
  function Penalty(opportunities: nat): (p: nat)
    ensures p <= 15 && p <= 3 * opportunities
    ensures p == 15 || p == 3 * opportunities
  {
    if 3 * opportunities <= 15 then 3 * opportunities else 15
  }

  /** The content points before clamping. */
  function ContentPoints(readability: real, wordCount: nat, opportunities: nat): int {
    50
      + (if readability >= 60.0 then 20 else if readability >= 40.0 then 10 else 0)
      + (if 300 <= wordCount <= 800 then 15 else if 200 <= wordCount <= 1000 then 10 else 5)
      - Penalty(opportunities)
  }

  /** `_calculate_content_score`: clamped to [0, 100]. */
  function ContentScore(a: AnalysisResults): (r: real)
    ensures 0.0 <= r <= 100.0
  {
    var points := ContentPoints(a.readabilityScore, a.wordCount, |a.enhancementOpportunities|);
    if points > 100 then 100.0 else if points < 0 then 0.0 else points as real
  }

  /** The content points always lie in [40, 85], so neither clamp binds. */
  lemma ContentPointsRange(a: AnalysisResults)
    ensures 40 <= ContentPoints(a.readabilityScore, a.wordCount, |a.enhancementOpportunities|) <= 85
    ensures ContentScore(a) == ContentPoints(a.readabilityScore, a.wordCount, |a.enhancementOpportunities|) as real
  {
  }

  /** `_calculate_technical_score`: 70 without technical skills on either side,
      otherwise one of five bands by the matched share. */
  function TechnicalScore(matched: nat, missing: nat): (r: real)
    ensures matched + missing == 0 ==> r == 70.0
    ensures r == 95.0 || r == 85.0 || r == 70.0 || r == 55.0 || r == 35.0
  {
    if matched + missing == 0 then 70.0
    else
      var ratio := (matched as real) / ((matched + missing) as real);
      if ratio >= 0.8 then 95.0
      else if ratio >= 0.6 then 85.0
      else if ratio >= 0.4 then 70.0
      else if ratio >= 0.2 then 55.0
      else 35.0
  }

  /** Every technical skill matched gives the top band; none matched the bottom one. */
  lemma TechnicalScoreExtremes(matched: nat, missing: nat)
    ensures matched > 0 && missing == 0 ==> TechnicalScore(matched, missing) == 95.0
    ensures matched == 0 && missing > 0 ==> TechnicalScore(matched, missing) == 35.0
  {
    if matched > 0 && missing == 0 {
      assert (matched as real) / ((matched + missing) as real) == 1.0;
    }
  }

  /** `_calculate_formatting_score`: 15 points off per formatting issue, clamped to [0, 100]. */
  function FormattingScore(issues: nat): (r: real)
    ensures 0.0 <= r <= 100.0
    ensures issues <= 6 ==> r == (100 - 15 * issues) as real
    ensures issues > 6 ==> r == 0.0
  {
    var points := 100 - 15 * issues;
    if points > 100 then 100.0 else if points < 0 then 0.0 else points as real
  }

  /** The five component scores of `calculate_overall_score`. */
  function ComponentScoresOf(a: AnalysisResults): (s: ComponentScores)
    ensures InRange(s)
  {
    ComponentScores(
      KeywordScore(a.keywordMatchPercentage),
      StructureScore(a.structure),
      ContentScore(a),
      TechnicalScore(|a.technicalSkillsMatch|, |a.missingTechnicalSkills|),
      FormattingScore(|a.structure.formattingIssues|))
  }

  /** With the at most three issues the detector reports, formatting scores at least 55. */
  lemma FormattingAtLeast55(a: AnalysisResults, cvText: string)
    requires a.structure.formattingIssues == CvAnalyzer.FormattingIssues(cvText)
    ensures ComponentScoresOf(a).formatting >= 55.0
  {
  }

  // ---------------------------------------------------------------------------
  // Overall score, grade and percentile
  // ---------------------------------------------------------------------------

  /** `sum(scores[c] * weights[c] for c in scores)`, left to right. */
  function WeightedSum(s: ComponentScores, cs: seq<Component>): real {
    if cs == [] then 0.0 else WeightedSum(s, cs[..|cs| - 1]) + ScoreOf(s, cs[|cs| - 1]) * Weight(cs[|cs| - 1])
  }

  /** A weighted sum of scores in [0, 100] lies between 0 and 100 times the weights' sum. */
  lemma {:induction false} WeightedSumBounds(s: ComponentScores, cs: seq<Component>)
    requires InRange(s)
    ensures 0.0 <= WeightedSum(s, cs) <= 100.0 * WeightSum(cs)
  {
    if cs != [] {
      var c := cs[|cs| - 1];
      WeightedSumBounds(s, cs[..|cs| - 1]);
      assert 0.0 <= ScoreOf(s, c) * Weight(c) <= 100.0 * Weight(c);
    }
  }

  /** The overall score of scores in [0, 100] lies in [0, 100]. */
  lemma OverallInRange(s: ComponentScores)
    requires InRange(s)
    ensures 0.0 <= WeightedSum(s, Components) <= 100.0
  {
    WeightedSumBounds(s, Components);
    WeightsSumToOne();
  }

  datatype Grade = D | CMinus | C | CPlus | BMinus | B | BPlus | AMinus | A | APlus

  /** The text the source returns for a grade. */
  function Letter(g: Grade): string {
    match g
    case D => "D"
    case CMinus => "C-"
    case C => "C"
    case CPlus => "C+"
    case BMinus => "B-"
    case B => "B"
    case BPlus => "B+"
    case AMinus => "A-"
    case A => "A"
    case APlus => "A+"
  }

  /** Grades from lowest to highest. */
  function Rank(g: Grade): nat {
    match g
    case D => 0
    case CMinus => 1
    case C => 2
    case CPlus => 3
    case BMinus => 4
    case B => 5
    case BPlus => 6
    case AMinus => 7
    case A => 8
    case APlus => 9
  }

  /** `_get_grade`: five-point bands from 50, 'D' below. */
  function GradeOf(score: real): (g: Grade)
    ensures g == D <==> score < 50.0
  {
    if score >= 90.0 then APlus
    else if score >= 85.0 then A
    else if score >= 80.0 then AMinus
    else if score >= 75.0 then BPlus
    else if score >= 70.0 then B
    else if score >= 65.0 then BMinus
    else if score >= 60.0 then CPlus
    else if score >= 55.0 then C
    else if score >= 50.0 then CMinus
    else D
  }

  /** A higher score never gets a lower grade. */
  lemma GradeMonotone(p: real, q: real)
    requires p <= q
    ensures Rank(GradeOf(p)) <= Rank(GradeOf(q))
  {
  }

  /** `_calculate_percentile`: five bands. */
  function Percentile(score: real): (r: nat)
    ensures r == 95 || r == 80 || r == 60 || r == 40 || r == 20
  {
    if score >= 85.0 then 95
    else if score >= 75.0 then 80
    else if score >= 65.0 then 60
    else if score >= 55.0 then 40
    else 20
  }

  /** A higher score never gets a lower percentile. */
  lemma PercentileMonotone(p: real, q: real)
    requires p <= q
    ensures Percentile(p) <= Percentile(q)
  {
  }

  // ---------------------------------------------------------------------------
  // Strengths and weaknesses
  // ---------------------------------------------------------------------------

  function StrengthMessage(c: Component): string {
    match c
    case KeywordMatch => "Excellent keyword optimization for ATS systems"
    case Structure => "Well-organized CV with all essential sections"
    case ContentQuality => "High-quality, readable content with good flow"
    case TechnicalSkills => "Strong technical skills alignment with job requirements"
    case Formatting => "ATS-friendly formatting and structure"
  }

  function WeaknessMessage(c: Component): string {
    match c
    case KeywordMatch => "Low keyword matching - missing important job-related terms"
    case Structure => "CV structure needs improvement - missing key sections"
    case ContentQuality => "Content quality could be enhanced with better writing"
    case TechnicalSkills => "Technical skills section needs strengthening"
    case Formatting => "Formatting issues may cause ATS parsing problems"
  }

  /** `key.replace('_', ' ')` */
  function Spaced(key: string): (r: string)
    ensures |r| == |key|
    ensures forall k :: 0 <= k < |key| ==> r[k] == if key[k] == '_' then ' ' else key[k]
  {
    seq(|key|, k requires 0 <= k < |key| => if key[k] == '_' then ' ' else key[k])
  }

  /** The fallback strength naming the best component. */
  function RelativelyStrong(c: Component): string {
    "Relatively strong " + Spaced(Key(c))
  }

  /** The messages of the components scoring at least 80, in component order. */
  function StrongMessages(s: ComponentScores, cs: seq<Component>): (r: seq<string>)
    ensures |r| <= |cs|
    ensures forall c :: c in cs && ScoreOf(s, c) >= 80.0 ==> StrengthMessage(c) in r
    ensures r == [] <==> forall c :: c in cs ==> ScoreOf(s, c) < 80.0
  {
    if cs == [] then []
    else
      var c := cs[|cs| - 1];
      assert cs == cs[..|cs| - 1] + [c];
      StrongMessages(s, cs[..|cs| - 1]) + (if ScoreOf(s, c) >= 80.0 then [StrengthMessage(c)] else [])
  }

  /** The messages of the components scoring below 60, in component order. */
  function WeakMessages(s: ComponentScores, cs: seq<Component>): (r: seq<string>)
    ensures |r| <= |cs|
    ensures forall c :: c in cs && ScoreOf(s, c) < 60.0 ==> WeaknessMessage(c) in r
    ensures r == [] <==> forall c :: c in cs ==> ScoreOf(s, c) >= 60.0
  {
    if cs == [] then []
    else
      var c := cs[|cs| - 1];
      assert cs == cs[..|cs| - 1] + [c];
      WeakMessages(s, cs[..|cs| - 1]) + (if ScoreOf(s, c) < 60.0 then [WeaknessMessage(c)] else [])
  }

  /** `x` occurs in `r` at a position before an occurrence of `y`. */
  predicate InOrder<T(==)>(r: seq<T>, x: T, y: T) {
    exists p, q :: 0 <= p < q < |r| && r[p] == x && r[q] == y
  }

  /** Appending `y` after a sequence holding `x` puts `x` before `y`. */
  lemma AppendInOrder<T>(head: seq<T>, x: T, y: T)
    requires x in head
    ensures InOrder(head + [y], x, y)
  {
    var p :| 0 <= p < |head| && head[p] == x;
    assert (head + [y])[p] == x && (head + [y])[|head|] == y;
  }

  /** Extending a sequence keeps the order of what it holds. */
  lemma ExtendInOrder<T>(head: seq<T>, tail: seq<T>, x: T, y: T)
    requires InOrder(head, x, y)
    ensures InOrder(head + tail, x, y)
  {
    var p, q :| 0 <= p < q < |head| && head[p] == x && head[q] == y;
    assert (head + tail)[p] == x && (head + tail)[q] == y;
  }

  /** Every strength message belongs to a component of `cs` scoring at least 80. */
  lemma {:induction false} StrongMessagesOrigin(s: ComponentScores, cs: seq<Component>, k: nat)
    requires k < |StrongMessages(s, cs)|
    ensures exists j :: 0 <= j < |cs| && ScoreOf(s, cs[j]) >= 80.0 && StrongMessages(s, cs)[k] == StrengthMessage(cs[j])
  {
    var init := cs[..|cs| - 1];
    var last := cs[|cs| - 1];
    var head := StrongMessages(s, init);
    var tail := if ScoreOf(s, last) >= 80.0 then [StrengthMessage(last)] else [];
    assert StrongMessages(s, cs) == head + tail;
    if k < |head| {
      StrongMessagesOrigin(s, init, k);
      var j :| 0 <= j < |init| && ScoreOf(s, init[j]) >= 80.0 && head[k] == StrengthMessage(init[j]);
      assert cs[j] == init[j];
      assert (head + tail)[k] == head[k];
    } else {
      assert (head + tail)[k] == StrengthMessage(cs[|cs| - 1]);
    }
  }

  /** Every weakness message belongs to a component of `cs` scoring below 60. */
  lemma {:induction false} WeakMessagesOrigin(s: ComponentScores, cs: seq<Component>, k: nat)
    requires k < |WeakMessages(s, cs)|
    ensures exists j :: 0 <= j < |cs| && ScoreOf(s, cs[j]) < 60.0 && WeakMessages(s, cs)[k] == WeaknessMessage(cs[j])
  {
    var init := cs[..|cs| - 1];
    var last := cs[|cs| - 1];
    var head := WeakMessages(s, init);
    var tail := if ScoreOf(s, last) < 60.0 then [WeaknessMessage(last)] else [];
    assert WeakMessages(s, cs) == head + tail;
    if k < |head| {
      WeakMessagesOrigin(s, init, k);
      var j :| 0 <= j < |init| && ScoreOf(s, init[j]) < 60.0 && head[k] == WeaknessMessage(init[j]);
      assert cs[j] == init[j];
      assert (head + tail)[k] == head[k];
    } else {
      assert (head + tail)[k] == WeaknessMessage(cs[|cs| - 1]);
    }
  }

  /** The message of a component past the threshold comes before that of a
      further such component appended at the end. */
  lemma StrongLastInOrder(s: ComponentScores, init: seq<Component>, last: Component, i: nat)
    requires i < |init|
    requires ScoreOf(s, init[i]) >= 80.0 && ScoreOf(s, last) >= 80.0
    ensures InOrder(StrongMessages(s, init + [last]), StrengthMessage(init[i]), StrengthMessage(last))
  {
    var cs := init + [last];
    assert cs[..|cs| - 1] == init && cs[|cs| - 1] == last;
    assert StrongMessages(s, cs) == StrongMessages(s, init) + [StrengthMessage(last)];
    assert init[i] in init;
    AppendInOrder(StrongMessages(s, init), StrengthMessage(init[i]), StrengthMessage(last));
  }

  /** Strong components keep their order: an earlier strong component's
      message comes before a later one's. */
  lemma {:induction false} StrongMessagesInOrder(s: ComponentScores, cs: seq<Component>, i: nat, j: nat)
    requires i < j < |cs|
    requires ScoreOf(s, cs[i]) >= 80.0 && ScoreOf(s, cs[j]) >= 80.0
    ensures InOrder(StrongMessages(s, cs), StrengthMessage(cs[i]), StrengthMessage(cs[j]))
  {
    var init := cs[..|cs| - 1];
    var last := cs[|cs| - 1];
    assert cs[i] == init[i];
    if j == |cs| - 1 {
      assert cs == init + [last];
      StrongLastInOrder(s, init, last, i);
    } else {
      assert cs[j] == init[j];
      var tail := if ScoreOf(s, last) >= 80.0 then [StrengthMessage(last)] else [];
      assert StrongMessages(s, cs) == StrongMessages(s, init) + tail;
      StrongMessagesInOrder(s, init, i, j);
      ExtendInOrder(StrongMessages(s, init), tail, StrengthMessage(cs[i]), StrengthMessage(cs[j]));
    }
  }

  /** The message of a component past the threshold comes before that of a
      further such component appended at the end. */
  lemma WeakLastInOrder(s: ComponentScores, init: seq<Component>, last: Component, i: nat)
    requires i < |init|
    requires ScoreOf(s, init[i]) < 60.0 && ScoreOf(s, last) < 60.0
    ensures InOrder(WeakMessages(s, init + [last]), WeaknessMessage(init[i]), WeaknessMessage(last))
  {
    var cs := init + [last];
    assert cs[..|cs| - 1] == init && cs[|cs| - 1] == last;
    assert WeakMessages(s, cs) == WeakMessages(s, init) + [WeaknessMessage(last)];
    assert init[i] in init;
    AppendInOrder(WeakMessages(s, init), WeaknessMessage(init[i]), WeaknessMessage(last));
  }

  /** Weak components keep their order: an earlier weak component's
      message comes before a later one's. */
  lemma {:induction false} WeakMessagesInOrder(s: ComponentScores, cs: seq<Component>, i: nat, j: nat)
    requires i < j < |cs|
    requires ScoreOf(s, cs[i]) < 60.0 && ScoreOf(s, cs[j]) < 60.0
    ensures InOrder(WeakMessages(s, cs), WeaknessMessage(cs[i]), WeaknessMessage(cs[j]))
  {
    var init := cs[..|cs| - 1];
    var last := cs[|cs| - 1];
    assert cs[i] == init[i];
    if j == |cs| - 1 {
      assert cs == init + [last];
      WeakLastInOrder(s, init, last, i);
    } else {
      assert cs[j] == init[j];
      var tail := if ScoreOf(s, last) < 60.0 then [WeaknessMessage(last)] else [];
      assert WeakMessages(s, cs) == WeakMessages(s, init) + tail;
      WeakMessagesInOrder(s, init, i, j);
      ExtendInOrder(WeakMessages(s, init), tail, WeaknessMessage(cs[i]), WeaknessMessage(cs[j]));
    }
  }

  /** `max(keys, key=score)`: the index of the first component with the highest score. */
  function BestIndex(s: ComponentScores, cs: seq<Component>): (i: nat)
    requires cs != []
    ensures i < |cs|
    ensures forall j :: 0 <= j < |cs| ==> ScoreOf(s, cs[j]) <= ScoreOf(s, cs[i])
    ensures forall j :: 0 <= j < i ==> ScoreOf(s, cs[j]) < ScoreOf(s, cs[i])
  {
    if |cs| == 1 then 0
    else
      var b := BestIndex(s, cs[..|cs| - 1]);
      assert forall j :: 0 <= j < |cs| - 1 ==> cs[..|cs| - 1][j] == cs[j];
      if ScoreOf(s, cs[|cs| - 1]) > ScoreOf(s, cs[b]) then |cs| - 1 else b
  }

  /** The strength messages of the components in `cs` scoring at least 80. */
  method CollectStrong(s: ComponentScores, cs: seq<Component>) returns (strengths: seq<string>)
    ensures strengths == StrongMessages(s, cs)
  {
    strengths := [];
    var i := 0;
    while i < |cs|
      invariant 0 <= i <= |cs|
      invariant strengths == StrongMessages(s, cs[..i])
    {
      assert cs[..i + 1][..i] == cs[..i];
      if ScoreOf(s, cs[i]) >= 80.0 {
        strengths := strengths + [StrengthMessage(cs[i])];
      }
      i := i + 1;
    }
    assert cs[..i] == cs;
  }

  /** `max(cs, key=score)`: the first component of `cs` with the highest score. */
  method FindBest(s: ComponentScores, cs: seq<Component>) returns (best: Component)
    requires cs != []
    ensures best == cs[BestIndex(s, cs)]
  {
    best := cs[0];
    var j := 1;
    assert cs[..1] == [cs[0]];
    while j < |cs|
      invariant 1 <= j <= |cs|
      invariant best == cs[BestIndex(s, cs[..j])]
    {
      assert cs[..j + 1][..j] == cs[..j];
      if ScoreOf(s, cs[j]) > ScoreOf(s, best) {
        best := cs[j];
      }
      j := j + 1;
    }
    assert cs[..j] == cs;
  }

  /** `_identify_strengths`: the components scoring at least 80, or else the
      best-scoring one; `cs` lists the scored components in dictionary order. */
  method IdentifyStrengths(s: ComponentScores, cs: seq<Component>) returns (strengths: seq<string>)
    requires cs != []
    ensures strengths != []
    ensures StrongMessages(s, cs) != [] ==> strengths == StrongMessages(s, cs)
    ensures StrongMessages(s, cs) == [] ==> strengths == [RelativelyStrong(cs[BestIndex(s, cs)])]
  {
    strengths := CollectStrong(s, cs);
    if strengths == [] {
      var best := FindBest(s, cs);
      strengths := [RelativelyStrong(best)];
    }
  }

  /** `_identify_weaknesses`: the components of `cs` scoring below 60. */
  method IdentifyWeaknesses(s: ComponentScores, cs: seq<Component>) returns (weaknesses: seq<string>)
    ensures weaknesses == WeakMessages(s, cs)
  {
    weaknesses := [];
    var i := 0;
    while i < |cs|
      invariant 0 <= i <= |cs|
      invariant weaknesses == WeakMessages(s, cs[..i])
    {
      assert cs[..i + 1][..i] == cs[..i];
      if ScoreOf(s, cs[i]) < 60.0 {
        weaknesses := weaknesses + [WeaknessMessage(cs[i])];
      }
      i := i + 1;
    }
    assert cs[..i] == cs;
  }

  // ---------------------------------------------------------------------------
  // Next steps
  // ---------------------------------------------------------------------------

  function Recommendations(c: Component): (string, string, string) {
    match c
    case KeywordMatch => (
      "Review job description and identify missing keywords",
      "Naturally incorporate relevant keywords throughout your CV",
      "Focus on industry-specific terminology and skills")
    case Structure => (
      "Add missing essential sections (contact, summary, experience, education)",
      "Reorganize content with clear section headers",
      "Use consistent formatting throughout")
    case ContentQuality => (
      "Quantify achievements with specific numbers and metrics",
      "Use strong action verbs to start bullet points",
      "Improve clarity and conciseness of descriptions")
    case TechnicalSkills => (
      "Add relevant technical skills mentioned in job posting",
      "Create dedicated skills section if missing",
      "Provide context for how you used technical skills")
    case Formatting => (
      "Use simple, ATS-friendly formatting",
      "Avoid tables, graphics, and unusual fonts",
      "Ensure consistent spacing and alignment")
  }

  /** `recommendations[c][:2]` */
  function LeadingRecommendations(c: Component): seq<string> {
    [Recommendations(c).0, Recommendations(c).1]
  }

  /** Insert `c` after every element scoring at most as much: one step of a
      stable sort by score. */
  function InsertByScore(s: ComponentScores, c: Component, sorted: seq<Component>): (r: seq<Component>)
    ensures multiset(r) == multiset(sorted) + multiset{c}
    ensures |r| == |sorted| + 1
  {
    if sorted == [] then [c]
    else if ScoreOf(s, c) < ScoreOf(s, sorted[0]) then [c] + sorted
    else
      assert sorted == [sorted[0]] + sorted[1..];
      [sorted[0]] + InsertByScore(s, c, sorted[1..])
  }

  /** `sorted(scores.items(), key=score)`: insertion sort, stable. */
  function SortByScore(s: ComponentScores, cs: seq<Component>): (r: seq<Component>)
    ensures multiset(r) == multiset(cs)
    ensures |r| == |cs|
  {
    if cs == [] then []
    else
      assert cs == cs[..|cs| - 1] + [cs[|cs| - 1]];
      InsertByScore(s, cs[|cs| - 1], SortByScore(s, cs[..|cs| - 1]))
  }

  predicate SortedByScore(s: ComponentScores, r: seq<Component>) {
    forall i, j :: 0 <= i < j < |r| ==> ScoreOf(s, r[i]) <= ScoreOf(s, r[j])
  }

  /** Inserting keeps every element above a common lower bound. */
  lemma InsertLowerBound(s: ComponentScores, c: Component, sorted: seq<Component>, lo: real)
    requires ScoreOf(s, c) >= lo
    requires forall x :: x in sorted ==> ScoreOf(s, x) >= lo
    ensures forall x :: x in InsertByScore(s, c, sorted) ==> ScoreOf(s, x) >= lo
  {
    var r := InsertByScore(s, c, sorted);
    forall x | x in r ensures ScoreOf(s, x) >= lo {
      assert x in multiset(r);
    }
  }

  /** A sorted list stays sorted under an element scoring at most as much as all of it. */
  lemma ConsSorted(s: ComponentScores, h: Component, rest: seq<Component>)
    requires SortedByScore(s, rest)
    requires forall x :: x in rest ==> ScoreOf(s, h) <= ScoreOf(s, x)
    ensures SortedByScore(s, [h] + rest)
  {
    var r := [h] + rest;
    forall i, j | 0 <= i < j < |r| ensures ScoreOf(s, r[i]) <= ScoreOf(s, r[j]) {
      assert r[j] == rest[j - 1];
      if i > 0 {
        assert r[i] == rest[i - 1];
      }
    }
  }

  lemma {:induction false} InsertKeepsSorted(s: ComponentScores, c: Component, sorted: seq<Component>)
    requires SortedByScore(s, sorted)
    ensures SortedByScore(s, InsertByScore(s, c, sorted))
    decreases |sorted|
  {
    if sorted != [] {
      var h := sorted[0];
      var tail := sorted[1..];
      assert forall x :: x in tail ==> ScoreOf(s, h) <= ScoreOf(s, x) by {
        forall x | x in tail ensures ScoreOf(s, h) <= ScoreOf(s, x) {
          var k :| 0 <= k < |tail| && tail[k] == x;
          assert sorted[k + 1] == x;
        }
      }
      if ScoreOf(s, c) < ScoreOf(s, h) {
        assert sorted == [h] + tail;
        ConsSorted(s, c, sorted);
      } else {
        assert SortedByScore(s, tail) by {
          forall i, j | 0 <= i < j < |tail| ensures ScoreOf(s, tail[i]) <= ScoreOf(s, tail[j]) {
            assert tail[i] == sorted[i + 1] && tail[j] == sorted[j + 1];
          }
        }
        InsertKeepsSorted(s, c, tail);
        InsertLowerBound(s, c, tail, ScoreOf(s, h));
        ConsSorted(s, h, InsertByScore(s, c, tail));
      }
    }
  }

  lemma {:induction false} SortIsSorted(s: ComponentScores, cs: seq<Component>)
    ensures SortedByScore(s, SortByScore(s, cs))
  {
    if cs != [] {
      SortIsSorted(s, cs[..|cs| - 1]);
      InsertKeepsSorted(s, cs[|cs| - 1], SortByScore(s, cs[..|cs| - 1]));
    }
  }

  /** The two leading recommendations of each of the `sorted` components scoring below 80. */
  function StepsFor(s: ComponentScores, sorted: seq<Component>): seq<string> {
    if sorted == [] then []
    else
      var c := sorted[|sorted| - 1];
      StepsFor(s, sorted[..|sorted| - 1]) + (if ScoreOf(s, c) < 80.0 then LeadingRecommendations(c) else [])
  }

  /** Every step is one of the two leading recommendations of a component
      among `sorted` that scores below 80. */
  lemma {:induction false} StepsOrigin(s: ComponentScores, sorted: seq<Component>, step: string)
    requires step in StepsFor(s, sorted)
    ensures exists i :: 0 <= i < |sorted| && ScoreOf(s, sorted[i]) < 80.0 && step in LeadingRecommendations(sorted[i])
  {
    var init := sorted[..|sorted| - 1];
    var c := sorted[|sorted| - 1];
    if step in StepsFor(s, init) {
      StepsOrigin(s, init, step);
      var i :| 0 <= i < |init| && ScoreOf(s, init[i]) < 80.0 && step in LeadingRecommendations(init[i]);
      assert sorted[i] == init[i];
    } else {
      assert ScoreOf(s, sorted[|sorted| - 1]) < 80.0 && step in LeadingRecommendations(sorted[|sorted| - 1]);
    }
  }

  /** `_generate_next_steps`: the two leading recommendations of each of the
      three lowest-scoring components that score below 80, at most five in all. */
  method GenerateNextSteps(s: ComponentScores) returns (steps: seq<string>)
    ensures |steps| <= 5
    ensures steps == KeywordExtractor.Take(StepsFor(s, SortByScore(s, Components)[..3]), 5)
  {
    var sorted := SortByScore(s, Components);
    var lowest := sorted[..3];
    var all: seq<string> := [];
    var i := 0;
    while i < |lowest|
      invariant 0 <= i <= |lowest|
      invariant all == StepsFor(s, lowest[..i])
    {
      assert lowest[..i + 1][..i] == lowest[..i];
      var c := lowest[i];
      if ScoreOf(s, c) < 80.0 {
        all := all + LeadingRecommendations(c);
      }
      i := i + 1;
    }
    assert lowest[..i] == lowest;
    steps := KeywordExtractor.Take(all, 5);
  }

  /** A component at position `i` of the sorted list has at most `i`
      components scoring strictly lower. */
  lemma LowerThanSorted(s: ComponentScores, cs: seq<Component>, i: nat)
    requires i < |cs|
    ensures var sorted := SortByScore(s, cs);
      |set d | d in cs && ScoreOf(s, d) < ScoreOf(s, sorted[i])| <= i
  {
    var sorted := SortByScore(s, cs);
    SortIsSorted(s, cs);
    var c := sorted[i];
    var lower := set d | d in cs && ScoreOf(s, d) < ScoreOf(s, c);
    var before := set d | d in sorted[..i];
    forall d | d in lower ensures d in before {
      assert d in multiset(cs);
      assert d in multiset(sorted);
      var j :| 0 <= j < |sorted| && sorted[j] == d;
      assert j < i;
      assert sorted[..i][j] == d;
    }
    CvAnalyzer.DistinctCard(sorted[..i]);
    KeywordExtractor.SubsetCard(lower, before);
  }

  /** Every next step drawn from the three lowest of `cs` belongs to a
      component scoring below 80 with fewer than three components scoring
      strictly lower. */
  lemma NextStepsFromLowest(s: ComponentScores, cs: seq<Component>, step: string)
    requires |cs| >= 3
    requires step in KeywordExtractor.Take(StepsFor(s, SortByScore(s, cs)[..3]), 5)
    ensures exists c :: (c in cs && ScoreOf(s, c) < 80.0 && step in LeadingRecommendations(c)
      && |set d | d in cs && ScoreOf(s, d) < ScoreOf(s, c)| < 3)
  {
    var sorted := SortByScore(s, cs);
    var lowest := sorted[..3];
    StepsOrigin(s, lowest, step);
    var i :| 0 <= i < 3 && ScoreOf(s, lowest[i]) < 80.0 && step in LeadingRecommendations(lowest[i]);
    LowerThanSorted(s, cs, i);
    var c := sorted[i];
    assert c == lowest[i];
    assert c in multiset(sorted);
    assert c in cs;
  }

  // ---------------------------------------------------------------------------
  // Overall breakdown
  // ---------------------------------------------------------------------------

  /** The breakdown `calculate_overall_score` returns. */
  datatype Breakdown = Breakdown(
    overallScore: real,
    componentScores: ComponentScores,
    grade: Grade,
    percentile: nat,
    improvementPotential: real,
    strengths: seq<string>,
    weaknesses: seq<string>,
    nextSteps: seq<string>)

  /** `calculate_overall_score` */
  method CalculateOverallScore(a: AnalysisResults) returns (b: Breakdown)
    ensures b.componentScores == ComponentScoresOf(a)
    ensures b.overallScore == WeightedSum(ComponentScoresOf(a), Components)
    ensures 0.0 <= b.overallScore <= 100.0
    ensures 0.0 <= b.improvementPotential <= 100.0
    ensures b.overallScore + b.improvementPotential == 100.0
    ensures b.grade == GradeOf(b.overallScore) && b.percentile == Percentile(b.overallScore)
    ensures b.strengths != []
    ensures StrongMessages(b.componentScores, Components) != [] ==>
      b.strengths == StrongMessages(b.componentScores, Components)
    ensures StrongMessages(b.componentScores, Components) == [] ==>
      b.strengths == [RelativelyStrong(Components[BestIndex(b.componentScores, Components)])]
    ensures b.weaknesses == WeakMessages(b.componentScores, Components)
    ensures |b.nextSteps| <= 5
    ensures b.nextSteps == KeywordExtractor.Take(StepsFor(b.componentScores, SortByScore(b.componentScores, Components)[..3]), 5)
  {
    var scores := ComponentScoresOf(a);
    var overall := WeightedSum(scores, Components);
    OverallInRange(scores);
    var strengths := IdentifyStrengths(scores, Components);
    var weaknesses := IdentifyWeaknesses(scores, Components);
    var steps := GenerateNextSteps(scores);
    b := Breakdown(overall, scores, GradeOf(overall), Percentile(overall), 100.0 - overall,
      strengths, weaknesses, steps);
  }
}
