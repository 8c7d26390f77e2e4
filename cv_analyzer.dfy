/**
  Structure analysis, the legacy additive ATS score and the rule-ordered
  suggestions of the CV analyzer (utils/cv_analyzer.py).

  The detectors are keyword and pattern searches over the CV text; the ATS
  score adds four capped parts; the suggestions are a fixed list of rules,
  each emitted when its condition holds, in rule order.
*/
module CvAnalyzer {
  import opened TextUtil
  import KeywordExtractor

  // ---------------------------------------------------------------------------
  // Pattern searches
  // ---------------------------------------------------------------------------

  /** The searches left to the regex engine: the e-mail and phone patterns and
      the two line-anchored bullet patterns (`^\s*[-*+]\s`, `^\s*\d+\.\s`). */
  datatype Searches = Searches(
    email: string -> bool,
    phone: string -> bool,
    markedItem: string -> bool,
    numberedItem: string -> bool)

  /** `\d+%`: a digit directly followed by a percent sign. */
  predicate HasPercentNumber(s: string) {
    exists i :: 0 <= i < |s| - 1 && IsDigit(s[i]) && s[i + 1] == '%'
  }

  /** `\$\d+`: a dollar sign directly followed by a digit. */
  predicate HasDollarAmount(s: string) {
    exists i :: 0 <= i < |s| - 1 && s[i] == '$' && IsDigit(s[i + 1])
  }

  /** `\d+\s*(million|thousand|k)` on lower-cased text: a digit, optional
      whitespace, then one of the three magnitude words. Each word starts with
      a letter, so the whitespace run is taken whole. */
  predicate HasLargeNumber(s: string) {
    exists i :: 0 <= i < |s| && IsDigit(s[i]) && MagnitudeAt(s, SkipSpaces(s, i + 1))
  }

  /** One of the three magnitude words starts at position `j`. */
  predicate MagnitudeAt(s: string, j: nat)
    requires j <= |s|
  {
    StartsWith(s[j..], "million") || StartsWith(s[j..], "thousand") || StartsWith(s[j..], "k")
  }

  /** `.*\d`: a digit before the end of the current line. */
  predicate DigitBeforeNewline(s: string) {
    s != [] && s[0] != '\n' && (IsDigit(s[0]) || DigitBeforeNewline(s[1..]))
  }

  /** `<verb>.*\d+` on lower-cased text: the verb, then a digit on the same line. */
  predicate VerbThenDigit(s: string, verb: string) {
    exists i :: 0 <= i <= |s| && StartsWith(s[i..], verb) && DigitBeforeNewline(s[i + |verb|..])
  }

  /** The number of maximal runs of characters satisfying `inRun` that are at
      least three long, `run` being the length of the run just before `s`:
      what `len(re.findall('[...]{3,}', s))` counts. */
  function LongRuns(s: string, inRun: char -> bool, run: nat): nat
    decreases |s|
  {
    if s == [] then (if run >= 3 then 1 else 0)
    else if inRun(s[0]) then LongRuns(s[1..], inRun, run + 1)
    else (if run >= 3 then 1 else 0) + LongRuns(s[1..], inRun, 0)
  }

  /** Runs of three or more take three characters each. */
  lemma {:induction false} LongRunsBound(s: string, inRun: char -> bool, run: nat)
    ensures 3 * LongRuns(s, inRun, run) <= |s| + run
    decreases |s|
  {
    if s != [] {
      if inRun(s[0]) {
        LongRunsBound(s[1..], inRun, run + 1);
      } else {
        LongRunsBound(s[1..], inRun, 0);
      }
    }
  }

  /** The number of characters satisfying `p`. */
  function CountWhere(s: string, p: char -> bool): (n: nat)
    ensures n <= |s|
  {
    if s == [] then 0 else (if p(s[0]) then 1 else 0) + CountWhere(s[1..], p)
  }

  /** `[^\w\s.,;:()\-@]` */
  predicate IsSpecialChar(c: char) {
    !IsWordChar(c) && !IsSpace(c) && c != '.' && c != ',' && c != ';' && c != ':'
      && c != '(' && c != ')' && c != '-' && c != '@'
  }

  /** `[•\-\*]` */
  predicate IsBulletChar(c: char) {
    c == '•' || c == '-' || c == '*'
  }

  // ---------------------------------------------------------------------------
  // Detectors
  // ---------------------------------------------------------------------------

  const SummaryKeywords: seq<string> := ["summary", "profile", "objective", "about me"]
  const ExperienceKeywords: seq<string> := ["experience", "employment", "work history", "professional experience"]
  const EducationKeywords: seq<string> := ["education", "academic", "qualifications", "degree"]
  const SkillsKeywords: seq<string> := ["skills", "technical skills", "competencies", "expertise"]
  const CvActionVerbs: seq<string> := [
    "achieved", "managed", "led", "developed", "implemented", "created",
    "designed", "improved", "increased", "reduced", "optimized"
  ]
  const SectionKeywords: seq<string> := [
    "summary", "profile", "objective", "about",
    "experience", "employment", "work history",
    "education", "academic", "qualifications",
    "skills", "technical skills", "competencies",
    "projects", "certifications", "achievements"
  ]

  /** `len(cv_text.split())` */
  function WordCount(text: string): nat {
    |Words(text)|
  }

  /** `_has_contact_info`: the e-mail or the phone pattern occurs. */
  predicate HasContactInfo(text: string, searches: Searches) {
    searches.email(text) || searches.phone(text)
  }

  predicate HasSummarySection(text: string) { ContainsAny(Lower(text), SummaryKeywords) }

  predicate HasExperienceSection(text: string) { ContainsAny(Lower(text), ExperienceKeywords) }

  predicate HasEducationSection(text: string) { ContainsAny(Lower(text), EducationKeywords) }

  predicate HasSkillsSection(text: string) { ContainsAny(Lower(text), SkillsKeywords) }

  /** `_uses_bullet_points`: any of the three bullet patterns occurs. */
  predicate UsesBulletPoints(text: string, searches: Searches) {
    (exists k :: 0 <= k < |text| && IsBulletChar(text[k]))
      || searches.markedItem(text) || searches.numberedItem(text)
  }

  /** The bullet detector fires on a bullet, dash or asterisk anywhere in the
      text, not only at the start of a line. */
  lemma BulletAnywhere(text: string, searches: Searches, k: nat)
    requires k < |text| && IsBulletChar(text[k])
    ensures UsesBulletPoints(text, searches)
  {
  }

  /** `_has_quantified_achievements`: any of the six number patterns, case-insensitively. */
  predicate HasQuantifiedAchievements(text: string) {
    var lower := Lower(text);
    HasPercentNumber(text) || HasDollarAmount(text) || HasLargeNumber(lower)
      || VerbThenDigit(lower, "increased") || VerbThenDigit(lower, "reduced")
      || VerbThenDigit(lower, "managed")
  }

  /** `_has_action_verbs` */
  predicate HasActionVerbs(text: string) { ContainsAny(Lower(text), CvActionVerbs) }

  /** `_check_length`: between 200 and 1000 words. */
  predicate CheckLength(text: string) {
    200 <= WordCount(text) <= 1000
  }

  /** The keyword detectors lower-case the text first: a text and its
      lower-cased form are detected alike. */
  lemma KeywordDetectorsIgnoreCase(text: string)
    ensures HasSummarySection(Lower(text)) == HasSummarySection(text)
    ensures HasExperienceSection(Lower(text)) == HasExperienceSection(text)
    ensures HasEducationSection(Lower(text)) == HasEducationSection(text)
    ensures HasSkillsSection(Lower(text)) == HasSkillsSection(text)
    ensures HasActionVerbs(Lower(text)) == HasActionVerbs(text)
  {
    LowerIdempotent(text);
  }

  /** The keyword detectors test for substrings: one that fires on a text
      still fires when more text follows. */
  lemma KeywordDetectorsAppend(text: string, more: string)
    ensures HasSummarySection(text) ==> HasSummarySection(text + more)
    ensures HasExperienceSection(text) ==> HasExperienceSection(text + more)
    ensures HasEducationSection(text) ==> HasEducationSection(text + more)
    ensures HasSkillsSection(text) ==> HasSkillsSection(text + more)
    ensures HasActionVerbs(text) ==> HasActionVerbs(text + more)
  {
    LowerConcat(text, more);
    var a, b := Lower(text), Lower(more);
    if HasSummarySection(text) { ContainsAnyAppend(a, b, SummaryKeywords); }
    if HasExperienceSection(text) { ContainsAnyAppend(a, b, ExperienceKeywords); }
    if HasEducationSection(text) { ContainsAnyAppend(a, b, EducationKeywords); }
    if HasSkillsSection(text) { ContainsAnyAppend(a, b, SkillsKeywords); }
    if HasActionVerbs(text) { ContainsAnyAppend(a, b, CvActionVerbs); }
  }

  /** Skipping whitespace that stops inside `s` stops at the same place when more text follows. */
  lemma {:induction false} SkipSpacesAppend(s: string, t: string, j: nat)
    requires j <= |s| && SkipSpaces(s, j) < |s|
    ensures SkipSpaces(s + t, j) == SkipSpaces(s, j)
    decreases |s| - j
  {
    assert (s + t)[j] == s[j];
    if IsSpace(s[j]) {
      SkipSpacesAppend(s, t, j + 1);
    }
  }

  lemma {:induction false} DigitBeforeNewlineAppend(s: string, t: string)
    requires DigitBeforeNewline(s)
    ensures DigitBeforeNewline(s + t)
    decreases |s|
  {
    assert (s + t)[0] == s[0];
    if !IsDigit(s[0]) {
      DigitBeforeNewlineAppend(s[1..], t);
      assert (s + t)[1..] == s[1..] + t;
    }
  }

  lemma VerbThenDigitAppend(s: string, t: string, verb: string)
    requires VerbThenDigit(s, verb)
    ensures VerbThenDigit(s + t, verb)
  {
    var i :| 0 <= i <= |s| && StartsWith(s[i..], verb) && DigitBeforeNewline(s[i + |verb|..]);
    DigitBeforeNewlineAppend(s[i + |verb|..], t);
    assert (s + t)[i..][..|verb|] == s[i..][..|verb|];
    assert (s + t)[i + |verb|..] == s[i + |verb|..] + t;
  }

  lemma StartsWithAppend(x: string, t: string, w: string)
    requires StartsWith(x, w)
    ensures StartsWith(x + t, w)
  {
    assert (x + t)[..|w|] == x[..|w|];
  }

  lemma MagnitudeAtAppend(s: string, t: string, j: nat)
    requires j <= |s| && MagnitudeAt(s, j)
    ensures MagnitudeAt(s + t, j)
  {
    var x := s[j..];
    assert (s + t)[j..] == x + t;
    if StartsWith(x, "million") {
      StartsWithAppend(x, t, "million");
    } else if StartsWith(x, "thousand") {
      StartsWithAppend(x, t, "thousand");
    } else {
      StartsWithAppend(x, t, "k");
    }
  }

  lemma LargeNumberAppend(s: string, t: string)
    requires HasLargeNumber(s)
    ensures HasLargeNumber(s + t)
  {
    var i :| 0 <= i < |s| && IsDigit(s[i]) && MagnitudeAt(s, SkipSpaces(s, i + 1));
    var j := SkipSpaces(s, i + 1);
    assert j < |s|;
    SkipSpacesAppend(s, t, i + 1);
    MagnitudeAtAppend(s, t, j);
    assert (s + t)[i] == s[i];
  }

  /** The number patterns find a match anywhere in the text: a CV with
      quantified achievements keeps them when more text follows. */
  lemma QuantifiedAppend(text: string, more: string)
    requires HasQuantifiedAchievements(text)
    ensures HasQuantifiedAchievements(text + more)
  {
    LowerConcat(text, more);
    var a, b := Lower(text), Lower(more);
    if HasPercentNumber(text) {
      var i :| 0 <= i < |text| - 1 && IsDigit(text[i]) && text[i + 1] == '%';
      assert (text + more)[i] == text[i] && (text + more)[i + 1] == text[i + 1];
    } else if HasDollarAmount(text) {
      var i :| 0 <= i < |text| - 1 && text[i] == '$' && IsDigit(text[i + 1]);
      assert (text + more)[i] == text[i] && (text + more)[i + 1] == text[i + 1];
    } else if HasLargeNumber(a) {
      LargeNumberAppend(a, b);
    } else if VerbThenDigit(a, "increased") {
      VerbThenDigitAppend(a, b, "increased");
    } else if VerbThenDigit(a, "reduced") {
      VerbThenDigitAppend(a, b, "reduced");
    } else {
      VerbThenDigitAppend(a, b, "managed");
    }
  }

  /** The distinct elements of a list are no more than its length. */
  lemma {:induction false} DistinctCard<T>(s: seq<T>)
    ensures |set x | x in s| <= |s|
  {
    if s != [] {
      DistinctCard(s[1..]);
      assert (set x | x in s) == (set x | x in s[1..]) + {s[0]};
    }
  }

  /** `_detect_sections`: the section keywords found in the lower-cased text, as a set. */
  method DetectSections(cvText: string) returns (sections: set<string>)
    ensures forall s :: s in sections <==> s in SectionKeywords && Contains(Lower(cvText), s)
    ensures |sections| <= |SectionKeywords|
  {
    var found := KeywordExtractor.CollectPhrases(SectionKeywords, Lower(cvText));
    sections := set s | s in found;
    DistinctCard(SectionKeywords);
    KeywordExtractor.SubsetCard(sections, set s | s in SectionKeywords);
  }

  // ---------------------------------------------------------------------------
  // Formatting issues
  // ---------------------------------------------------------------------------

  const CapitalizationIssue: string := "Excessive capitalization detected"
  const SpacingIssue: string := "Inconsistent spacing detected"
  const SpecialCharIssue: string := "Too many special characters"

  function UpperRuns(text: string): nat { LongRuns(text, IsUpper, 0) }

  function SpaceRuns(text: string): nat { LongRuns(text, IsSpace, 0) }

  /** Position of an issue message in the order the checks run. */
  function IssueRank(issue: string): nat {
    if issue == CapitalizationIssue then 0 else if issue == SpacingIssue then 1 else 2
  }

  /** `_detect_formatting_issues`: each message at most once, in check order,
      each exactly when its count passes its threshold. */
  function FormattingIssues(cvText: string): (issues: seq<string>)
    ensures CapitalizationIssue in issues <==> UpperRuns(cvText) > 10
    ensures SpacingIssue in issues <==> SpaceRuns(cvText) > 5
    ensures SpecialCharIssue in issues <==> CountWhere(cvText, IsSpecialChar) > 20
    ensures forall x :: x in issues ==> x == CapitalizationIssue || x == SpacingIssue || x == SpecialCharIssue
    ensures |issues| <= 3
    ensures forall i, j :: 0 <= i < j < |issues| ==> IssueRank(issues[i]) < IssueRank(issues[j])
  {
    (if UpperRuns(cvText) > 10 then [CapitalizationIssue] else [])
      + (if SpaceRuns(cvText) > 5 then [SpacingIssue] else [])
      + (if CountWhere(cvText, IsSpecialChar) > 20 then [SpecialCharIssue] else [])
  }

  /** Text too short for eleven capital runs, six whitespace runs and
      twenty-one special characters has no formatting issue. */
  lemma ShortTextNoIssues(cvText: string)
    requires |cvText| < 18
    ensures FormattingIssues(cvText) == []
  {
    LongRunsBound(cvText, IsUpper, 0);
    LongRunsBound(cvText, IsSpace, 0);
  }

  // ---------------------------------------------------------------------------
  // Structure analysis
  // ---------------------------------------------------------------------------

  /** The `structure_analysis` record. */
  datatype StructureAnalysis = StructureAnalysis(
    hasContactInfo: bool,
    hasSummary: bool,
    hasExperience: bool,
    hasEducation: bool,
    hasSkills: bool,
    usesBulletPoints: bool,
    hasQuantifiedAchievements: bool,
    appropriateLength: bool,
    sectionCount: nat,
    formattingIssues: seq<string>)

  /** `_analyze_structure`: every detector applied to the CV text. */
  method AnalyzeStructure(cvText: string, searches: Searches) returns (analysis: StructureAnalysis)
    ensures analysis.hasContactInfo == HasContactInfo(cvText, searches)
    ensures analysis.hasSummary == HasSummarySection(cvText)
    ensures analysis.hasExperience == HasExperienceSection(cvText)
    ensures analysis.hasEducation == HasEducationSection(cvText)
    ensures analysis.hasSkills == HasSkillsSection(cvText)
    ensures analysis.usesBulletPoints == UsesBulletPoints(cvText, searches)
    ensures analysis.hasQuantifiedAchievements == HasQuantifiedAchievements(cvText)
    ensures analysis.appropriateLength <==> 200 <= WordCount(cvText) <= 1000
    ensures analysis.sectionCount == |set s | s in SectionKeywords && Contains(Lower(cvText), s)|
    ensures analysis.sectionCount <= 16
    ensures analysis.formattingIssues == FormattingIssues(cvText)
  {
    var sections := DetectSections(cvText);
    assert sections == set s | s in SectionKeywords && Contains(Lower(cvText), s);
    analysis := StructureAnalysis(
      HasContactInfo(cvText, searches),
      HasSummarySection(cvText),
      HasExperienceSection(cvText),
      HasEducationSection(cvText),
      HasSkillsSection(cvText),
      UsesBulletPoints(cvText, searches),
      HasQuantifiedAchievements(cvText),
      CheckLength(cvText),
      |sections|,
      FormattingIssues(cvText));
  }

  // ---------------------------------------------------------------------------
  // Legacy additive ATS score
  // ---------------------------------------------------------------------------

  /** The keyword part: the match percentage, capped at 40. */
  function KeywordPart(matchPercentage: real): (p: real)
    ensures p <= 40.0 && p <= matchPercentage
    ensures p == 40.0 || p == matchPercentage
  {
    if matchPercentage <= 40.0 then matchPercentage else 40.0
  }

  /** The structure part: fixed points per detector. */
  function StructurePart(a: StructureAnalysis): (p: nat)
  {
    (if a.hasContactInfo then 5 else 0)
      + (if a.hasSummary then 3 else 0)
      + (if a.hasExperience then 5 else 0)
      + (if a.hasEducation then 3 else 0)
      + (if a.hasSkills then 4 else 0)
      + (if a.usesBulletPoints then 3 else 0)
      + (if a.hasQuantifiedAchievements then 4 else 0)
      + (if a.appropriateLength then 3 else 0)
  }

  /** The structure part is at most 30 and reaches it only with every detector set. */
  lemma StructurePartRange(a: StructureAnalysis)
    ensures StructurePart(a) <= 30
    ensures StructurePart(a) == 30 <==>
      a.hasContactInfo && a.hasSummary && a.hasExperience && a.hasEducation
      && a.hasSkills && a.usesBulletPoints && a.hasQuantifiedAchievements && a.appropriateLength
  {
  }

  /** The technical part: two points per matched technical skill, capped at 20. */
  function TechnicalPart(matched: nat): (p: nat)
    ensures p <= 20 && p <= 2 * matched
    ensures p == 20 || p == 2 * matched
  {
    if 2 * matched <= 20 then 2 * matched else 20
  }

  /** The content part: five points for action verbs, five for at least 200 words. */
  function ContentPart(cvText: string): (p: nat)
    ensures p <= 10
    ensures p == 10 <==> HasActionVerbs(cvText) && WordCount(cvText) >= 200
  {
    (if HasActionVerbs(cvText) then 5 else 0) + (if WordCount(cvText) >= 200 then 5 else 0)
  }

  /** `_calculate_ats_score`: the four parts added and capped at 100. */
  function LegacyAtsScore(cvText: string, comparison: KeywordExtractor.Comparison, structure: StructureAnalysis): (score: real)
    ensures score <= 100.0
    ensures comparison.matchPercentage >= 0.0 ==> score >= 0.0
  {
    var sum := KeywordPart(comparison.matchPercentage)
      + StructurePart(structure) as real
      + TechnicalPart(|comparison.matchedTechnical|) as real
      + ContentPart(cvText) as real;
    if sum <= 100.0 then sum else 100.0
  }

  /** The four parts never add up to more than 100, so the cap never binds. */
  lemma AtsCapNeverBinds(cvText: string, comparison: KeywordExtractor.Comparison, structure: StructureAnalysis)
    ensures LegacyAtsScore(cvText, comparison, structure)
      == KeywordPart(comparison.matchPercentage)
        + StructurePart(structure) as real
        + TechnicalPart(|comparison.matchedTechnical|) as real
        + ContentPart(cvText) as real
  {
    StructurePartRange(structure);
  }

  /** For a comparison made by `compare_keywords` the score lies in [0, 100]. */
  lemma AtsScoreRange(cvText: string, cv: KeywordExtractor.CvKeywords, job: KeywordExtractor.JobKeywords, structure: StructureAnalysis)
    ensures var s := LegacyAtsScore(cvText, KeywordExtractor.CompareKeywords(cv, job), structure);
      0.0 <= s <= 100.0
  {
    KeywordExtractor.MatchPercentageRange(cv, job);
  }

  /** A higher match percentage never lowers the score. */
  lemma AtsScoreMonotone(cvText: string, c1: KeywordExtractor.Comparison, c2: KeywordExtractor.Comparison, structure: StructureAnalysis)
    requires c1.matchPercentage <= c2.matchPercentage
    requires |c1.matchedTechnical| <= |c2.matchedTechnical|
    ensures LegacyAtsScore(cvText, c1, structure) <= LegacyAtsScore(cvText, c2, structure)
  {
    AtsCapNeverBinds(cvText, c1, structure);
    AtsCapNeverBinds(cvText, c2, structure);
  }

  // ---------------------------------------------------------------------------
  // Suggestions
  // ---------------------------------------------------------------------------

  /** The eight rules of `_generate_suggestions`, in the order they are checked. */
  datatype Rule =
    | KeywordRule | TechnicalRule | SummaryRule | BulletRule
    | QuantifyRule | ActionVerbRule | ExpandRule | ReduceRule

  /** A rule's position in the checking order. */
  function RuleOrder(rule: Rule): nat {
    match rule
    case KeywordRule => 0
    case TechnicalRule => 1
    case SummaryRule => 2
    case BulletRule => 3
    case QuantifyRule => 4
    case ActionVerbRule => 5
    case ExpandRule => 6
    case ReduceRule => 7
  }

  /** A suggestion's description: a rule's fixed text (`FixedText` gives it),
      or the data the two keyword rules format into theirs. */
  datatype Description =
    | Fixed(rule: Rule)
    | KeywordGap(matchPercentage: real, missingKeywords: set<string>)
    | TechnicalGap(missingTechnical: set<string>)

  /** A suggestion's priority; `PriorityName` gives the string the source stores. */
  datatype Priority = High | Medium | Low

  function PriorityName(p: Priority): string {
    match p
    case High => "high"
    case Medium => "medium"
    case Low => "low"
  }

  datatype Suggestion = Suggestion(title: string, description: Description, priority: Priority, category: string)

  function Title(rule: Rule): string {
    match rule
    case KeywordRule => "Improve Keyword Matching"
    case TechnicalRule => "Add Technical Skills"
    case SummaryRule => "Add Professional Summary"
    case BulletRule => "Use Bullet Points"
    case QuantifyRule => "Quantify Your Achievements"
    case ActionVerbRule => "Use Strong Action Verbs"
    case ExpandRule => "Expand Content"
    case ReduceRule => "Reduce Length"
  }

  /** Every rule has its own title, so a suggestion's title names the rule that emitted it. */
  lemma TitlesDistinct(a: Rule, b: Rule)
    requires Title(a) == Title(b)
    ensures a == b
  {
    assert Title(a)[|Title(a)| - 1] == Title(b)[|Title(b)| - 1];
  }

  function Category(rule: Rule): string {
    match rule
    case KeywordRule => "keywords"
    case TechnicalRule => "technical_skills"
    case SummaryRule => "structure"
    case BulletRule => "formatting"
    case _ => "content"
  }

  function PriorityOf(rule: Rule): (p: Priority)
    ensures p == High <==> rule == KeywordRule || rule == TechnicalRule || rule == QuantifyRule
    ensures p == Low <==> rule == ReduceRule
  {
    match rule
    case KeywordRule => High
    case TechnicalRule => High
    case QuantifyRule => High
    case ReduceRule => Low
    case _ => Medium
  }

  /** The fixed description of each rule that does not format data into its text. */
  function FixedText(rule: Rule): string
    requires rule != KeywordRule && rule != TechnicalRule
  {
    match rule
    case SummaryRule =>
      "Include a 2-3 sentence professional summary at the top of your CV highlighting your key qualifications."
    case BulletRule =>
      "Format your experience and achievements using bullet points for better ATS readability."
    case QuantifyRule =>
      "Add numbers, percentages, and metrics to your accomplishments (e.g., \"Increased sales by 25%\")."
    case ActionVerbRule =>
      "Start bullet points with action verbs like \"achieved,\" \"managed,\" \"developed,\" \"implemented.\""
    case ExpandRule =>
      "Your CV is quite short. Consider adding more detail about your experience and achievements."
    case ReduceRule =>
      "Your CV is quite long. Consider condensing content to focus on the most relevant information."
  }

  /** The suggestion entry each rule appends: the two gap rules carry the
      comparison's figures, the others fixed text; the keyword, technical and
      quantify rules are high priority, the reduce rule low, the rest medium. */
  function Render(rule: Rule, c: KeywordExtractor.Comparison): (r: Suggestion)
    ensures r.description.KeywordGap? <==> rule == KeywordRule
    ensures r.description.TechnicalGap? <==> rule == TechnicalRule
    ensures rule == KeywordRule ==> r.description == KeywordGap(c.matchPercentage, c.missingKeywords)
    ensures rule == TechnicalRule ==> r.description == TechnicalGap(c.missingTechnical)
    ensures r.priority == PriorityOf(rule)
    ensures r.title == Title(rule) && r.category == Category(rule)
  {
    Suggestion(Title(rule), DescriptionFor(rule, c), PriorityOf(rule), Category(rule))
  }

  /** The description of a rule's suggestion: the two gap rules format the
      comparison's figures, every other rule has fixed text. */
  function DescriptionFor(rule: Rule, c: KeywordExtractor.Comparison): (d: Description)
    ensures d.KeywordGap? <==> rule == KeywordRule
    ensures d.TechnicalGap? <==> rule == TechnicalRule
    ensures rule == KeywordRule ==> d == KeywordGap(c.matchPercentage, c.missingKeywords)
    ensures rule == TechnicalRule ==> d == TechnicalGap(c.missingTechnical)
    ensures d.Fixed? ==> d.rule == rule
  {
    match rule
    case KeywordRule => KeywordGap(c.matchPercentage, c.missingKeywords)
    case TechnicalRule => TechnicalGap(c.missingTechnical)
    case _ => Fixed(rule)
  }

  /** Every rule, in checking order. */
  const AllRules: seq<Rule> := [KeywordRule, TechnicalRule, SummaryRule, BulletRule,
                                QuantifyRule, ActionVerbRule, ExpandRule, ReduceRule]

  /** Whether a rule's condition holds; the reduce rule is the `elif` of the
      expand rule. */
  predicate Fires(rule: Rule, comparison: KeywordExtractor.Comparison, structure: StructureAnalysis, hasActionVerbs: bool, wordCount: nat) {
    match rule
    case KeywordRule => comparison.matchPercentage < 50.0
    case TechnicalRule => comparison.missingTechnical != {}
    case SummaryRule => !structure.hasSummary
    case BulletRule => !structure.usesBulletPoints
    case QuantifyRule => !structure.hasQuantifiedAchievements
    case ActionVerbRule => !hasActionVerbs
    case ExpandRule => wordCount < 200
    case ReduceRule => !(wordCount < 200) && wordCount > 800
  }

  /** The rules are listed in strictly increasing checking order, so each at most once. */
  ghost predicate InRuleOrder(rules: seq<Rule>) {
    forall i, j :: 0 <= i < j < |rules| ==> RuleOrder(rules[i]) < RuleOrder(rules[j])
  }

  /** The rules of `rules` that fire, keeping their order. */
  function FiredAmong(rules: seq<Rule>, comparison: KeywordExtractor.Comparison, structure: StructureAnalysis, hasActionVerbs: bool, wordCount: nat): (r: seq<Rule>)
    ensures |r| <= |rules|
  {
    if rules == [] then []
    else
      var head := if Fires(rules[0], comparison, structure, hasActionVerbs, wordCount) then [rules[0]] else [];
      head + FiredAmong(rules[1..], comparison, structure, hasActionVerbs, wordCount)
  }

  /** The list of every rule is in checking order: position `i` holds the rule of order `i`. */
  lemma AllRulesOrdered()
    ensures InRuleOrder(AllRules)
  {
    forall i | 0 <= i < |AllRules| ensures RuleOrder(AllRules[i]) == i {
    }
  }

  /** A rule is kept exactly when it is listed and fires. */
  lemma {:induction false} FiredAmongMembers(rules: seq<Rule>, comparison: KeywordExtractor.Comparison, structure: StructureAnalysis, hasActionVerbs: bool, wordCount: nat, rule: Rule)
    ensures rule in FiredAmong(rules, comparison, structure, hasActionVerbs, wordCount)
      <==> rule in rules && Fires(rule, comparison, structure, hasActionVerbs, wordCount)
    decreases |rules|
  {
    if rules != [] {
      FiredAmongMembers(rules[1..], comparison, structure, hasActionVerbs, wordCount, rule);
      assert rules == [rules[0]] + rules[1..];
    }
  }

  /** Keeping only the rules that fire preserves the checking order. */
  lemma {:induction false} FiredAmongOrdered(rules: seq<Rule>, comparison: KeywordExtractor.Comparison, structure: StructureAnalysis, hasActionVerbs: bool, wordCount: nat)
    requires InRuleOrder(rules)
    ensures InRuleOrder(FiredAmong(rules, comparison, structure, hasActionVerbs, wordCount))
    decreases |rules|
  {
    if rules != [] {
      var tail := FiredAmong(rules[1..], comparison, structure, hasActionVerbs, wordCount);
      assert InRuleOrder(rules[1..]) by {
        forall i, j | 0 <= i < j < |rules[1..]|
          ensures RuleOrder(rules[1..][i]) < RuleOrder(rules[1..][j])
        {
          assert rules[1..][i] == rules[i + 1] && rules[1..][j] == rules[j + 1];
        }
      }
      FiredAmongOrdered(rules[1..], comparison, structure, hasActionVerbs, wordCount);
      if Fires(rules[0], comparison, structure, hasActionVerbs, wordCount) {
        forall k | 0 <= k < |tail|
          ensures RuleOrder(rules[0]) < RuleOrder(tail[k])
        {
          FiredAmongMembers(rules[1..], comparison, structure, hasActionVerbs, wordCount, tail[k]);
          var m :| 0 <= m < |rules[1..]| && rules[1..][m] == tail[k];
          assert rules[m + 1] == tail[k];
        }
        ConsOrdered(rules[0], tail);
      }
    }
  }

  /** A rule checked before every rule of an ordered list can go in front of it. */
  lemma ConsOrdered(rule: Rule, rules: seq<Rule>)
    requires InRuleOrder(rules)
    requires forall k :: 0 <= k < |rules| ==> RuleOrder(rule) < RuleOrder(rules[k])
    ensures InRuleOrder([rule] + rules)
  {
    forall i, j | 0 <= i < j < |[rule] + rules|
      ensures RuleOrder(([rule] + rules)[i]) < RuleOrder(([rule] + rules)[j])
    {
      assert ([rule] + rules)[j] == rules[j - 1];
    }
  }

  /** A listed rule that does not fire leaves the result shorter than the list. */
  lemma {:induction false} FiredAmongDrops(rules: seq<Rule>, comparison: KeywordExtractor.Comparison, structure: StructureAnalysis, hasActionVerbs: bool, wordCount: nat, rule: Rule)
    requires rule in rules && !Fires(rule, comparison, structure, hasActionVerbs, wordCount)
    ensures |FiredAmong(rules, comparison, structure, hasActionVerbs, wordCount)| < |rules|
    decreases |rules|
  {
    if rules[0] != rule {
      assert rule in rules[1..] by {
        var m :| 0 <= m < |rules| && rules[m] == rule;
        assert rules[1..][m - 1] == rule;
      }
      FiredAmongDrops(rules[1..], comparison, structure, hasActionVerbs, wordCount, rule);
    }
  }

  /** `_generate_suggestions`' rules: those that fire, in checking order,
      over the two facts the rules read from the CV text itself. The two
      length rules never fire together, so at most seven do. */
  function FiredRules(comparison: KeywordExtractor.Comparison, structure: StructureAnalysis, hasActionVerbs: bool, wordCount: nat): (r: seq<Rule>)
    ensures |r| <= 7
    ensures InRuleOrder(r)
    ensures forall rule :: rule in r <==> Fires(rule, comparison, structure, hasActionVerbs, wordCount)
  {
    var r := FiredAmong(AllRules, comparison, structure, hasActionVerbs, wordCount);
    AllRulesOrdered();
    FiredAmongOrdered(AllRules, comparison, structure, hasActionVerbs, wordCount);
    FiredAmongDrops(AllRules, comparison, structure, hasActionVerbs, wordCount, if wordCount < 200 then ReduceRule else ExpandRule);
    forall rule ensures rule in r <==> Fires(rule, comparison, structure, hasActionVerbs, wordCount) {
      FiredAmongMembers(AllRules, comparison, structure, hasActionVerbs, wordCount, rule);
    }
    r
  }

  /** Each of the first six rules fires exactly on its condition. */
  lemma KeywordSuggestionsIff(comparison: KeywordExtractor.Comparison, structure: StructureAnalysis, hasActionVerbs: bool, wordCount: nat)
    ensures var r := FiredRules(comparison, structure, hasActionVerbs, wordCount);
      && (KeywordRule in r <==> comparison.matchPercentage < 50.0)
      && (TechnicalRule in r <==> comparison.missingTechnical != {})
      && (SummaryRule in r <==> !structure.hasSummary)
      && (BulletRule in r <==> !structure.usesBulletPoints)
      && (QuantifyRule in r <==> !structure.hasQuantifiedAchievements)
      && (ActionVerbRule in r <==> !hasActionVerbs)
  {
  }

  /** 'Expand Content' exactly below 200 words, 'Reduce Length' exactly above
      800, never both. */
  lemma LengthSuggestionsIff(comparison: KeywordExtractor.Comparison, structure: StructureAnalysis, hasActionVerbs: bool, wordCount: nat)
    ensures var r := FiredRules(comparison, structure, hasActionVerbs, wordCount);
      && (ExpandRule in r <==> wordCount < 200)
      && (ReduceRule in r <==> wordCount > 800)
      && !(ExpandRule in r && ReduceRule in r)
  {
  }

  /** A CV of appropriate length never gets 'Expand Content', but one of
      801 to 1000 words passes the length check and still gets 'Reduce Length'. */
  lemma AppropriateLengthNotExpand(cvText: string, comparison: KeywordExtractor.Comparison, structure: StructureAnalysis)
    requires CheckLength(cvText)
    ensures ExpandRule !in FiredRules(comparison, structure, HasActionVerbs(cvText), WordCount(cvText))
    ensures ReduceRule in FiredRules(comparison, structure, HasActionVerbs(cvText), WordCount(cvText))
      <==> WordCount(cvText) > 800
  {
  }

  /** `_generate_suggestions`: one entry per fired rule, in order. */
  function GenerateSuggestions(cvText: string, comparison: KeywordExtractor.Comparison, structure: StructureAnalysis): (r: seq<Suggestion>)
    ensures |r| <= 7
    ensures var rules := FiredRules(comparison, structure, HasActionVerbs(cvText), WordCount(cvText));
      && |r| == |rules|
      && forall i :: 0 <= i < |r| ==> r[i] == Render(rules[i], comparison)
  {
    var rules := FiredRules(comparison, structure, HasActionVerbs(cvText), WordCount(cvText));
    seq(|rules|, i requires 0 <= i < |rules| => Render(rules[i], comparison))
  }

  /** The keyword-gap suggestion appears exactly below a 50% match, and the
      technical-gap one exactly when technical skills are missing; each
      carries the comparison's figures. */
  lemma SuggestionGaps(cvText: string, comparison: KeywordExtractor.Comparison, structure: StructureAnalysis)
    ensures var r := GenerateSuggestions(cvText, comparison, structure);
      && ((exists i :: 0 <= i < |r| && r[i].description.KeywordGap?) <==> comparison.matchPercentage < 50.0)
      && ((exists i :: 0 <= i < |r| && r[i].description.TechnicalGap?) <==> comparison.missingTechnical != {})
      && (forall i :: 0 <= i < |r| && r[i].description.KeywordGap? ==>
            r[i].description == KeywordGap(comparison.matchPercentage, comparison.missingKeywords))
  {
    var rules := FiredRules(comparison, structure, HasActionVerbs(cvText), WordCount(cvText));
    KeywordSuggestionsIff(comparison, structure, HasActionVerbs(cvText), WordCount(cvText));
    RenderedGaps(rules, comparison, GenerateSuggestions(cvText, comparison, structure));
  }

  /** The gap descriptions of rendered rules come from the two gap rules. */
  lemma RenderedGaps(rules: seq<Rule>, c: KeywordExtractor.Comparison, r: seq<Suggestion>)
    requires |r| == |rules| && forall i :: 0 <= i < |r| ==> r[i] == Render(rules[i], c)
    ensures (exists i :: 0 <= i < |r| && r[i].description.KeywordGap?) <==> KeywordRule in rules
    ensures (exists i :: 0 <= i < |r| && r[i].description.TechnicalGap?) <==> TechnicalRule in rules
    ensures forall i :: 0 <= i < |r| && r[i].description.KeywordGap? ==>
      r[i].description == KeywordGap(c.matchPercentage, c.missingKeywords)
  {
    if KeywordRule in rules {
      var k :| 0 <= k < |rules| && rules[k] == KeywordRule;
      assert r[k].description.KeywordGap?;
    }
    if TechnicalRule in rules {
      var k :| 0 <= k < |rules| && rules[k] == TechnicalRule;
      assert r[k].description.TechnicalGap?;
    }
  }

  // ---------------------------------------------------------------------------
  // Enhancement opportunities
  // ---------------------------------------------------------------------------

  const WeakPhrases: seq<string> := ["responsible for", "duties included", "helped with"]
  const QuantifiableVerbs: seq<string> := ["managed", "led", "increased", "reduced", "improved"]

  /** One enhancement opportunity; `Message` gives the text the source emits. */
  datatype Opportunity = ReplaceWeak(phrase: string) | AddMetrics(verb: string)

  function Message(o: Opportunity): string {
    match o
    case ReplaceWeak(p) => "Replace \"" + p + "\" with stronger action verbs"
    case AddMetrics(v) => "Add numbers/metrics to \"" + v + "\" statements"
  }

  /** A verb is worth quantifying when the text uses it but never follows it
      with a number on the same line. */
  predicate Unquantified(lower: string, verb: string) {
    Contains(lower, verb) && !VerbThenDigit(lower, verb)
  }

  /** The weak phrases of the list that occur, in list order. */
  function WeakFound(phrases: seq<string>, lower: string): (r: seq<Opportunity>)
    ensures forall o :: o in r <==> o.ReplaceWeak? && o.phrase in phrases && Contains(lower, o.phrase)
  {
    if phrases == [] then []
    else
      var p := phrases[|phrases| - 1];
      assert phrases == phrases[..|phrases| - 1] + [p];
      WeakFound(phrases[..|phrases| - 1], lower) + (if Contains(lower, p) then [ReplaceWeak(p)] else [])
  }

  /** The verbs of the list that are worth quantifying, in list order. */
  function MetricsFound(verbs: seq<string>, lower: string): (r: seq<Opportunity>)
    ensures forall o :: o in r <==> o.AddMetrics? && o.verb in verbs && Unquantified(lower, o.verb)
  {
    if verbs == [] then []
    else
      var v := verbs[|verbs| - 1];
      assert verbs == verbs[..|verbs| - 1] + [v];
      MetricsFound(verbs[..|verbs| - 1], lower) + (if Unquantified(lower, v) then [AddMetrics(v)] else [])
  }

  /** `_find_enhancement_opportunities`: one entry per weak phrase present,
      then one per quantifiable verb present but never followed by a number
      on its line. */
  method FindEnhancementOpportunities(cvText: string) returns (opportunities: seq<Opportunity>)
    ensures opportunities == WeakFound(WeakPhrases, Lower(cvText)) + MetricsFound(QuantifiableVerbs, Lower(cvText))
  {
    var lower := Lower(cvText);
    opportunities := [];
    var i := 0;
    while i < |WeakPhrases|
      invariant 0 <= i <= |WeakPhrases|
      invariant opportunities == WeakFound(WeakPhrases[..i], lower)
    {
      assert WeakPhrases[..i + 1][..i] == WeakPhrases[..i];
      if Contains(lower, WeakPhrases[i]) {
        opportunities := opportunities + [ReplaceWeak(WeakPhrases[i])];
      }
      i := i + 1;
    }
    assert WeakPhrases[..i] == WeakPhrases;
    var weak := opportunities;
    var metrics: seq<Opportunity> := [];
    var j := 0;
    while j < |QuantifiableVerbs|
      invariant 0 <= j <= |QuantifiableVerbs|
      invariant metrics == MetricsFound(QuantifiableVerbs[..j], lower)
    {
      assert QuantifiableVerbs[..j + 1][..j] == QuantifiableVerbs[..j];
      if Unquantified(lower, QuantifiableVerbs[j]) {
        metrics := metrics + [AddMetrics(QuantifiableVerbs[j])];
      }
      j := j + 1;
    }
    assert QuantifiableVerbs[..j] == QuantifiableVerbs;
    opportunities := weak + metrics;
  }

  /** Each weak phrase present gives one entry, each unquantified verb one entry,
      and nothing else appears. */
  lemma OpportunitiesIff(cvText: string)
    ensures var r := WeakFound(WeakPhrases, Lower(cvText)) + MetricsFound(QuantifiableVerbs, Lower(cvText));
      && (forall p :: ReplaceWeak(p) in r <==> p in WeakPhrases && Contains(Lower(cvText), p))
      && (forall v :: AddMetrics(v) in r <==> v in QuantifiableVerbs && Unquantified(Lower(cvText), v))
  {
  }

  /** A verb followed by a number on its line is never flagged. */
  lemma QuantifiedVerbNotFlagged(cvText: string, verb: string, i: nat)
    requires i + |verb| <= |cvText| && StartsWith(Lower(cvText)[i..], verb)
    requires DigitBeforeNewline(Lower(cvText)[i + |verb|..])
    ensures AddMetrics(verb) !in WeakFound(WeakPhrases, Lower(cvText)) + MetricsFound(QuantifiableVerbs, Lower(cvText))
  {
    assert VerbThenDigit(Lower(cvText), verb);
  }
}
