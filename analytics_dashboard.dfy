/**
  The score helpers of the analytics dashboard and the per-session score
  history it keeps. The helpers use their own grade and percentile tables,
  which differ from the scoring engine's below the top bands.
*/
module AnalyticsDashboard {
  import opened Wrappers
  import CvAnalyzer
  import ScoringSystem

  // ---------------------------------------------------------------------------
  // Grade, percentile and colour
  // ---------------------------------------------------------------------------

  /** `_get_score_grade`: five-point bands from 60, and 'C' for everything below. */
  function ScoreGrade(score: real): (g: ScoringSystem.Grade)
    ensures ScoringSystem.Rank(g) >= ScoringSystem.Rank(ScoringSystem.C)
    ensures g == ScoringSystem.C <==> score < 60.0
    ensures g == ScoringSystem.APlus <==> score >= 90.0
  {
    if score >= 90.0 then ScoringSystem.APlus
    else if score >= 85.0 then ScoringSystem.A
    else if score >= 80.0 then ScoringSystem.AMinus
    else if score >= 75.0 then ScoringSystem.BPlus
    else if score >= 70.0 then ScoringSystem.B
    else if score >= 65.0 then ScoringSystem.BMinus
    else if score >= 60.0 then ScoringSystem.CPlus
    else ScoringSystem.C
  }

  /** A higher score never gets a lower grade. */
  lemma ScoreGradeMonotone(p: real, q: real)
    requires p <= q
    ensures ScoringSystem.Rank(ScoreGrade(p)) <= ScoringSystem.Rank(ScoreGrade(q))
  {
  }

  /** The dashboard's grade agrees with the scoring engine's from 55 up; below
      55 the engine says 'C-' or 'D' where the dashboard still says 'C'. */
  lemma ScoreGradeVersusEngine(score: real)
    ensures score >= 55.0 ==> ScoreGrade(score) == ScoringSystem.GradeOf(score)
    ensures score < 55.0 ==>
      && ScoreGrade(score) == ScoringSystem.C
      && ScoringSystem.Rank(ScoringSystem.GradeOf(score)) < ScoringSystem.Rank(ScoringSystem.C)
  {
  }

  /** `_calculate_percentile`: ten-point bands from 60. */
  function PercentileOf(score: real): (r: nat)
    ensures r == 95 || r == 85 || r == 70 || r == 55 || r == 30
    ensures r == 95 <==> score >= 90.0
    ensures r == 30 <==> score < 60.0
  {
    if score >= 90.0 then 95
    else if score >= 80.0 then 85
    else if score >= 70.0 then 70
    else if score >= 60.0 then 55
    else 30
  }

  /** A higher score never gets a lower percentile. */
  lemma PercentileMonotone(p: real, q: real)
    requires p <= q
    ensures PercentileOf(p) <= PercentileOf(q)
  {
  }

  /** The percentile band follows the grade: 95 exactly for 'A+', at least 85
      exactly from 'A-', and 30 exactly for the lowest grade 'C'. */
  lemma PercentileFollowsGrade(score: real)
    ensures PercentileOf(score) == 95 <==> ScoreGrade(score) == ScoringSystem.APlus
    ensures PercentileOf(score) >= 85 <==> ScoringSystem.Rank(ScoreGrade(score)) >= ScoringSystem.Rank(ScoringSystem.AMinus)
    ensures PercentileOf(score) == 30 <==> ScoreGrade(score) == ScoringSystem.C
  {
  }

  const Green := "#28a745"
  const Yellow := "#ffc107"
  const Red := "#dc3545"

  /** `_get_score_color`: green from 85, yellow from 70, red below. */
  function ScoreColor(score: real): (c: string)
    ensures c == Green || c == Yellow || c == Red
    ensures c == Green <==> score >= 85.0
    ensures c == Red <==> score < 70.0
  {
    if score >= 85.0 then Green
    else if score >= 70.0 then Yellow
    else Red
  }

  /** The colour follows the grade: green exactly for 'A' and 'A+', red
      exactly below 'B'. */
  lemma ColorFollowsGrade(score: real)
    ensures ScoreColor(score) == Green <==> ScoringSystem.Rank(ScoreGrade(score)) >= ScoringSystem.Rank(ScoringSystem.A)
    ensures ScoreColor(score) == Red <==> ScoringSystem.Rank(ScoreGrade(score)) < ScoringSystem.Rank(ScoringSystem.B)
  {
  }

  // ---------------------------------------------------------------------------
  // Structure and technical scores
  // ---------------------------------------------------------------------------

  /** Points a present element earns. */
  function Award(present: bool, points: nat): nat {
    if present then points else 0
  }

  /** The sum of the six awards, before the cap. */
  function StructurePoints(s: CvAnalyzer.StructureAnalysis): (p: nat)
    ensures p <= 100
    ensures p == 100 <==> (s.hasContactInfo && s.hasSummary && s.hasExperience
                           && s.hasEducation && s.hasSkills && s.usesBulletPoints)
  {
    Award(s.hasContactInfo, 20) + Award(s.hasSummary, 15) + Award(s.hasExperience, 25)
      + Award(s.hasEducation, 15) + Award(s.hasSkills, 15) + Award(s.usesBulletPoints, 10)
  }

  /** `_calculate_structure_score`: a missing structure analysis reads as no
      element present. */
  function StructureScore(structure: Option<CvAnalyzer.StructureAnalysis>): (r: nat)
    ensures r <= 100
    ensures structure.None? ==> r == 0
    ensures structure.Some? ==> r == StructurePoints(structure.value)
  {
    var p := if structure.Some? then StructurePoints(structure.value) else 0;
    if p < 100 then p else 100
  }

  /** Every element present scores exactly 100: the awards total 100, so the cap never applies. */
  lemma StructureFullMarks(s: CvAnalyzer.StructureAnalysis)
    requires s.hasContactInfo && s.hasSummary && s.hasExperience && s.hasEducation && s.hasSkills && s.usesBulletPoints
    ensures StructureScore(Some(s)) == 100
  {
  }

  /** Gaining elements never lowers the structure score. */
  lemma StructureMonotone(s: CvAnalyzer.StructureAnalysis, t: CvAnalyzer.StructureAnalysis)
    requires s.hasContactInfo ==> t.hasContactInfo
    requires s.hasSummary ==> t.hasSummary
    requires s.hasExperience ==> t.hasExperience
    requires s.hasEducation ==> t.hasEducation
    requires s.hasSkills ==> t.hasSkills
    requires s.usesBulletPoints ==> t.usesBulletPoints
    ensures StructureScore(Some(s)) <= StructureScore(Some(t))
  {
  }

  /** `_calculate_tech_score`: 70 when neither list has an entry, otherwise the
      matched share as a percentage. */
  function TechScore(matched: seq<string>, missing: seq<string>): (r: real)
    ensures 0.0 <= r <= 100.0
    ensures |matched| + |missing| == 0 ==> r == 70.0
    ensures |matched| + |missing| > 0 ==> r * (|matched| + |missing|) as real == 100.0 * |matched| as real
  {
    var total := |matched| + |missing|;
    if total == 0 then 70.0
    else (|matched| as real / total as real) * 100.0
  }

  /** Nothing missing scores 100, nothing matched scores 0. */
  lemma TechScoreExtremes(matched: seq<string>, missing: seq<string>)
    ensures |matched| > 0 && missing == [] ==> TechScore(matched, missing) == 100.0
    ensures matched == [] && |missing| > 0 ==> TechScore(matched, missing) == 0.0
  {
    var t := |matched| + |missing|;
    if t > 0 {
      assert TechScore(matched, missing) * t as real == 100.0 * |matched| as real;
    }
  }

  /** One more matched skill never lowers the technical score; the first
      skill of an empty analysis raises it from 70 to 100. */
  lemma TechScoreMonotone(matched: seq<string>, missing: seq<string>, skill: string)
    ensures TechScore(matched, missing) <= TechScore(matched + [skill], missing)
  {
    if |matched| + |missing| == 0 {
      TechScoreExtremes(matched + [skill], missing);
      return;
    }
    var m, n := |matched| as real, |missing| as real;
    var x, y := m / (m + n), (m + 1.0) / (m + 1.0 + n);
    assert x * (m + n) == m;
    assert y * (m + 1.0 + n) == m + 1.0;
    assert x <= 1.0;
    assert x * (m + 1.0 + n) == m + x;
    NonPositiveFactor(x - y, m + 1.0 + n);
  }

  /** A product with a positive factor that is not positive has a factor that is not positive. */
  lemma NonPositiveFactor(d: real, k: real)
    requires k > 0.0 && d * k <= 0.0
    ensures d <= 0.0
  {
    assert d == (d * k) / k;
  }

  // ---------------------------------------------------------------------------
  // Goal
  // ---------------------------------------------------------------------------

  /** The score assumed when the session has none yet. */
  const DefaultCurrentScore := 70.0

  /** Points remaining to the target: never negative, zero exactly when the
      goal is achieved, otherwise the gap. */
  function GoalRemaining(target: int, current: Option<real>): (r: real)
    ensures r >= 0.0
    ensures r == 0.0 <==> current.GetOr(DefaultCurrentScore) >= target as real
    ensures r > 0.0 ==> current.GetOr(DefaultCurrentScore) + r == target as real
  {
    var c := current.GetOr(DefaultCurrentScore);
    if target as real - c > 0.0 then target as real - c else 0.0
  }

  // ---------------------------------------------------------------------------
  // Score history
  // ---------------------------------------------------------------------------

  /** One history entry; the timestamp is supplied by the caller. */
  datatype HistoryEntry = HistoryEntry(date: string, score: real)

  const HistoryLimit := 10

  /** The last `HistoryLimit` entries. */
  function Recent(entries: seq<HistoryEntry>): (r: seq<HistoryEntry>)
    ensures |r| <= HistoryLimit
    ensures |entries| <= HistoryLimit ==> r == entries
  {
    if |entries| > HistoryLimit then entries[|entries| - HistoryLimit..] else entries
  }

  /** After one more entry: at most ten entries, the new one last, and before
      it the most recent of the old ones in their order. */
  lemma RecentAppend(history: seq<HistoryEntry>, e: HistoryEntry)
    ensures var r := Recent(history + [e]);
      && 1 <= |r| <= HistoryLimit
      && r[|r| - 1] == e
      && |r| == (if |history| < HistoryLimit then |history| + 1 else HistoryLimit)
      && r[..|r| - 1] == history[|history| - (|r| - 1)..]
  {
    var s := history + [e];
    if |s| > HistoryLimit {
      assert s[|s| - HistoryLimit..][..HistoryLimit - 1] == history[|history| - (HistoryLimit - 1)..];
    } else {
      assert s[..|s| - 1] == history;
    }
  }

  /** The session state the dashboard reads and `update_history` writes. */
  class ScoreSession {
    /** `cv_history`; `None` until the first update. */
    var cvHistory: Option<seq<HistoryEntry>>
    /** `previous_cv_score` */
    var previousCvScore: Option<real>
    /** `current_cv_score` */
    var currentCvScore: Option<real>

    /** A fresh session holds none of the three keys. */
    constructor()
      ensures cvHistory == None && previousCvScore == None && currentCvScore == None
    {
      cvHistory := None;
      previousCvScore := None;
      currentCvScore := None;
    }

    /** The history, or the empty list that `update_history` starts from. */
    function History(): seq<HistoryEntry>
      reads this
    {
      cvHistory.GetOr([])
    }

    /** The goal widget's remaining points for this session. */
    function RemainingTo(target: int): (r: real)
      reads this
      ensures r >= 0.0
    {
      GoalRemaining(target, currentCvScore)
    }

    /** `update_history`: append the score, keep the last ten, and shift the
        current score into the previous one (the new score when there was none). */
    method UpdateHistory(score: real, now: string)
      modifies this
      ensures cvHistory == Some(Recent(old(History()) + [HistoryEntry(now, score)]))
      ensures previousCvScore == Some(old(currentCvScore).GetOr(score))
      ensures currentCvScore == Some(score)
    {
      if cvHistory.None? {
        cvHistory := Some([]);
      }
      var history := cvHistory.value + [HistoryEntry(now, score)];
      if |history| > HistoryLimit {
        history := history[|history| - HistoryLimit..];
      }
      cvHistory := Some(history);
      previousCvScore := Some(currentCvScore.GetOr(score));
      currentCvScore := Some(score);
    }
  }
}
