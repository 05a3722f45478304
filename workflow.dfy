/** Model of the learning-progress rules of app/api/simulator/workflow/route.js:
    the user level, learning velocity, skill progression, focus areas,
    primary gaps, next-simulation recommendations, milestones and totals.
    The adaptive-workflow generation itself is an LLM call and is not part
    of this model. */
module Workflow {
  import opened Wrappers
  import Seqs

  /** The progress fields the rules read; each may be absent. */
  datatype Progress = Progress(
    completedSimulations: Option<int>,
    averageScore: Option<real>,
    timeInvested: Option<real>,
    skillsImproved: Option<seq<string>>,
    weakAreas: Option<seq<string>>,
    strongAreas: Option<seq<string>>)

  /** `progressMetrics`: the progress with `|| 0` and `|| []` defaults applied. */
  datatype Metrics = Metrics(
    completedSimulations: int,
    averageScore: real,
    timeInvested: real,
    skillsImproved: seq<string>,
    weakAreas: seq<string>,
    strongAreas: seq<string>)

  function NormalizeProgress(p: Progress): (m: Metrics)
    ensures p.completedSimulations.None? ==> m.completedSimulations == 0
    ensures p.completedSimulations.Some? ==> m.completedSimulations == p.completedSimulations.value
    ensures p.averageScore.None? ==> m.averageScore == 0.0
    ensures p.averageScore.Some? ==> m.averageScore == p.averageScore.value
    ensures p.timeInvested.None? ==> m.timeInvested == 0.0
    ensures p.timeInvested.Some? ==> m.timeInvested == p.timeInvested.value
    ensures p.skillsImproved.None? ==> m.skillsImproved == []
    ensures p.skillsImproved.Some? ==> m.skillsImproved == p.skillsImproved.value
    ensures p.weakAreas.None? ==> m.weakAreas == []
    ensures p.weakAreas.Some? ==> m.weakAreas == p.weakAreas.value
    ensures p.strongAreas.None? ==> m.strongAreas == []
    ensures p.strongAreas.Some? ==> m.strongAreas == p.strongAreas.value
  {
    Metrics(p.completedSimulations.GetOr(0), p.averageScore.GetOr(0.0), p.timeInvested.GetOr(0.0),
            p.skillsImproved.GetOr([]), p.weakAreas.GetOr([]), p.strongAreas.GetOr([]))
  }

  datatype UserLevel = Beginner | Intermediate | Advanced

  /** `determineUserLevel`: advanced from an 85 average over 10 simulations,
      intermediate from 70 over 5, beginner otherwise (and when the fields
      are missing, which count as 0). */
  function DetermineUserLevel(p: Progress): (l: UserLevel)
    ensures var avg := p.averageScore.GetOr(0.0); var done := p.completedSimulations.GetOr(0);
      && (l == Advanced <==> avg >= 85.0 && done >= 10)
      && (l == Intermediate <==> !(avg >= 85.0 && done >= 10) && avg >= 70.0 && done >= 5)
      && (l == Beginner <==> !(avg >= 70.0 && done >= 5))
    ensures p.averageScore.None? || p.completedSimulations.None? ==> l == Beginner
  {
    var averageScore := p.averageScore.GetOr(0.0);
    var completedCount := p.completedSimulations.GetOr(0);
    if averageScore >= 85.0 && completedCount >= 10 then Advanced
    else if averageScore >= 70.0 && completedCount >= 5 then Intermediate
    else Beginner
  }

  datatype Efficiency = HighEfficiency | MediumEfficiency | LowEfficiency
  datatype Improvement = Rapid | Steady | Gradual
  datatype Consistency = Regular | Irregular

  datatype Velocity = Velocity(efficiency: Efficiency, improvement: Improvement, consistency: Consistency)

  function Max(a: int, b: int): int { if a < b then b else a }

  /** `calculateLearningVelocity`: per-simulation time and score, dividing by
      the completed count floored at 1. */
  function CalculateLearningVelocity(m: Metrics): (v: Velocity)
    ensures var d := Max(m.completedSimulations, 1) as real;
      && (v.efficiency == HighEfficiency <==> m.timeInvested < 90.0 * d)
      && (v.efficiency == MediumEfficiency <==> 90.0 * d <= m.timeInvested < 120.0 * d)
      && (v.efficiency == LowEfficiency <==> m.timeInvested >= 120.0 * d)
      && (v.improvement == Rapid <==> m.averageScore > 5.0 * d)
      && (v.improvement == Steady <==> 2.0 * d < m.averageScore <= 5.0 * d)
      && (v.improvement == Gradual <==> m.averageScore <= 2.0 * d)
    ensures v.consistency == Regular <==> m.completedSimulations > 0
  {
    var d := Max(m.completedSimulations, 1) as real;
    var timePerSimulation := m.timeInvested / d;
    var scoreImprovement := m.averageScore / d;
    DivideBelow(m.timeInvested, d, 90.0);
    DivideBelow(m.timeInvested, d, 120.0);
    DivideBelow(m.averageScore, d, 5.0);
    DivideBelow(m.averageScore, d, 2.0);
    Velocity(
      if timePerSimulation < 90.0 then HighEfficiency else if timePerSimulation < 120.0 then MediumEfficiency else LowEfficiency,
      if scoreImprovement > 5.0 then Rapid else if scoreImprovement > 2.0 then Steady else Gradual,
      if m.completedSimulations > 0 then Regular else Irregular)
  }

  /** Comparing a quotient with a bound is comparing the dividend with the
      bound times the divisor. */
  lemma DivideBelow(x: real, d: real, k: real)
    requires d >= 1.0
    ensures (x / d < k) <==> x < k * d
    ensures (x / d > k) <==> x > k * d
  {
    var q := x / d;
    assert q * d == x;
    assert q * d - k * d == (q - k) * d;
  }

  datatype Trend = Positive | NeedsFocus

  datatype SkillProgression = SkillProgression(
    strongestSkills: seq<string>,
    improvingSkills: seq<string>,
    challengingAreas: seq<string>,
    overallTrend: Trend)

  /** `analyzeSkillProgression`: the first three of each list, and a
      positive trend above a 70 average. */
  function AnalyzeSkillProgression(m: Metrics): (s: SkillProgression)
    ensures s.strongestSkills <= m.strongAreas && |s.strongestSkills| == if |m.strongAreas| < 3 then |m.strongAreas| else 3
    ensures s.improvingSkills <= m.skillsImproved && |s.improvingSkills| == if |m.skillsImproved| < 3 then |m.skillsImproved| else 3
    ensures s.challengingAreas <= m.weakAreas && |s.challengingAreas| == if |m.weakAreas| < 3 then |m.weakAreas| else 3
    ensures s.overallTrend == Positive <==> m.averageScore > 70.0
  {
    SkillProgression(Seqs.Take(m.strongAreas, 3), Seqs.Take(m.skillsImproved, 3), Seqs.Take(m.weakAreas, 3),
                     if m.averageScore > 70.0 then Positive else NeedsFocus)
  }

  datatype Priority = High | Medium

  datatype FocusArea = FocusArea(area: string, priority: Priority, reason: string)

  function WeakFocus(area: string): FocusArea { FocusArea(area, High, "Address skill gap") }
  function StrongFocus(area: string): FocusArea { FocusArea("Advanced " + area, Medium, "Build expertise") }

  /** `identifyRecommendedFocus`: every weak area as high priority in order,
      then every strong area as an advanced medium-priority topic, and only
      the first five kept. */
  method IdentifyRecommendedFocus(m: Metrics) returns (focus: seq<FocusArea>)
    ensures |focus| == if |m.weakAreas| + |m.strongAreas| < 5 then |m.weakAreas| + |m.strongAreas| else 5
    ensures forall i :: 0 <= i < |focus| && i < |m.weakAreas| ==> focus[i] == WeakFocus(m.weakAreas[i])
    ensures forall i :: |m.weakAreas| <= i < |focus| ==> focus[i] == StrongFocus(m.strongAreas[i - |m.weakAreas|])
  {
    var focusAreas: seq<FocusArea> := [];
    var i := 0;
    while i < |m.weakAreas|
      invariant 0 <= i <= |m.weakAreas|
      invariant |focusAreas| == i
      invariant forall j :: 0 <= j < i ==> focusAreas[j] == WeakFocus(m.weakAreas[j])
    {
      focusAreas := focusAreas + [WeakFocus(m.weakAreas[i])];
      i := i + 1;
    }
    var k := 0;
    while k < |m.strongAreas|
      invariant 0 <= k <= |m.strongAreas|
      invariant |focusAreas| == |m.weakAreas| + k
      invariant forall j :: 0 <= j < |m.weakAreas| ==> focusAreas[j] == WeakFocus(m.weakAreas[j])
      invariant forall j :: |m.weakAreas| <= j < |focusAreas| ==> focusAreas[j] == StrongFocus(m.strongAreas[j - |m.weakAreas|])
    {
      focusAreas := focusAreas + [StrongFocus(m.strongAreas[k])];
      k := k + 1;
    }
    focus := Seqs.Take(focusAreas, 5);
  }

  datatype Gap = Gap(skillArea: string, specificArea: string, priority: Priority, impact: int)

  const MarketPriorities: seq<Gap> := [
    Gap("cloud", "aws", High, 9),
    Gap("devops", "ci-cd", High, 8),
    Gap("cybersecurity", "incident-response", Medium, 7),
    Gap("ux-design", "mobile-first", Medium, 8)]

  /** `list?.includes(x)`: false when the list is absent. */
  predicate Includes(list: Option<seq<string>>, x: string) {
    list.Some? && x in list.value
  }

  /** The filter `identifyPrimaryGaps` applies: a weak area, or any area the
      user is not strong in (every area when strengths are absent). */
  predicate IsPrimaryGap(p: Progress, g: Gap) {
    g.skillArea in p.weakAreas.GetOr([]) || !Includes(p.strongAreas, g.skillArea)
  }

  /** `identifyPrimaryGaps`: the market priorities kept by that filter, in
      market order. */
  function IdentifyPrimaryGaps(p: Progress): (gaps: seq<Gap>)
    ensures Seqs.IsSubsequence(gaps, MarketPriorities)
    ensures forall g :: g in gaps <==> g in MarketPriorities && IsPrimaryGap(p, g)
    ensures p.strongAreas.None? ==> gaps == MarketPriorities
  {
    PrimaryGapsAmong(p, MarketPriorities)
  }

  /** The filter of `identifyPrimaryGaps` over any list of priorities. */
  function PrimaryGapsAmong(p: Progress, market: seq<Gap>): (gaps: seq<Gap>)
    ensures Seqs.IsSubsequence(gaps, market)
    ensures forall g :: g in gaps <==> g in market && IsPrimaryGap(p, g)
    ensures p.strongAreas.None? ==> gaps == market
  {
    var keep := (g: Gap) => IsPrimaryGap(p, g);
    Seqs.FilterIsSubsequence(market, keep);
    if p.strongAreas.None? then
      Seqs.FilterKeepsAll(market, keep);
      Seqs.Filter(market, keep)
    else
      Seqs.Filter(market, keep)
  }

  datatype Recommendation = Recommendation(
    kind: string,
    level: UserLevel,
    focus: string,
    priority: Priority,
    estimatedImpact: int)

  datatype NextSimulation = NextSimulation(
    recommendations: seq<Recommendation>,
    priorityOrder: seq<string>,
    estimatedTimeToCompletion: int,
    careerImpactScore: Option<real>)

  /** Minutes per simulation type, 90 for any other type. */
  function MinutesFor(kind: string): (n: int)
    ensures 75 <= n <= 150
    ensures kind == "cloud" ==> n == 90
    ensures kind == "devops" ==> n == 120
    ensures kind == "cybersecurity" ==> n == 75
    ensures kind == "ux-design" ==> n == 150
    ensures kind !in {"cloud", "devops", "cybersecurity", "ux-design"} ==> n == 90
  {
    if kind == "cloud" then 90
    else if kind == "devops" then 120
    else if kind == "cybersecurity" then 75
    else if kind == "ux-design" then 150
    else 90
  }

  function RecommendationMinutes(r: Recommendation): int { MinutesFor(r.kind) }

  /** `calculateEstimatedTime`: the sum of the per-type minutes; between 75
      and 150 minutes per recommendation, and 0 for none. */
  function CalculateEstimatedTime(recs: seq<Recommendation>): (total: int)
    ensures recs == [] ==> total == 0
    ensures 75 * |recs| <= total <= 150 * |recs|
  {
    Seqs.SumOfBounded(recs, RecommendationMinutes, 75, 150);
    Seqs.SumOf(recs, RecommendationMinutes)
  }

  /** One more recommendation adds its type's minutes to the estimate. */
  lemma EstimatedTimeAppend(recs: seq<Recommendation>, r: Recommendation)
    ensures CalculateEstimatedTime(recs + [r]) == CalculateEstimatedTime(recs) + MinutesFor(r.kind)
  {
    assert (recs + [r])[..|recs + [r]| - 1] == recs;
  }

  /** Career-impact points per type, 5 for any other type. */
  function ImpactFor(kind: string): (n: int)
    ensures 5 <= n <= 9
    ensures kind == "cloud" ==> n == 9
    ensures kind == "devops" ==> n == 8
    ensures kind == "cybersecurity" ==> n == 7
    ensures kind == "ux-design" ==> n == 8
    ensures kind !in {"cloud", "devops", "cybersecurity", "ux-design"} ==> n == 5
  {
    if kind == "cloud" then 9
    else if kind == "devops" then 8
    else if kind == "cybersecurity" then 7
    else if kind == "ux-design" then 8
    else 5
  }

  function RecommendationImpact(r: Recommendation): int { ImpactFor(r.kind) }

  /** The impact points of all recommendations added up. */
  function ImpactTotal(recs: seq<Recommendation>): int { Seqs.SumOf(recs, RecommendationImpact) }

  /** One more recommendation adds its type's impact points to the total. */
  lemma ImpactTotalAppend(recs: seq<Recommendation>, r: Recommendation)
    ensures ImpactTotal(recs + [r]) == ImpactTotal(recs) + ImpactFor(r.kind)
  {
    assert (recs + [r])[..|recs + [r]| - 1] == recs;
  }

  /** `calculateCareerImpact`: the average impact capped at 10. With no
      recommendations the average is NaN, modelled as `None`. Every impact is
      between 5 and 9, so the cap never applies. */
  function CalculateCareerImpact(recs: seq<Recommendation>): (score: Option<real>)
    ensures score.None? <==> recs == []
    ensures score.Some? ==> 5.0 <= score.value <= 9.0 && score.value <= 10.0
    ensures score.Some? ==> score.value * |recs| as real == ImpactTotal(recs) as real
  {
    if recs == [] then None
    else
      var total := ImpactTotal(recs);
      Seqs.SumOfBounded(recs, RecommendationImpact, 5, 9);
      var average := total as real / |recs| as real;
      AverageBetween(total, |recs|, 5, 9);
      Some(if average < 10.0 then average else 10.0)
  }

  /** A single recommendation scores exactly its type's impact. */
  lemma CareerImpactOfOne(r: Recommendation)
    ensures CalculateCareerImpact([r]) == Some(ImpactFor(r.kind) as real)
  {
    ImpactTotalAppend([], r);
    assert [] + [r] == [r];
    assert ImpactFor(r.kind) as real / 1.0 == ImpactFor(r.kind) as real;
  }

  /** A total between `lo * n` and `hi * n` averages between `lo` and `hi`. */
  lemma AverageBetween(total: int, n: int, lo: int, hi: int)
    requires n >= 1 && lo * n <= total <= hi * n
    ensures lo as real <= total as real / n as real <= hi as real
  {
    var q := total as real / n as real;
    assert q * n as real == total as real;
    assert (lo * n) as real == lo as real * n as real;
    assert (hi * n) as real == hi as real * n as real;
  }

  /** The recommendation made for one gap at the user's level. */
  function RecommendationFor(g: Gap, level: UserLevel): Recommendation {
    Recommendation(g.skillArea, level, g.specificArea, g.priority, g.impact)
  }

  /** The `forEach` of `recommendNextSimulation`: one recommendation per
      gap, in order. */
  method RecommendAll(gaps: seq<Gap>, level: UserLevel) returns (recs: seq<Recommendation>)
    ensures |recs| == |gaps|
    ensures forall i :: 0 <= i < |gaps| ==> recs[i] == RecommendationFor(gaps[i], level)
  {
    recs := [];
    var i := 0;
    while i < |gaps|
      invariant 0 <= i <= |gaps|
      invariant |recs| == i
      invariant forall j :: 0 <= j < i ==> recs[j] == RecommendationFor(gaps[j], level)
    {
      recs := recs + [RecommendationFor(gaps[i], level)];
      i := i + 1;
    }
  }

  /** `recommendNextSimulation`: one recommendation per primary gap, for at
      most the first three gaps, at the user's level; the priority order is
      their types in order. */
  method RecommendNextSimulation(p: Progress) returns (r: NextSimulation)
    ensures var gaps := IdentifyPrimaryGaps(p);
      && |r.recommendations| == (if |gaps| < 3 then |gaps| else 3)
      && forall i :: 0 <= i < |r.recommendations| ==>
           r.recommendations[i] == RecommendationFor(gaps[i], DetermineUserLevel(p))
    ensures |r.priorityOrder| == |r.recommendations|
    ensures forall i :: 0 <= i < |r.priorityOrder| ==> r.priorityOrder[i] == r.recommendations[i].kind
    ensures r.estimatedTimeToCompletion == CalculateEstimatedTime(r.recommendations)
    ensures r.careerImpactScore == CalculateCareerImpact(r.recommendations)
  {
    var primaryGaps := IdentifyPrimaryGaps(p);
    var recommendations := RecommendAll(Seqs.Take(primaryGaps, 3), DetermineUserLevel(p));
    var order := seq(|recommendations|, j requires 0 <= j < |recommendations| => recommendations[j].kind);
    r := NextSimulation(recommendations, order, CalculateEstimatedTime(recommendations),
                        CalculateCareerImpact(recommendations));
  }

  datatype Milestone = Milestone(target: string, progress: real, total: int, reward: string)

  /** `getNextMilestone`: five simulations first, then an 80 average, then
      the mentor milestone at 25 from fifteen simulations. */
  function GetNextMilestone(m: Metrics): (ms: Milestone)
    ensures m.completedSimulations < 5 ==> ms.total == 5 && ms.progress == m.completedSimulations as real
    ensures 5 <= m.completedSimulations < 15 ==> ms.total == 80 && ms.progress == m.averageScore
    ensures m.completedSimulations >= 15 ==> ms.total == 25 && ms.progress == m.completedSimulations as real
  {
    var completedCount := m.completedSimulations;
    if completedCount < 5 then
      Milestone("Complete 5 simulations", completedCount as real, 5, "Unlock intermediate level")
    else if completedCount < 15 then
      Milestone("Achieve 80% average score", m.averageScore, 80, "Industry readiness certification")
    else
      Milestone("Become simulation mentor", completedCount as real, 25, "Expert status and teaching opportunities")
  }

  datatype ProgressUpdate = ProgressUpdate(
    progressMetrics: Metrics,
    learningVelocity: Velocity,
    skillProgression: SkillProgression,
    recommendedFocus: seq<FocusArea>,
    nextMilestone: Milestone)

  /** `updateLearningProgress`: the metrics with defaults and every rule
      applied to them. */
  method UpdateLearningProgress(p: Progress) returns (u: ProgressUpdate)
    ensures u.progressMetrics == NormalizeProgress(p)
    ensures u.learningVelocity == CalculateLearningVelocity(u.progressMetrics)
    ensures u.skillProgression == AnalyzeSkillProgression(u.progressMetrics)
    ensures u.nextMilestone == GetNextMilestone(u.progressMetrics)
    ensures var m := u.progressMetrics;
      |u.recommendedFocus| == if |m.weakAreas| + |m.strongAreas| < 5 then |m.weakAreas| + |m.strongAreas| else 5
    ensures forall i :: 0 <= i < |u.recommendedFocus| && i < |u.progressMetrics.weakAreas| ==>
      u.recommendedFocus[i] == WeakFocus(u.progressMetrics.weakAreas[i])
    ensures forall i :: |u.progressMetrics.weakAreas| <= i < |u.recommendedFocus| ==>
      u.recommendedFocus[i] == StrongFocus(u.progressMetrics.strongAreas[i - |u.progressMetrics.weakAreas|])
  {
    var metrics := NormalizeProgress(p);
    var focus := IdentifyRecommendedFocus(metrics);
    u := ProgressUpdate(metrics, CalculateLearningVelocity(metrics), AnalyzeSkillProgression(metrics),
                        focus, GetNextMilestone(metrics));
  }

  datatype RecommendedPath = RecommendedPath(immediate: seq<string>, shortTerm: seq<string>, longTerm: seq<string>)

  /** `generateRecommendedPath`: the same two steps per horizon whatever the
      profile and gaps. */
  method GenerateRecommendedPath() returns (path: RecommendedPath)
    ensures path.immediate == ["Complete skill assessment", "Start with beginner simulation"]
    ensures path.shortTerm == ["Master 2-3 core skill areas", "Build portfolio projects"]
    ensures path.longTerm == ["Achieve industry certification", "Apply for target roles"]
  {
    path := RecommendedPath([], [], []);
    path := path.(immediate := path.immediate + ["Complete skill assessment"]);
    path := path.(immediate := path.immediate + ["Start with beginner simulation"]);
    path := path.(shortTerm := path.shortTerm + ["Master 2-3 core skill areas"]);
    path := path.(shortTerm := path.shortTerm + ["Build portfolio projects"]);
    path := path.(longTerm := path.longTerm + ["Achieve industry certification"]);
    path := path.(longTerm := path.longTerm + ["Apply for target roles"]);
  }

  /** A user with no progress is a beginner whose gaps are all four market
      priorities; three are recommended, for 285 minutes. */
  method NewcomerExample()
  {
    var p := Progress(None, None, None, None, None, None);
    assert DetermineUserLevel(p) == Beginner;
    assert IdentifyPrimaryGaps(p) == MarketPriorities;
    var r := RecommendNextSimulation(p);
    var recs := r.recommendations;
    NewcomerPlanFrom(recs);
    NewcomerPlanTime();
    assert r.estimatedTimeToCompletion == 285;
  }

  /** The first three market priorities, recommended at beginner level. */
  const NewcomerPlan: seq<Recommendation> := [
    RecommendationFor(MarketPriorities[0], Beginner),
    RecommendationFor(MarketPriorities[1], Beginner),
    RecommendationFor(MarketPriorities[2], Beginner)]

  lemma NewcomerPlanFrom(recs: seq<Recommendation>)
    requires |recs| == 3
    requires forall i :: 0 <= i < |recs| ==> recs[i] == RecommendationFor(MarketPriorities[i], Beginner)
    ensures recs == NewcomerPlan
  {
    assert recs[0] == NewcomerPlan[0] && recs[1] == NewcomerPlan[1] && recs[2] == NewcomerPlan[2];
  }

  lemma NewcomerPlanTime()
    ensures CalculateEstimatedTime(NewcomerPlan) == 285
  {
    var recs := NewcomerPlan;
    assert recs[..1][..0] == [];
    assert Seqs.SumOf(recs[..1], RecommendationMinutes) == 90;
    assert recs[..2][..1] == recs[..1];
    assert Seqs.SumOf(recs[..2], RecommendationMinutes) == 210;
    assert recs[..3] == recs && recs[..3][..2] == recs[..2];
  }
}
