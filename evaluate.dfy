/** Model of the scoring in app/api/simulator/evaluate/route.js: performance
    metrics, expected action counts, band-based recommendations and next
    steps, and the input check of the route. Scores are exact reals; the
    model's evaluation itself is an opaque value from an LLM call. */
module Evaluate {
  import opened Wrappers
  import opened Text

  /** `userActions`: an array of actions, or some other truthy value. */
  datatype Actions = ActionList(items: seq<string>) | NotAList

  datatype Readiness = Ready | NearlyReady | NeedsImprovement

  datatype PerformanceMetrics = PerformanceMetrics(
    overallScore: int,
    efficiency: real,
    accuracy: real,
    problemSolving: real,
    industryReadiness: Readiness)

  /** Expected minutes per simulation type, 90 for any other type. */
  function ExpectedTime(kind: string): (t: int)
    ensures t > 0
    ensures kind == "cloud" ==> t == 90
    ensures kind == "devops" ==> t == 120
    ensures kind == "cybersecurity" ==> t == 75
    ensures kind == "ux-design" ==> t == 150
    ensures kind !in {"cloud", "devops", "cybersecurity", "ux-design"} ==> t == 90
  {
    if kind == "cloud" then 90
    else if kind == "devops" then 120
    else if kind == "cybersecurity" then 75
    else if kind == "ux-design" then 150
    else 90
  }

  /** `getExpectedActionCount`: cloud 8, devops 12, cybersecurity 6,
      ux-design 10, and 8 for any other type. */
  function GetExpectedActionCount(kind: string): (n: int)
    ensures 6 <= n <= 12
    ensures kind == "cloud" ==> n == 8
    ensures kind == "devops" ==> n == 12
    ensures kind == "cybersecurity" ==> n == 6
    ensures kind == "ux-design" ==> n == 10
    ensures kind !in {"cloud", "devops", "cybersecurity", "ux-design"} ==> n == 8
  {
    if kind == "cloud" then 8
    else if kind == "devops" then 12
    else if kind == "cybersecurity" then 6
    else if kind == "ux-design" then 10
    else 8
  }

  function MaxReal(a: real, b: real): real { if a < b then b else a }
  function MinReal(a: real, b: real): real { if a < b then a else b }

  /** `Math.round`: the nearest integer, halves rounded up. */
  function Round(x: real): (r: int)
    ensures r as real - 0.5 <= x < r as real + 0.5
  {
    (x + 0.5).Floor
  }

  /** A quotient reaches 1 exactly when the dividend reaches the divisor. */
  lemma QuotientReachesOne(a: real, d: real)
    requires d > 0.0
    ensures a / d >= 1.0 <==> a >= d
  {
    var q := a / d;
    assert q * d == a;
  }

  /** `calculatePerformanceMetrics`: the fields of the base metrics are filled
      in one by one. Efficiency compares the expected time with the time
      spent (floored at 1 minute) and is clamped to [0, 100]; accuracy is the
      completion rate as given; problem solving compares the number of
      actions with the expected count, capped at 100, and is 0 when the
      actions are not a list; the overall score is the rounded 30/40/30
      weighting, and readiness is banded at 80 and 60. */
  method CalculatePerformanceMetrics(kind: string, actions: Actions, timeSpent: real, completionRate: real)
    returns (m: PerformanceMetrics)
    ensures 0.0 <= m.efficiency <= 100.0
    ensures MaxReal(timeSpent, 1.0) <= ExpectedTime(kind) as real ==> m.efficiency == 100.0
    ensures MaxReal(timeSpent, 1.0) > ExpectedTime(kind) as real ==>
      m.efficiency == ExpectedTime(kind) as real / MaxReal(timeSpent, 1.0) * 100.0
    ensures m.accuracy == completionRate
    ensures 0.0 <= m.problemSolving <= 100.0
    ensures actions.NotAList? ==> m.problemSolving == 0.0
    ensures actions.ActionList? && |actions.items| >= GetExpectedActionCount(kind) ==> m.problemSolving == 100.0
    ensures actions.ActionList? && |actions.items| < GetExpectedActionCount(kind) ==>
      m.problemSolving == |actions.items| as real / GetExpectedActionCount(kind) as real * 100.0
    ensures var weighted := m.efficiency * 0.3 + m.accuracy * 0.4 + m.problemSolving * 0.3;
      m.overallScore as real - 0.5 <= weighted < m.overallScore as real + 0.5
    ensures 0.0 <= completionRate <= 100.0 ==> 0 <= m.overallScore <= 100
    ensures m.industryReadiness == Ready <==> m.overallScore >= 80
    ensures m.industryReadiness == NearlyReady <==> 60 <= m.overallScore < 80
    ensures m.industryReadiness == NeedsImprovement <==> m.overallScore < 60
  {
    m := PerformanceMetrics(0, 0.0, 0.0, 0.0, NeedsImprovement);

    var expectedTime := ExpectedTime(kind) as real;
    var spent := MaxReal(timeSpent, 1.0);
    var ratio := expectedTime / spent;
    QuotientReachesOne(expectedTime, spent);
    m := m.(efficiency := MaxReal(0.0, MinReal(100.0, ratio * 100.0)));

    m := m.(accuracy := completionRate);

    var actionCount := if actions.ActionList? then |actions.items| else 0;
    var expectedActions := GetExpectedActionCount(kind) as real;
    QuotientReachesOne(actionCount as real, expectedActions);
    m := m.(problemSolving := MinReal(100.0, actionCount as real / expectedActions * 100.0));

    m := m.(overallScore := Round(m.efficiency * 0.3 + m.accuracy * 0.4 + m.problemSolving * 0.3));

    m := m.(industryReadiness :=
      if m.overallScore >= 80 then Ready else if m.overallScore >= 60 then NearlyReady else NeedsImprovement);
  }

  datatype SkillRecommendations = SkillRecommendations(
    immediate: seq<string>,
    shortTerm: seq<string>,
    longTerm: seq<string>,
    resources: seq<string>)

  predicate KnownType(kind: string) {
    kind == "cloud" || kind == "devops" || kind == "cybersecurity" || kind == "ux-design"
  }

  /** `generateSkillRecommendations`: two items go to exactly one horizon,
      chosen by the score bands below 60, below 80 and from 80; two
      resources are added for the four known types and none otherwise. */
  method GenerateSkillRecommendations(kind: string, metrics: PerformanceMetrics)
    returns (r: SkillRecommendations)
    ensures metrics.overallScore < 60 ==> |r.immediate| == 2 && r.shortTerm == [] && r.longTerm == []
    ensures 60 <= metrics.overallScore < 80 ==> r.immediate == [] && |r.shortTerm| == 2 && r.longTerm == []
    ensures metrics.overallScore >= 80 ==> r.immediate == [] && r.shortTerm == [] && |r.longTerm| == 2
    ensures |r.immediate| + |r.shortTerm| + |r.longTerm| == 2
    ensures KnownType(kind) <==> |r.resources| == 2
    ensures !KnownType(kind) <==> r.resources == []
  {
    var immediate, shortTerm, longTerm := HorizonItems(kind, metrics.overallScore);
    var resources := LearningResources(kind);
    r := SkillRecommendations(immediate, shortTerm, longTerm, resources);
  }

  /** The score-banded half of `generateSkillRecommendations`. */
  method HorizonItems(kind: string, score: int)
    returns (immediate: seq<string>, shortTerm: seq<string>, longTerm: seq<string>)
    ensures score < 60 ==> |immediate| == 2 && shortTerm == [] && longTerm == []
    ensures 60 <= score < 80 ==> immediate == [] && |shortTerm| == 2 && longTerm == []
    ensures score >= 80 ==> immediate == [] && shortTerm == [] && |longTerm| == 2
  {
    immediate, shortTerm, longTerm := [], [], [];
    if score < 60 {
      immediate := immediate + ["Review " + kind + " fundamentals"];
      immediate := immediate + ["Practice basic scenarios"];
    } else if score < 80 {
      shortTerm := shortTerm + ["Advanced " + kind + " techniques"];
      shortTerm := shortTerm + ["Real-world project experience"];
    } else {
      longTerm := longTerm + [kind + " specialization certification"];
      longTerm := longTerm + ["Mentor junior developers"];
    }
  }

  /** The type-keyed half of `generateSkillRecommendations`. */
  method LearningResources(kind: string) returns (resources: seq<string>)
    ensures KnownType(kind) ==> |resources| == 2
    ensures !KnownType(kind) ==> resources == []
  {
    resources := [];
    if kind == "cloud" {
      resources := resources + ["AWS/Azure certification paths"];
      resources := resources + ["Cloud architecture patterns"];
    } else if kind == "devops" {
      resources := resources + ["CI/CD pipeline optimization"];
      resources := resources + ["Infrastructure as Code"];
    } else if kind == "cybersecurity" {
      resources := resources + ["Security frameworks (NIST, ISO 27001)"];
      resources := resources + ["Incident response playbooks"];
    } else if kind == "ux-design" {
      resources := resources + ["Design system development"];
      resources := resources + ["User research methodologies"];
    }
  }

  /** `getNextSteps`: always three steps, from the band of the score. */
  method GetNextSteps(kind: string, score: int) returns (steps: seq<string>)
    ensures |steps| == 3
    ensures score >= 80 ==> steps[0] == "Ready for advanced simulations"
    ensures 60 <= score < 80 ==> steps[0] == "Practice similar scenarios"
    ensures score < 60 ==> steps[0] == "Review fundamental concepts"
  {
    steps := [];
    if score >= 80 {
      steps := steps + ["Ready for advanced simulations"];
      steps := steps + ["Consider real-world projects"];
      steps := steps + ["Explore certification opportunities"];
    } else if score >= 60 {
      steps := steps + ["Practice similar scenarios"];
      steps := steps + ["Focus on weak areas identified"];
      steps := steps + ["Seek mentorship or guidance"];
    } else {
      steps := steps + ["Review fundamental concepts"];
      steps := steps + ["Start with beginner-level simulations"];
      steps := steps + ["Build foundational knowledge"];
    }
  }

  datatype Evaluated = Evaluated(
    evaluation: string,
    performanceMetrics: PerformanceMetrics,
    skillRecommendations: SkillRecommendations,
    nextSteps: seq<string>)

  datatype EvaluateResponse = EvaluateResponse(status: int, success: bool, body: Option<Evaluated>)

  /** `POST`: 400 when the type is missing or empty or the actions are
      missing; 500 when the model's evaluation fails; otherwise 200 with
      the metrics, the recommendations and the next steps. `evaluation` is
      the model's result, absent when the call throws. */
  method Post(simulationType: Option<string>, userActions: Option<Actions>, timeSpent: real,
              completionRate: real, evaluation: Option<string>)
    returns (resp: EvaluateResponse)
    ensures !Truthy(simulationType) || userActions.None? ==> resp == EvaluateResponse(400, false, None)
    ensures Truthy(simulationType) && userActions.Some? && evaluation.None? ==>
      resp == EvaluateResponse(500, false, None)
    ensures Truthy(simulationType) && userActions.Some? && evaluation.Some? ==>
      && resp.status == 200 && resp.success && resp.body.Some?
      && resp.body.value.evaluation == evaluation.value
      && resp.body.value.performanceMetrics.accuracy == completionRate
      && |resp.body.value.nextSteps| == 3
    ensures Truthy(simulationType) && userActions.Some? && resp.body.Some? ==>
      var m := resp.body.value.performanceMetrics;
      && 0.0 <= m.efficiency <= 100.0
      && 0.0 <= m.problemSolving <= 100.0
      && (userActions.value.NotAList? ==> m.problemSolving == 0.0)
      && m.overallScore as real - 0.5 <= m.efficiency * 0.3 + m.accuracy * 0.4 + m.problemSolving * 0.3
      && m.efficiency * 0.3 + m.accuracy * 0.4 + m.problemSolving * 0.3 < m.overallScore as real + 0.5
      && (0.0 <= completionRate <= 100.0 ==> 0 <= m.overallScore <= 100)
    ensures resp.body.Some? ==>
      var m := resp.body.value.performanceMetrics;
      && (m.industryReadiness == Ready <==> m.overallScore >= 80)
      && (m.industryReadiness == NearlyReady <==> 60 <= m.overallScore < 80)
      && (m.industryReadiness == NeedsImprovement <==> m.overallScore < 60)
    ensures resp.body.Some? ==>
      var score := resp.body.value.performanceMetrics.overallScore;
      var steps := resp.body.value.nextSteps;
      var r := resp.body.value.skillRecommendations;
      && |steps| == 3
      && (score >= 80 ==> steps[0] == "Ready for advanced simulations" && |r.longTerm| == 2)
      && (60 <= score < 80 ==> steps[0] == "Practice similar scenarios" && |r.shortTerm| == 2)
      && (score < 60 ==> steps[0] == "Review fundamental concepts" && |r.immediate| == 2)
      && |r.immediate| + |r.shortTerm| + |r.longTerm| == 2
    ensures Truthy(simulationType) && resp.body.Some? ==>
      (KnownType(simulationType.value) <==> |resp.body.value.skillRecommendations.resources| == 2)
  {
    if !Truthy(simulationType) || userActions.None? {
      return EvaluateResponse(400, false, None);
    }
    if evaluation.None? {
      return EvaluateResponse(500, false, None);
    }
    var kind := simulationType.value;
    var metrics := CalculatePerformanceMetrics(kind, userActions.value, timeSpent, completionRate);
    var recommendations := GenerateSkillRecommendations(kind, metrics);
    var steps := GetNextSteps(kind, metrics.overallScore);
    resp := EvaluateResponse(200, true, Some(Evaluated(evaluation.value, metrics, recommendations, steps)));
  }

  /** A cloud run finished on time with all eight actions and full completion
      scores 100 and is ready. */
  method PerfectCloudRun()
  {
    var m := CalculatePerformanceMetrics("cloud", ActionList(["a", "b", "c", "d", "e", "f", "g", "h"]), 60.0, 100.0);
    assert m.efficiency == 100.0 && m.problemSolving == 100.0;
    assert m.overallScore == 100;
    assert m.industryReadiness == Ready;
  }
}
