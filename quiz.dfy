/** Model of the deterministic parts of lib/gemini-quiz-service.js: the
    per-answer correctness map, the fallback score arithmetic, the fallback
    question, and how the live-interview history changes when the model
    answers or fails. The model's replies are parameters (absent when the
    call throws); timestamps are left out of the history entries. */
module Quiz {
  import opened Wrappers
  import Seqs

  datatype Question = Question(question: string, options: seq<string>, correct: int, category: string)

  /** One entry of `performance`; an option index out of range reads as
      `undefined`, modelled as `None`. */
  datatype Outcome = Outcome(
    question: string,
    userAnswer: Option<string>,
    correctAnswer: Option<string>,
    isCorrect: bool,
    category: string)

  function OptionAt(options: seq<string>, i: int): (o: Option<string>)
    ensures o.Some? <==> 0 <= i < |options|
    ensures o.Some? ==> o.value == options[i]
  {
    if 0 <= i < |options| then Some(options[i]) else None
  }

  /** The `answers.map(...)` of `analyzeQuizPerformance`: one outcome per
      answer, correct exactly when the answer is the question's `correct`
      index. With more answers than questions, reading `questions[index]`
      throws. */
  function PerformanceOf(answers: seq<int>, questions: seq<Question>): (r: Result<seq<Outcome>, string>)
    ensures r.Ok? <==> |answers| <= |questions|
    ensures r.Ok? ==> |r.value| == |answers|
    ensures r.Ok? ==> forall i :: 0 <= i < |answers| ==>
      && (r.value[i].isCorrect <==> answers[i] == questions[i].correct)
      && r.value[i].userAnswer == OptionAt(questions[i].options, answers[i])
      && r.value[i].correctAnswer == OptionAt(questions[i].options, questions[i].correct)
      && r.value[i].question == questions[i].question
  {
    if |answers| > |questions| then Err("Cannot read properties of undefined")
    else Ok(seq(|answers|, i requires 0 <= i < |answers| =>
      Outcome(questions[i].question,
              OptionAt(questions[i].options, answers[i]),
              OptionAt(questions[i].options, questions[i].correct),
              answers[i] == questions[i].correct,
              questions[i].category)))
  }

  predicate IsCorrect(o: Outcome) { o.isCorrect }

  /** The number of correct answers. */
  function CorrectCount(performance: seq<Outcome>): nat
  {
    Seqs.Count(performance, IsCorrect)
  }

  /** The numeric part of `getFallbackAnalysis`. */
  datatype FallbackScores = FallbackScores(
    overallScore: int,
    technical: int,
    behavioral: int,
    problemSolving: int,
    rwandaJobReadiness: int)

  /** `Math.round(100 * c / n)` for `n > 0`, halves rounded up. */
  function Percent(c: nat, n: nat): (p: int)
    requires 0 < n && c <= n
    ensures 2 * n * p - n <= 200 * c < 2 * n * p + n
    ensures 0 <= p <= 100
  {
    PercentBounds(c, n);
    (200 * c + n) / (2 * n)
  }

  /** The division facts behind `Percent`, one step at a time. */
  lemma PercentBounds(c: nat, n: nat)
    requires 0 < n && c <= n
    ensures var p := (200 * c + n) / (2 * n);
      2 * n * p - n <= 200 * c < 2 * n * p + n && 0 <= p <= 100
  {
    var d, m := 2 * n, 200 * c + n;
    var p, r := m / d, m % d;
    assert m == d * p + r && 0 <= r < d;
    assert d * 0 < d * (p + 1);
    ScaledLess(d, 0, p + 1);
    assert d * p < d * 101;
    ScaledLess(d, p, 101);
  }

  lemma ScaledLess(d: int, a: int, b: int)
    requires d > 0 && d * a < d * b
    ensures a < b
  {
    assert d * (b - a) > 0;
  }

  /** `getFallbackAnalysis`: the rounded percentage of correct answers, used
      as the overall, technical and readiness scores, with behavioral 10 below
      and problem solving 5 above and no clamping. With no answers the
      percentage is NaN, modelled as `None`. */
  function GetFallbackAnalysis(performance: seq<Outcome>): (r: Option<FallbackScores>)
    ensures r.None? <==> performance == []
    ensures r.Some? ==>
      var c := CorrectCount(performance); var n := |performance|;
      && 2 * n * r.value.overallScore - n <= 200 * c < 2 * n * r.value.overallScore + n
      && 0 <= r.value.overallScore <= 100
      && r.value.technical == r.value.overallScore
      && r.value.rwandaJobReadiness == r.value.overallScore
      && r.value.behavioral == r.value.overallScore - 10
      && r.value.problemSolving == r.value.overallScore + 5
  {
    if performance == [] then None
    else
      var score := Percent(CorrectCount(performance), |performance|);
      Some(FallbackScores(score, score, score - 10, score + 5, score))
  }

  /** Multiplying by a non-negative factor keeps the order. */
  lemma MulMono(n: nat, a: int, b: int)
    requires a <= b
    ensures n * a <= n * b
  {
    assert n * b - n * a == n * (b - a);
  }

  /** A perfect quiz scores 100 and an empty-handed one 0. */
  lemma PercentExtremes(n: nat)
    requires n > 0
    ensures Percent(n, n) == 100
    ensures Percent(0, n) == 0
  {
    var full := Percent(n, n);
    MulMono(n, if full < 99 then full else 99, 99);
    var none := Percent(0, n);
    MulMono(n, 1, if none > 1 then none else 1);
  }

  /** All answers right scores 100 (problem solving 105, past the scale);
      all wrong scores 0 (behavioral -10, below it). */
  lemma FallbackExtremes(performance: seq<Outcome>)
    requires performance != []
    ensures CorrectCount(performance) == |performance| ==>
      GetFallbackAnalysis(performance).value.overallScore == 100
      && GetFallbackAnalysis(performance).value.problemSolving == 105
    ensures CorrectCount(performance) == 0 ==>
      GetFallbackAnalysis(performance).value.overallScore == 0
      && GetFallbackAnalysis(performance).value.behavioral == -10
  {
    PercentExtremes(|performance|);
  }

  datatype QuizAnalysis =
    | ModelAnalysis(text: string)
    | FallbackAnalysis(scores: Option<FallbackScores>)

  /** `analyzeQuizPerformance`: the correctness map (which can throw), then
      the model's analysis, or the fallback analysis when the model fails. */
  function AnalyzeQuizPerformance(answers: seq<int>, questions: seq<Question>, modelReply: Option<string>)
    : (r: Result<QuizAnalysis, string>)
    ensures r.Ok? <==> |answers| <= |questions|
    ensures r.Ok? && modelReply.Some? ==> r.value == ModelAnalysis(modelReply.value)
    ensures r.Ok? && modelReply.None? ==>
      r.value == FallbackAnalysis(GetFallbackAnalysis(PerformanceOf(answers, questions).value))
    ensures r.Ok? && modelReply.None? && answers == [] ==> r.value == FallbackAnalysis(None)
  {
    match PerformanceOf(answers, questions)
    case Err(e) => Err(e)
    case Ok(performance) =>
      if modelReply.Some? then Ok(ModelAnalysis(modelReply.value))
      else Ok(FallbackAnalysis(GetFallbackAnalysis(performance)))
  }

  /** `getFallbackQuestions`: one behavioral question with four options whose
      correct index, 1, is within them. */
  function GetFallbackQuestions(role: string): (qs: seq<Question>)
    ensures |qs| == 1
    ensures |qs[0].options| == 4
    ensures qs[0].correct == 1 && 0 <= qs[0].correct < |qs[0].options|
    ensures qs[0].options[qs[0].correct] == "Communication and technical skills"
  {
    [Question("What is the most important skill for a " + role + " in Rwanda's tech sector?",
              ["Technical expertise only", "Communication and technical skills", "Management skills", "Sales abilities"],
              1, "behavioral")]
  }

  /** Answering the fallback question with index 1 is the one correct answer. */
  lemma FallbackQuestionScoring(role: string, answer: int)
    ensures var p := PerformanceOf([answer], GetFallbackQuestions(role));
      p.Ok? && (p.value[0].isCorrect <==> answer == 1)
  {
  }

  datatype Speaker = Interviewer | Candidate

  datatype Turn = Turn(role: Speaker, content: string)

  datatype ConversationReply = ConversationReply(message: string, conversationId: string, status: string)

  /** Every candidate turn is answered by the interviewer right after it, and
      a non-empty interview ends on the interviewer. */
  predicate WellPaired(h: seq<Turn>) {
    && (forall i :: 0 <= i < |h| && h[i].role == Candidate ==> i + 1 < |h| && h[i + 1].role == Interviewer)
    && (h != [] ==> h[|h| - 1].role == Interviewer)
  }

  function FallbackGreeting(role: string): string {
    GreetingOpening + role + GreetingClosing
  }

  const GreetingOpening: string := "Hello! I'm excited to interview you for the "
  const GreetingClosing: string :=
    " position. Let's start by having you tell me about your background and what interests you about this role in Rwanda's tech sector."

  const FallbackFollowUp: string :=
    "That's interesting! Can you tell me more about how you would apply that experience in Rwanda's tech environment?"

  class GeminiQuizService {
    var conversationHistory: seq<Turn>

    constructor ()
      ensures conversationHistory == []
    {
      conversationHistory := [];
    }

    /** `startLiveConversation`: on success the history is replaced by the
        single greeting; on failure it is left as it was and a scripted
        greeting is returned. `now` is `Date.now().toString()`. */
    method StartLiveConversation(role: string, greeting: Option<string>, now: string)
      returns (r: ConversationReply)
      modifies this
      ensures greeting.Some? ==>
        conversationHistory == [Turn(Interviewer, greeting.value)] && r == ConversationReply(greeting.value, now, "active")
      ensures greeting.None? ==>
        conversationHistory == old(conversationHistory) && r == ConversationReply(FallbackGreeting(role), now, "active")
      ensures WellPaired(old(conversationHistory)) ==> WellPaired(conversationHistory)
    {
      if greeting.Some? {
        conversationHistory := [Turn(Interviewer, greeting.value)];
        r := ConversationReply(greeting.value, now, "active");
      } else {
        r := ConversationReply(FallbackGreeting(role), now, "active");
      }
    }

    /** `continueConversation`: on success the candidate's answer and then the
        interviewer's reply are appended; on failure the history is unchanged.
        Either way the conversation id is echoed and the status is active. */
    method ContinueConversation(userResponse: string, conversationId: string, role: string, reply: Option<string>)
      returns (r: ConversationReply)
      modifies this
      ensures reply.Some? ==>
        && conversationHistory == old(conversationHistory) + [Turn(Candidate, userResponse), Turn(Interviewer, reply.value)]
        && r == ConversationReply(reply.value, conversationId, "active")
      ensures reply.None? ==>
        conversationHistory == old(conversationHistory) && r == ConversationReply(FallbackFollowUp, conversationId, "active")
      ensures WellPaired(old(conversationHistory)) ==> WellPaired(conversationHistory)
    {
      if reply.Some? {
        conversationHistory := conversationHistory + [Turn(Candidate, userResponse)];
        conversationHistory := conversationHistory + [Turn(Interviewer, reply.value)];
        r := ConversationReply(reply.value, conversationId, "active");
      } else {
        r := ConversationReply(FallbackFollowUp, conversationId, "active");
      }
    }
  }

  /** A started interview with two answered turns and one failed turn holds
      five entries, alternating from the interviewer. */
  method InterviewExample()
  {
    var service := new GeminiQuizService();
    var r0 := service.StartLiveConversation("DevOps Engineer", Some("Welcome"), "1");
    var r1 := service.ContinueConversation("I automate deployments", r0.conversationId, "DevOps Engineer", Some("How?"));
    var r2 := service.ContinueConversation("With pipelines", r0.conversationId, "DevOps Engineer", None);
    var r3 := service.ContinueConversation("With pipelines", r0.conversationId, "DevOps Engineer", Some("Good"));
    assert |service.conversationHistory| == 5;
    assert r2.conversationId == "1" && r2.message == FallbackFollowUp;
    assert WellPaired(service.conversationHistory);
  }
}
