/** Model of the interview conversation manager and the transcript scoring
    in lib/speech-utils.js. The browser speech, synthesis and audio parts of
    `SpeechProcessor` are not part of this model. */
module Speech {
  import opened Wrappers
  import opened Text
  import Seqs

  // ---------------------------------------------------------------------
  // Transcript scoring (`SpeechProcessor.analyzeSpeechPattern`)

  datatype Clarity = HighClarity | MediumClarity | LowClarity

  datatype SpeechPattern = SpeechPattern(
    fillerWords: nat,
    confidenceWords: nat,
    wordsPerMinute: nat,
    confidenceScore: int,
    clarity: Clarity)

  const FillerWords: seq<string> := ["um", "uh", "like", "you know", "actually", "basically"]
  const ConfidenceWords: seq<string> := ["definitely", "certainly", "confident", "sure", "absolutely"]

  /** The transcript lower-cased and split on single spaces. */
  function Words(transcript: string): (ws: seq<string>)
    ensures |ws| >= 1
    ensures forall i :: 0 <= i < |ws| ==> ' ' !in ws[i]
  {
    Split(Lower(transcript), ' ')
  }

  predicate IsFiller(w: string) { w in FillerWords }
  predicate IsConfident(w: string) { w in ConfidenceWords }

  /** `analyzeSpeechPattern`: filler and confident words are counted among the
      words, and the confidence score starts at 100, loses 10 per filler,
      gains 5 per confident word, and is clamped to [0, 100]. */
  function AnalyzeSpeechPattern(transcript: string): (r: SpeechPattern)
    ensures r.wordsPerMinute == |Words(transcript)| >= 1
    ensures r.fillerWords == Seqs.Count(Words(transcript), IsFiller)
    ensures r.confidenceWords == Seqs.Count(Words(transcript), IsConfident)
    ensures r.fillerWords + r.confidenceWords <= r.wordsPerMinute
    ensures 0 <= r.confidenceScore <= 100
    ensures r.confidenceScore == 100 <==> r.confidenceWords >= 2 * r.fillerWords
    ensures r.confidenceScore == 0 <==> 2 * r.fillerWords >= 20 + r.confidenceWords
    ensures 0 < r.confidenceScore < 100 ==> r.confidenceScore == 100 - 10 * r.fillerWords + 5 * r.confidenceWords
    ensures r.clarity == HighClarity <==> r.fillerWords < 3
    ensures r.clarity == MediumClarity <==> 3 <= r.fillerWords < 6
    ensures r.clarity == LowClarity <==> r.fillerWords >= 6
  {
    var words := Words(transcript);
    var fillers := Seqs.Count(words, IsFiller);
    var confident := Seqs.Count(words, IsConfident);
    Seqs.DisjointCountsBounded(words, IsFiller, IsConfident);
    var raw := 100 - fillers * 10 + confident * 5;
    var score := if raw < 0 then 0 else raw;
    SpeechPattern(fillers, confident, |words|,
                  if score > 100 then 100 else score,
                  if fillers < 3 then HighClarity else if fillers < 6 then MediumClarity else LowClarity)
  }

  /** The two-word filler "you know" can never equal a single space-split
      word, so it is never counted: filler counting only sees one-word
      fillers. */
  lemma TwoWordFillerNeverCounted(transcript: string)
    ensures forall i :: 0 <= i < |Words(transcript)| ==> Words(transcript)[i] != "you know"
  {
    assert "you know"[3] == ' ';
  }

  /** One more filler word never raises the confidence score. */
  lemma {:induction false} FillerLowersScore(t: string, w: string)
    requires IsFiller(w) && ' ' !in w
    ensures AnalyzeSpeechPattern(t + " " + w).confidenceScore <= AnalyzeSpeechPattern(t).confidenceScore
  {
    var ws := Words(t);
    assert Lower(t + " " + w) == Lower(t) + " " + Lower(w);
    SplitNoSpace(Lower(w));
    SplitAppendWord(Lower(t), Lower(w));
    LowerFiller(w);
    Seqs.CountAppend(ws, [Lower(w)], IsFiller);
    Seqs.CountAppend(ws, [Lower(w)], IsConfident);
  }

  /** Fillers are already lower case. */
  lemma LowerFiller(w: string)
    requires IsFiller(w)
    ensures Lower(w) == w
  {
  }

  /** A word without spaces splits to itself. */
  lemma {:induction false} SplitNoSpace(s: string)
    requires ' ' !in s
    ensures Split(s, ' ') == [s]
    decreases |s|
  {
    if s != [] {
      assert ' ' !in s[1..];
      SplitNoSpace(s[1..]);
      assert [s[0]] + s[1..] == s;
    }
  }

  /** Splitting `a + " " + b` with `b` free of spaces adds `b` as the last piece. */
  lemma {:induction false} SplitAppendWord(a: string, b: string)
    requires ' ' !in b
    ensures Split(a + " " + b, ' ') == Split(a, ' ') + [b]
    decreases |a|
  {
    SplitNoSpace(b);
    if a == [] {
      assert a + " " + b == " " + b;
    } else {
      assert (a + " " + b)[1..] == a[1..] + " " + b;
      SplitAppendWord(a[1..], b);
    }
  }

  // ---------------------------------------------------------------------
  // Rwanda context (`SpeechProcessor.analyzeRwandaContext`)

  datatype Alignment = HighAlignment | MediumAlignment | LowAlignment

  datatype RwandaContext = RwandaContext(
    rwandaContextScore: int,
    culturalFitScore: int,
    mentionedKeywords: seq<string>,
    culturalAlignment: Alignment)

  const RwandaKeywords: seq<string> := [
    "rwanda", "kigali", "vision 2050", "digital transformation",
    "mobile money", "fintech", "agritech", "kinyarwanda",
    "bank of kigali", "mtn rwanda", "zipline", "umuganda",
    "ubuntu", "community", "innovation", "technology"]

  const CulturalWords: seq<string> := [
    "community", "collaboration", "respect", "integrity",
    "excellence", "teamwork", "innovation", "impact"]

  /** The keywords of `list` occurring in the lower-cased transcript, in list order. */
  function Mentioned(transcript: string, list: seq<string>): (r: seq<string>)
    ensures Seqs.IsSubsequence(r, list)
    ensures forall k :: k in r <==> k in list && Contains(Lower(transcript), k)
  {
    var lower := Lower(transcript);
    Seqs.FilterIsSubsequence(list, (k: string) => Contains(lower, k));
    Seqs.Filter(list, (k: string) => Contains(lower, k))
  }

  /** `Math.min(100, n * per)`. */
  function Capped(n: nat, per: nat): (r: nat)
    ensures r <= 100
    ensures n * per <= 100 ==> r == n * per
    ensures n * per >= 100 ==> r == 100
  {
    if n * per < 100 then n * per else 100
  }

  /** `analyzeRwandaContext`: 20 points per Rwanda keyword and 15 per cultural
      word, both capped at 100; alignment is high from two cultural words. */
  function AnalyzeRwandaContext(transcript: string): (r: RwandaContext)
    ensures r.mentionedKeywords == Mentioned(transcript, RwandaKeywords)
    ensures 0 <= r.rwandaContextScore <= 100
    ensures |r.mentionedKeywords| <= 5 ==> r.rwandaContextScore == 20 * |r.mentionedKeywords|
    ensures |r.mentionedKeywords| >= 5 ==> r.rwandaContextScore == 100
    ensures var n := |Mentioned(transcript, CulturalWords)|;
      && (n <= 6 ==> r.culturalFitScore == 15 * n)
      && (n >= 7 ==> r.culturalFitScore == 100)
      && (r.culturalAlignment == HighAlignment <==> n >= 2)
      && (r.culturalAlignment == MediumAlignment <==> n == 1)
      && (r.culturalAlignment == LowAlignment <==> n == 0)
  {
    var keywords := Mentioned(transcript, RwandaKeywords);
    var cultural := |Mentioned(transcript, CulturalWords)|;
    RwandaContext(
      Capped(|keywords|, 20),
      Capped(cultural, 15),
      keywords,
      if cultural >= 2 then HighAlignment else if cultural >= 1 then MediumAlignment else LowAlignment)
  }

  // ---------------------------------------------------------------------
  // Conversation flow (`ConversationManager`)

  datatype Phase = Introduction | Experience | Technical | Closing

  function PhaseName(p: Phase): string {
    match p
    case Introduction => "introduction"
    case Experience => "experience"
    case Technical => "technical"
    case Closing => "closing"
  }

  function PhaseRank(p: Phase): nat {
    match p
    case Introduction => 0
    case Experience => 1
    case Technical => 2
    case Closing => 3
  }

  /** `updateInterviewPhase`'s thresholds on the number of user messages. */
  function PhaseFor(userMessages: nat): (p: Phase)
    ensures p == Introduction <==> userMessages <= 2
    ensures p == Experience <==> 3 <= userMessages <= 5
    ensures p == Technical <==> 6 <= userMessages <= 8
    ensures p == Closing <==> userMessages > 8
  {
    if userMessages <= 2 then Introduction
    else if userMessages <= 5 then Experience
    else if userMessages <= 8 then Technical
    else Closing
  }

  /** More user messages never move the interview back to an earlier phase. */
  lemma PhaseMonotone(m: nat, n: nat)
    requires m <= n
    ensures PhaseRank(PhaseFor(m)) <= PhaseRank(PhaseFor(n))
  {
  }

  datatype Engagement = HighEngagement | MediumEngagement | LowEngagement

  datatype Message = Message(id: int, kind: string, content: string, metadata: map<string, string>)

  predicate IsUser(m: Message) { m.kind == "user" }
  predicate IsAi(m: Message) { m.kind == "ai" }

  function UserCount(h: seq<Message>): nat {
    Seqs.Count(h, IsUser)
  }

  /** Appending one message adds one to the user count exactly when it is a user message. */
  lemma UserCountAppend(h: seq<Message>, m: Message)
    ensures UserCount(h + [m]) == UserCount(h) + if IsUser(m) then 1 else 0
  {
    Seqs.CountAppend(h, [m], IsUser);
  }

  function ContentLength(m: Message): int { |m.content| }

  /** `calculateEngagement`: the average content length of the last (up to)
      five messages; an empty history averages to NaN, which is low. */
  function EngagementOf(h: seq<Message>): (e: Engagement)
    ensures var recent := Seqs.LastN(h, 5);
      var avg := if recent == [] then 0.0 else Seqs.SumOf(recent, ContentLength) as real / |recent| as real;
      && (e == HighEngagement <==> recent != [] && avg > 50.0)
      && (e == MediumEngagement <==> recent != [] && 20.0 < avg <= 50.0)
      && (e == LowEngagement <==> recent == [] || avg <= 20.0)
  {
    var recent := Seqs.LastN(h, 5);
    var total := Seqs.SumOf(recent, ContentLength);
    if total > 50 * |recent| then HighEngagement
    else if total > 20 * |recent| then MediumEngagement
    else LowEngagement
  }

  /** The fields of `currentContext` the manager writes; all start absent. */
  datatype Context = Context(
    lastUserInput: Option<string>,
    userEngagement: Option<Engagement>,
    lastAIResponse: Option<string>)

  datatype Summary = Summary(
    totalMessages: nat,
    userMessages: nat,
    aiMessages: nat,
    currentPhase: Phase,
    engagement: Option<Engagement>)

  class ConversationManager {
    var history: seq<Message>
    var currentContext: Context
    var interviewPhase: Phase

    /** The phase always agrees with the number of user messages. */
    ghost predicate Valid()
      reads this
    {
      interviewPhase == PhaseFor(UserCount(history))
    }

    constructor ()
      ensures Valid()
      ensures history == [] && currentContext == Context(None, None, None) && interviewPhase == Introduction
    {
      history := [];
      currentContext := Context(None, None, None);
      interviewPhase := Introduction;
    }

    /** `addMessage`: appends exactly one message, stamped with the phase in
        force before it, then updates the context and the phase. */
    method AddMessage(kind: string, content: string, metadata: map<string, string>, now: int)
      returns (m: Message)
      requires Valid()
      modifies this
      ensures Valid()
      ensures m == Message(now, kind, content, metadata["phase" := PhaseName(old(interviewPhase))])
      ensures history == old(history) + [m]
      ensures kind == "user" ==>
        currentContext == old(currentContext).(lastUserInput := Some(content),
                                               userEngagement := Some(EngagementOf(history)))
      ensures kind != "user" ==> currentContext == old(currentContext).(lastAIResponse := Some(content))
      ensures PhaseRank(old(interviewPhase)) <= PhaseRank(interviewPhase)
    {
      m := Message(now, kind, content, metadata["phase" := PhaseName(interviewPhase)]);
      Seqs.CountAppend(history, [m], IsUser);
      history := history + [m];
      UpdateContext(m);
    }

    /** `updateContext`: a user message records the input and the engagement,
        any other message only the AI response; then the phase is updated. */
    method UpdateContext(m: Message)
      modifies this
      ensures history == old(history) && Valid()
      ensures m.kind == "user" ==>
        currentContext == old(currentContext).(lastUserInput := Some(m.content),
                                               userEngagement := Some(EngagementOf(history)))
      ensures m.kind != "user" ==> currentContext == old(currentContext).(lastAIResponse := Some(m.content))
    {
      if m.kind == "user" {
        currentContext := currentContext.(lastUserInput := Some(m.content),
                                          userEngagement := Some(EngagementOf(history)));
      } else {
        currentContext := currentContext.(lastAIResponse := Some(m.content));
      }
      UpdateInterviewPhase();
    }

    /** `updateInterviewPhase`: recomputes the phase from the user messages. */
    method UpdateInterviewPhase()
      modifies this
      ensures Valid()
      ensures history == old(history) && currentContext == old(currentContext)
    {
      var count := UserCount(history);
      if count <= 2 {
        interviewPhase := Introduction;
      } else if count <= 5 {
        interviewPhase := Experience;
      } else if count <= 8 {
        interviewPhase := Technical;
      } else {
        interviewPhase := Closing;
      }
    }

    /** `calculateEngagement` on the current history. */
    function CalculateEngagement(): (e: Engagement)
      reads this
      ensures e == EngagementOf(history)
      ensures history == [] ==> e == LowEngagement
    {
      EngagementOf(history)
    }

    /** `getConversationSummary` without the wall-clock duration: user and AI
        messages are disjoint kinds, so together they never exceed the total. */
    function GetConversationSummary(): (s: Summary)
      reads this
      requires Valid()
      ensures s.totalMessages == |history|
      ensures s.userMessages == UserCount(history) && s.aiMessages == Seqs.Count(history, IsAi)
      ensures s.userMessages + s.aiMessages <= s.totalMessages
      ensures s.currentPhase == interviewPhase
      ensures s.currentPhase == PhaseFor(s.userMessages)
      ensures s.engagement == currentContext.userEngagement
    {
      Seqs.DisjointCountsBounded(history, IsUser, IsAi);
      Summary(|history|, UserCount(history), Seqs.Count(history, IsAi), interviewPhase, currentContext.userEngagement)
    }
  }

  /** Three user turns move a fresh interview from introduction to experience;
      each message carries the phase in force when it arrived. */
  method InterviewWalkthrough()
  {
    var cm := new ConversationManager();
    var m1 := cm.AddMessage("user", "hi", map[], 1);
    var h1 := cm.history;
    var a1 := cm.AddMessage("ai", "welcome", map[], 2);
    var h2 := cm.history;
    var m2 := cm.AddMessage("user", "cloud", map[], 3);
    var h3 := cm.history;
    var m3 := cm.AddMessage("user", "fintech", map[], 4);
    assert m1.metadata["phase"] == "introduction";
    assert m3.metadata["phase"] == "introduction";
    UserCountAppend([], m1);
    assert h1 == [] + [m1];
    UserCountAppend(h1, a1);
    UserCountAppend(h2, m2);
    UserCountAppend(h3, m3);
    assert UserCount(cm.history) == 3;
    assert cm.interviewPhase == Experience;
  }
}
