/** Model of the deterministic parts of the adaptive agent
    (lib/advanced-simulation-agent.js): the conversation log capped at 50
    entries, the un-capped evaluation push, and the profile-derived rules
    (learning style, skill gaps, the user context). */
module AdvancedAgent {
  import opened Wrappers
  import opened Text
  import Seqs

  /** A log entry: the spread of the caller's object, as a field map. */
  type Entry = map<string, string>

  /** The profile fields the rules read. */
  datatype UserProfile = UserProfile(
    preferredAreas: Option<seq<string>>,
    level: Option<string>,
    skills: Option<seq<string>>,
    careerGoals: Option<string>)

  datatype LearningStyle = Visual | Auditory | Kinesthetic | Reading

  datatype UserContext = UserContext(
    profile: UserProfile,
    learningStyle: LearningStyle,
    skillGaps: seq<string>,
    careerGoals: string,
    preferredComplexity: string)

  const HistoryCap: nat := 50

  const MarketDemands: seq<string> := ["cloud", "devops", "cybersecurity", "ux-design", "mobile-dev"]

  /** `list?.includes(x)`: false when the list is absent. */
  predicate Includes(list: Option<seq<string>>, x: string) {
    list.Some? && x in list.value
  }

  /** `detectLearningStyle`: a ux-design preference wins over devops, then a
      beginner reads, and every other profile is kinesthetic. */
  function DetectLearningStyle(p: UserProfile): (r: LearningStyle)
    ensures r != Auditory
    ensures r == Visual <==> Includes(p.preferredAreas, "ux-design")
    ensures r == Reading <==>
      !Includes(p.preferredAreas, "ux-design") && !Includes(p.preferredAreas, "devops") && p.level == Some("beginner")
    ensures r == Kinesthetic <==>
      !Includes(p.preferredAreas, "ux-design") && (Includes(p.preferredAreas, "devops") || p.level != Some("beginner"))
  {
    if Includes(p.preferredAreas, "ux-design") then Visual
    else if Includes(p.preferredAreas, "devops") then Kinesthetic
    else if p.level == Some("beginner") then Reading
    else Kinesthetic
  }

  /** `analyzeSkillGaps`: the market demands the profile's skills lack, in
      the market's order; a profile without skills lacks all five. */
  function AnalyzeSkillGaps(p: UserProfile): (r: seq<string>)
    ensures Seqs.IsSubsequence(r, MarketDemands)
    ensures forall x :: x in r <==> x in MarketDemands && x !in p.skills.GetOr([])
    ensures p.skills.None? ==> r == MarketDemands
  {
    var skills := p.skills.GetOr([]);
    var r := Seqs.Filter(MarketDemands, (s: string) => s !in skills);
    Seqs.FilterIsSubsequence(MarketDemands, (s: string) => s !in skills);
    assert p.skills.None? ==> r == MarketDemands by {
      if p.skills.None? {
        NothingFilteredOut(MarketDemands, skills);
      }
    }
    r
  }

  /** Filtering by "not in the empty list" keeps everything. */
  lemma {:induction false} NothingFilteredOut(s: seq<string>, skills: seq<string>)
    requires skills == []
    ensures Seqs.Filter(s, (x: string) => x !in skills) == s
    decreases |s|
  {
    if s != [] {
      NothingFilteredOut(s[1..], skills);
    }
  }

  /** The context `initializeUserContext` builds: the profile, its learning
      style and skill gaps, career goals defaulting to 'general-tech', and
      the preferred complexity taken from the level or 'intermediate'. */
  function UserContextFor(p: UserProfile): (c: UserContext)
    ensures c.profile == p
    ensures Truthy(p.careerGoals) ==> c.careerGoals == p.careerGoals.value
    ensures !Truthy(p.careerGoals) ==> c.careerGoals == "general-tech"
    ensures Truthy(p.level) ==> c.preferredComplexity == p.level.value
    ensures !Truthy(p.level) ==> c.preferredComplexity == "intermediate"
    ensures c.learningStyle != Auditory
    ensures |c.skillGaps| <= |MarketDemands|
  {
    UserContext(p, DetectLearningStyle(p), AnalyzeSkillGaps(p),
                OrElse(p.careerGoals, "general-tech"), OrElse(p.level, "intermediate"))
  }

  /** The log after `updateConversationHistory`: the new entry appended and
      only the most recent 50 kept, in order. */
  function AfterUpdate(h: seq<Entry>, e: Entry): (r: seq<Entry>)
    ensures |r| == if |h| + 1 > HistoryCap then HistoryCap else |h| + 1
    ensures r[|r| - 1] == e
    ensures forall i :: 0 <= i < |r| ==> r[i] == (h + [e])[|h| + 1 - |r| + i]
    ensures |h| < HistoryCap ==> r == h + [e]
  {
    var s := h + [e];
    if |s| > HistoryCap then Seqs.LastN(s, HistoryCap) else s
  }

  /** A run of updates, one entry at a time. */
  function UpdateAll(h: seq<Entry>, es: seq<Entry>): seq<Entry>
    decreases |es|
  {
    if es == [] then h else UpdateAll(AfterUpdate(h, es[0]), es[1..])
  }

  /** However many updates run, a log that starts within the cap stays
      within it. */
  lemma {:induction false} UpdatesStayBounded(h: seq<Entry>, es: seq<Entry>)
    requires |h| <= HistoryCap
    ensures |UpdateAll(h, es)| <= HistoryCap
    decreases |es|
  {
    if es != [] {
      UpdatesStayBounded(AfterUpdate(h, es[0]), es[1..]);
    }
  }

  /** After at least one update, the log is exactly the most recent 50 of
      everything ever appended, in order, whatever its length before. */
  lemma {:induction false} UpdatesKeepMostRecent(h: seq<Entry>, es: seq<Entry>)
    requires es != []
    ensures UpdateAll(h, es) == Seqs.LastN(h + es, HistoryCap)
    decreases |es|
  {
    var h1 := AfterUpdate(h, es[0]);
    assert h1 == Seqs.LastN(h + [es[0]], HistoryCap);
    if |es| == 1 {
      assert h + es == h + [es[0]];
    } else {
      UpdatesKeepMostRecent(h1, es[1..]);
      Seqs.LastNAppend(h + [es[0]], es[1..], HistoryCap);
      assert h + [es[0]] + es[1..] == h + es;
    }
  }

  /** The entry `evaluatePerformanceWithAnalytics` stores. */
  function EvaluationEntry(simulationType: string, timestamp: string, evaluation: string): Entry {
    map["type" := "evaluation", "simulationType" := simulationType,
        "timestamp" := timestamp, "evaluation" := evaluation]
  }

  /** The evaluation push bypasses the cap: a full log grows to 51, and only
      the next `updateConversationHistory` trims it back to 50. */
  lemma EvaluationPushExceedsCap(h: seq<Entry>, ev: Entry, e: Entry)
    requires |h| == HistoryCap
    ensures |h + [ev]| == HistoryCap + 1
    ensures AfterUpdate(h + [ev], e) == h[2..] + [ev, e]
  {
    assert (h + [ev]) + [e] == h + [ev, e];
    assert (h + [ev, e])[2..] == h[2..] + [ev, e];
  }

  class AdvancedSimulationAgent {
    var conversationHistory: seq<Entry>
    /** `{}` until `initializeUserContext` runs. */
    var userContext: Option<UserContext>

    constructor ()
      ensures conversationHistory == [] && userContext == None
    {
      conversationHistory := [];
      userContext := None;
    }

    /** `initializeUserContext`: overwrites the context and returns it. */
    method InitializeUserContext(p: UserProfile) returns (c: UserContext)
      modifies this
      ensures c == UserContextFor(p) && userContext == Some(c)
      ensures conversationHistory == old(conversationHistory)
    {
      c := UserContextFor(p);
      userContext := Some(c);
    }

    /** `updateConversationHistory`: push the stamped entry, then slice the
        log to its last 50 when it is longer. */
    method UpdateConversationHistory(entry: Entry, timestamp: string)
      modifies this
      ensures conversationHistory == AfterUpdate(old(conversationHistory), entry["timestamp" := timestamp])
      ensures userContext == old(userContext)
    {
      conversationHistory := conversationHistory + [entry["timestamp" := timestamp]];
      if |conversationHistory| > HistoryCap {
        conversationHistory := conversationHistory[|conversationHistory| - HistoryCap..];
      }
    }

    /** The history push of `evaluatePerformanceWithAnalytics`. `reply` is the
        model's parsed evaluation, absent when the model call throws; then
        nothing is stored and the call fails. */
    method EvaluatePerformance(simulationType: string, reply: Option<string>, timestamp: string)
      returns (r: Result<string, string>)
      modifies this
      ensures reply.Some? ==>
        r == Ok(reply.value)
        && conversationHistory == old(conversationHistory) + [EvaluationEntry(simulationType, timestamp, reply.value)]
      ensures reply.None? ==>
        r == Err("Failed to generate performance evaluation") && conversationHistory == old(conversationHistory)
      ensures userContext == old(userContext)
    {
      if reply.None? {
        return Err("Failed to generate performance evaluation");
      }
      conversationHistory := conversationHistory + [EvaluationEntry(simulationType, timestamp, reply.value)];
      r := Ok(reply.value);
    }
  }
}
