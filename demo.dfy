/** Model of the demo mode of the simulation screen
    (components/enhanced-simulation.jsx): the scripted scenario lookup, the
    demo turn transition, and the guard and routing of `sendUserAction`.
    React state becomes the fields of a class; each `setTimeout` callback is
    taken to run to completion at once; the `Math.random` draws are bounded
    parameters. */
module Demo {
  import opened Wrappers
  import opened Text

  /** A demo state: the three numbers every turn updates, plus the
      scenario-specific gauges, which a turn copies unchanged. */
  datatype DemoState = DemoState(budget: int, time: int, step: int, extras: map<string, int>)

  /** The state used when no previous state can be found. */
  const DefaultState: DemoState := DemoState(10000, 480, 1, map[])

  const DemoRoles: set<string> := {"cloud-architect", "devops-engineer", "cybersecurity-analyst", "ux-designer"}

  datatype DemoScenario = DemoScenario(roleKey: string, state: DemoState)

  /** The scenario lookup of `startDemoSimulation`: the role's scenario, or
      the cloud-architect one for an unknown role; every scenario starts at
      step 1 with a positive budget and time. */
  function DemoScenarioFor(roleId: string): (s: DemoScenario)
    ensures roleId in DemoRoles ==> s.roleKey == roleId
    ensures roleId !in DemoRoles ==> s.roleKey == "cloud-architect"
    ensures s.state.step == 1 && s.state.budget > 0 && s.state.time > 0
  {
    if roleId == "devops-engineer" then
      DemoScenario(roleId, DemoState(12000, 360, 1, map["deploymentFrequency" := 1, "leadTime" := 720, "mttr" := 240]))
    else if roleId == "cybersecurity-analyst" then
      DemoScenario(roleId, DemoState(8000, 240, 1, map["threatLevel" := 7, "systemsAffected" := 3, "dataAtRisk" := 50000]))
    else if roleId == "ux-designer" then
      DemoScenario(roleId, DemoState(10000, 600, 1, map["userSatisfaction" := 70, "accessibilityScore" := 60,
                                                        "culturalRelevance" := 75]))
    else
      DemoScenario("cloud-architect", DemoState(15000, 480, 1, map["systemReliability" := 95,
                                                                    "stakeholderSatisfaction" := 80]))
  }

  /** The draws of one demo turn: `floor(random * 2000)`, `floor(random * 30)`,
      the index of the scripted reply, and whether `random > 0.7`. */
  datatype DemoDraws = DemoDraws(budgetCut: int, timeCut: int, responseIndex: int, stakeholder: bool)

  predicate ValidDraws(d: DemoDraws) {
    0 <= d.budgetCut < 2000 && 0 <= d.timeCut < 30 && 0 <= d.responseIndex < 5
  }

  datatype AgentReply = AgentReply(responseIndex: int, state: DemoState, stakeholder: bool, over: bool)

  function Max(a: int, b: int): int { if a < b then b else a }

  /** The turn of `handleDemoAction`: budget and time are cut and clamped at
      0, the step advances by one, the gauges are copied, and the demo is
      over from step 8 or when budget or time runs out. */
  function DemoTransition(s: DemoState, d: DemoDraws): (t: AgentReply)
    requires ValidDraws(d)
    ensures t.state.budget >= 0 && t.state.time >= 0
    ensures t.state.budget == 0 || s.budget - 2499 <= t.state.budget <= s.budget - 500
    ensures s.budget >= 2500 ==> t.state.budget > 0
    ensures t.state.time == 0 || s.time - 44 <= t.state.time <= s.time - 15
    ensures s.time >= 45 ==> t.state.time > 0
    ensures t.state.step == s.step + 1 && t.state.extras == s.extras
    ensures t.over <==> t.state.step >= 8 || t.state.budget == 0 || t.state.time == 0
    ensures 0 <= t.responseIndex < 5 && t.stakeholder == d.stakeholder
  {
    var next := s.(budget := Max(0, s.budget - d.budgetCut - 500),
                   time := Max(0, s.time - d.timeCut - 15),
                   step := s.step + 1);
    AgentReply(d.responseIndex, next, d.stakeholder,
               next.step >= 8 || next.budget <= 0 || next.time <= 0)
  }

  datatype ChatEntry =
    | Agent(state: DemoState, over: bool, stakeholder: bool)
    | User(content: string)

  function AgentEntry(t: AgentReply): ChatEntry { Agent(t.state, t.over, t.stakeholder) }

  // ---------------------------------------------------------------------
  // Where a demo turn starts from

  /** As written: the entry two before the end of the history the handler
      captured, which is the history before the user's message was
      appended; `undefined` (too short, or an entry without a state) gives
      the default state. */
  function StaleBaseAsWritten(stale: seq<ChatEntry>): DemoState {
    if |stale| >= 2 && stale[|stale| - 2].Agent? then stale[|stale| - 2].state else DefaultState
  }

  /** Intended: the state of the latest agent entry, or the default state
      when there is none. */
  function LatestAgentState(h: seq<ChatEntry>): (s: DemoState)
    ensures h != [] && h[|h| - 1].Agent? ==> s == h[|h| - 1].state
    decreases |h|
  {
    if h == [] then DefaultState
    else if h[|h| - 1].Agent? then h[|h| - 1].state
    else LatestAgentState(h[..|h| - 1])
  }

  /** The shape of every history the screen builds: agent and user entries
      alternate, starting and ending with the agent. */
  predicate Alternating(h: seq<ChatEntry>) {
    |h| % 2 == 1 && forall i :: 0 <= i < |h| ==> (h[i].Agent? <==> i % 2 == 0)
  }

  /** In an alternating history the entry two before the end is always a
      user message (or missing), so the as-written handler always starts
      from the default state. */
  lemma AsWrittenStartsFromDefault(h: seq<ChatEntry>)
    requires Alternating(h)
    ensures StaleBaseAsWritten(h) == DefaultState
  {
    if |h| >= 2 {
      assert (|h| - 2) % 2 == 1;
      assert !h[|h| - 2].Agent?;
    }
  }

  /** A turn appends the user's message and the agent's reply. */
  function WithTurn(h: seq<ChatEntry>, t: AgentReply): seq<ChatEntry> {
    h + [User("action"), AgentEntry(t)]
  }

  lemma WithTurnAlternates(h: seq<ChatEntry>, t: AgentReply)
    requires Alternating(h)
    ensures Alternating(WithTurn(h, t))
  {
    var h2 := WithTurn(h, t);
    forall i | 0 <= i < |h2|
      ensures h2[i].Agent? <==> i % 2 == 0
    {
      if i < |h| {
        assert h2[i] == h[i];
      }
    }
  }

  predicate AllValid(ds: seq<DemoDraws>) {
    forall i :: 0 <= i < |ds| ==> ValidDraws(ds[i])
  }

  /** Demo turns with the as-written starting state, stopping when one ends
      the demo. */
  function RunAsWritten(h: seq<ChatEntry>, ds: seq<DemoDraws>): seq<ChatEntry>
    requires AllValid(ds)
    decreases |ds|
  {
    if ds == [] then h
    else
      var t := DemoTransition(StaleBaseAsWritten(h), ds[0]);
      if t.over then WithTurn(h, t) else RunAsWritten(WithTurn(h, t), ds[1..])
  }

  /** As written, however many actions the user takes, every reply is at
      step 2 and none ends the demo. */
  lemma {:induction false} AsWrittenNeverEnds(h: seq<ChatEntry>, ds: seq<DemoDraws>)
    requires Alternating(h) && AllValid(ds)
    ensures var r := RunAsWritten(h, ds);
      && |r| == |h| + 2 * |ds|
      && Alternating(r)
      && (ds != [] ==> r[|r| - 1].Agent? && !r[|r| - 1].over && r[|r| - 1].state.step == 2)
    decreases |ds|
  {
    if ds != [] {
      AsWrittenStartsFromDefault(h);
      var t := DemoTransition(StaleBaseAsWritten(h), ds[0]);
      assert t.state.step == 2 && t.state.budget > 0 && t.state.time > 0;
      WithTurnAlternates(h, t);
      assert ValidDraws(ds[0]);
      assert AllValid(ds[1..]) by {
        forall i | 0 <= i < |ds[1..]| ensures ValidDraws(ds[1..][i]) {
          assert ds[1..][i] == ds[i + 1];
        }
      }
      AsWrittenNeverEnds(WithTurn(h, t), ds[1..]);
      if |ds| == 1 {
        assert ds[1..] == [];
      }
    }
  }

  /** The opening of a cloud demo followed by one action: the reply is at
      step 2, not 2 steps into the scenario it continues. */
  lemma AsWrittenSecondTurn(d1: DemoDraws, d2: DemoDraws)
    requires ValidDraws(d1) && ValidDraws(d2)
    ensures var opening := [Agent(DemoScenarioFor("cloud-architect").state, false, false)];
      var first := DemoTransition(StaleBaseAsWritten(opening), d1);
      var h := WithTurn(opening, first);
      && first.state.step == 2
      && DemoTransition(StaleBaseAsWritten(h), d2).state.step == 2
      && DemoTransition(LatestAgentState(h), d2).state.step == 3
  {
    var opening := [Agent(DemoScenarioFor("cloud-architect").state, false, false)];
    var first := DemoTransition(StaleBaseAsWritten(opening), d1);
    AsWrittenStartsFromDefault(WithTurn(opening, first)) by {
      WithTurnAlternates(opening, first);
    }
  }

  /** Demo turns with the intended starting state, stopping when one ends
      the demo. */
  function RunIntended(h: seq<ChatEntry>, ds: seq<DemoDraws>): seq<ChatEntry>
    requires AllValid(ds)
    decreases |ds|
  {
    if ds == [] then h
    else
      var t := DemoTransition(LatestAgentState(h), ds[0]);
      if t.over then WithTurn(h, t) else RunIntended(WithTurn(h, t), ds[1..])
  }

  /** With the latest agent state, each turn continues from the one before,
      so a demo that has reached step `k` ends within `8 - k` more actions:
      a fresh scenario (step 1) ends within seven. */
  lemma {:induction false} IntendedDemoEnds(h: seq<ChatEntry>, ds: seq<DemoDraws>)
    requires AllValid(ds) && ds != []
    requires |ds| + LatestAgentState(h).step >= 8
    ensures var r := RunIntended(h, ds);
      r != [] && r[|r| - 1].Agent? && r[|r| - 1].over
    decreases |ds|
  {
    var t := DemoTransition(LatestAgentState(h), ds[0]);
    var h2 := WithTurn(h, t);
    assert h2[|h2| - 1] == AgentEntry(t);
    if !t.over {
      assert LatestAgentState(h2) == t.state;
      assert AllValid(ds[1..]) by {
        forall i | 0 <= i < |ds[1..]| ensures ValidDraws(ds[1..][i]) {
          assert ds[1..][i] == ds[i + 1];
        }
      }
      IntendedDemoEnds(h2, ds[1..]);
    }
  }

  /** The opening history of any demo scenario ends within seven actions. */
  lemma FreshDemoEndsWithinSeven(roleId: string, ds: seq<DemoDraws>)
    requires AllValid(ds) && |ds| >= 7
    ensures var r := RunIntended([Agent(DemoScenarioFor(roleId).state, false, false)], ds);
      r != [] && r[|r| - 1].Agent? && r[|r| - 1].over
  {
    IntendedDemoEnds([Agent(DemoScenarioFor(roleId).state, false, false)], ds);
  }

  // ---------------------------------------------------------------------
  // The screen

  datatype View = Selection | Active | Completed

  /** The score draws of the demo report: `floor(random * 30)`,
      `floor(random * 20)`, `floor(random * 25)` and `floor(random * 15)`. */
  datatype ScoreDraws = ScoreDraws(overall: int, technical: int, problemSolving: int, communication: int)

  predicate ValidScores(s: ScoreDraws) {
    0 <= s.overall < 30 && 0 <= s.technical < 20 && 0 <= s.problemSolving < 25 && 0 <= s.communication < 15
  }

  datatype DemoReport = DemoReport(overallScore: int, technical: int, problemSolving: int, communication: int)

  function DemoReportFor(s: ScoreDraws): (r: DemoReport)
    requires ValidScores(s)
    ensures 70 <= r.overallScore <= 99 && 75 <= r.technical <= 94
    ensures 70 <= r.problemSolving <= 94 && 80 <= r.communication <= 94
  {
    DemoReport(s.overall + 70, s.technical + 75, s.problemSolving + 70, s.communication + 80)
  }

  /** The server's answer to `execute_action`, when it succeeds. */
  datatype ServerReply = ServerReply(state: DemoState, over: bool, stakeholder: bool)

  class EnhancedSimulation {
    var simulationId: Option<string>
    var conversationHistory: seq<ChatEntry>
    var isProcessing: bool
    var userInput: string
    var simulationState: View
    var finalReport: Option<DemoReport>

    constructor ()
      ensures simulationId == None && conversationHistory == [] && !isProcessing
      ensures userInput == "" && simulationState == Selection && finalReport == None
    {
      simulationId := None;
      conversationHistory := [];
      isProcessing := false;
      userInput := "";
      simulationState := Selection;
      finalReport := None;
    }

    /** `startDemoSimulation`: a `demo_` id, the active view, and a history
        holding only the scenario's opening at step 1. */
    method StartDemoSimulation(roleId: string, now: string)
      modifies this
      ensures simulationId == Some("demo_" + now) && simulationState == Active
      ensures conversationHistory == [Agent(DemoScenarioFor(roleId).state, false, false)]
      ensures Alternating(conversationHistory) && LatestAgentState(conversationHistory).step == 1
      ensures isProcessing == old(isProcessing) && userInput == old(userInput) && finalReport == old(finalReport)
    {
      simulationId := Some("demo_" + now);
      simulationState := Active;
      conversationHistory := [Agent(DemoScenarioFor(roleId).state, false, false)];
    }

    /** `handleDemoAction` with its start state corrected: the turn
        continues from the latest agent state of the history the handler
        captured (`LatestAgentState`), not from the entry the code reads,
        whose effect `StaleBaseAsWritten` and `RunAsWritten` model. The reply is appended,
        and a reply that ends the demo also files the report and completes
        the view. */
    method HandleDemoAction(stale: seq<ChatEntry>, d: DemoDraws, scores: ScoreDraws)
      requires ValidDraws(d) && ValidScores(scores)
      modifies this
      ensures var t := DemoTransition(LatestAgentState(stale), d);
        && conversationHistory == old(conversationHistory) + [AgentEntry(t)]
        && (t.over ==> finalReport == Some(DemoReportFor(scores)) && simulationState == Completed)
        && (!t.over ==> finalReport == old(finalReport) && simulationState == old(simulationState))
      ensures !isProcessing
      ensures simulationId == old(simulationId) && userInput == old(userInput)
    {
      var reply := DemoTransition(LatestAgentState(stale), d);
      conversationHistory := conversationHistory + [AgentEntry(reply)];
      if reply.over {
        finalReport := Some(DemoReportFor(scores));
        simulationState := Completed;
      }
      isProcessing := false;
    }

    /** `sendUserAction`: ignored for blank input or while a turn is in
        progress; otherwise the trimmed message is appended and the input
        cleared, and a `demo_` id is answered by the demo turn, any other id
        by the server, falling back to the demo turn when the server fails. */
    method SendUserAction(server: Option<ServerReply>, d: DemoDraws, scores: ScoreDraws)
      requires ValidDraws(d) && ValidScores(scores)
      modifies this
      ensures Trim(old(userInput)) == "" || old(isProcessing) ==>
        && conversationHistory == old(conversationHistory) && userInput == old(userInput)
        && isProcessing == old(isProcessing) && simulationState == old(simulationState)
        && finalReport == old(finalReport)
      ensures Trim(old(userInput)) != "" && !old(isProcessing) ==>
        && userInput == "" && !isProcessing
        && |conversationHistory| == |old(conversationHistory)| + 2
        && conversationHistory[..|old(conversationHistory)| + 1] == old(conversationHistory) + [User(Trim(old(userInput)))]
      ensures Trim(old(userInput)) != "" && !old(isProcessing) && server.None? ==>
        conversationHistory[|conversationHistory| - 1]
          == AgentEntry(DemoTransition(LatestAgentState(old(conversationHistory)), d))
      ensures Trim(old(userInput)) != "" && !old(isProcessing) &&
              old(simulationId).Some? && StartsWith(old(simulationId).value, "demo_") ==>
        conversationHistory[|conversationHistory| - 1]
          == AgentEntry(DemoTransition(LatestAgentState(old(conversationHistory)), d))
      ensures Trim(old(userInput)) != "" && !old(isProcessing) &&
              !(old(simulationId).Some? && StartsWith(old(simulationId).value, "demo_")) && server.Some? ==>
        && conversationHistory[|conversationHistory| - 1]
             == Agent(server.value.state, server.value.over, server.value.stakeholder)
        && finalReport == old(finalReport)
      ensures simulationState == old(simulationState) || (simulationState == Completed && finalReport.Some?)
      ensures simulationId == old(simulationId)
    {
      if Trim(userInput) == "" || isProcessing {
        return;
      }
      var userMessage := Trim(userInput);
      userInput := "";
      isProcessing := true;
      var stale := conversationHistory;
      conversationHistory := conversationHistory + [User(userMessage)];
      if simulationId.Some? && StartsWith(simulationId.value, "demo_") {
        HandleDemoAction(stale, d, scores);
        return;
      }
      if server.Some? {
        conversationHistory := conversationHistory
          + [Agent(server.value.state, server.value.over, server.value.stakeholder)];
      } else {
        HandleDemoAction(stale, d, scores);
      }
      isProcessing := false;
    }
  }

  /** The devops scenario's first turn reaches step 2, is not over, and keeps
      the scenario's gauges. */
  lemma DevopsFirstTurn(d: DemoDraws)
    requires ValidDraws(d)
    ensures var t := DemoTransition(DemoScenarioFor("devops-engineer").state, d);
      t.state.step == 2 && !t.over && "mttr" in t.state.extras && t.state.extras["mttr"] == 240
  {
    var start := DemoScenarioFor("devops-engineer").state;
    assert start.budget == 12000 && start.time == 360 && start.extras["mttr"] == 240;
  }

  /** A fresh devops demo: whitespace-only input is ignored, and the first
      action (any message that does not start with whitespace) moves the
      scenario to step 2 with its gauges kept. */
  method DemoWalkthrough(now: string, blank: string, message: string, d: DemoDraws, scores: ScoreDraws)
    requires forall i :: 0 <= i < |blank| ==> IsSpace(blank[i])
    requires message != "" && !IsSpace(message[0])
    requires ValidDraws(d) && ValidScores(scores)
  {
    ghost var start := DemoScenarioFor("devops-engineer").state;
    DevopsFirstTurn(d);
    ghost var t := DemoTransition(start, d);
    var screen := new EnhancedSimulation();
    screen.StartDemoSimulation("devops-engineer", now);
    ghost var initial := screen.conversationHistory;
    assert LatestAgentState(initial) == start;
    screen.userInput := blank;
    assert Trim(blank) == "" by {
      TrimEmptyIffBlank(blank);
    }
    screen.SendUserAction(None, d, scores);
    assert screen.conversationHistory == initial && !screen.isProcessing;
    assert Trim(message) != "" by {
      TrimEmptyIffBlank(message);
    }
    screen.userInput := message;
    screen.SendUserAction(None, d, scores);
    assert |screen.conversationHistory| == 3;
    var last := screen.conversationHistory[2];
    assert last == AgentEntry(t);
    assert last.Agent? && last.state.step == 2 && !last.over;
    assert last.state.extras["mttr"] == 240;
  }
}
