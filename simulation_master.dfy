/** Model of `ImprovedSimulationMaster` (lib/improved-simulation-master-clean.js):
    the scenario catalogue, the difficulty adjustment, the scripted fallback
    responder, the reply-shape check, and the in-memory session store with its
    start / execute / status / end operations.

    The model call and the JSON extraction behind it are one oracle, `Upstream`;
    ids, clock readings and random draws arrive as parameters. */
module SimulationMaster {
  import opened Wrappers
  import opened Text
  import Seqs

  // ---------------------------------------------------------------------------
  // Scenario catalogue

  /** The numeric scenario state `{budget, time, step}`. */
  datatype SimState = SimState(budget: int, time: int, step: int)

  datatype Scenario = Scenario(title: string, objective: string, initialState: SimState)

  /** A simulation pack: role, competencies, scenario templates and event library
      (the evaluation rubric is prose only and is not modelled). */
  datatype Pack = Pack(
    roleName: string,
    keyCompetencies: seq<string>,
    scenarioTemplates: seq<Scenario>,
    stakeholderEvents: seq<string>,
    technicalEvents: seq<string>)

  const CloudArchitect: Pack := Pack(
    "Senior Cloud Solutions Architect",
    ["Infrastructure Design", "Cost Optimization", "Security Implementation", "Scalability Planning"],
    [Scenario("Fintech Infrastructure Scaling",
              "Design scalable cloud infrastructure for Rwanda fintech platform",
              SimState(15000, 480, 1))],
    ["CEO demands cost reduction", "Regulatory authority requires compliance"],
    ["Data center power outage", "Traffic spike causes load increase"])

  /** `packTemplates[roleType] || packTemplates['cloud-architect']`: the table
      holds only the cloud-architect pack, so every role type gets it. */
  function TemplateFor(roleType: string): (p: Pack)
    ensures p == CloudArchitect
  {
    if roleType == "cloud-architect" then CloudArchitect else CloudArchitect
  }

  // ---------------------------------------------------------------------------
  // Difficulty adjustment

  /** An exact multiplier `num / den`. */
  datatype Multiplier = Multiplier(num: nat, den: nat)

  datatype Adjustment = Adjustment(budget: Multiplier, time: Multiplier)

  /** `adjustments[difficulty] || adjustments.intermediate`:
      beginner 1.5 / 1.3, advanced 0.8 / 0.8, anything else 1.0 / 1.0. */
  function AdjustmentFor(difficulty: string): (a: Adjustment)
    ensures a.budget.den > 0 && a.time.den > 0
    ensures a.budget.num > 0 && a.time.num > 0
  {
    if difficulty == "beginner" then Adjustment(Multiplier(3, 2), Multiplier(13, 10))
    else if difficulty == "advanced" then Adjustment(Multiplier(4, 5), Multiplier(4, 5))
    else Adjustment(Multiplier(1, 1), Multiplier(1, 1))
  }

  /** `Math.round(n / d)`: the integer nearest to `n / d`, halves rounded up. */
  function RoundHalfUp(n: int, d: int): int
    requires d > 0
  {
    (2 * n + d) / (2 * d)
  }

  /** `RoundHalfUp(n, d)` is the integer nearest to n / d, halves going up. */
  lemma RoundHalfUpNearest(n: int, d: int)
    requires d > 0
    ensures var r := RoundHalfUp(n, d); 2 * d * r - d <= 2 * n < 2 * d * r + d
  {
    var q := (2 * n + d) / (2 * d);
    assert q * (2 * d) <= 2 * n + d < q * (2 * d) + 2 * d;
  }

  /** `Math.round(x * multiplier)`. */
  function Scale(x: int, m: Multiplier): int
    requires m.den > 0
  {
    RoundHalfUp(x * m.num, m.den)
  }

  function AdjustState(s: SimState, a: Adjustment): SimState
    requires a.budget.den > 0 && a.time.den > 0
  {
    s.(budget := Scale(s.budget, a.budget), time := Scale(s.time, a.time))
  }

  function AdjustScenario(s: Scenario, a: Adjustment): Scenario
    requires a.budget.den > 0 && a.time.den > 0
  {
    s.(initialState := AdjustState(s.initialState, a))
  }

  /** The pack `adjustPackDifficulty` returns: a copy in which every scenario's
      initial budget and time are rescaled, nothing else changed. */
  function Adjusted(basePack: Pack, difficulty: string): Pack {
    var a := AdjustmentFor(difficulty);
    basePack.(scenarioTemplates :=
      seq(|basePack.scenarioTemplates|,
          i requires 0 <= i < |basePack.scenarioTemplates| => AdjustScenario(basePack.scenarioTemplates[i], a)))
  }

  /** `adjustPackDifficulty`: deep-copies the pack and rescales each scenario in
      a loop. Being a value, `basePack` itself is left as it was. */
  method AdjustPackDifficulty(basePack: Pack, difficulty: string) returns (adjustedPack: Pack)
    ensures adjustedPack == Adjusted(basePack, difficulty)
  {
    var adjustment := AdjustmentFor(difficulty);
    var scenarios := basePack.scenarioTemplates;
    var i := 0;
    while i < |scenarios|
      invariant 0 <= i <= |scenarios| == |basePack.scenarioTemplates|
      invariant forall j :: 0 <= j < i ==> scenarios[j] == AdjustScenario(basePack.scenarioTemplates[j], adjustment)
      invariant forall j :: i <= j < |scenarios| ==> scenarios[j] == basePack.scenarioTemplates[j]
    {
      scenarios := scenarios[i := AdjustScenario(scenarios[i], adjustment)];
      i := i + 1;
    }
    adjustedPack := basePack.(scenarioTemplates := scenarios);
  }

  /** The pack `generateSimulationPack(roleType, difficulty)` produces. */
  function SimulationPack(roleType: string, difficulty: Option<string>): Pack {
    Adjusted(TemplateFor(roleType), OrElse(difficulty, "intermediate"))
  }

  /** `generateSimulationPack`: template lookup with the cloud-architect
      default, difficulty defaulting to 'intermediate', then the adjustment. */
  method GenerateSimulationPack(roleType: string, difficulty: Option<string>) returns (pack: Pack)
    ensures pack == SimulationPack(roleType, difficulty)
  {
    var level := OrElse(difficulty, "intermediate");
    var template := TemplateFor(roleType);
    pack := AdjustPackDifficulty(template, level);
  }

  /** Every role type yields the cloud-architect pack with one scenario, whose
      step is 1 and whose budget and time are the template's rescaled by the
      difficulty (missing or empty difficulty counts as 'intermediate'). */
  lemma SimulationPackShape(roleType: string, difficulty: Option<string>)
    ensures var p := SimulationPack(roleType, difficulty);
      && p.roleName == CloudArchitect.roleName
      && p.keyCompetencies == CloudArchitect.keyCompetencies
      && |p.scenarioTemplates| == 1
      && p.scenarioTemplates[0].initialState
         == AdjustState(SimState(15000, 480, 1), AdjustmentFor(OrElse(difficulty, "intermediate")))
  {
  }

  /** The multipliers at work: beginner 1.5 / 1.3, advanced 0.8, and every
      other difficulty leaves budget and time unchanged. */
  lemma {:induction false} DifficultyScaling(s: SimState, difficulty: string)
    ensures difficulty != "beginner" && difficulty != "advanced" ==>
      AdjustState(s, AdjustmentFor(difficulty)) == s
    ensures difficulty == "beginner" ==>
      var r := AdjustState(s, AdjustmentFor(difficulty));
      4 * r.budget - 2 <= 6 * s.budget < 4 * r.budget + 2 &&
      20 * r.time - 10 <= 26 * s.time < 20 * r.time + 10
    ensures difficulty == "advanced" ==>
      var r := AdjustState(s, AdjustmentFor(difficulty));
      10 * r.budget - 5 <= 8 * s.budget < 10 * r.budget + 5 &&
      10 * r.time - 5 <= 8 * s.time < 10 * r.time + 5
    ensures s.budget >= 0 && s.time >= 0 ==>
      var r := AdjustState(s, AdjustmentFor(difficulty));
      r.budget >= 0 && r.time >= 0 && r.step == s.step
  {
    var a := AdjustmentFor(difficulty);
    var r := AdjustState(s, a);
    if difficulty == "beginner" {
      assert a == Adjustment(Multiplier(3, 2), Multiplier(13, 10));
      assert r.budget == RoundHalfUp(s.budget * 3, 2) && r.time == RoundHalfUp(s.time * 13, 10);
      RoundHalfUpNearest(s.budget * 3, 2);
      RoundHalfUpNearest(s.time * 13, 10);
    } else if difficulty == "advanced" {
      assert a == Adjustment(Multiplier(4, 5), Multiplier(4, 5));
      assert r.budget == RoundHalfUp(s.budget * 4, 5) && r.time == RoundHalfUp(s.time * 4, 5);
      RoundHalfUpNearest(s.budget * 4, 5);
      RoundHalfUpNearest(s.time * 4, 5);
    } else {
      assert a == Adjustment(Multiplier(1, 1), Multiplier(1, 1));
      assert r.budget == RoundHalfUp(s.budget * 1, 1) && r.time == RoundHalfUp(s.time * 1, 1);
      RoundHalfUpNearest(s.budget * 1, 1);
      RoundHalfUpNearest(s.time * 1, 1);
      assert 2 * r.budget - 1 <= 2 * s.budget < 2 * r.budget + 1;
      assert 2 * r.time - 1 <= 2 * s.time < 2 * r.time + 1;
    }
  }

  /** The cloud template's 15000 / 480 becomes 22500 / 624 for beginners and
      12000 / 384 for advanced users. */
  lemma DifficultyExamples()
    ensures SimulationPack("cloud-architect", Some("beginner")).scenarioTemplates[0].initialState
            == SimState(22500, 624, 1)
    ensures SimulationPack("cloud-architect", Some("advanced")).scenarioTemplates[0].initialState
            == SimState(12000, 384, 1)
    ensures SimulationPack("data-scientist", None).scenarioTemplates[0].initialState
            == SimState(15000, 480, 1)
  {
    SimulationPackShape("cloud-architect", Some("beginner"));
    SimulationPackShape("cloud-architect", Some("advanced"));
    SimulationPackShape("data-scientist", None);
  }

  // ---------------------------------------------------------------------------
  // Turn results: model replies, the reply-shape check and the scripted fallback

  /** Which canned reply of `generateFallbackResponse` was chosen. */
  datatype Cue = StartCue | ActionCue

  datatype Narration =
    | ModelText(text: string)               // text produced by the model
    | Scripted(roleName: string, cue: Cue)  // a canned reply of the fallback table, for the pack's role
    | ParseApology                          // the apology sent for a malformed reply

  /** `{responseText, updatedState, isStakeholderMessage, isSimulationOver,
      finalArtifact, error}`. */
  datatype TurnResult = TurnResult(
    responseText: Narration,
    updatedState: SimState,
    isStakeholderMessage: bool,
    isSimulationOver: bool,
    finalArtifact: Option<string>,
    error: Option<string>)

  /** A reply object as `JSON.parse` produced it: every field may be absent. */
  datatype ParsedReply = ParsedReply(
    responseText: Option<string>,
    updatedState: Option<SimState>,
    isStakeholderMessage: Option<bool>,
    isSimulationOver: Option<bool>,
    finalArtifact: Option<string>)

  /** What the regex extraction and `JSON.parse` make of the model's text. */
  datatype Extracted = NoJson | InvalidJson(message: string) | Parsed(reply: ParsedReply)

  /** What happened when the model was called: it threw, or it returned text. */
  datatype Upstream = CallFailed | Replied(extracted: Extracted)

  const RequiredFields: seq<string> := ["responseText", "updatedState", "isStakeholderMessage", "isSimulationOver"]

  /** `field in parsed` for the four required fields. */
  predicate HasField(p: ParsedReply, field: string) {
    if field == "responseText" then p.responseText.Some?
    else if field == "updatedState" then p.updatedState.Some?
    else if field == "isStakeholderMessage" then p.isStakeholderMessage.Some?
    else if field == "isSimulationOver" then p.isSimulationOver.Some?
    else p.finalArtifact.Some?
  }

  /** The reply carries the four required fields (`finalArtifact` is optional). */
  predicate Complete(p: ParsedReply) {
    p.responseText.Some? && p.updatedState.Some? && p.isStakeholderMessage.Some? && p.isSimulationOver.Some?
  }

  /** The `for (const field of required)` check: the first field, in order, that
      the reply lacks. */
  function FirstMissing(p: ParsedReply, fields: seq<string>): (r: Option<string>)
    ensures r.None? <==> forall i :: 0 <= i < |fields| ==> HasField(p, fields[i])
    ensures r.Some? ==> r.value in fields && !HasField(p, r.value)
    ensures r.Some? ==> exists i :: 0 <= i < |fields| && fields[i] == r.value && forall j :: 0 <= j < i ==> HasField(p, fields[j])
    decreases |fields|
  {
    if fields == [] then None
    else if !HasField(p, fields[0]) then Some(fields[0])
    else
      var rest := FirstMissing(p, fields[1..]);
      if rest.Some? then
        var i :| 0 <= i < |fields| - 1 && fields[1..][i] == rest.value && forall j :: 0 <= j < i ==> HasField(p, fields[1..][j]);
        assert fields[i + 1] == rest.value && forall j :: 0 <= j < i + 1 ==> HasField(p, fields[j]);
        rest
      else rest
  }

  /** `parseSimulationResponse`: a reply with all four required fields is
      used as it is; anything else (no JSON, invalid JSON, a missing field)
      becomes a terminal error response with state {0, 0, 0}. */
  function ParseSimulationResponse(e: Extracted): (r: TurnResult)
    ensures e.Parsed? && Complete(e.reply) ==>
      r.responseText == ModelText(e.reply.responseText.value)
      && r.updatedState == e.reply.updatedState.value
      && r.isStakeholderMessage == e.reply.isStakeholderMessage.value
      && r.isSimulationOver == e.reply.isSimulationOver.value
      && r.finalArtifact == e.reply.finalArtifact
      && r.error.None?
    ensures !(e.Parsed? && Complete(e.reply)) ==>
      r.responseText == ParseApology
      && r.updatedState == SimState(0, 0, 0)
      && r.isSimulationOver && !r.isStakeholderMessage
      && r.finalArtifact.None? && r.error.Some?
  {
    var failure := (message: string) =>
      TurnResult(ParseApology, SimState(0, 0, 0), false, true, None, Some(message));
    match e
    case NoJson => failure("No JSON found in response")
    case InvalidJson(message) => failure(message)
    case Parsed(p) =>
      match FirstMissing(p, RequiredFields)
      case Some(field) => failure("Missing required field: " + field)
      case None =>
        assert HasField(p, RequiredFields[0]) && HasField(p, RequiredFields[1]);
        assert HasField(p, RequiredFields[2]) && HasField(p, RequiredFields[3]);
        TurnResult(ModelText(p.responseText.value), p.updatedState.value,
                   p.isStakeholderMessage.value, p.isSimulationOver.value, p.finalArtifact, None)
  }

  const ScriptedRoles: set<string> := {"cloud-architect", "devops-engineer", "cybersecurity-analyst", "ux-designer"}

  /** `pack.roleName.toLowerCase().replace(/\s+/g, '-')`. */
  function RoleKey(roleName: string): string {
    DashSpaces(Lower(roleName))
  }

  /** `roleResponses[key] || roleResponses['cloud-architect']`. */
  function ScriptedRole(key: string): (k: string)
    ensures k in ScriptedRoles
    ensures key in ScriptedRoles ==> k == key
  {
    if key in ScriptedRoles then key else "cloud-architect"
  }

  /** The entry of the reply table a scripted reply for the role named
      `roleName` is taken from. */
  function ScriptedRoleFor(roleName: string): (k: string)
    ensures k in ScriptedRoles
  {
    ScriptedRole(RoleKey(roleName))
  }

  function Max(a: int, b: int): int {
    if a >= b then a else b
  }

  /** `generateFallbackResponse(pack, type)`: a scripted reply whose budget and
      time come from the pack's INITIAL state (less 1000 and 30, floored at
      zero), whose step is 1 for 'start' and 2 otherwise, and which never ends
      the simulation. `stakeholderDraw` stands for `Math.random() > 0.7`. */
  function FallbackResponse(pack: Pack, kind: Option<string>, stakeholderDraw: bool): (r: TurnResult)
    requires |pack.scenarioTemplates| > 0
    ensures var init := pack.scenarioTemplates[0].initialState;
      && r.updatedState.budget >= 0 && r.updatedState.time >= 0
      && (init.budget >= 1000 ==> r.updatedState.budget == init.budget - 1000)
      && (init.budget < 1000 ==> r.updatedState.budget == 0)
      && (init.time >= 30 ==> r.updatedState.time == init.time - 30)
      && (init.time < 30 ==> r.updatedState.time == 0)
    ensures r.updatedState.step == if OrElse(kind, "action") == "start" then 1 else 2
    ensures r.responseText.Scripted? && r.responseText.roleName == pack.roleName
    ensures r.responseText.cue == if OrElse(kind, "action") == "start" then StartCue else ActionCue
    ensures !r.isSimulationOver && r.finalArtifact.None? && r.error.None?
    ensures r.isStakeholderMessage == stakeholderDraw
  {
    var cue := if OrElse(kind, "action") == "start" then StartCue else ActionCue;
    var init := pack.scenarioTemplates[0].initialState;
    TurnResult(
      Scripted(pack.roleName, cue),
      SimState(Max(0, init.budget - 1000), Max(0, init.time - 30), if cue == StartCue then 1 else 2),
      stakeholderDraw, false, None, None)
  }

  /** A role name whose key does not start with 'c', 'd' or 'u' is not in
      the reply table, so it is answered with the cloud-architect replies. */
  lemma UnscriptedInitial(name: string)
    requires name != [] && !IsSpace(name[0])
    requires LowerChar(name[0]) != 'c' && LowerChar(name[0]) != 'd' && LowerChar(name[0]) != 'u'
    ensures ScriptedRoleFor(name) == "cloud-architect"
  {
    var lowered := Lower(name);
    assert lowered[0] == LowerChar(name[0]);
    var key := RoleKey(name);
    assert key[0] == LowerChar(name[0]);
    assert key !in ScriptedRoles by {
      assert "cloud-architect"[0] == 'c' && "devops-engineer"[0] == 'd';
      assert "cybersecurity-analyst"[0] == 'c' && "ux-designer"[0] == 'u';
    }
  }

  /** The key of the cloud-architect pack's role name, "senior-cloud-solutions-architect",
      is not in the reply table. */
  lemma CloudRoleUnscripted()
    ensures ScriptedRoleFor(CloudArchitect.roleName) == "cloud-architect"
  {
    assert CloudArchitect.roleName[0] == 'S';
    UnscriptedInitial(CloudArchitect.roleName);
  }

  /** The role key of the only pack is not in the reply table, so the
      scripted replies are always the cloud-architect ones, whatever role
      was asked for. */
  lemma FallbackUsesCloudReplies(roleType: string, difficulty: Option<string>, kind: Option<string>, draw: bool)
    ensures ScriptedRoleFor(FallbackResponse(SimulationPack(roleType, difficulty), kind, draw).responseText.roleName)
            == "cloud-architect"
  {
    SimulationPackShape(roleType, difficulty);
    CloudRoleUnscripted();
  }

  // ---------------------------------------------------------------------------
  // Sessions

  datatype HistoryEntry = HistoryEntry(userAction: string, response: TurnResult, timestamp: string)

  /** One record of `activeSimulations`. */
  datatype Session = Session(
    id: string,
    pack: Pack,
    currentState: SimState,
    history: seq<HistoryEntry>,
    startTime: string,
    userProfile: map<string, string>)

  /** The per-call inputs the source takes from its environment: the generated
      id, the clock, what the model call did, and `Math.random() > 0.7`. */
  datatype Env = Env(simulationId: string, now: string, upstream: Upstream, stakeholderDraw: bool)

  /** The turn result for one call: the fallback when there is no model or the
      call threw, otherwise the checked reply. */
  function Respond(pack: Pack, kind: string, hasModel: bool, env: Env): (r: TurnResult)
    requires |pack.scenarioTemplates| > 0
    ensures !hasModel || env.upstream.CallFailed? ==> r == FallbackResponse(pack, Some(kind), env.stakeholderDraw)
    ensures hasModel && env.upstream.Replied? ==> r == ParseSimulationResponse(env.upstream.extracted)
  {
    if hasModel && env.upstream.Replied? then ParseSimulationResponse(env.upstream.extracted)
    else FallbackResponse(pack, Some(kind), env.stakeholderDraw)
  }

  /** Every start or turn response is either a scripted fallback that does not
      end the simulation, or derived from a model reply; a fallback reply is
      used only when there is no model or the call threw. */
  lemma {:induction false} RespondCases(pack: Pack, kind: string, hasModel: bool, env: Env)
    requires |pack.scenarioTemplates| > 0
    ensures var r := Respond(pack, kind, hasModel, env);
      r.responseText.Scripted? <==> (!hasModel || env.upstream.CallFailed?)
    ensures var r := Respond(pack, kind, hasModel, env);
      r.responseText.Scripted? ==> !r.isSimulationOver && r.updatedState.budget >= 0 && r.updatedState.time >= 0
  {
    var r := Respond(pack, kind, hasModel, env);
    if hasModel && env.upstream.Replied? {
      var e := env.upstream.extracted;
      if e.Parsed? && Complete(e.reply) {
        assert r.responseText.ModelText?;
      } else {
        assert r.responseText == ParseApology;
      }
    }
  }

  /** The session `startSimulation` stores: the adjusted pack, its initial
      state as current state, and the single 'SIMULATION_START' entry. */
  function StartedSession(roleType: string, difficulty: Option<string>, userProfile: map<string, string>,
                          hasModel: bool, env: Env): (s: Session)
    ensures |s.history| == 1 && s.history[0].userAction == "SIMULATION_START"
    ensures |s.pack.scenarioTemplates| == 1
    ensures s.currentState == s.pack.scenarioTemplates[0].initialState
    ensures s.id == env.simulationId
  {
    var pack := SimulationPack(roleType, difficulty);
    SimulationPackShape(roleType, difficulty);
    var response := Respond(pack, "start", hasModel, env);
    Session(env.simulationId, pack, pack.scenarioTemplates[0].initialState,
            [HistoryEntry("SIMULATION_START", response, env.now)], env.now, userProfile)
  }

  /** Applying one turn: exactly one entry appended, the current state replaced
      by the result's `updatedState`, nothing else changed. */
  function ApplyTurn(s: Session, userAction: string, r: TurnResult, timestamp: string): (s': Session)
    ensures |s'.history| == |s.history| + 1
    ensures s'.history[..|s.history|] == s.history
    ensures s'.history[|s.history|] == HistoryEntry(userAction, r, timestamp)
    ensures s'.currentState == r.updatedState
    ensures s' == s.(currentState := s'.currentState, history := s'.history)
  {
    s.(currentState := r.updatedState, history := s.history + [HistoryEntry(userAction, r, timestamp)])
  }

  /** `history.some(h => h.response.isSimulationOver)`. */
  predicate AnyOver(h: seq<HistoryEntry>)
    decreases |h|
  {
    h != [] && (h[0].response.isSimulationOver || AnyOver(h[1..]))
  }

  lemma {:induction false} AnyOverIff(h: seq<HistoryEntry>)
    ensures AnyOver(h) <==> exists i :: 0 <= i < |h| && h[i].response.isSimulationOver
    decreases |h|
  {
    if h != [] {
      AnyOverIff(h[1..]);
      if AnyOver(h[1..]) {
        var i :| 0 <= i < |h[1..]| && h[1..][i].response.isSimulationOver;
        assert h[i + 1] == h[1..][i];
      }
      if exists i :: 0 <= i < |h| && h[i].response.isSimulationOver {
        var i :| 0 <= i < |h| && h[i].response.isSimulationOver;
        if i > 0 {
          assert h[1..][i - 1] == h[i];
        }
      }
    }
  }

  datatype Status = Status(
    id: string,
    currentState: SimState,
    progress: nat,
    startTime: string,
    roleType: string,
    keyCompetencies: seq<string>,
    isActive: bool)

  /** The status object of `getSimulationStatus` for a known session. */
  function StatusOf(s: Session): (st: Status)
    ensures st.progress == |s.history|
    ensures st.currentState == s.currentState
    ensures st.isActive <==> forall i :: 0 <= i < |s.history| ==> !s.history[i].response.isSimulationOver
  {
    AnyOverIff(s.history);
    Status(s.id, s.currentState, |s.history|, s.startTime, s.pack.roleName, s.pack.keyCompetencies,
           !AnyOver(s.history))
  }

  /** Once a turn ends the simulation the session is never active again; a
      turn that does not end it leaves activity as it was. */
  lemma {:induction false} ActivityAfterTurn(s: Session, userAction: string, r: TurnResult, timestamp: string)
    ensures StatusOf(ApplyTurn(s, userAction, r, timestamp)).isActive
            <==> StatusOf(s).isActive && !r.isSimulationOver
  {
    var s' := ApplyTurn(s, userAction, r, timestamp);
    var n := |s.history|;
    if StatusOf(s).isActive && !r.isSimulationOver {
      forall i | 0 <= i < |s'.history| ensures !s'.history[i].response.isSimulationOver {
        if i < n {
          assert s'.history[i] == s.history[i];
        }
      }
    }
    if !StatusOf(s).isActive {
      var i :| 0 <= i < n && s.history[i].response.isSimulationOver;
      assert s'.history[i] == s.history[i];
    }
    if r.isSimulationOver {
      assert s'.history[n].response.isSimulationOver;
    }
  }

  /** A freshly started session is active exactly when its start response did
      not end the simulation; with the scripted start it always is. */
  lemma StartedSessionActivity(roleType: string, difficulty: Option<string>, userProfile: map<string, string>,
                               hasModel: bool, env: Env)
    ensures var s := StartedSession(roleType, difficulty, userProfile, hasModel, env);
      StatusOf(s).isActive <==> !s.history[0].response.isSimulationOver
    ensures !hasModel ==> StatusOf(StartedSession(roleType, difficulty, userProfile, hasModel, env)).isActive
  {
  }

  /** Random report scores `Math.floor(Math.random() * k) + base`, as the
      integers drawn before adding the base. */
  datatype ReportDraws = ReportDraws(overall: int, technical: int, problemSolving: int)

  predicate ValidDraws(d: ReportDraws) {
    0 <= d.overall < 30 && 0 <= d.technical < 20 && 0 <= d.problemSolving < 25
  }

  datatype Report = Report(
    simulationId: string,
    overallScore: int,
    technicalScore: int,
    problemSolvingScore: int,
    strengths: seq<string>,
    improvements: seq<string>,
    completedAt: string,
    totalSteps: nat,
    roleType: string,
    difficulty: string)

  /** `generatePerformanceReport`: placeholder scores within their bands, and
      `totalSteps` equal to the number of history entries. */
  function PerformanceReport(s: Session, draws: ReportDraws, now: string): (r: Report)
    requires ValidDraws(draws)
    ensures r.simulationId == s.id && r.totalSteps == |s.history|
    ensures 70 <= r.overallScore <= 99 && 75 <= r.technicalScore <= 94 && 70 <= r.problemSolvingScore <= 94
    ensures r.difficulty == "intermediate" && r.roleType == s.pack.roleName
  {
    Report(s.id, draws.overall + 70, draws.technical + 75, draws.problemSolving + 70,
           ["Strong technical foundation"], ["Consider cost implications more carefully"],
           now, |s.history|, s.pack.roleName, "intermediate")
  }

  datatype Metadata = Metadata(roleType: string, difficulty: Option<string>, estimatedDuration: int,
                               keyCompetencies: seq<string>)

  datatype StartReply = StartReply(simulationId: string, initialResponse: TurnResult, metadata: Metadata)

  // ---------------------------------------------------------------------------
  // The session store

  /** Filing a record under an id adds exactly that id to the store. */
  lemma StoreGrows(store: map<string, Session>, id: string, s: Session)
    ensures store[id := s].Keys == store.Keys + {id}
    ensures id !in store ==> |store[id := s]| == |store| + 1
  {
    if id !in store {
      Seqs.MapInsertSize(store, id, s);
    }
  }

  class ImprovedSimulationMaster {
    /** `this.model` is non-null. */
    var hasModel: bool
    var activeSimulations: map<string, Session>

    /** Every stored record is filed under its own id and has a scenario. */
    ghost predicate Valid()
      reads this
    {
      forall id :: id in activeSimulations ==>
        activeSimulations[id].id == id && |activeSimulations[id].pack.scenarioTemplates| > 0
    }

    /** `modelAvailable` says whether an API key was set and the model client
        could be created. */
    constructor (modelAvailable: bool)
      ensures Valid()
      ensures hasModel == modelAvailable && activeSimulations == map[]
    {
      hasModel := modelAvailable;
      activeSimulations := map[];
    }

    /** `startSimulation`: registers the session under `env.simulationId` (a
        colliding id overwrites, as `Map.set` does), asks the model or the
        fallback for the opening reply, and records it as the one
        'SIMULATION_START' entry. The current state stays the adjusted
        initial state. */
    method StartSimulation(roleType: string, difficulty: Option<string>, userProfile: map<string, string>, env: Env)
      returns (reply: StartReply)
      requires Valid()
      modifies this
      ensures Valid() && hasModel == old(hasModel)
      ensures activeSimulations == old(activeSimulations)[env.simulationId :=
                StartedSession(roleType, difficulty, userProfile, hasModel, env)]
      ensures activeSimulations.Keys == old(activeSimulations).Keys + {env.simulationId}
      ensures env.simulationId !in old(activeSimulations) ==> |activeSimulations| == |old(activeSimulations)| + 1
      ensures var s := activeSimulations[env.simulationId];
        && reply.simulationId == env.simulationId
        && reply.initialResponse == s.history[0].response
        && reply.metadata.estimatedDuration == s.pack.scenarioTemplates[0].initialState.time
        && reply.metadata.keyCompetencies == s.pack.keyCompetencies
        && reply.metadata.difficulty == difficulty
    {
      var pack := GenerateSimulationPack(roleType, difficulty);
      ghost var expected := StartedSession(roleType, difficulty, userProfile, hasModel, env);
      assert pack == expected.pack;
      ghost var before := activeSimulations;
      var simulation := Session(env.simulationId, pack, pack.scenarioTemplates[0].initialState, [], env.now, userProfile);
      activeSimulations := activeSimulations[env.simulationId := simulation];
      var response := Respond(pack, "start", hasModel, env);
      simulation := simulation.(history := simulation.history + [HistoryEntry("SIMULATION_START", response, env.now)]);
      assert simulation == expected;
      activeSimulations := activeSimulations[env.simulationId := simulation];
      assert activeSimulations == before[env.simulationId := simulation];
      StoreGrows(before, env.simulationId, simulation);
      reply := StartReply(env.simulationId, response,
        Metadata(roleType, difficulty, pack.scenarioTemplates[0].initialState.time, pack.keyCompetencies));
    }

    /** `executeSimulation`: an unknown id throws 'Simulation not found' and
        changes nothing; otherwise, on every path, exactly one entry is
        appended and the current state becomes the returned `updatedState`.
        The caller-supplied `currentState` is ignored, as in the source. */
    method ExecuteSimulation(simulationId: string, userAction: string, currentState: Option<SimState>, env: Env)
      returns (r: Result<TurnResult, string>)
      requires Valid()
      modifies this
      ensures Valid() && hasModel == old(hasModel)
      ensures simulationId !in old(activeSimulations) ==>
        r == Err("Simulation not found") && activeSimulations == old(activeSimulations)
      ensures simulationId in old(activeSimulations) ==>
        var s := old(activeSimulations)[simulationId];
        && r == Ok(Respond(s.pack, "action", hasModel, env))
        && activeSimulations == old(activeSimulations)[simulationId := ApplyTurn(s, userAction, r.value, env.now)]
    {
      if simulationId !in activeSimulations {
        return Err("Simulation not found");
      }
      var simulation := activeSimulations[simulationId];
      var response: TurnResult;
      if hasModel && env.upstream.Replied? {
        response := ParseSimulationResponse(env.upstream.extracted);
      } else {
        response := FallbackResponse(simulation.pack, Some("action"), env.stakeholderDraw);
      }
      simulation := simulation.(currentState := response.updatedState);
      simulation := simulation.(history := simulation.history + [HistoryEntry(userAction, response, env.now)]);
      activeSimulations := activeSimulations[simulationId := simulation];
      r := Ok(response);
    }

    /** `getSimulationStatus`: null for an unknown id, otherwise the status,
        whose progress is the history length. */
    function GetSimulationStatus(simulationId: string): (st: Option<Status>)
      reads this
      ensures st.None? <==> simulationId !in activeSimulations
      ensures st.Some? ==>
        && st.value.progress == |activeSimulations[simulationId].history|
        && (st.value.isActive <==> !AnyOver(activeSimulations[simulationId].history))
        && st.value.currentState == activeSimulations[simulationId].currentState
    {
      if simulationId in activeSimulations then Some(StatusOf(activeSimulations[simulationId])) else None
    }

    /** `endSimulation`: an unknown id throws; otherwise the report is built
        from the session and the id is deleted, so a second call throws. */
    method EndSimulation(simulationId: string, draws: ReportDraws, now: string)
      returns (r: Result<Report, string>)
      requires Valid() && ValidDraws(draws)
      modifies this
      ensures Valid() && hasModel == old(hasModel)
      ensures simulationId !in old(activeSimulations) ==>
        r == Err("Simulation not found") && activeSimulations == old(activeSimulations)
      ensures simulationId in old(activeSimulations) ==>
        && r == Ok(PerformanceReport(old(activeSimulations)[simulationId], draws, now))
        && activeSimulations == old(activeSimulations) - {simulationId}
      ensures simulationId !in activeSimulations
    {
      if simulationId !in activeSimulations {
        return Err("Simulation not found");
      }
      var report := PerformanceReport(activeSimulations[simulationId], draws, now);
      activeSimulations := activeSimulations - {simulationId};
      r := Ok(report);
    }
  }

  /** The cloud-architect session at intermediate difficulty starts from the
      unscaled state at step 1, not over. */
  lemma CloudStart(env: Env)
    requires env.upstream.CallFailed?
    ensures var s := StartedSession("cloud-architect", Some("intermediate"), map[], true, env);
      s.currentState == SimState(15000, 480, 1) && !AnyOver(s.history)
  {
    SimulationPackShape("cloud-architect", Some("intermediate"));
    DifficultyScaling(SimState(15000, 480, 1), "intermediate");
    var s := StartedSession("cloud-architect", Some("intermediate"), map[], true, env);
    assert !s.history[0].response.isSimulationOver;
    assert s.history[1..] == [];
  }

  /** Its first action, answered by the fallback, costs 1000 and 30 minutes
      and leaves the session running. */
  lemma CloudFirstTurn(s: Session, action: string, env: Env)
    requires |s.pack.scenarioTemplates| > 0 && s.pack.scenarioTemplates[0].initialState == SimState(15000, 480, 1)
    requires env.upstream.CallFailed?
    ensures var r := Respond(s.pack, "action", true, env);
      && !r.isSimulationOver && ApplyTurn(s, action, r, env.now).currentState == SimState(14000, 450, 2)
  {
  }

  /** The session walk-through that the store's contracts allow a caller to
      derive: start a cloud-architect session at intermediate difficulty, take
      one action while the model is failing, end it, and end it again. */
  method SessionWalkthrough(draws: ReportDraws)
    requires ValidDraws(draws)
  {
    var master := new ImprovedSimulationMaster(true);
    var startEnv := Env("sim_1", "t0", CallFailed, false);
    var started := master.StartSimulation("cloud-architect", Some("intermediate"), map[], startEnv);
    CloudStart(startEnv);
    var s := master.activeSimulations["sim_1"];
    assert s.currentState == SimState(15000, 480, 1) && |s.history| == 1;
    assert master.GetSimulationStatus("sim_1").value.isActive;

    var turnEnv := Env("sim_x", "t1", CallFailed, false);
    CloudFirstTurn(s, "Deploy to a single region", turnEnv);
    var turn := master.ExecuteSimulation("sim_1", "Deploy to a single region", None, turnEnv);
    s := master.activeSimulations["sim_1"];
    assert s.currentState == SimState(14000, 450, 2) && |s.history| == 2;
    assert !turn.value.isSimulationOver;

    var missing := master.ExecuteSimulation("sim_2", "anything", None, Env("sim_y", "t2", CallFailed, false));
    assert missing.Err? && master.activeSimulations.Keys == {"sim_1"};

    var report := master.EndSimulation("sim_1", draws, "t3");
    assert report.Ok? && report.value.totalSteps == 2;
    var again := master.EndSimulation("sim_1", draws, "t4");
    assert again == Err("Simulation not found");
  }
}
