/** Model of the lookup tables and the branching of
    app/api/simulator/generate/route.js: estimated durations, difficulty
    scores, the fallback scenarios, and how `POST` chooses between a
    generated scenario, a fallback and an error. Scenario generation is an
    LLM call whose outcome is a parameter. */
module Generate {
  import opened Wrappers
  import opened Text

  const Types: set<string> := {"cloud", "devops", "cybersecurity", "ux-design"}
  const Levels: set<string> := {"beginner", "intermediate", "advanced"}

  /** Base minutes by type and level. */
  const BaseDurations: map<string, map<string, int>> := map[
    "cloud" := map["beginner" := 45, "intermediate" := 90, "advanced" := 120],
    "devops" := map["beginner" := 60, "intermediate" := 120, "advanced" := 180],
    "cybersecurity" := map["beginner" := 30, "intermediate" := 75, "advanced" := 150],
    "ux-design" := map["beginner" := 90, "intermediate" := 150, "advanced" := 240]]

  /** `getEstimatedDuration`: the table entry for a known type and level, 60
      for any other pair (including a missing level). */
  function GetEstimatedDuration(kind: string, level: Option<string>): (minutes: int)
    ensures kind !in Types || level.None? || level.value !in Levels ==> minutes == 60
    ensures kind in Types && level.Some? && level.value in Levels ==> minutes == BaseDurations[kind][level.value]
    ensures 30 <= minutes <= 240
  {
    if kind in BaseDurations && level.Some? && level.value in BaseDurations[kind]
    then BaseDurations[kind][level.value]
    else 60
  }

  /** For every known type, a higher level takes longer. */
  lemma DurationGrowsWithLevel(kind: string)
    requires kind in Types
    ensures GetEstimatedDuration(kind, Some("beginner")) < GetEstimatedDuration(kind, Some("intermediate"))
    ensures GetEstimatedDuration(kind, Some("intermediate")) < GetEstimatedDuration(kind, Some("advanced"))
  {
  }

  /** `getDifficultyScore`: depends on the level only; beginner 3,
      intermediate 6, advanced 9, expert 10, anything else 5. */
  function GetDifficultyScore(kind: string, level: Option<string>): (score: int)
    ensures 3 <= score <= 10
    ensures level == Some("beginner") ==> score == 3
    ensures level == Some("intermediate") ==> score == 6
    ensures level == Some("advanced") ==> score == 9
    ensures level == Some("expert") ==> score == 10
    ensures level.None? || level.value !in {"beginner", "intermediate", "advanced", "expert"} ==> score == 5
  {
    if level == Some("beginner") then 3
    else if level == Some("intermediate") then 6
    else if level == Some("advanced") then 9
    else if level == Some("expert") then 10
    else 5
  }

  /** The difficulty score ignores the type. */
  lemma DifficultyIgnoresType(a: string, b: string, level: Option<string>)
    ensures GetDifficultyScore(a, level) == GetDifficultyScore(b, level)
  {
  }

  datatype Task = Task(id: int, title: string, difficulty: Option<string>)

  datatype Simulation = Simulation(kind: string, title: string, tasks: seq<Task>)

  function ThreeTasks(t1: string, t2: string, t3: string, level: Option<string>): (tasks: seq<Task>)
    ensures |tasks| == 3
    ensures forall i :: 0 <= i < 3 ==> tasks[i].id == i + 1 && tasks[i].difficulty == level
  {
    [Task(1, t1, level), Task(2, t2, level), Task(3, t3, level)]
  }

  /** The title and the three task titles of one fallback scenario. */
  datatype Script = Script(title: string, first: string, second: string, third: string)

  const DevopsScript := Script("CI/CD Pipeline for Rwandan E-commerce Platform",
    "Source Control Strategy", "Build Pipeline", "Deployment Strategy")
  const CybersecurityScript := Script("Security Incident Response - Banking Sector",
    "Initial Assessment", "Containment Strategy", "Evidence Collection")
  const UxDesignScript := Script("Mobile Banking App for Rural Rwanda",
    "User Research", "Information Architecture", "Visual Design")
  const CloudScript := Script("Cloud Infrastructure Setup for Rwandan Fintech",
    "Architecture Planning", "Database Selection", "Security Implementation")

  function Scenario(kind: string, script: Script, level: Option<string>): Simulation {
    Simulation(kind, script.title, ThreeTasks(script.first, script.second, script.third, level))
  }

  /** `getFallbackSimulation`: the scenario of the requested type, or the
      cloud scenario for any other type; each has three tasks numbered 1 to 3
      at the requested level. */
  function GetFallbackSimulation(kind: string, level: Option<string>): (s: Simulation)
    ensures kind in Types ==> s.kind == kind
    ensures kind !in Types ==> s.kind == "cloud"
    ensures |s.tasks| == 3
    ensures forall i :: 0 <= i < 3 ==> s.tasks[i].id == i + 1 && s.tasks[i].difficulty == level
  {
    if kind == "devops" then Scenario("devops", DevopsScript, level)
    else if kind == "cybersecurity" then Scenario("cybersecurity", CybersecurityScript, level)
    else if kind == "ux-design" then Scenario("ux-design", UxDesignScript, level)
    else Scenario("cloud", CloudScript, level)
  }

  /** Any unknown type gets exactly the cloud scenario. */
  lemma UnknownTypeGetsCloud(kind: string, level: Option<string>)
    requires kind !in Types
    ensures GetFallbackSimulation(kind, level) == GetFallbackSimulation("cloud", level)
  {
  }

  datatype GenerateRequest = GenerateRequest(kind: Option<string>, level: Option<string>, focus: Option<string>)

  datatype Metadata = Metadata(estimatedDuration: int, difficultyScore: int, fallback: bool)

  datatype GenerateResponse =
    | Generated(simulation: Simulation, metadata: Metadata)
    | Rejected(status: int, message: string)

  function WithMetadata(s: Simulation, kind: string, level: Option<string>, fallback: bool): GenerateResponse {
    Generated(s, Metadata(GetEstimatedDuration(kind, level), GetDifficultyScore(kind, level), fallback))
  }

  /** `POST`. `body` is the parsed request, absent when it cannot be read;
      `hasApiKey` is whether the model key is configured; `generated` is the
      model's scenario, absent when generation throws. An unreadable body
      gets the intermediate cloud fallback; a missing type is a 400; without
      the key every type gets its fallback, flagged; with the key an unknown
      type is a 400 and a failed generation falls back without the flag. */
  function Post(body: Option<GenerateRequest>, hasApiKey: bool, generated: Option<Simulation>): (r: GenerateResponse)
    ensures body.None? ==> r.Generated? && r.simulation.kind == "cloud" && r.metadata.fallback
    ensures body.Some? && !Truthy(body.value.kind) ==> r == Rejected(400, "Simulation type is required")
    ensures body.Some? && Truthy(body.value.kind) && !hasApiKey ==>
      && r.Generated? && r.metadata.fallback
      && r.simulation == GetFallbackSimulation(body.value.kind.value, body.value.level)
    ensures body.Some? && Truthy(body.value.kind) && hasApiKey && body.value.kind.value !in Types ==>
      r == Rejected(400, "Invalid simulation type")
    ensures body.Some? && Truthy(body.value.kind) && hasApiKey && body.value.kind.value in Types ==>
      && r.Generated? && !r.metadata.fallback
      && r.simulation == (if generated.Some? then generated.value
                          else GetFallbackSimulation(body.value.kind.value, body.value.level))
    ensures r.Generated? ==> 30 <= r.metadata.estimatedDuration <= 240 && 3 <= r.metadata.difficultyScore <= 10
  {
    if body.None? then
      WithMetadata(GetFallbackSimulation("cloud", Some("intermediate")), "cloud", Some("intermediate"), true)
    else
      var req := body.value;
      if !Truthy(req.kind) then Rejected(400, "Simulation type is required")
      else
        var kind := req.kind.value;
        if !hasApiKey then WithMetadata(GetFallbackSimulation(kind, req.level), kind, req.level, true)
        else if kind !in Types then Rejected(400, "Invalid simulation type")
        else
          var simulation := if generated.Some? then generated.value else GetFallbackSimulation(kind, req.level);
          WithMetadata(simulation, kind, req.level, false)
  }
}
