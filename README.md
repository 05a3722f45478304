# AI Coach Pro: a verified model of the simulation and coaching core

This project models in Dafny the deterministic logic of the AI Coach Pro
career-simulation platform. That logic sits around the calls to its language
model:

- **`SimulationMaster`** (simulation_master.dfy): the in-memory session store
  of `ImprovedSimulationMaster`. It covers the scenario catalogue, the
  difficulty rescaling, the scripted fallback turn, the check of the model's
  reply shape, and start / execute / status / end.
- **`MasterRoute`** (master_route.dfy): the HTTP action dispatcher in front of
  the store. It covers the lazily created shared master and the 400 / 404 /
  500 outcomes.
- **`AdvancedAgent`** (agent.dfy): the adaptive agent's conversation log,
  capped at 50 entries. It also covers the rules that derive the learning
  style, the skill gaps and the user context from a profile.
- **`Speech`** (speech.dfy): the interview `ConversationManager`, whose phase
  and engagement rating it keeps. It also covers the filler / confidence word
  scoring and the Rwanda-context keyword scoring of transcripts.
- **`Workflow`** (workflow.dfy): the learning-progress rules. They cover user
  level, learning velocity, skill progression, focus areas, primary gaps,
  next-simulation recommendations, milestones, time estimate and career
  impact.
- **`Evaluate`** (evaluate.dfy): the scoring of a finished simulation. It
  covers efficiency, accuracy, problem solving, the weighted overall score,
  readiness bands, recommendations, next steps and the route's input check.
- **`Generate`** (generate.dfy): the duration and difficulty lookup tables,
  the fallback scenarios, and the branching of the scenario-generation route.
- **`Quiz`** (quiz.dfy): the per-answer correctness map, the fallback score
  arithmetic, the fallback question, and the history of the live interview.
- **`Demo`** (demo.dfy): the demo mode of the simulation screen. It covers
  the scripted scenarios, the demo turn transition, and the guard and routing
  of a user action.

Shared helpers live in `Wrappers` (`Option`, `Result`), `Seqs` (ordered
sub-lists, `filter`, `slice(0, n)`, `slice(-n)`, counting, sums) and `Text`.
`Text` models the JavaScript string operations the core uses, for ASCII:
`||` defaults, truthiness, `toLowerCase`, `includes`, `startsWith`,
`split(' ')` and `trim`.

How the model treats the outside world:

- Each call to the language model is a parameter of the operation that makes
  it. So is the JSON text extraction behind it. The parameter is absent when
  the call throws.
- Random draws, generated ids and timestamps are parameters. Random draws are
  bounded by the ranges `Math.floor(Math.random() * k)` can produce.
- Objects whose fields the source updates in place are classes:
  `ImprovedSimulationMaster`, the route module, `AdvancedSimulationAgent`,
  `ConversationManager`, `GeminiQuizService`, and the screen's React state as
  `EnhancedSimulation`.
- Pure helpers are functions, and records are datatypes.
- Scores are exact integers or reals. `Math.round` is rounding half up.

## Model

| member | source | states |
|---|---|---|
| SimulationMaster.TemplateFor | lib/improved-simulation-master-clean.js:82-123 | Every role type, known or not, gets the cloud-architect pack |
| SimulationMaster.AdjustmentFor | lib/improved-simulation-master-clean.js:130-136 | Every difficulty maps to positive exact multipliers; an unknown difficulty uses the intermediate ones |
| SimulationMaster.RoundHalfUpNearest | lib/improved-simulation-master-clean.js:140-141 | The result is the integer nearest to n/d, with halves rounded up |
| SimulationMaster.AdjustPackDifficulty | lib/improved-simulation-master-clean.js:129-145 | The loop over the copied scenarios returns the pack with every scenario's budget and time rescaled and nothing else changed; the base pack is a value and stays as it was |
| SimulationMaster.GenerateSimulationPack | lib/improved-simulation-master-clean.js:81-124 | The pack is the template's pack, adjusted for the difficulty, which defaults to 'intermediate' |
| SimulationMaster.SimulationPackShape | lib/improved-simulation-master-clean.js:82-123 | Every role and difficulty yields the cloud-architect pack with one scenario |
| SimulationMaster.DifficultyScaling | lib/improved-simulation-master-clean.js:129-145 | Beginner scales by 1.5 and 1.3, advanced by 0.8, and any other difficulty leaves budget and time unchanged; non-negative values stay non-negative |
| SimulationMaster.DifficultyExamples | lib/improved-simulation-master-clean.js:129-145 | 15000/480 becomes 22500/624 for beginner and 12000/384 for advanced, and an unknown role with no difficulty keeps 15000/480 |
| SimulationMaster.FirstMissing | lib/improved-simulation-master-clean.js:203-209 | The first required field, in list order, that the reply lacks: every field before it is present; none exactly when all are present |
| SimulationMaster.ParseSimulationResponse | lib/improved-simulation-master-clean.js:195-224 | A reply with all four required fields is accepted as given (`finalArtifact` is optional); anything else gives a terminal error turn with state {0,0,0} |
| SimulationMaster.ScriptedRole | lib/improved-simulation-master-clean.js:386 | The scripted reply set is the role's own one when it exists, else the cloud-architect one |
| SimulationMaster.ScriptedRoleFor | lib/improved-simulation-master-clean.js:385-386 | The reply set used for a role name is always one of the four scripted roles |
| SimulationMaster.UnscriptedInitial | lib/improved-simulation-master-clean.js:385-386 | A role name whose lower-cased first letter is not c, d or u has a key outside the reply table, so it gets the cloud-architect replies |
| SimulationMaster.CloudRoleUnscripted | lib/improved-simulation-master-clean.js:385-386 | The only pack's role name, "Senior Cloud Solutions Architect", gets the cloud-architect replies |
| SimulationMaster.FallbackResponse | lib/improved-simulation-master-clean.js:363-399 | Budget and time are the pack's initial values minus 1000 and 30, clamped at 0; the step is 1 for 'start' and 2 otherwise; the turn never ends the simulation and has no artifact; the scripted reply is the one for the pack's role name |
| SimulationMaster.FallbackUsesCloudReplies | lib/improved-simulation-master-clean.js:363-399 | The only pack's role key has no scripted replies of its own, so every fallback uses the cloud-architect replies |
| SimulationMaster.Respond | lib/improved-simulation-master-clean.js:159-190 | With no model, or when the model call throws, the turn is the fallback; otherwise it is the parsed reply |
| SimulationMaster.RespondCases | lib/improved-simulation-master-clean.js:159-190 | A turn is scripted exactly when there is no model or the call threw, and a scripted turn never ends the simulation and keeps budget and time non-negative |
| SimulationMaster.StartedSession | lib/improved-simulation-master-clean.js:229-295 | The new session holds the adjusted pack, its initial state as the current state, and one 'SIMULATION_START' history entry |
| SimulationMaster.ApplyTurn | lib/improved-simulation-master-clean.js:169-174 | A turn appends exactly one entry, replaces the current state with the turn's state, and changes nothing else |
| SimulationMaster.AnyOverIff | lib/improved-simulation-master-clean.js:313 | `history.some(...)` holds exactly when some entry ended the simulation |
| SimulationMaster.StatusOf | lib/improved-simulation-master-clean.js:300-315 | Progress is the history length, and the session is active exactly when no entry ended it |
| SimulationMaster.ActivityAfterTurn | lib/improved-simulation-master-clean.js:169-174 | After a turn the session is active exactly when it was active and the new turn did not end it |
| SimulationMaster.StartedSessionActivity | lib/improved-simulation-master-clean.js:229-295 | A new session is active exactly when its start response did not end it, and always without a model |
| SimulationMaster.PerformanceReport | lib/improved-simulation-master-clean.js:334-358 | The report names the session and its role; totalSteps is the history length; the scores lie within their random bands |
| SimulationMaster.StoreGrows | lib/improved-simulation-master-clean.js:243 | Filing a session adds exactly its id to the store |
| SimulationMaster.ImprovedSimulationMaster.StartSimulation | lib/improved-simulation-master-clean.js:229-295 | Exactly one id is added, holding the started session; every other session is unchanged |
| SimulationMaster.ImprovedSimulationMaster.ExecuteSimulation | lib/improved-simulation-master-clean.js:150-190 | An unknown id is 'Simulation not found' and nothing changes; otherwise only that session changes, by exactly one appended entry and the new current state |
| SimulationMaster.ImprovedSimulationMaster.GetSimulationStatus | lib/improved-simulation-master-clean.js:300-315 | Null exactly for an unknown id; otherwise the session's status: history length as progress, the current state, and active exactly when no turn ended the simulation |
| SimulationMaster.ImprovedSimulationMaster.EndSimulation | lib/improved-simulation-master-clean.js:320-329 | An unknown id throws and nothing changes; otherwise the report is built and the id alone is removed, so a second end throws |
| MasterRoute.HandleStartSimulation | app/api/simulator/master/route.js:47-74 | Without a role type it answers 400 and the store is unchanged; otherwise it starts a session with 'intermediate' and {} as defaults |
| MasterRoute.HandleExecuteAction | app/api/simulator/master/route.js:76-99 | A missing id or action answers 400; an unknown id answers 500; otherwise 200, with the turn applied |
| MasterRoute.HandleGetStatus | app/api/simulator/master/route.js:101-131 | It answers 400 without an id, 404 for an unknown id, and otherwise 200 with the session's status: its progress (history length), its current state, and active exactly when no turn has ended the simulation |
| MasterRoute.HandleEndSimulation | app/api/simulator/master/route.js:133-155 | It answers 400 without an id and 500 (not 404) for an unknown id; otherwise 200 with the report, and the session is removed |
| MasterRoute.MasterRouteModule.GetSimulationMaster | app/api/simulator/master/route.js:5-12 | The master is created on the first call only, and the same instance is returned afterwards |
| MasterRoute.MasterRouteModule.Post | app/api/simulator/master/route.js:14-45 | The status is the one the action and its fields call for (an unknown action is 400, an unreadable body 500), and success holds exactly for 200 |
| MasterRoute.DispatchAction | app/api/simulator/master/route.js:19-37 | For a parsed body, the status is the one the action and its fields call for, given the sessions held before the call; success holds exactly for 200 |
| AdvancedAgent.DetectLearningStyle | lib/advanced-simulation-agent.js:556-566 | Visual exactly for a ux-design preference; kinesthetic for devops or a non-beginner; reading for a beginner without either; never auditory |
| AdvancedAgent.AnalyzeSkillGaps | lib/advanced-simulation-agent.js:568-574 | The ordered sub-list of the five market demands the skills lack; all five when skills are missing |
| AdvancedAgent.UserContextFor | lib/advanced-simulation-agent.js:24-34 | The context keeps the profile; careerGoals defaults to 'general-tech' and complexity to the level or 'intermediate' |
| AdvancedAgent.AfterUpdate | lib/advanced-simulation-agent.js:630-640 | The log gains the entry last and keeps the most recent 50 in order; below 50 it grows by exactly one with the old entries unchanged |
| AdvancedAgent.UpdatesStayBounded | lib/advanced-simulation-agent.js:630-640 | Any run of updates keeps a log within 50 entries |
| AdvancedAgent.UpdatesKeepMostRecent | lib/advanced-simulation-agent.js:630-640 | After one or more updates, the log is the last 50 of the old log followed by the new entries |
| AdvancedAgent.EvaluationPushExceedsCap | lib/advanced-simulation-agent.js:541-546 | The evaluation push does not trim: a full log grows to 51, and the next update drops two entries |
| AdvancedAgent.AdvancedSimulationAgent.InitializeUserContext | lib/advanced-simulation-agent.js:24-34 | The stored context is replaced by the profile's context and returned; the log is unchanged |
| AdvancedAgent.AdvancedSimulationAgent.UpdateConversationHistory | lib/advanced-simulation-agent.js:630-640 | The log becomes the capped log with the timestamped entry appended |
| AdvancedAgent.AdvancedSimulationAgent.EvaluatePerformance | lib/advanced-simulation-agent.js:444-553 | On success the evaluation entry is appended without trimming; on failure it is 'Failed to generate performance evaluation' and the log is unchanged |
| Speech.Words | lib/speech-utils.js:208 | At least one word, none containing a space |
| Speech.AnalyzeSpeechPattern | lib/speech-utils.js:207-225 | Fillers and confident words are the counts of filler and confident words among the split words, together at most the word count; the score lies in [0,100], equals 100 − 10·fillers + 5·confident strictly between, is 100 exactly when confident words reach twice the fillers, and 0 exactly when fillers reach 10 plus half the confident words; clarity is banded at 3 and 6 fillers |
| Speech.TwoWordFillerNeverCounted | lib/speech-utils.js:209-212 | No word of the split transcript is 'you know', so that filler is never counted |
| Speech.FillerLowersScore | lib/speech-utils.js:212-216 | Adding a filler word never raises the confidence score |
| Speech.Mentioned | lib/speech-utils.js:241-247 | The keywords contained in the lower-cased transcript, as an ordered sub-list of the keyword list |
| Speech.AnalyzeRwandaContext | lib/speech-utils.js:228-257 | The mentioned keywords are exactly those in the transcript; the Rwanda score is min(100, 20n) and the cultural one min(100, 15n); alignment is high from 2 cultural words, medium at 1, low at 0 |
| Speech.PhaseFor | lib/speech-utils.js:315-327 | Introduction up to 2 user messages, experience 3-5, technical 6-8, closing beyond |
| Speech.PhaseMonotone | lib/speech-utils.js:315-327 | More user messages never move the interview to an earlier phase |
| Speech.UserCountAppend | lib/speech-utils.js:316 | Appending a message adds one to the user count exactly when it is a user message |
| Speech.EngagementOf | lib/speech-utils.js:329-336 | High when the average content length of the last 5 messages exceeds 50, medium above 20, low otherwise (and for no messages) |
| Speech.ConversationManager.AddMessage | lib/speech-utils.js:285-300 | Exactly one message is appended, stamped with the phase before the update; the context is updated; the phase still matches the user count and never moves back |
| Speech.ConversationManager.UpdateContext | lib/speech-utils.js:302-313 | A user message sets the last input and the engagement; any other sets only the last AI response |
| Speech.ConversationManager.UpdateInterviewPhase | lib/speech-utils.js:315-327 | The phase becomes the one for the number of user messages; nothing else changes |
| Speech.ConversationManager.CalculateEngagement | lib/speech-utils.js:329-336 | Exactly EngagementOf the current history; low when it is empty |
| Speech.ConversationManager.GetConversationSummary | lib/speech-utils.js:338-344 | The total is the history length, the user and AI counts are the counts of user and AI messages in the history and together at most the total, and the phase is the manager's phase, which matches the user count |
| Workflow.NormalizeProgress | app/api/simulator/workflow/route.js:58-65 | Each of the six fields is its given value when present; missing numbers (count, average score, time) read as 0 and missing lists (skills improved, weak and strong areas) as empty |
| Workflow.DetermineUserLevel | app/api/simulator/workflow/route.js:110-117 | Advanced exactly for average 85 or more over 10 or more; intermediate exactly for 70 over 5 otherwise; beginner otherwise, including when fields are missing |
| Workflow.CalculateLearningVelocity | app/api/simulator/workflow/route.js:119-128 | Time and score are divided by max(completed, 1) and banded at 90/120 minutes and 2/5 points; consistency is regular exactly when something was completed |
| Workflow.AnalyzeSkillProgression | app/api/simulator/workflow/route.js:130-137 | Each list is the first (at most) three of its source, and the trend is positive exactly above 70 |
| Workflow.IdentifyRecommendedFocus | app/api/simulator/workflow/route.js:139-161 | Weak areas first, as high priority and in order, then strong areas as 'Advanced X' at medium, at most 5 in all |
| Workflow.IdentifyPrimaryGaps | app/api/simulator/workflow/route.js:163-179 | The ordered sub-list of the four market priorities that are weak or not strong; all four when strong areas are missing |
| Workflow.MinutesFor | app/api/simulator/workflow/route.js:230-241 | Cloud 90, devops 120, cybersecurity 75 and ux-design 150 minutes; 90 for any other type; always within [75,150] |
| Workflow.CalculateEstimatedTime | app/api/simulator/workflow/route.js:230-241 | 0 for no recommendations, and between 75 and 150 minutes per recommendation |
| Workflow.EstimatedTimeAppend | app/api/simulator/workflow/route.js:230-241 | One more recommendation adds exactly its type's minutes to the estimate, so the estimate is the sum of the per-type minutes |
| Workflow.CalculateCareerImpact | app/api/simulator/workflow/route.js:243-257 | Undefined (NaN) exactly for no recommendations; otherwise the score times the count equals the impact total, so it is the average impact (the cap of 10 never applies), and it lies in [5,9] |
| Workflow.ImpactFor | app/api/simulator/workflow/route.js:245-253 | Cloud 9, devops 8, cybersecurity 7, ux-design 8, and 5 for any other type |
| Workflow.ImpactTotalAppend | app/api/simulator/workflow/route.js:252-254 | One more recommendation adds exactly its type's impact to the total |
| Workflow.CareerImpactOfOne | app/api/simulator/workflow/route.js:243-257 | A single recommendation scores exactly its type's impact |
| Workflow.RecommendNextSimulation | app/api/simulator/workflow/route.js:81-108 | One recommendation per primary gap, at most 3; the priority order is their types in order; time and impact are computed from them |
| Workflow.RecommendAll | app/api/simulator/workflow/route.js:89-100 | One recommendation per gap, in order, each carrying the gap's area, focus, priority and impact at the user's level |
| Workflow.GetNextMilestone | app/api/simulator/workflow/route.js:181-206 | Below 5 completions the target is 5; from 5 to 14 it is an 80 average with the average as progress; from 15 it is 25 |
| Workflow.UpdateLearningProgress | app/api/simulator/workflow/route.js:56-79 | The update combines the normalized metrics with each rule applied to them; the focus list holds min(weak + strong, 5) entries, the weak areas first as high priority, then the strong areas as 'Advanced' medium-priority topics |
| Workflow.GenerateRecommendedPath | app/api/simulator/workflow/route.js:208-228 | The six fixed steps, two per horizon, whatever the profile |
| Evaluate.GetExpectedActionCount | app/api/simulator/evaluate/route.js:111-120 | Cloud 8, devops 12, cybersecurity 6, ux-design 10, and 8 for any other type |
| Evaluate.ExpectedTime | app/api/simulator/evaluate/route.js:79-86 | Cloud 90, devops 120, cybersecurity 75, ux-design 150, and 90 for any other type |
| Evaluate.Round | app/api/simulator/evaluate/route.js:98 | The nearest integer, with halves rounded up |
| Evaluate.CalculatePerformanceMetrics | app/api/simulator/evaluate/route.js:69-109 | Efficiency is in [0,100], compares the expected time with the time spent (at least 1), and is 100 when on time; accuracy is the completion rate; problem solving is min(100, actions / expected) and 0 for a non-list; the overall score is the rounded 30/40/30 weighting and lies in [0,100] for a rate in [0,100]; readiness is banded at 80 and 60 |
| Evaluate.GenerateSkillRecommendations | app/api/simulator/evaluate/route.js:122-163 | Exactly one horizon gets two items, by the bands below 60, below 80 and from 80; two resources exactly for the four known types |
| Evaluate.HorizonItems | app/api/simulator/evaluate/route.js:130-139 | Two items in exactly one horizon: immediate below 60, short term below 80, long term from 80 |
| Evaluate.LearningResources | app/api/simulator/evaluate/route.js:142-159 | Two resources for each of the four known types, none for any other type |
| Evaluate.GetNextSteps | app/api/simulator/evaluate/route.js:165-183 | Always three steps, led by the step for the score's band |
| Evaluate.Post | app/api/simulator/evaluate/route.js:4-67 | It answers 400 for a missing type or missing actions, 500 when the evaluation fails, and otherwise 200 with the evaluation and the metrics: accuracy is the completion rate, efficiency and problem solving lie in [0,100] (problem solving 0 for non-list actions), the overall score is the rounded 30/40/30 weighting within [0,100] for a rate in range, readiness is banded at 80 and 60; the two recommendation items go to the horizon of that band, resources exist exactly for the four known types, and the three next steps start with the band's first step |
| Generate.GetEstimatedDuration | app/api/simulator/generate/route.js:101-110 | The table value for a known type and level, 60 for any other pair, always within 30-240 minutes |
| Generate.DurationGrowsWithLevel | app/api/simulator/generate/route.js:103-106 | For every known type, beginner is shorter than intermediate, which is shorter than advanced |
| Generate.GetDifficultyScore | app/api/simulator/generate/route.js:112-121 | Beginner 3, intermediate 6, advanced 9, expert 10, and 5 for a missing or any other level; always within 3-10 |
| Generate.DifficultyIgnoresType | app/api/simulator/generate/route.js:112-121 | The score is the same for every type |
| Generate.GetFallbackSimulation | app/api/simulator/generate/route.js:123-268 | The scenario has the requested type when it is known and is the cloud one otherwise; it has three tasks numbered 1 to 3 at the requested level |
| Generate.UnknownTypeGetsCloud | app/api/simulator/generate/route.js:267 | Any unknown type gets exactly the cloud scenario |
| Generate.Post | app/api/simulator/generate/route.js:4-99 | Missing type: 400; no key: the type's fallback, flagged; with the key an unknown type is 400 and a known one gets the generated scenario, or the fallback unflagged when generation fails; an unreadable body gets the cloud fallback |
| Quiz.OptionAt | lib/gemini-quiz-service.js:220-221 | The option at an index within range, undefined otherwise |
| Quiz.PerformanceOf | lib/gemini-quiz-service.js:218-224 | One outcome per answer, correct exactly when the answer is the question's correct index; more answers than questions throws |
| Quiz.Percent | lib/gemini-quiz-service.js:345 | The rounded percentage of correct answers, within [0,100] |
| Quiz.GetFallbackAnalysis | lib/gemini-quiz-service.js:343-356 | Undefined (NaN) exactly for no answers; otherwise overall, technical and readiness are the percentage, behavioral is 10 below it and problem solving 5 above it, unclamped |
| Quiz.PercentExtremes | lib/gemini-quiz-service.js:345 | All correct rounds to 100 and none correct to 0 |
| Quiz.FallbackExtremes | lib/gemini-quiz-service.js:343-356 | A perfect quiz scores 100 with problem solving 105; an all-wrong quiz scores 0 with behavioral -10 |
| Quiz.AnalyzeQuizPerformance | lib/gemini-quiz-service.js:217-267 | The model's analysis when it answers, the fallback analysis when it fails, and an error when the answers outnumber the questions |
| Quiz.GetFallbackQuestions | lib/gemini-quiz-service.js:313-331 | One question with four options whose correct index, 1, is in range |
| Quiz.FallbackQuestionScoring | lib/gemini-quiz-service.js:313-331 | Only answer 1 to the fallback question is correct |
| Quiz.GeminiQuizService.StartLiveConversation | lib/gemini-quiz-service.js:59-107 | On success the history becomes the single greeting; on failure it is unchanged and a scripted greeting is returned; pairing is kept |
| Quiz.GeminiQuizService.ContinueConversation | lib/gemini-quiz-service.js:110-165 | On success the answer and the reply are appended, in that order; on failure the history is unchanged and the id is echoed with status 'active'; pairing is kept |
| Demo.DemoScenarioFor | components/enhanced-simulation.jsx:195-214 | The role's scenario, or the cloud-architect one for an unknown role; every scenario starts at step 1 with positive budget and time |
| Demo.DemoTransition | components/enhanced-simulation.jsx:304-317 | Budget and time are cut by their draws plus 500 and 15, clamped at 0, never negative; the step advances by one and the gauges are copied; the turn is over exactly from step 8 or when budget or time is 0 |
| Demo.LatestAgentState | components/enhanced-simulation.jsx:301 | The state of the latest agent entry, or {10000, 480, 1} when there is none |
| Demo.AsWrittenStartsFromDefault | components/enhanced-simulation.jsx:301 | In an alternating history the entry read as the previous state is never an agent entry, so the default state is used |
| Demo.AsWrittenNeverEnds | components/enhanced-simulation.jsx:301-317 | As written, every demo reply is at step 2 and none ends the demo, however many actions are taken |
| Demo.AsWrittenSecondTurn | components/enhanced-simulation.jsx:301-317 | After the opening and one action, the next reply is again at step 2 instead of 3 |
| Demo.IntendedDemoEnds | components/enhanced-simulation.jsx:304-317 | Continuing from the latest agent state, a demo at step k ends within 8 - k actions |
| Demo.FreshDemoEndsWithinSeven | components/enhanced-simulation.jsx:189-317 | Every demo scenario ends within seven actions |
| Demo.DemoReportFor | components/enhanced-simulation.jsx:322-332 | The demo report's scores lie within their random bands |
| Demo.EnhancedSimulation.StartDemoSimulation | components/enhanced-simulation.jsx:189-223 | The id is 'demo_' plus the clock, the view is active, and the history is the scenario's opening at step 1 |
| Demo.EnhancedSimulation.HandleDemoAction | components/enhanced-simulation.jsx:289-344 | With the start state corrected as in Findings (the latest agent state of the captured history, not the entry line 301 reads), the reply is appended; a reply that ends the demo files the report and completes the view; processing stops |
| Demo.EnhancedSimulation.SendUserAction | components/enhanced-simulation.jsx:225-287 | Blank input or a busy screen changes nothing; otherwise the trimmed message is appended and the input cleared; a 'demo_' id or a failed server call is answered by the corrected demo turn of HandleDemoAction, and a server reply is appended as given |

## Left out

- Language-model calls, prompt text, and the regex / `JSON.parse`
  extraction of replies. Their outcome is a parameter.
- Random draws, generated ids, and `Date.now` / `toISOString`. They are
  bounded parameters or opaque strings, and the model says nothing about
  their distribution.
- IEEE floating point. Multipliers, averages, times and weighted scores are
  exact rationals. A missing `timeSpent` or `completionRate` (a NaN score) is not
  modelled.
- Strings are ASCII only. `toLowerCase` and `trim` use ASCII letters and
  ASCII whitespace.
- Lookups that could hit `Object.prototype` keys (a role named
  `constructor`) are not modelled.
- Aliasing: sessions are values in the store's map. The object returned by
  `getSimulationStatus` is a copy, not a live view.
- Interleaving of concurrent async handlers on the shared session map.
- React rendering, toasts, `fetch` transport, the 30-second status polling,
  and the 1500 ms and 1000 ms `setTimeout` delays. Each callback is taken to
  run at once, in order.
- `handleSimulationComplete` and `startSimulation` of the simulation screen.
  They are server calls outside the demo path.
- The POST entry point and `generateAdaptiveWorkflow` of the workflow route:
  request plumbing and a language-model call. `SkillsSimulatorAI` and the
  other language-model wrappers are not part of this model either.
- `SpeechProcessor`'s browser speech, synthesis and audio APIs,
  `calculateSpeechMetrics`, and the wall-clock `duration` of
  `getConversationSummary`.
- The scripted response and narration texts of the fallback turn and the demo
  replies. They are tags or indices, not the prose.
- The `simulationPacks` map built in the master's constructor: nothing in the
  core reads it.
- The evaluation rubric, competencies and event lists of a pack are kept as
  data. No operation reads them.
- Workflow.NormalizeProgress: the completed-simulation count is a whole
  number. A fractional count from the client is not modelled; the average
  score and the time invested are any rational.
- Demo.EnhancedSimulation.HandleDemoAction: the screen's demo turn starts
  from the corrected state (see Findings), so the class does not replay the
  as-written stale start; that behaviour is modelled on values by
  `RunAsWritten` and the lemmas about it.
- Speech.TwoWordFillerNeverCounted: the filler list holds 'you know', which a
  split on single spaces can never produce. The model keeps the list as
  written and proves the entry is dead.
- Behaviours of the code worth naming, which the model follows:
  - An unknown role type gets the cloud-architect template rather than an
    error.
  - A malformed model reply ends the simulation rather than using the
    fallback.
  - Ending an unknown or already ended simulation throws (500 at the route)
    rather than being idempotent.
  - The fallback turn derives budget and time from the pack's initial state,
    so repeated fallback turns do not accumulate.

## Findings

| source | as written | input that shows it | evidently intended | confidence | as-written member | corrected member |
|---|---|---|---|---|---|---|
| components/enhanced-simulation.jsx:301 | The demo turn starts from `conversationHistory[length - 2]`, read from the history captured before the user's message was appended. In every history built by the demo path (a `demo_` id, where the delayed turn runs while the screen is still busy), that entry is a user message (no `state`) or missing, so the turn always starts from the default {10000, 480, 1} | Start the 'devops-engineer' demo and send two actions: the second reply is at step 2 again, with budget reset to about 10000 and the scenario gauges gone; no sequence of actions reaches step 8 | Continue from the latest agent entry's state, so the step advances and the demo ends within seven actions | high, not executed | Demo.AsWrittenNeverEnds | Demo.IntendedDemoEnds; the screen class Demo.EnhancedSimulation (HandleDemoAction, SendUserAction) carries this corrected start state |
