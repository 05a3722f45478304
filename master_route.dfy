/** Model of the HTTP action dispatcher in front of the session store
    (app/api/simulator/master/route.js): the lazily created shared master,
    the `action` switch, and the four handlers with their status codes.
    Only the status code, the success flag and the payload are modelled,
    not the NextResponse objects. */
module MasterRoute {
  import opened Wrappers
  import opened Text
  import opened SimulationMaster

  /** The request fields the handlers read; each may be absent. */
  datatype Params = Params(
    roleType: Option<string>,
    difficulty: Option<string>,
    userProfile: Option<map<string, string>>,
    simulationId: Option<string>,
    userAction: Option<string>,
    currentState: Option<SimState>)

  /** A request body that `request.json()` could parse. */
  datatype Request = Request(action: Option<string>, params: Params)

  datatype Payload =
    | Started(start: StartReply)
    | Executed(turn: TurnResult)
    | StatusReport(status: Status)
    | Ended(report: Report)
    | Failure(message: string)

  datatype Response = Response(status: int, success: bool, payload: Payload)

  function Failed(status: int, message: string): Response {
    Response(status, false, Failure(message))
  }

  /** `handleStartSimulation`: 400 without a role type, and then the master is
      not called; otherwise the session is started with difficulty defaulting
      to 'intermediate' and the profile to {}. */
  method HandleStartSimulation(master: ImprovedSimulationMaster, p: Params, env: Env) returns (resp: Response)
    requires master.Valid()
    modifies master
    ensures master.Valid() && master.hasModel == old(master.hasModel)
    ensures resp.success <==> resp.status == 200
    ensures !Truthy(p.roleType) ==>
      resp == Failed(400, "Role type is required") && master.activeSimulations == old(master.activeSimulations)
    ensures Truthy(p.roleType) ==>
      && resp.status == 200 && resp.success && resp.payload.Started?
      && master.activeSimulations == old(master.activeSimulations)[env.simulationId :=
           StartedSession(p.roleType.value, Some(OrElse(p.difficulty, "intermediate")),
                          p.userProfile.GetOr(map[]), master.hasModel, env)]
  {
    if !Truthy(p.roleType) {
      return Failed(400, "Role type is required");
    }
    var result := master.StartSimulation(p.roleType.value, Some(OrElse(p.difficulty, "intermediate")),
                                         p.userProfile.GetOr(map[]), env);
    resp := Response(200, true, Started(result));
  }

  /** `handleExecuteAction`: 400 when the id or the action is missing or
      empty; any error from the master (an unknown id) is a 500. */
  method HandleExecuteAction(master: ImprovedSimulationMaster, p: Params, env: Env) returns (resp: Response)
    requires master.Valid()
    modifies master
    ensures master.Valid() && master.hasModel == old(master.hasModel)
    ensures resp.success <==> resp.status == 200
    ensures !Truthy(p.simulationId) || !Truthy(p.userAction) ==>
      resp == Failed(400, "Simulation ID and user action are required")
      && master.activeSimulations == old(master.activeSimulations)
    ensures Truthy(p.simulationId) && Truthy(p.userAction) && p.simulationId.value !in old(master.activeSimulations) ==>
      resp.status == 500 && !resp.success && master.activeSimulations == old(master.activeSimulations)
    ensures Truthy(p.simulationId) && Truthy(p.userAction) && p.simulationId.value in old(master.activeSimulations) ==>
      var s := old(master.activeSimulations)[p.simulationId.value];
      && resp == Response(200, true, Executed(Respond(s.pack, "action", master.hasModel, env)))
      && master.activeSimulations == old(master.activeSimulations)[p.simulationId.value :=
           ApplyTurn(s, p.userAction.value, resp.payload.turn, env.now)]
  {
    if !Truthy(p.simulationId) || !Truthy(p.userAction) {
      return Failed(400, "Simulation ID and user action are required");
    }
    var result := master.ExecuteSimulation(p.simulationId.value, p.userAction.value, p.currentState, env);
    match result
    case Ok(turn) => resp := Response(200, true, Executed(turn));
    case Err(message) => resp := Failed(500, "Failed to execute action: " + message);
  }

  /** `handleGetStatus`: 400 without an id, 404 when the master has no such
      session, 200 with the status otherwise. Nothing changes. */
  function HandleGetStatus(master: ImprovedSimulationMaster, p: Params): (resp: Response)
    reads master
    ensures resp.success <==> resp.status == 200
    ensures !Truthy(p.simulationId) ==> resp.status == 400 && !resp.success
    ensures Truthy(p.simulationId) && p.simulationId.value !in master.activeSimulations ==>
      resp.status == 404 && !resp.success
    ensures Truthy(p.simulationId) && p.simulationId.value in master.activeSimulations ==>
      && resp.status == 200 && resp.success && resp.payload.StatusReport?
      && resp.payload.status == StatusOf(master.activeSimulations[p.simulationId.value])
    ensures Truthy(p.simulationId) && p.simulationId.value in master.activeSimulations ==>
      var session := master.activeSimulations[p.simulationId.value];
      && resp.payload.StatusReport?
      && resp.payload.status.progress == |session.history|
      && resp.payload.status.currentState == session.currentState
      && (resp.payload.status.isActive <==> !AnyOver(session.history))
  {
    if !Truthy(p.simulationId) then Failed(400, "Simulation ID is required")
    else match master.GetSimulationStatus(p.simulationId.value)
      case None => Failed(404, "Simulation not found")
      case Some(status) => Response(200, true, StatusReport(status))
  }

  /** `handleEndSimulation`: 400 without an id; an unknown id makes the
      master throw, which is a 500 (not a 404). */
  method HandleEndSimulation(master: ImprovedSimulationMaster, p: Params, draws: ReportDraws, now: string)
    returns (resp: Response)
    requires master.Valid() && ValidDraws(draws)
    modifies master
    ensures master.Valid() && master.hasModel == old(master.hasModel)
    ensures resp.success <==> resp.status == 200
    ensures !Truthy(p.simulationId) ==>
      resp == Failed(400, "Simulation ID is required") && master.activeSimulations == old(master.activeSimulations)
    ensures Truthy(p.simulationId) && p.simulationId.value !in old(master.activeSimulations) ==>
      resp.status == 500 && !resp.success && master.activeSimulations == old(master.activeSimulations)
    ensures Truthy(p.simulationId) && p.simulationId.value in old(master.activeSimulations) ==>
      && resp == Response(200, true, Ended(PerformanceReport(old(master.activeSimulations)[p.simulationId.value], draws, now)))
      && master.activeSimulations == old(master.activeSimulations) - {p.simulationId.value}
  {
    if !Truthy(p.simulationId) {
      return Failed(400, "Simulation ID is required");
    }
    var result := master.EndSimulation(p.simulationId.value, draws, now);
    match result
    case Ok(report) => resp := Response(200, true, Ended(report));
    case Err(message) => resp := Failed(500, "Failed to end simulation: " + message);
  }

  /** The status code the route answers with, for a request body, given the
      sessions the master holds before the call. */
  function ExpectedStatus(body: Option<Request>, sessions: map<string, Session>): int {
    if body.None? then 500
    else
      var p := body.value.params;
      var action := OrElse(body.value.action, "");
      if action == "start_simulation" then (if Truthy(p.roleType) then 200 else 400)
      else if action == "execute_action" then
        (if !Truthy(p.simulationId) || !Truthy(p.userAction) then 400
         else if p.simulationId.value in sessions then 200 else 500)
      else if action == "get_status" then
        (if !Truthy(p.simulationId) then 400
         else if p.simulationId.value in sessions then 200 else 404)
      else if action == "end_simulation" then
        (if !Truthy(p.simulationId) then 400
         else if p.simulationId.value in sessions then 200 else 500)
      else 400
  }

  /** The `switch (action)` of `POST`, on the shared master. */
  method DispatchAction(master: ImprovedSimulationMaster, request: Request, env: Env, draws: ReportDraws, now: string)
    returns (resp: Response)
    requires master.Valid() && ValidDraws(draws)
    modifies master
    ensures master.Valid()
    ensures resp.status == ExpectedStatus(Some(request), old(master.activeSimulations))
    ensures resp.success <==> resp.status == 200
  {
    var action := OrElse(request.action, "");
    if action == "start_simulation" {
      resp := HandleStartSimulation(master, request.params, env);
    } else if action == "execute_action" {
      resp := HandleExecuteAction(master, request.params, env);
    } else if action == "get_status" {
      resp := HandleGetStatus(master, request.params);
    } else if action == "end_simulation" {
      resp := HandleEndSimulation(master, request.params, draws, now);
    } else {
      resp := Failed(400, "Invalid action specified");
    }
  }

  /** The route module: its one piece of state is the lazily created master. */
  class MasterRouteModule {
    var simulationMaster: ImprovedSimulationMaster?

    ghost predicate Valid()
      reads this, simulationMaster
    {
      simulationMaster != null ==> simulationMaster.Valid()
    }

    constructor ()
      ensures Valid() && simulationMaster == null
    {
      simulationMaster := null;
    }

    /** `getSimulationMaster`: creates the master on the first call only and
        returns that same instance on every later call. */
    method GetSimulationMaster(modelAvailable: bool) returns (master: ImprovedSimulationMaster)
      requires Valid()
      modifies this
      ensures Valid() && simulationMaster == master
      ensures old(simulationMaster) != null ==> master == old(simulationMaster)
      ensures old(simulationMaster) == null ==>
        fresh(master) && master.activeSimulations == map[] && master.hasModel == modelAvailable
    {
      if simulationMaster == null {
        simulationMaster := new ImprovedSimulationMaster(modelAvailable);
      }
      master := simulationMaster;
    }

    /** `POST`: parse the body (a parse failure is a 500, before the master is
        even created), get the shared master, and dispatch on `action`; any
        other action is a 400. */
    method Post(body: Option<Request>, modelAvailable: bool, env: Env, draws: ReportDraws, now: string)
      returns (resp: Response)
      requires Valid() && ValidDraws(draws)
      modifies this, simulationMaster
      ensures Valid()
      ensures body.None? ==> simulationMaster == old(simulationMaster)
      ensures body.Some? ==> simulationMaster != null
      ensures old(simulationMaster) != null ==> simulationMaster == old(simulationMaster)
      ensures resp.status == ExpectedStatus(body,
        if old(simulationMaster) == null then map[] else old(simulationMaster.activeSimulations))
      ensures resp.success <==> resp.status == 200
    {
      if body.None? {
        return Failed(500, "Simulation processing failed");
      }
      var master := GetSimulationMaster(modelAvailable);
      resp := DispatchAction(master, body.value, env, draws, now);
    }
  }
}
