/**
 * The mission sequencer's HTTP API: admitting a mission plan, reporting a mission's status,
 * requesting an abort, and the health check. Every handler reads and writes the shared
 * Redis server; each is proved against a pure description of its effect.
 */
module SequencerApi {
  import opened Wrappers
  import opened Missions
  import opened RedisModel
  import opened Http
  import Worker

  /** What `request.get_json()` hands the submit handler: nothing usable, a JSON value that
      Python treats as false (`{}`, `[]`, `""`, `0`, `null`, `false`), or a plan object. */
  datatype Payload = NoJson | Falsy | PlanPayload(plan: MissionPlan)

  const QueuedDetails := "Mission plan validated and queued for execution."
  const AbortRequestedDetails := "Abort signal sent to mission worker."

  /** What a handler does: its response, what it publishes (oldest first) and the plans it
      hands to the worker queue. */
  datatype Effect = Effect(response: Response, pubs: seq<Publication>, queued: seq<MissionPlan>)

  function Rejected(code: int, message: string): Effect {
    Effect(Error(code, message), [], [])
  }

  /** `submit_mission`. `validate` stands for jsonschema's `validate` against the loaded
      schema: None when the plan conforms, else the text of the `ValidationError`. */
  function Submission(store: map<string, StatusRecord>, schemaLoaded: bool,
                      validate: MissionPlan -> Option<string>, payload: Payload): (e: Effect)
    ensures |e.queued| <= 1 && |e.pubs| == |e.queued|
    ensures e.queued != [] ==> payload.PlanPayload? && e.queued == [payload.plan] && e.response.code == 202
    ensures e.queued != [] ==>
      && payload.PlanPayload? && payload.plan.missionId.Some?
      && e.pubs == [StatusPublication(payload.plan.missionId.value, Queued, QueuedDetails)]
  {
    match payload
    case NoJson => Rejected(400, "Invalid JSON payload")
    case Falsy => Rejected(400, "Invalid JSON payload")
    case PlanPayload(plan) =>
      if !schemaLoaded then Rejected(500, "Mission schema not loaded")
      else if validate(plan).Some? then
        Effect(Response(400, ErrorBody("Schema validation failed", validate(plan))), [], [])
      else if plan.missionId.None? then Effect(InternalServerError, [], [])
      else if StatusKey(plan.missionId.value) in store then
        Rejected(409, "Mission with this ID already exists")
      else
        var id := plan.missionId.value;
        Effect(Response(202, Acknowledged("Mission accepted", id)),
               [StatusPublication(id, Queued, QueuedDetails)], [plan])
  }

  /** A submission is accepted exactly when every guard passes; only then is anything queued,
      stored or published, and then the plan is queued once and its QUEUED record stored. */
  lemma SubmissionAdmits(store: map<string, StatusRecord>, schemaLoaded: bool,
                         validate: MissionPlan -> Option<string>, payload: Payload)
    ensures var e := Submission(store, schemaLoaded, validate, payload);
      e.response.code == 202 <==>
        && payload.PlanPayload? && schemaLoaded && validate(payload.plan).None?
        && payload.plan.missionId.Some? && StatusKey(payload.plan.missionId.value) !in store
    ensures var e := Submission(store, schemaLoaded, validate, payload);
      e.response.code != 202 ==> e.pubs == [] && e.queued == [] && Replay(store, e.pubs) == store
    ensures var e := Submission(store, schemaLoaded, validate, payload);
      e.response.code == 202 ==>
        var id := payload.plan.missionId.value;
        && e.queued == [payload.plan]
        && e.response.body == Acknowledged("Mission accepted", id)
        && Replay(store, e.pubs) == store[StatusKey(id) := StatusRecord(Queued, QueuedDetails)]
        && e.pubs == [StatusPublication(id, Queued, QueuedDetails)]
  {
  }

  /** The rejections, in the order the handler checks them. */
  lemma SubmissionRejections(store: map<string, StatusRecord>, schemaLoaded: bool,
                             validate: MissionPlan -> Option<string>, payload: Payload)
    ensures var r := Submission(store, schemaLoaded, validate, payload).response;
      !payload.PlanPayload? ==> r == Error(400, "Invalid JSON payload")
    ensures var r := Submission(store, schemaLoaded, validate, payload).response;
      payload.PlanPayload? && !schemaLoaded ==> r == Error(500, "Mission schema not loaded")
    ensures var r := Submission(store, schemaLoaded, validate, payload).response;
      payload.PlanPayload? && schemaLoaded && validate(payload.plan).Some? ==>
        r.code == 400 && r.body.ErrorBody? && r.body.error == "Schema validation failed"
        && r.body.details == validate(payload.plan)
    ensures var r := Submission(store, schemaLoaded, validate, payload).response;
      && payload.PlanPayload? && schemaLoaded && validate(payload.plan).None?
      && payload.plan.missionId.Some? && StatusKey(payload.plan.missionId.value) in store
      ==> r == Error(409, "Mission with this ID already exists")
    ensures Submission(store, schemaLoaded, validate, payload).response.code in {202, 400, 409, 500}
  {
  }

  /** `submit_mission` on the shared Redis server. */
  method SubmitMission(r: Redis, schemaLoaded: bool, validate: MissionPlan -> Option<string>, payload: Payload)
    returns (response: Response)
    modifies r
    ensures var e := Submission(old(r.store), schemaLoaded, validate, payload);
      && response == e.response
      && r.published == old(r.published) + e.pubs
      && r.tasks == old(r.tasks) + e.queued
      && r.store == Replay(old(r.store), e.pubs)
    ensures r.health == old(r.health)
  {
    if !payload.PlanPayload? {
      return Error(400, "Invalid JSON payload");
    }
    if !schemaLoaded {
      return Error(500, "Mission schema not loaded");
    }
    var plan := payload.plan;
    var verdict := validate(plan);
    if verdict.Some? {
      return Response(400, ErrorBody("Schema validation failed", verdict));
    }
    if plan.missionId.None? {
      return InternalServerError;
    }
    var id := plan.missionId.value;
    var known := r.Exists(StatusKey(id));
    if known {
      return Error(409, "Mission with this ID already exists");
    }
    r.Delay(plan);
    var rec := StatusRecord(Queued, QueuedDetails);
    r.Set(StatusKey(id), rec);
    r.Publish(StatusChannel, StatusEvent(id, rec));
    assert [StatusPublication(id, Queued, QueuedDetails)][..0] == [];
    response := Response(202, Acknowledged("Mission accepted", id));
  }

  /** `get_mission_status`: the stored record verbatim, or 404; the store is only read. */
  method GetMissionStatus(r: Redis, id: string) returns (response: Response)
    ensures StatusKey(id) in r.store <==> response.code == 200
    ensures StatusKey(id) in r.store ==> response.body == RecordBody(r.store[StatusKey(id)])
    ensures StatusKey(id) !in r.store ==> response == Error(404, "Mission not found")
  {
    var value := r.Get(StatusKey(id));
    if value.None? {
      return Error(404, "Mission not found");
    }
    response := Response(200, RecordBody(value.value));
  }

  /** `abort_mission`. */
  function Abort(store: map<string, StatusRecord>, id: string): (e: Effect)
    ensures e.queued == []
    ensures e.response.code == 200 <==> StatusKey(id) in store
    ensures e.pubs != [] <==> StatusKey(id) in store
  {
    if StatusKey(id) !in store then Rejected(404, "Mission not found")
    else
      Effect(Response(200, Acknowledged("Abort signal sent", id)),
             [Publication(AbortChannel, AbortRequest(id)),
              StatusPublication(id, AbortRequested, AbortRequestedDetails)],
             [])
  }

  /** An abort for an unknown mission changes nothing; for a known one, whatever its status,
      the id goes out on `mission_abort_commands` first and the record becomes
      ABORT_REQUESTED; no plan is queued either way. */
  lemma AbortEffect(store: map<string, StatusRecord>, id: string)
    ensures var e := Abort(store, id);
      StatusKey(id) !in store ==> e.response == Error(404, "Mission not found") && e.pubs == []
    ensures var e := Abort(store, id);
      StatusKey(id) in store ==>
        && e.response.code == 200
        && |e.pubs| == 2 && e.pubs[0] == Publication(AbortChannel, AbortRequest(id))
        && Replay(store, e.pubs) == store[StatusKey(id) := StatusRecord(AbortRequested, AbortRequestedDetails)]
    ensures Abort(store, id).queued == []
  {
    var e := Abort(store, id);
    if StatusKey(id) in store {
      assert |AbortChannel| != |StatusChannel|;
      assert e.pubs[..1] == [e.pubs[0]];
      assert [e.pubs[0]][..0] == [];
      assert Replay(store, e.pubs[..1]) == store;
    }
  }

  /** How a subscriber to the publication's channel receives a published abort request: a
      `message` whose data is the mission id. */
  function Received(p: Publication): PubSubMessage
    requires p.message.AbortRequest?
  {
    PubSubMessage("message", p.message.missionId)
  }

  /** The abort request the handler publishes is one the mission's worker acts on. */
  lemma AbortReachesWorker(store: map<string, StatusRecord>, id: string)
    requires StatusKey(id) in store
    ensures Abort(store, id).pubs[0].channel == AbortChannel
    ensures Worker.IsAbortFor(Some(Received(Abort(store, id).pubs[0])), id)
    ensures forall other :: other != id ==> !Worker.IsAbortFor(Some(Received(Abort(store, id).pubs[0])), other)
  {
  }

  method AbortMission(r: Redis, id: string) returns (response: Response)
    modifies r
    ensures var e := Abort(old(r.store), id);
      && response == e.response
      && r.published == old(r.published) + e.pubs
      && r.store == Replay(old(r.store), e.pubs)
    ensures r.tasks == old(r.tasks) && r.health == old(r.health)
  {
    var known := r.Exists(StatusKey(id));
    if !known {
      return Error(404, "Mission not found");
    }
    ghost var store0 := r.store;
    r.Publish(AbortChannel, AbortRequest(id));
    var rec := StatusRecord(AbortRequested, AbortRequestedDetails);
    r.Set(StatusKey(id), rec);
    r.Publish(StatusChannel, StatusEvent(id, rec));
    AbortEffect(store0, id);
    response := Response(200, Acknowledged("Abort signal sent", id));
  }

  /** `health_check`: only a `ConnectionError` from the ping is caught. */
  method HealthCheck(r: Redis) returns (response: Response)
    ensures response.code == 200 <==> r.health == Pong
    ensures r.health == Pong ==> response.body == HealthBody("Mission Sequencer", "ok", "ok")
    ensures r.health == ConnectionFailure ==>
      response == Response(503, HealthBody("Mission Sequencer", "degraded", "error"))
    ensures r.health == OtherFailure ==> response == InternalServerError
  {
    var answer := r.Ping();
    if answer == OtherFailure {
      return InternalServerError;
    }
    var ok := answer == Pong;
    response := Response(if ok then 200 else 503,
                         HealthBody("Mission Sequencer", if ok then "ok" else "degraded", if ok then "ok" else "error"));
  }
}
