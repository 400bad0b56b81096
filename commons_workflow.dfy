/**
 * The trip-optimization workflow of Commons.kt: submit the payload, decide
 * whether to poll, poll the job until it is no longer processing, then turn
 * the first route's stops into a route request.
 */
module OptimizationWorkflow {

  import opened Basics
  import opened GeoJson
  import opened OptimizationPayload
  import opened WaypointNames
  import opened DirectionsRequest
  import opened CommonsState

  /** An HTTP exchange: `isSuccessful` with a parsed body, or a failure code. */
  datatype HttpResponse<+B> = Unsuccessful(code: int, message: string) | Successful(body: B)

  /** The submission response's `status` and `id` fields, absent or present. */
  datatype SubmitBody = SubmitBody(status: Option<string>, id: Option<string>)

  datatype SubmitDecision =
    | StartPolling(id: string)
    | SubmitRejected(status: string)   // a status other than "ok": nothing further happens
    | SubmitFailed(code: int)          // the call was unsuccessful: logged only
    | SubmitThrew(missing: string)     // `getString` on an absent field throws

  const OkStatus: string := "ok"
  const ProcessingStatus: string := "processing"

  /** What `makeOptimizationRequest` does with the submission response. */
  function DecideSubmit(response: HttpResponse<SubmitBody>): (d: SubmitDecision)
    ensures d.StartPolling? <==>
      response.Successful? && response.body.status == Some(OkStatus) && response.body.id.Some?
    ensures d.StartPolling? ==> d.id == response.body.id.value
    ensures d.SubmitFailed? <==> response.Unsuccessful?
    ensures d.SubmitRejected? <==>
      response.Successful? && response.body.status.Some? && response.body.status.value != OkStatus
  {
    match response
    case Unsuccessful(code, _) => SubmitFailed(code)
    case Successful(body) =>
      if body.status.None? then SubmitThrew("status")
      else if body.status.value != OkStatus then SubmitRejected(body.status.value)
      else if body.id.None? then SubmitThrew("id")
      else StartPolling(body.id.value)
  }

  datatype Route = Route(stops: Option<seq<Stop>>)

  /** The poll response's `status` and `routes` fields, absent or present. */
  datatype PollBody = PollBody(status: Option<string>, routes: Option<seq<Route>>)

  datatype PollStep =
    | Repoll                           // still processing: poll the same id again
    | Finished(stops: seq<Stop>)       // `routes[0].stops` of the finished job
    | PollFailed(code: int)            // the call was unsuccessful: logged only
    | PollThrew(missing: string)       // no `routes`, no `routes[0]` or no `stops`

  predicate HasFirstRouteStops(body: PollBody) {
    body.routes.Some? && |body.routes.value| > 0 && body.routes.value[0].stops.Some?
  }

  /** What `processOptimizationResult` does with one poll response. */
  function StepPoll(response: HttpResponse<PollBody>): (s: PollStep)
    ensures s == Repoll <==> response.Successful? && response.body.status == Some(ProcessingStatus)
    ensures s.Finished? <==>
      response.Successful? && response.body.status != Some(ProcessingStatus) && HasFirstRouteStops(response.body)
    ensures s.Finished? ==> s.stops == response.body.routes.value[0].stops.value
    ensures s.PollFailed? <==> response.Unsuccessful?
  {
    match response
    case Unsuccessful(code, _) => PollFailed(code)
    case Successful(body) =>
      if body.status.Some? && body.status.value == ProcessingStatus then Repoll
      else if body.routes.None? then PollThrew("routes")
      else if |body.routes.value| == 0 then PollThrew("routes[0]")
      else if body.routes.value[0].stops.None? then PollThrew("stops")
      else Finished(body.routes.value[0].stops.value)
  }

  datatype PollOutcome = Terminal(step: PollStep) | AttemptsExhausted

  /**
   * The poll recursion as a loop bounded by `maxAttempts`; `server(id, k)` is
   * the response to the k-th poll of job `id`, and `polled` lists the job ids
   * requested, in order.
   */
  method PollOptimization(id: string, server: (string, nat) -> HttpResponse<PollBody>, maxAttempts: nat)
    returns (outcome: PollOutcome, polled: seq<string>)
    ensures |polled| <= maxAttempts
    ensures forall k :: 0 <= k < |polled| ==> polled[k] == id
    ensures forall k :: 0 <= k < |polled| - 1 ==> StepPoll(server(id, k)) == Repoll
    ensures outcome == AttemptsExhausted <==>
      |polled| == maxAttempts && forall k :: 0 <= k < maxAttempts ==> StepPoll(server(id, k)) == Repoll
    ensures outcome.Terminal? ==>
      |polled| > 0 && outcome.step == StepPoll(server(id, |polled| - 1)) && outcome.step != Repoll
  {
    polled := [];
    var attempt := 0;
    while attempt < maxAttempts
      invariant attempt <= maxAttempts && |polled| == attempt
      invariant forall k :: 0 <= k < attempt ==> polled[k] == id
      invariant forall k :: 0 <= k < attempt ==> StepPoll(server(id, k)) == Repoll
    {
      var response := server(id, attempt);
      polled := polled + [id];
      var step := StepPoll(response);
      if step != Repoll {
        outcome := Terminal(step);
        return;
      }
      attempt := attempt + 1;
    }
    outcome := AttemptsExhausted;
  }

  datatype WorkflowOutcome =
    | PayloadThrew(reason: string)
    | NotPolled(decision: SubmitDecision)
    | PollStopped(poll: PollOutcome)
    | StopsThrew(reason: string)
    | RouteRequested(request: RouteRequest)

  /**
   * `makeOptimizationRequest` through to `makeDirectionsRequest`: `submit` is
   * the optimization service's answer to a payload, `sent` the payload posted.
   */
  method MakeOptimizationRequest(
    template: Payload, features: seq<Feature>,
    submit: Payload -> HttpResponse<SubmitBody>,
    server: (string, nat) -> HttpResponse<PollBody>,
    maxAttempts: nat, profile: Profile)
    returns (outcome: WorkflowOutcome, sent: Option<Payload>, polled: seq<string>)
    ensures sent.Some? <==> AllCommented(features)
    ensures sent.Some? ==> sent.value == Payload(
      template.locations + LocationsOf(features),
      template.services + ServicesFor(CommentsOf(features)))
    ensures polled != [] ==> sent.Some? && DecideSubmit(submit(sent.value)) == StartPolling(polled[0])
    ensures forall k :: 0 <= k < |polled| ==> polled[k] == polled[0]
    ensures forall k :: 0 <= k < |polled| - 1 ==> StepPoll(server(polled[0], k)) == Repoll
    ensures |polled| <= maxAttempts
    ensures sent.Some? && DecideSubmit(submit(sent.value)).StartPolling? && maxAttempts > 0 ==> polled != []
    ensures outcome.RouteRequested? <==>
      && polled != []
      && StepPoll(server(polled[0], |polled| - 1)).Finished?
      && AllSnapped(StepPoll(server(polled[0], |polled| - 1)).stops)
    ensures outcome.RouteRequested? ==>
      var stops := StepPoll(server(polled[0], |polled| - 1)).stops;
         && |outcome.request.coordinates| == |stops|
         && (forall i :: 0 <= i < |stops| ==>
               outcome.request.coordinates[i] == Point(stops[i].snappedCoordinate[0], stops[i].snappedCoordinate[1]))
         && outcome.request.profile == profile
         && outcome.request.waypointNames == Join(DropLeadingEmpty(StopNames(stops)))
  {
    polled := [];
    var payload := BuildPayload(template, features);
    if payload.Err? {
      return PayloadThrew(payload.error), None, [];
    }
    sent := Some(payload.value);
    var decision := DecideSubmit(submit(payload.value));
    if !decision.StartPolling? {
      return NotPolled(decision), sent, [];
    }
    var poll;
    poll, polled := PollOptimization(decision.id, server, maxAttempts);
    if !(poll.Terminal? && poll.step.Finished?) {
      return PollStopped(poll), sent, polled;
    }
    var request := MakeDirectionsRequest(poll.step.stops, profile);
    if request.Err? {
      return StopsThrew(request.error), sent, polled;
    }
    outcome := RouteRequested(request.value);
  }

  /** A job that reports "processing" twice, then its stops, is polled exactly three times. */
  method ProcessingTwiceThenFinished(id: string, stops: seq<Stop>) returns (outcome: PollOutcome, polled: seq<string>)
    ensures outcome == Terminal(Finished(stops))
    ensures polled == [id, id, id]
  {
    var server := (job: string, k: nat) =>
      if k < 2 then Successful(PollBody(Some(ProcessingStatus), None))
      else Successful(PollBody(None, Some([Route(Some(stops))])));
    outcome, polled := PollOptimization(id, server, 10);
    assert StepPoll(server(id, 2)) == Finished(stops);
    assert |polled| == 3;
  }

  /** A stop feature: a point and its "comment" label. */
  function LabelledFeature(comment: string, p: Point): Feature {
    Feature(p, map[CommentKey := comment])
  }

  const ScenarioPoints: seq<Point> := [Point(13976600, 3568200), Point(13976700, 3568300), Point(13976800, 3568400)]
  const ScenarioLabels: seq<string> := [StartLabel, "A", EndLabel]

  function ScenarioFeatures(): (features: seq<Feature>)
    ensures |features| == 3
  {
    seq(3, i requires 0 <= i < 3 => LabelledFeature(ScenarioLabels[i], ScenarioPoints[i]))
  }

  function ScenarioStops(): (stops: seq<Stop>)
    ensures |stops| == 3
  {
    seq(3, i requires 0 <= i < 3 => Stop(ScenarioLabels[i], [ScenarioPoints[i].lon, ScenarioPoints[i].lat]))
  }

  lemma ScenarioPayload()
    ensures AllCommented(ScenarioFeatures())
    ensures CommentsOf(ScenarioFeatures()) == ScenarioLabels
    ensures ServicesFor(ScenarioLabels) == [Service("A", "A")]
  {
    var labels := ScenarioLabels;
    assert CommentsOf(ScenarioFeatures()) == labels;
    assert !IsSentinel("A") by { assert |"A"| != |StartLabel| && |"A"| != |EndLabel|; }
    assert [StartLabel][..0] == [];
    assert ServicesFor([StartLabel]) == [];
    assert [StartLabel, "A"][..1] == [StartLabel];
    assert ServicesFor([StartLabel, "A"]) == [Service("A", "A")];
    assert labels[..2] == [StartLabel, "A"];
  }

  lemma ScenarioNames()
    ensures AllSnapped(ScenarioStops())
    ensures StopNames(ScenarioStops()) == ScenarioLabels
    ensures Join(DropLeadingEmpty(ScenarioLabels)) == StartLabel + ";A;" + EndLabel
  {
    var labels := ScenarioLabels;
    assert StopNames(ScenarioStops()) == labels;
    assert DropLeadingEmpty(labels) == labels;
    assert labels[1..] == ["A", EndLabel];
    assert ["A", EndLabel][1..] == [EndLabel];
    assert Join(["A", EndLabel]) == "A" + [Separator] + EndLabel;
    assert Join(labels) == StartLabel + [Separator] + ("A" + [Separator] + EndLabel);
  }

  /**
   * A start, one stop "A" and an end, submitted with an empty template and
   * answered at once with the same order: three locations, one service, one
   * poll, and a route through the three snapped points in that order.
   */
  method StartStopEndScenario(id: string) returns (outcome: WorkflowOutcome, sent: Option<Payload>, polled: seq<string>)
    ensures sent.Some?
    ensures |sent.value.locations| == 3
    ensures forall i :: 0 <= i < 3 ==> sent.value.locations[i] == Location(ScenarioLabels[i], ScenarioPoints[i])
    ensures sent.value.services == [Service("A", "A")]
    ensures polled == [id]
    ensures outcome.RouteRequested?
    ensures outcome.request.coordinates == ScenarioPoints
    ensures outcome.request.waypointNames == StartLabel + ";A;" + EndLabel
  {
    var stops := ScenarioStops();
    var submit := (body: Payload) => Successful(SubmitBody(Some(OkStatus), Some(id)));
    var server := (job: string, k: nat) => Successful(PollBody(Some("completed"), Some([Route(Some(stops))])));
    ScenarioPayload();
    ScenarioNames();
    outcome, sent, polled := MakeOptimizationRequest(Payload([], []), ScenarioFeatures(), submit, server, 10, Driving);
    assert StepPoll(server(polled[0], 0)) == Finished(stops);
    assert |polled| == 1;
  }
}
