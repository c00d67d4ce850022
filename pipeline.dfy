/** The middleware chain the module builds once at load time
    (server.js:69-105): the CORS gate, the body decoder, the stages in their
    registration order with first-claim-wins dispatch, and the error
    boundary that receives every error passed on by an earlier stage. */
module Pipeline {
  import opened Config
  import opened OriginPolicy
  import opened ErrorBoundary

  /** The parts of a request the core looks at. */
  datatype Request = Request(verb: string, path: string, origin: Option<string>)

  /** The stages registered after the body decoder, named after what they mount. */
  datatype Stage =
    | GenerateRouter        // app.use('/api', generateRoute)
    | ContinuationRouter    // app.use('/api', generateContinuationRoute)
    | PlusRouter            // app.use('/api', generatePlusRoute)
    | NewContRouter         // app.use('/api', generateNewContRoute)
    | StaticFiles           // express.static(build)
    | HealthCheck           // app.get('/api/health', ...)
    | SpaFallback           // app.get('*', ...)

  /** Registration order (server.js:73-87). */
  const Stages: seq<Stage> :=
    [GenerateRouter, ContinuationRouter, PlusRouter, NewContRouter, StaticFiles, HealthCheck, SpaFallback]

  /** What a stage does with a request: `next()`, send a response, or `next(err)`. */
  datatype StepResult = Next | Respond(response: Response) | Fail(message: string)

  /** Everything the core cannot see, fixed for one request: the body
      decoder's error if it rejects the payload, what the four routers and
      the static file server do, whether build/index.html can be sent, and
      the clock reading taken by the health check. */
  datatype World = World(
    bodyError: Option<string>,
    delegate: Stage -> StepResult,
    indexReadable: bool,
    now: string)

  const HealthPath := "/api/health"
  const LoadError := "Error loading application"

  predicate IsOpaque(s: Stage) {
    s != HealthCheck && s != SpaFallback
  }

  /** One stage applied to the request. The health check and the catch-all
      are handled by GET only; the catch-all's `sendFile` callback turns a
      failed send into a 500 text response (server.js:90-94). */
  function Step(s: Stage, req: Request, w: World): StepResult {
    match s
    case HealthCheck =>
      if req.verb == "GET" && req.path == HealthPath
      then Respond(Response(200, HealthJson("ok", w.now)))
      else Next
    case SpaFallback =>
      if req.verb == "GET"
      then Respond(if w.indexReadable then Response(200, EntryDocument) else Response(500, Text(LoadError)))
      else Next
    case _ => w.delegate(s)
  }

  /** Who produced the response. */
  datatype Handler = ByStage(stage: Stage) | ByErrorBoundary

  /** `Unmatched` means the request left the chain without a response and
      reached Express's own final handler, which is not part of this model. */
  datatype Outcome = Served(handler: Handler, response: Response) | Unmatched

  /** The end of dispatch at a stage that did not call `next()`. */
  function Conclude(s: Stage, r: StepResult, nodeEnv: Option<string>): Outcome
    requires !r.Next?
  {
    match r
    case Respond(resp) => Served(ByStage(s), resp)
    case Fail(msg) => Served(ByErrorBoundary, ErrorResponse(nodeEnv, msg))
  }

  /** Express's walk over the stages: each one either passes the request on
      or ends the walk. */
  function Dispatch(stages: seq<Stage>, nodeEnv: Option<string>, req: Request, w: World): Outcome
    decreases |stages|
  {
    if stages == [] then Unmatched
    else
      var r := Step(stages[0], req, w);
      if r.Next? then Dispatch(stages[1..], nodeEnv, req, w)
      else Conclude(stages[0], r, nodeEnv)
  }

  /** The whole chain for one request (server.js:69-105); the access log of
      lines 22-25 only calls `next()`, so it contributes nothing here. */
  function Handle(env: Env, req: Request, w: World): Outcome {
    match OriginCallback(env, req.origin)
    case Deny(msg) => Served(ByErrorBoundary, ErrorResponse(env.nodeEnv, msg))
    case Allow =>
      if w.bodyError.Some? then Served(ByErrorBoundary, ErrorResponse(env.nodeEnv, w.bodyError.value))
      else Dispatch(Stages, env.nodeEnv, req, w)
  }

  // ---------------------------------------------------------------------
  // First claim wins
  // ---------------------------------------------------------------------

  /** Reference definition: the index of the first stage that does not pass
      the request on, or `|stages|` when they all do. */
  function FirstClaim(stages: seq<Stage>, req: Request, w: World): (i: nat)
    ensures i <= |stages|
    ensures forall j :: 0 <= j < i ==> Step(stages[j], req, w).Next?
    ensures i < |stages| ==> !Step(stages[i], req, w).Next?
    decreases |stages|
  {
    if stages == [] then 0
    else if !Step(stages[0], req, w).Next? then 0
    else 1 + FirstClaim(stages[1..], req, w)
  }

  /** Dispatch ends exactly at the first stage that does not pass the
      request on, and is `Unmatched` exactly when every stage passes. */
  lemma {:induction false} DispatchIsFirstClaim(stages: seq<Stage>, nodeEnv: Option<string>, req: Request, w: World)
    ensures var i := FirstClaim(stages, req, w);
            Dispatch(stages, nodeEnv, req, w)
            == if i == |stages| then Unmatched else Conclude(stages[i], Step(stages[i], req, w), nodeEnv)
    decreases |stages|
  {
    if stages != [] && Step(stages[0], req, w).Next? {
      DispatchIsFirstClaim(stages[1..], nodeEnv, req, w);
    }
  }

  /** The first stage that does not pass the request on decides the outcome. */
  lemma FirstClaimWins(stages: seq<Stage>, i: nat, nodeEnv: Option<string>, req: Request, w: World)
    requires i < |stages| && !Step(stages[i], req, w).Next?
    requires forall j :: 0 <= j < i ==> Step(stages[j], req, w).Next?
    ensures Dispatch(stages, nodeEnv, req, w) == Conclude(stages[i], Step(stages[i], req, w), nodeEnv)
  {
    DispatchIsFirstClaim(stages, nodeEnv, req, w);
  }

  /** Once a stage has claimed the request no later stage sees it: whatever
      follows that stage can be replaced without changing the outcome. */
  lemma LaterStagesUnseen(stages: seq<Stage>, i: nat, tail: seq<Stage>,
                          nodeEnv: Option<string>, req: Request, w: World)
    requires i < |stages| && !Step(stages[i], req, w).Next?
    requires forall j :: 0 <= j < i ==> Step(stages[j], req, w).Next?
    ensures Dispatch(stages[..i + 1] + tail, nodeEnv, req, w) == Dispatch(stages, nodeEnv, req, w)
  {
    var s' := stages[..i + 1] + tail;
    assert forall j :: 0 <= j <= i ==> s'[j] == stages[j];
    FirstClaimWins(stages, i, nodeEnv, req, w);
    FirstClaimWins(s', i, nodeEnv, req, w);
  }

  /** No stage is registered twice. */
  predicate Distinct(stages: seq<Stage>) {
    forall a, b :: 0 <= a < b < |stages| ==> stages[a] != stages[b]
  }

  /** Of two stages that would both claim a request, only the one registered
      first ever handles it. */
  lemma EarlierRegistrationWins(stages: seq<Stage>, i: nat, j: nat, nodeEnv: Option<string>, req: Request, w: World)
    requires Distinct(stages)
    requires i < j < |stages|
    requires Step(stages[i], req, w).Respond? && Step(stages[j], req, w).Respond?
    ensures Dispatch(stages, nodeEnv, req, w) != Served(ByStage(stages[j]), Step(stages[j], req, w).response)
  {
    DispatchIsFirstClaim(stages, nodeEnv, req, w);
    var k := FirstClaim(stages, req, w);
    assert k <= i;
  }

  // ---------------------------------------------------------------------
  // The concrete chain of server.js
  // ---------------------------------------------------------------------

  /** The four `/api` routers are tried in the order they are mounted: the
      first of them that does not pass the request on handles it (or fails
      it), and the ones mounted after it never see it. */
  lemma FirstApiRouterDecides(env: Env, req: Request, w: World, i: nat)
    requires OriginCallback(env, req.origin).Allow? && w.bodyError.None?
    requires i < 4 && w.delegate(Stages[i]).Respond?
    requires forall j :: 0 <= j < i ==> w.delegate(Stages[j]).Next?
    ensures Handle(env, req, w) == Served(ByStage(Stages[i]), w.delegate(Stages[i]).response)
    ensures forall j :: i < j < |Stages| ==> Handle(env, req, w).handler != ByStage(Stages[j])
  {
    FirstClaimWins(Stages, i, env.nodeEnv, req, w);
  }

  /** A denied origin never reaches the body decoder or any stage: the CORS
      error is rendered by the error boundary, redacted, whatever the
      routers, the static server or the file system would have done. */
  lemma DeniedOriginStopsAtGate(env: Env, req: Request, w: World)
    requires OriginCallback(env, req.origin).Deny?
    ensures Handle(env, req, w)
            == Served(ByErrorBoundary, Response(500, ErrorJson("Internal server error", "Something went wrong")))
  {
  }

  /** Every response of the error boundary is the generic 500; every other
      response is the answer of the stage that claimed the request, reached
      only after the CORS gate allowed it and the body decoder accepted it. */
  lemma OutcomeSources(env: Env, req: Request, w: World)
    ensures Handle(env, req, w).Served? && Handle(env, req, w).handler.ByErrorBoundary? ==>
              Handle(env, req, w).response.status == 500
              && Handle(env, req, w).response.body.ErrorJson?
              && Handle(env, req, w).response.body.error == InternalServerError
    ensures Handle(env, req, w).Served? && Handle(env, req, w).handler.ByStage? ==>
              OriginCallback(env, req.origin).Allow? && w.bodyError.None?
              && Handle(env, req, w).response == Step(Handle(env, req, w).handler.stage, req, w).response
  {
    if OriginCallback(env, req.origin).Allow? && w.bodyError.None? {
      DispatchIsFirstClaim(Stages, env.nodeEnv, req, w);
    }
  }

  /** The catch-all handles GET only; it answers with the entry document, or
      with 500 and the fixed text when the file cannot be sent. */
  lemma CatchAllResponse(env: Env, req: Request, w: World)
    requires Handle(env, req, w).Served? && Handle(env, req, w).handler == ByStage(SpaFallback)
    ensures req.verb == "GET"
    ensures Handle(env, req, w).response
            == if w.indexReadable then Response(200, EntryDocument) else Response(500, Text("Error loading application"))
  {
    DispatchIsFirstClaim(Stages, env.nodeEnv, req, w);
    var k := FirstClaim(Stages, req, w);
    assert Stages[k] == SpaFallback;
  }

  /** A GET that passes the gate and the decoder and that none of the opaque
      stages claims or fails is always answered: by the health check on its
      path, by the catch-all everywhere else. */
  lemma UnclaimedGetIsAnswered(env: Env, req: Request, w: World)
    requires OriginCallback(env, req.origin).Allow? && w.bodyError.None?
    requires req.verb == "GET"
    requires forall s :: IsOpaque(s) ==> w.delegate(s).Next?
    ensures Handle(env, req, w)
            == if req.path == "/api/health"
               then Served(ByStage(HealthCheck), Response(200, HealthJson("ok", w.now)))
               else Served(ByStage(SpaFallback),
                           if w.indexReadable then Response(200, EntryDocument)
                           else Response(500, Text("Error loading application")))
  {
    assert forall j :: 0 <= j < 5 ==> IsOpaque(Stages[j]);
    if req.path == HealthPath {
      FirstClaimWins(Stages, 5, env.nodeEnv, req, w);
    } else {
      FirstClaimWins(Stages, 6, env.nodeEnv, req, w);
    }
  }

  /** A request other than GET that no opaque stage takes leaves the chain
      unanswered: the health check and the catch-all ignore it. */
  lemma UnclaimedNonGetFallsThrough(env: Env, req: Request, w: World)
    requires OriginCallback(env, req.origin).Allow? && w.bodyError.None?
    requires req.verb != "GET"
    requires forall s :: IsOpaque(s) ==> w.delegate(s).Next?
    ensures Handle(env, req, w) == Unmatched
  {
    assert forall j :: 0 <= j < |Stages| ==> Step(Stages[j], req, w).Next?;
    DispatchIsFirstClaim(Stages, env.nodeEnv, req, w);
  }

  /** The health check and the catch-all are registered after the routers
      and the static server, so any of those that claims or fails the
      request first shadows both: no answer then comes from either. */
  lemma HealthShadowedByEarlierStage(env: Env, req: Request, w: World, i: nat)
    requires OriginCallback(env, req.origin).Allow? && w.bodyError.None?
    requires i < 5 && !w.delegate(Stages[i]).Next?
    ensures Handle(env, req, w) != Served(ByStage(HealthCheck), Response(200, HealthJson("ok", w.now)))
    ensures Handle(env, req, w) != Served(ByStage(SpaFallback), Response(200, EntryDocument))
    ensures Handle(env, req, w).Served? && Handle(env, req, w).handler.ByStage? ==>
              IsOpaque(Handle(env, req, w).handler.stage)
  {
    DispatchIsFirstClaim(Stages, env.nodeEnv, req, w);
    var k := FirstClaim(Stages, req, w);
    assert k <= i;
    assert IsOpaque(Stages[k]);
  }

  /** Outside development every response of the error boundary is the same
      redacted 500, whichever part failed: the CORS gate, the body decoder, a
      router or the static file server. */
  lemma ErrorOutcomesRedacted(env: Env, req: Request, w: World)
    requires !IsDevelopment(env.nodeEnv)
    ensures Handle(env, req, w).Served? && Handle(env, req, w).handler.ByErrorBoundary? ==>
              Handle(env, req, w).response
              == Response(500, ErrorJson("Internal server error", "Something went wrong"))
  {
    if OriginCallback(env, req.origin).Allow? && w.bodyError.None? {
      DispatchIsFirstClaim(Stages, env.nodeEnv, req, w);
    }
  }

  /** With NODE_ENV unset the two mode tests part ways: every origin passes
      the CORS gate, yet every error the boundary renders is redacted,
      whether it comes from the body decoder or from a stage. */
  lemma UnsetModePermissiveButRedacted(allowedOrigin: Option<string>, req: Request, w: World)
    ensures OriginCallback(Env(None, allowedOrigin), req.origin) == Allow
    ensures w.bodyError.Some? ==>
              Handle(Env(None, allowedOrigin), req, w)
              == Served(ByErrorBoundary, Response(500, ErrorJson("Internal server error", "Something went wrong")))
    ensures Handle(Env(None, allowedOrigin), req, w).Served?
            && Handle(Env(None, allowedOrigin), req, w).handler.ByErrorBoundary? ==>
              Handle(Env(None, allowedOrigin), req, w).response
              == Response(500, ErrorJson("Internal server error", "Something went wrong"))
  {
    ErrorOutcomesRedacted(Env(None, allowedOrigin), req, w);
  }

  /** In development the body decoder's failure shows its own message. */
  lemma DevelopmentShowsFailure(allowedOrigin: Option<string>, req: Request, w: World)
    requires w.bodyError.Some?
    ensures Handle(Env(Some("development"), allowedOrigin), req, w)
            == Served(ByErrorBoundary, Response(500, ErrorJson("Internal server error", w.bodyError.value)))
  {
  }

  /** In development a router's or the static server's `next(err)` shows its
      own message too, once every earlier stage has passed the request on. */
  lemma DevelopmentShowsStageFailure(allowedOrigin: Option<string>, req: Request, w: World, i: nat, msg: string)
    requires w.bodyError.None?
    requires i < 5 && w.delegate(Stages[i]) == Fail(msg)
    requires forall j :: 0 <= j < i ==> w.delegate(Stages[j]).Next?
    ensures Handle(Env(Some("development"), allowedOrigin), req, w)
            == Served(ByErrorBoundary, Response(500, ErrorJson("Internal server error", msg)))
  {
    assert forall j :: 0 <= j <= i ==> IsOpaque(Stages[j]);
    FirstClaimWins(Stages, i, Some("development"), req, w);
  }
}
