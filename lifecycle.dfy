/** `execute_app` (py/bizyair_webapp.py:268-499) end to end: the gates before
    any upload, the Pro licence check, the input uploads, task creation, the
    polling loop with cancellation on any exception, the outputs fallback and
    the downloads. Everything the node receives from outside — the API key
    file, the widgets, the licence manager, every HTTP reply, the host's
    interruption, the clock and the signer — is a field of `Env`. */
module Lifecycle {
  import opened Json
  import opened Text
  import opened Oss
  import opened Inputs
  import Classify
  import Cancel
  import Poll
  import Results

  /** What the node receives from outside during one execution. */
  datatype Env = Env(
    apiKey: Option<string>,            // get_api_key(); None when no key is configured
    app: string,                       // the APP widget
    widget: Option<Value>,             // input_values_json decoded; None when empty or not JSON
    appDetail: Option<Value>,          // body of a 200 reply of the app-detail endpoint
    activated: bool,                   // license_manager.is_activated()
    dailyAllowed: bool,                // license_manager.check_daily_limit()[0]
    limitMessage: string,              // license_manager.check_daily_limit()[1]
    kwargs: seq<Kwarg>,                // the node's connected inputs, in order
    sign: (string, string) -> string,  // base64 of HMAC-SHA1(secret, text)
    createStatus: int,                 // status of the create request
    createBody: Value,                 // its decoded body
    ticks: seq<Poll.Tick>,             // one per polling iteration
    stopReply: Cancel.Reply,           // reply to the primary stop request
    outputsReply: Option<Value>,       // body of a 200 reply of the outputs endpoint
    fetchOk: nat -> bool)              // whether downloading and decoding result k succeeds

  /** Why an execution failed. */
  datatype Failure =
    | NoApiKey
    | NoApp
    | MissingWebAppId
    | NotActivated
    | LimitReached(limitMessage: string)
    | UploadFailed(error: UploadResult)
    | BadAppId
    | CreateHttp(status: int)
    | NoRequestId
    | FailedImmediately(message: Value)
    | CancelledImmediately
    | PollFailed(e: Poll.Exception)
    | TimedOut
    | Crash

  datatype Outcome = Completed(results: seq<Results.Saved>) | Failed(f: Failure) | StillPolling

  /** The create request's payload: the numeric app id and the input values. */
  datatype Submission = Submission(webAppId: int, inputValues: seq<(string, Value)>)

  /** What one execution did, in the order it did it, and how it ended. */
  datatype Execution = Execution(
    usageCounted: bool,
    puts: seq<OssPut>,
    submitted: Option<Submission>,
    progress: seq<real>,
    stops: seq<Cancel.StopRequest>,
    outputsQueried: bool,
    downloads: seq<string>,
    outcome: Outcome)

  /** An execution that stopped before any request of its own. */
  function Refused(f: Failure): Execution {
    Execution(false, [], None, [], [], false, [], Failed(f))
  }

  /** The Pro check on the app-detail reply (:294-303): the reply's `data`
      (default `{}`) is judged with its `name`; a reply that is missing, not a
      dict, or on which the judgement raises counts as not Pro. */
  function IsPro(appDetail: Option<Value>): (pro: bool)
    ensures pro ==> appDetail.Some? && appDetail.value.Obj? && GetOr(appDetail.value, "data", Obj([])).Obj?
    ensures appDetail.Some? && appDetail.value.Obj? && GetOr(appDetail.value, "data", Obj([])).Obj? ==>
      var d := GetOr(appDetail.value, "data", Obj([]));
      (pro <==> Classify.CheckIsPro(d, Get(d, "name")) == Some(true))
  {
    match appDetail
    case None => false
    case Some(body) =>
      if !body.Obj? then false
      else
        var d := GetOr(body, "data", Obj([]));
        d.Obj? && Classify.CheckIsPro(d, Get(d, "name")) == Some(true)
  }

  /** Python's `int(web_app_id)` for the id as decoded: ints as they are, bools
      as 0 and 1, floats truncated toward zero, strings of decimal digits read
      in base 10; `None` when it raises. */
  function AppNumber(v: Value): (r: Option<int>)
    ensures v.Int? ==> r == Some(v.i)
    ensures v.Str? && v.s != [] && (forall k :: 0 <= k < |v.s| ==> IsDigit(v.s[k])) ==> r == Some(ParseDigits(v.s))
    ensures v.Null? || v.List? || v.Obj? ==> r.None?
    ensures v.Bool? ==> r == Some(if v.b then 1 else 0)
    ensures v.Float? ==> r.Some? && (v.r >= 0.0 ==> 0 <= r.value && r.value as real <= v.r < r.value as real + 1.0)
    ensures v.Float? && v.r < 0.0 ==> r.Some? && r.value <= 0 && r.value as real - 1.0 < v.r <= r.value as real
  {
    match v
    case Int(i) => Some(i)
    case Bool(b) => Some(if b then 1 else 0)
    case Float(x) => Some(if x >= 0.0 then x.Floor else -((-x).Floor))
    case Str(s) => if s != [] && forall k :: 0 <= k < |s| ==> IsDigit(s[k]) then Some(ParseDigits(s)) else None
    case _ => None
  }

  /** How the create reply is taken (:362-380). */
  datatype Created =
    | Polling(requestId: Value, initialStatus: Value)
    | Immediate(requestId: Value, outputs: Value)
    | Rejected(f: Failure)

  function HandleCreate(status: int, body: Value): (c: Created)
    ensures status != 200 && status != 202 ==> c == Rejected(CreateHttp(status))
    ensures c.Rejected? ==> !c.f.PollFailed? && c.f != TimedOut
    ensures c.Polling? || c.Immediate? ==> (status == 200 || status == 202) && body.Obj?
    ensures c.Polling? ==>
      (Truthy(c.requestId) && !IsStr(c.initialStatus, "Success") &&
       !IsStr(c.initialStatus, "Failed") && !IsStr(c.initialStatus, "Cancelled"))
    ensures c.Immediate? <==>
      ((status == 200 || status == 202) && body.Obj? &&
       Truthy(Or(Get(body, "requestId"), Get(body, "request_id"))) && IsStr(Get(body, "status"), "Success"))
    ensures c.Immediate? ==> Truthy(c.requestId) && c.outputs == GetOr(body, "outputs", List([]))
    ensures (status == 200 || status == 202) && body.Obj? && !Truthy(Or(Get(body, "requestId"), Get(body, "request_id"))) ==>
      c == Rejected(NoRequestId)
  {
    if status != 200 && status != 202 then Rejected(CreateHttp(status))
    else if !body.Obj? then Rejected(Crash)
    else
      var requestId := Or(Get(body, "requestId"), Get(body, "request_id"));
      if !Truthy(requestId) then Rejected(NoRequestId)
      else
        var initial := Get(body, "status");
        if IsStr(initial, "Success") then Immediate(requestId, GetOr(body, "outputs", List([])))
        else if IsStr(initial, "Failed") then
          match Classify.ExtractError(body)
          case Some(message) => Rejected(FailedImmediately(message))
          case None => Rejected(Crash)
        else if IsStr(initial, "Cancelled") then Rejected(CancelledImmediately)
        else Polling(requestId, initial)
  }

  /** A task created with status `Failed` is reported with the message
      `_extract_error` finds for it: its `error` field when that is truthy. */
  lemma CreatedFailed(status: int, body: Value)
    requires status == 200 || status == 202
    requires body.Obj? && Truthy(Or(Get(body, "requestId"), Get(body, "request_id")))
    requires IsStr(Get(body, "status"), "Failed")
    ensures HandleCreate(status, body).Rejected?
    ensures Classify.ExtractError(body).Some? ==>
      var f := HandleCreate(status, body).f;
      f.FailedImmediately? && Truthy(f.message) && Some(f.message) == Classify.ExtractError(body)
    ensures Classify.ExtractError(body).None? ==> HandleCreate(status, body) == Rejected(Crash)
    ensures Truthy(Get(body, "error")) ==> HandleCreate(status, body) == Rejected(FailedImmediately(Get(body, "error")))
  {
  }

  /** The outputs the download loop walks (:445-454): the task's own when
      they are truthy, otherwise those of the outputs endpoint. */
  function FinalOutputs(outputs: Value, env: Env): Value {
    if Truthy(outputs) then outputs else Results.FallbackOutputs(env.outputsReply, outputs)
  }

  /** The outputs step (:445-491): the fallback query when the outputs are
      empty, then the downloads. The downloads and results are those the
      download loop plans for the final outputs, and the node crashes
      exactly when that loop raises. */
  function Finish(prefix: Execution, requestId: Value, webAppId: Value, outputs: Value, env: Env): (x: Execution)
    ensures x == prefix.(outputsQueried := x.outputsQueried, downloads := x.downloads, outcome := x.outcome)
    ensures x.outputsQueried <==> !Truthy(outputs)
    ensures x.outcome.Completed? || x.outcome == Failed(Crash)
    ensures var p := Results.PlanOutputs(FinalOutputs(outputs, env), requestId, webAppId, env.fetchOk);
      && x.downloads == p.downloads
      && (x.outcome == Failed(Crash) <==> p.crashed)
      && (x.outcome.Completed? ==> x.outcome.results == p.saved)
  {
    var queried := !Truthy(outputs);
    var outs := FinalOutputs(outputs, env);
    var plan := Results.PlanOutputs(outs, requestId, webAppId, env.fetchOk);
    prefix.(outputsQueried := queried, downloads := plan.downloads,
            outcome := if plan.crashed then Failed(Crash) else Completed(plan.saved))
  }

  /** The checks made before the licence: an API key, an app, and a truthy
      `web_app_id` among the input values. */
  predicate PassesGates(env: Env) {
    && env.apiKey.Some? && env.apiKey.value != []
    && env.app != [] && env.app != "None"
    && Truthy(GetOr(Obj(ParsePayload(env.widget).values), "web_app_id", Null))
  }

  /** The gates before any upload (:269-318): an API key, an app, a truthy
      `web_app_id` among the input values, and for a Pro app an activated
      licence within its daily limit. */
  datatype Admission = Refuse(f: Failure) | Admit(payload: Payload, webAppId: Value, pro: bool)

  function Gates(env: Env): (a: Admission)
    ensures a.Admit? <==> PassesGates(env) && (IsPro(env.appDetail) ==> env.activated && env.dailyAllowed)
    ensures a.Admit? ==>
      && a.payload == ParsePayload(env.widget)
      && a.webAppId == GetOr(Obj(a.payload.values), "web_app_id", Null)
      && a.pro == IsPro(env.appDetail)
    ensures PassesGates(env) && IsPro(env.appDetail) && !env.activated ==> a == Refuse(NotActivated)
    ensures PassesGates(env) && IsPro(env.appDetail) && env.activated && !env.dailyAllowed ==>
      a == Refuse(LimitReached(env.limitMessage))
  {
    if env.apiKey.None? || env.apiKey.value == [] then Refuse(NoApiKey)
    else if env.app == [] || env.app == "None" then Refuse(NoApp)
    else
      var payload := ParsePayload(env.widget);
      var webAppId := GetOr(Obj(payload.values), "web_app_id", Null);
      if !Truthy(webAppId) then Refuse(MissingWebAppId)
      else
        var pro := IsPro(env.appDetail);
        if pro && !env.activated then Refuse(NotActivated)
        else if pro && !env.dailyAllowed then Refuse(LimitReached(env.limitMessage))
        else Admit(payload, webAppId, pro)
  }

  /** The uploads and the payload of the create request (:320-357): a failed
      upload, or an id `int()` rejects, ends the execution before anything
      is submitted; a Pro app's use has been counted either way. */
  function Submit(env: Env, a: Admission): (x: Execution)
    requires a.Admit?
    ensures x.usageCounted == a.pro
    ensures x.progress == [] && x.stops == [] && !x.outputsQueried && x.downloads == []
    ensures x.submitted.Some? <==>
      ApplyKwargs(env.kwargs, 0, a.payload.portMap, a.payload.values, [], env.sign).failure.None? &&
      AppNumber(a.webAppId).Some?
    ensures x.submitted.Some? ==> x.outcome == StillPolling
    ensures x.submitted.None? ==> x.outcome.Failed? && (x.outcome.f.UploadFailed? || x.outcome.f in {BadAppId, Crash})
    ensures x.outcome == Failed(Crash) <==>
      ApplyKwargs(env.kwargs, 0, a.payload.portMap, a.payload.values, [], env.sign).failure == Some(PortMapRaised)
    ensures var u := ApplyKwargs(env.kwargs, 0, a.payload.portMap, a.payload.values, [], env.sign);
      && x.puts == u.puts
      && (x.submitted.Some? ==> x.submitted.value == Submission(AppNumber(a.webAppId).value, u.values))
      && (u.failure.Some? && u.failure.value.UploadAborted? ==> x.outcome == Failed(UploadFailed(u.failure.value.error)))
      && (u.failure.None? && AppNumber(a.webAppId).None? ==> x.outcome == Failed(BadAppId))
  {
    var u := ApplyKwargs(env.kwargs, 0, a.payload.portMap, a.payload.values, [], env.sign);
    var base := Execution(a.pro, u.puts, None, [], [], false, [], StillPolling);
    if u.failure.Some? then
      match u.failure.value
      case UploadAborted(e) => base.(outcome := Failed(UploadFailed(e)))
      case PortMapRaised => base.(outcome := Failed(Crash))
    else
      match AppNumber(a.webAppId)
      case None => base.(outcome := Failed(BadAppId))
      case Some(n) => base.(submitted := Some(Submission(n, u.values)))
  }

  /** Task creation, polling with cancellation on any exception, and the
      results (:359-491). A rejected creation fails with its failure and
      nothing more; a task created `Success` goes straight to the outputs
      step; a polled task records the loop's progress reports, and then:
      an exception raised in the loop sends exactly one stop request, the
      primary signal for the last status seen, and is re-raised; a `Success`
      poll goes on to the outputs step with that poll's outputs; ticks that
      run out leave the task polling. */
  function Conclude(sent: Execution, env: Env, webAppId: Value): (x: Execution)
    ensures x.usageCounted == sent.usageCounted && x.puts == sent.puts && x.submitted == sent.submitted
    ensures var c := HandleCreate(env.createStatus, env.createBody);
      c.Rejected? ==> x == sent.(outcome := Failed(c.f))
    ensures var c := HandleCreate(env.createStatus, env.createBody);
      c.Immediate? ==> x == Finish(sent, c.requestId, webAppId, c.outputs, env)
    ensures var c := HandleCreate(env.createStatus, env.createBody);
      c.Polling? ==>
        var run := PollRunOf(env);
        && (run.end.Raised? ==>
              x == sent.(progress := run.log,
                         stops := [Cancel.SelectSignals(Render(c.requestId), run.end.status).0],
                         outcome := Failed(PollFailed(run.end.e))))
        && (run.end.Finished? ==> x == Finish(sent.(progress := run.log), c.requestId, webAppId, run.end.outputs, env))
        && (run.end.Pending? ==> x == sent.(progress := run.log))
  {
    match HandleCreate(env.createStatus, env.createBody)
    case Rejected(f) => sent.(outcome := Failed(f))
    case Immediate(requestId, outputs) => Finish(sent, requestId, webAppId, outputs, env)
    case Polling(requestId, initial) =>
      var run := Poll.Run(Poll.Start(initial), [], env.ticks);
      var polled := sent.(progress := run.log);
      match run.end
      case Raised(e, status) =>
        polled.(stops := Cancel.CancellationAsWritten(requestId, status, env.stopReply), outcome := Failed(PollFailed(e)))
      case TimedOut => polled.(outcome := Failed(TimedOut))
      case Pending(_) => polled
      case Finished(outputs) => Finish(polled, requestId, webAppId, outputs, env)
  }

  /** The whole execution. */
  function Execute(env: Env): Execution {
    var a := Gates(env);
    if a.Refuse? then Refused(a.f)
    else
      var sent := Submit(env, a);
      if sent.submitted.None? then sent else Conclude(sent, env, a.webAppId)
  }

  /** `execute_app` as the node runs it, step by step. */
  method ExecuteApp(env: Env) returns (x: Execution)
    ensures x == Execute(env)
  {
    if env.apiKey.None? || env.apiKey.value == [] {
      return Refused(NoApiKey);
    }
    if env.app == [] || env.app == "None" {
      return Refused(NoApp);
    }
    var payload := ParsePayload(env.widget);
    var webAppId := GetOr(Obj(payload.values), "web_app_id", Null);
    if !Truthy(webAppId) {
      return Refused(MissingWebAppId);
    }
    var pro := IsPro(env.appDetail);
    if pro {
      if !env.activated {
        return Refused(NotActivated);
      }
      if !env.dailyAllowed {
        return Refused(LimitReached(env.limitMessage));
      }
    }
    assert Gates(env) == Admit(payload, webAppId, pro);
    x := SubmitInputs(env, Admit(payload, webAppId, pro));
    if x.submitted.Some? {
      x := RunTask(x, env, webAppId);
    }
  }

  /** The uploads and the create payload (:320-357). */
  method SubmitInputs(env: Env, a: Admission) returns (x: Execution)
    requires a.Admit?
    ensures x == Submit(env, a)
  {
    var u := ProcessUploads(env.kwargs, a.payload.portMap, a.payload.values, env.sign);
    x := Execution(a.pro, u.puts, None, [], [], false, [], StillPolling);
    match u.failure {
      case Some(UploadAborted(e)) =>
        return x.(outcome := Failed(UploadFailed(e)));
      case Some(PortMapRaised) =>
        return x.(outcome := Failed(Crash));
      case None =>
    }
    var number := AppNumber(a.webAppId);
    if number.None? {
      return x.(outcome := Failed(BadAppId));
    }
    x := x.(submitted := Some(Submission(number.value, u.values)));
  }

  /** Task creation, polling with cancellation, and the results (:359-491). */
  method RunTask(sent: Execution, env: Env, webAppId: Value) returns (x: Execution)
    ensures x == Conclude(sent, env, webAppId)
  {
    x := sent;
    var created := HandleCreate(env.createStatus, env.createBody);
    var requestId, outputs;
    match created {
      case Rejected(f) =>
        return x.(outcome := Failed(f));
      case Immediate(rid, outs) =>
        requestId, outputs := rid, outs;
      case Polling(rid, initial) =>
        var run := Poll.PollTask(initial, env.ticks);
        x := x.(progress := run.log);
        match run.end {
          case Raised(e, status) =>
            var stops := Cancel.CancellationAsWritten(rid, status, env.stopReply);
            return x.(stops := stops, outcome := Failed(PollFailed(e)));
          case TimedOut =>
            return x.(outcome := Failed(TimedOut));
          case Pending(_) =>
            return x;
          case Finished(outs) =>
            requestId, outputs := rid, outs;
        }
    }
    x := FetchResults(x, requestId, webAppId, outputs, env);
  }

  /** The outputs fallback and the downloads (:445-491). */
  method FetchResults(prefix: Execution, requestId: Value, webAppId: Value, outputs0: Value, env: Env)
    returns (x: Execution)
    ensures x == Finish(prefix, requestId, webAppId, outputs0, env)
  {
    var outputs := outputs0;
    var queried := !Truthy(outputs);
    if queried {
      outputs := Results.FallbackOutputs(env.outputsReply, outputs);
    }
    var plan := Results.DownloadResults(outputs, requestId, webAppId, env.fetchOk);
    x := prefix.(outputsQueried := queried, downloads := plan.downloads,
                 outcome := if plan.crashed then Failed(Crash) else Completed(plan.saved));
  }

  // ---------------------------------------------------------------------------
  // Properties of an execution
  // ---------------------------------------------------------------------------

  /** The polling loop's run for an execution that got as far as polling. */
  function PollRunOf(env: Env): Poll.PollRun
    requires HandleCreate(env.createStatus, env.createBody).Polling?
  {
    Poll.Run(Poll.Start(HandleCreate(env.createStatus, env.createBody).initialStatus), [], env.ticks)
  }

  /** Only a Pro app is counted against the daily limit, and only when the
      licence is activated and the limit allows it; a free app is never
      counted. */
  lemma UsageCountedOnlyForPro(env: Env)
    ensures Execute(env).usageCounted <==>
      (PassesGates(env) && IsPro(env.appDetail) && env.activated && env.dailyAllowed)
  {
  }

  /** A Pro app without an activated licence, or over its daily limit, stops
      before any upload or task creation. */
  lemma ProGateStopsEarly(env: Env)
    requires PassesGates(env)
    requires IsPro(env.appDetail) && (!env.activated || !env.dailyAllowed)
    ensures var x := Execute(env);
      x.puts == [] && x.submitted.None? && x.stops == [] && x.downloads == [] && !x.usageCounted
    ensures Execute(env).outcome ==
      (if !env.activated then Failed(NotActivated) else Failed(LimitReached(env.limitMessage)))
  {
  }

  /** Stop signals are sent exactly when the polling loop of a submitted
      task raised, and then exactly one: the primary signal the status at
      the raise selects; the exception is re-raised. The fallback is never
      sent, whatever the primary request got back. */
  lemma StopsOnlyWhenPollingRaised(env: Env)
    ensures var x := Execute(env);
      && |x.stops| <= 1
      && (x.stops != [] ==> x.outcome.Failed? && x.outcome.f.PollFailed?)
      && (x.outcome.Failed? && x.outcome.f.PollFailed? ==>
            var c := HandleCreate(env.createStatus, env.createBody);
            && c.Polling?
            && PollRunOf(env).end.Raised?
            && x.stops == [Cancel.SelectSignals(Render(c.requestId), PollRunOf(env).end.status).0])
    ensures var c := HandleCreate(env.createStatus, env.createBody);
      Execute(env).submitted.Some? && c.Polling? && PollRunOf(env).end.Raised? ==>
        && Execute(env).outcome == Failed(PollFailed(PollRunOf(env).end.e))
        && Execute(env).stops == [Cancel.SelectSignals(Render(c.requestId), PollRunOf(env).end.status).0]
  {
    var a := Gates(env);
    if a.Admit? {
      var sent := Submit(env, a);
      if sent.submitted.Some? {
        ConcludeStops(sent, env, a.webAppId);
      }
    }
  }

  lemma ConcludeStops(sent: Execution, env: Env, webAppId: Value)
    requires sent.stops == [] && sent.outcome == StillPolling
    ensures var x := Conclude(sent, env, webAppId);
      && |x.stops| <= 1
      && (x.stops != [] ==> x.outcome.Failed? && x.outcome.f.PollFailed?)
      && (x.outcome.Failed? && x.outcome.f.PollFailed? ==>
            var c := HandleCreate(env.createStatus, env.createBody);
            && c.Polling?
            && PollRunOf(env).end.Raised?
            && x.stops == [Cancel.SelectSignals(Render(c.requestId), PollRunOf(env).end.status).0])
  {
    match HandleCreate(env.createStatus, env.createBody)
    case Rejected(f) =>
    case Immediate(requestId, outputs) =>
    case Polling(requestId, initial) =>
      var run := PollRunOf(env);
      assert run == Poll.Run(Poll.Start(initial), [], env.ticks);
      var polled := sent.(progress := run.log);
      match run.end
      case Raised(e, status) =>
        assert Conclude(sent, env, webAppId).stops == Cancel.CancellationAsWritten(requestId, status, env.stopReply);
      case TimedOut =>
      case Pending(_) =>
      case Finished(outputs) =>
        assert Conclude(sent, env, webAppId) == Finish(polled, requestId, webAppId, outputs, env);
  }

  /** The time-out failure is never reached: polling ends only through
      `Success`, a raise, or the ticks running out. */
  lemma NeverTimedOut(env: Env)
    ensures Execute(env).outcome != Failed(TimedOut)
  {
    var a := Gates(env);
    if a.Admit? {
      var sent := Submit(env, a);
      if sent.submitted.Some? {
        ConcludeNeverTimedOut(sent, env, a.webAppId);
      }
    }
  }

  lemma ConcludeNeverTimedOut(sent: Execution, env: Env, webAppId: Value)
    requires sent.outcome == StillPolling
    ensures Conclude(sent, env, webAppId).outcome != Failed(TimedOut)
  {
    match HandleCreate(env.createStatus, env.createBody)
    case Rejected(f) =>
    case Immediate(requestId, outputs) =>
    case Polling(requestId, initial) =>
      Poll.PollingNeverTimesOut(initial, env.ticks);
      var run := Poll.Run(Poll.Start(initial), [], env.ticks);
      match run.end
      case Raised(e, status) =>
      case TimedOut =>
      case Pending(_) =>
      case Finished(outputs) =>
        assert Conclude(sent, env, webAppId) == Finish(sent.(progress := run.log), requestId, webAppId, outputs, env);
  }

  /** A submitted execution goes on to task creation. */
  lemma SubmittedConcludes(env: Env)
    requires Execute(env).submitted.Some?
    ensures Gates(env).Admit?
    ensures Execute(env) == Conclude(Submit(env, Gates(env)), env, Gates(env).webAppId)
    ensures Submit(env, Gates(env)).outcome == StillPolling && Submit(env, Gates(env)).stops == []
  {
  }

  /** Once a task is submitted, the creation reply and the polling loop
      decide the rest: a rejected creation fails with its own failure having
      polled, stopped, queried and downloaded nothing; a `Success` poll goes
      on to the outputs step with that poll's outputs; ticks that run out
      leave the task polling with nothing stopped or fetched. */
  lemma ExecuteAfterCreation(env: Env)
    requires Execute(env).submitted.Some?
    ensures var c := HandleCreate(env.createStatus, env.createBody);
      c.Rejected? ==>
        var x := Execute(env);
        x.outcome == Failed(c.f) && x.progress == [] && x.stops == [] && !x.outputsQueried && x.downloads == []
    ensures var c := HandleCreate(env.createStatus, env.createBody);
      c.Polling? && PollRunOf(env).end.Finished? ==>
        Gates(env).Admit? &&
        Execute(env) == Finish(Submit(env, Gates(env)).(progress := PollRunOf(env).log),
                               c.requestId, Gates(env).webAppId, PollRunOf(env).end.outputs, env)
    ensures var c := HandleCreate(env.createStatus, env.createBody);
      c.Polling? && PollRunOf(env).end.Pending? ==>
        var x := Execute(env);
        && x.outcome == StillPolling && x.progress == PollRunOf(env).log
        && x.stops == [] && !x.outputsQueried && x.downloads == []
  {
    SubmittedConcludes(env);
  }

  /** The task is created with the value of the last argument mapped to each
      input name: a plain argument's own value, a tensor's uploaded URLs.
      (`Conclude` keeps the submission, so this is what `Execute` sends.) */
  lemma SubmittedLastWrite(env: Env, a: Admission, key: string, j: nat)
    requires a.Admit? && Submit(env, a).submitted.Some?
    requires j < |env.kwargs|
    requires Target(a.payload.portMap, env.kwargs[j].port) == MappedTo(key)
    requires !TargetedFrom(env.kwargs, j + 1, a.payload.portMap, key)
    ensures var values := Submit(env, a).submitted.value.inputValues;
      match env.kwargs[j].arg
      case Plain(v) => Lookup(values, key) == Some(v)
      case Tensor(images) =>
        UploadImages(images, 0, [], [], env.sign).BatchDone? &&
        Lookup(values, key) == Some(BatchValue(UploadImages(images, 0, [], [], env.sign).urls))
  {
    LastWriteWins(env.kwargs, 0, a.payload.portMap, a.payload.values, [], env.sign, key, j);
  }

  /** The host's interruption at the first polling tick stops the task: the
      stop signal the creation status selects is sent, and only that one, and
      the execution fails with the interruption. */
  lemma InterruptedAtOnce(env: Env)
    requires Execute(env).submitted.Some?
    requires HandleCreate(env.createStatus, env.createBody).Polling?
    requires env.ticks != [] && env.ticks[0] == Poll.Interrupted
    ensures var c := HandleCreate(env.createStatus, env.createBody);
      && Execute(env).outcome == Failed(PollFailed(Poll.Interrupt))
      && Execute(env).stops == [Cancel.SelectSignals(Render(c.requestId), c.initialStatus).0]
      && Execute(env).progress == []
  {
    SubmittedConcludes(env);
    var c := HandleCreate(env.createStatus, env.createBody);
    var sent := Submit(env, Gates(env));
    var run := Poll.Run(Poll.Start(c.initialStatus), [], env.ticks);
    assert Poll.Iterate(Poll.Start(c.initialStatus), Poll.Interrupted).next == Poll.Raise(Poll.Interrupt, c.initialStatus);
    assert run == Poll.PollRun(Poll.Raised(Poll.Interrupt, c.initialStatus), []);
    assert Conclude(sent, env, Gates(env).webAppId) ==
      sent.(progress := [], stops := Cancel.CancellationAsWritten(c.requestId, c.initialStatus, env.stopReply),
            outcome := Failed(PollFailed(Poll.Interrupt)));
  }

  /** A task created already `Success` is never polled and never stopped; its
      results come from the creation reply's outputs. */
  lemma ImmediateSuccessSkipsPolling(env: Env)
    requires Execute(env).submitted.Some?
    requires HandleCreate(env.createStatus, env.createBody).Immediate?
    ensures Execute(env).progress == [] && Execute(env).stops == []
    ensures Execute(env).outputsQueried <==> !Truthy(HandleCreate(env.createStatus, env.createBody).outputs)
    ensures Execute(env).outcome.Completed? || Execute(env).outcome == Failed(Crash)
  {
    SubmittedConcludes(env);
  }

  /** The outputs endpoint is queried only when the task finished with empty
      outputs; an execution still polling has queried and downloaded
      nothing. */
  lemma OutputsQueriedOnlyWhenEmpty(env: Env)
    ensures Execute(env).outputsQueried ==>
      var c := HandleCreate(env.createStatus, env.createBody);
      || (c.Immediate? && !Truthy(c.outputs))
      || (c.Polling? && PollRunOf(env).end.Finished? && !Truthy(PollRunOf(env).end.outputs))
    ensures Execute(env).outcome == StillPolling ==> !Execute(env).outputsQueried && Execute(env).downloads == []
  {
    var a := Gates(env);
    if a.Admit? {
      var sent := Submit(env, a);
      if sent.submitted.Some? {
        ConcludeOutputs(sent, env, a.webAppId);
      }
    }
  }

  lemma ConcludeOutputs(sent: Execution, env: Env, webAppId: Value)
    requires !sent.outputsQueried && sent.downloads == [] && sent.outcome == StillPolling
    ensures var x := Conclude(sent, env, webAppId);
      x.outputsQueried ==>
        var c := HandleCreate(env.createStatus, env.createBody);
        || (c.Immediate? && !Truthy(c.outputs))
        || (c.Polling? && PollRunOf(env).end.Finished? && !Truthy(PollRunOf(env).end.outputs))
    ensures var x := Conclude(sent, env, webAppId);
      x.outcome == StillPolling ==> !x.outputsQueried && x.downloads == []
  {
    match HandleCreate(env.createStatus, env.createBody)
    case Rejected(f) =>
    case Immediate(requestId, outputs) =>
    case Polling(requestId, initial) =>
      var run := PollRunOf(env);
      assert run == Poll.Run(Poll.Start(initial), [], env.ticks);
      var polled := sent.(progress := run.log);
      match run.end
      case Raised(e, status) =>
      case TimedOut =>
      case Pending(_) =>
      case Finished(outputs) =>
        assert Conclude(sent, env, webAppId) == Finish(polled, requestId, webAppId, outputs, env);
  }

  /** A completed execution's results have pairwise distinct file names. */
  lemma CompletedNamesDistinct(env: Env)
    requires Execute(env).outcome.Completed?
    ensures Results.DistinctNames(Execute(env).outcome.results)
  {
    var a := Gates(env);
    var sent := Submit(env, a);
    ConcludeNamesDistinct(sent, env, a.webAppId);
  }

  lemma ConcludeNamesDistinct(sent: Execution, env: Env, webAppId: Value)
    requires sent.outcome == StillPolling
    ensures var x := Conclude(sent, env, webAppId);
      x.outcome.Completed? ==> Results.DistinctNames(x.outcome.results)
  {
    match HandleCreate(env.createStatus, env.createBody)
    case Rejected(f) =>
    case Immediate(requestId, outputs) =>
      FinishNamesDistinct(sent, requestId, webAppId, outputs, env);
    case Polling(requestId, initial) =>
      var run := PollRunOf(env);
      assert run == Poll.Run(Poll.Start(initial), [], env.ticks);
      var polled := sent.(progress := run.log);
      match run.end
      case Raised(e, status) =>
      case TimedOut =>
      case Pending(_) =>
      case Finished(outputs) =>
        assert Conclude(sent, env, webAppId) == Finish(polled, requestId, webAppId, outputs, env);
        FinishNamesDistinct(polled, requestId, webAppId, outputs, env);
  }

  /** Every result of a completed outputs step comes, in order, from an
      entry of the final outputs that has a URL whose download succeeded. */
  lemma FinishResultsSound(prefix: Execution, requestId: Value, webAppId: Value, outputs: Value, env: Env)
    requires Finish(prefix, requestId, webAppId, outputs, env).outcome.Completed?
    ensures Json.Iterate(FinalOutputs(outputs, env)).Some?
    ensures var items := Json.Iterate(FinalOutputs(outputs, env)).value;
      var rs := Finish(prefix, requestId, webAppId, outputs, env).outcome.results;
      && (forall i, j :: 0 <= i < j < |rs| ==> rs[i].index < rs[j].index)
      && forall j :: 0 <= j < |rs| ==>
        rs[j].index < |items| && Results.HasUrl(items[rs[j].index]) && env.fetchOk(rs[j].index)
  {
    var outs := FinalOutputs(outputs, env);
    match Json.Iterate(outs)
    case None =>
    case Some(items) =>
      Results.ResultsSound(items, requestId, webAppId, env.fetchOk);
  }

  lemma FinishNamesDistinct(prefix: Execution, requestId: Value, webAppId: Value, outputs: Value, env: Env)
    ensures var x := Finish(prefix, requestId, webAppId, outputs, env);
      x.outcome.Completed? ==> Results.DistinctNames(x.outcome.results)
  {
    var outs := FinalOutputs(outputs, env);
    Results.OutputNamesDistinct(outs, requestId, webAppId, env.fetchOk);
    var plan := Results.PlanOutputs(outs, requestId, webAppId, env.fetchOk);
    assert Finish(prefix, requestId, webAppId, outputs, env).outcome ==
      if plan.crashed then Failed(Crash) else Completed(plan.saved);
  }
}
