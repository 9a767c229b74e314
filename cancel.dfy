/** Best-effort stopping of a cloud task (`_attempt_cancellation`): which stop
    signal goes first, and when the other one follows. Each HTTP reply is
    abstract: either the request raised (`NoReply`) or it came back with a
    status code. The result is the list of requests issued, in order; nothing
    here can fail, just as nothing escapes the Python method. */
module Cancel {
  import opened Json

  datatype Verb = PUT | DELETE

  /** One stop request: its HTTP verb and URL. */
  datatype StopRequest = StopRequest(verb: Verb, url: string)

  /** What one HTTP request gave back: nothing (a transport exception was
      caught and logged) or a response with a status code. */
  datatype Reply = NoReply | Status(code: int)

  const CancelEndpoint: string := "https://api.bizyair.cn/w/v1/webapp/task/openapi/cancel?requestId="
  const InterruptEndpoint: string := "https://api.bizyair.cn/w/v1/webapp/task/openapi/interrupt?requestId="

  /** The "cancel" signal: DELETE on the cancel endpoint. */
  function CancelSignal(id: string): StopRequest {
    StopRequest(DELETE, CancelEndpoint + id)
  }

  /** The "interrupt" signal: PUT on the interrupt endpoint. */
  function InterruptSignal(id: string): StopRequest {
    StopRequest(PUT, InterruptEndpoint + id)
  }

  /** The primary and fallback signals for the last known status: a running
      task is interrupted first, a task in any other state is cancelled first;
      the fallback is always the other signal. */
  function SelectSignals(id: string, status: Value): (r: (StopRequest, StopRequest))
    ensures IsStr(status, "Running") ==> r.0.verb == PUT && r.1.verb == DELETE
    ensures !IsStr(status, "Running") ==> r.0.verb == DELETE && r.1.verb == PUT
    ensures {r.0, r.1} == {CancelSignal(id), InterruptSignal(id)}
  {
    if IsStr(status, "Running") then (InterruptSignal(id), CancelSignal(id))
    else (CancelSignal(id), InterruptSignal(id))
  }

  /** Python's `bool(resp)` for a `requests.Response`: `resp.ok`, which is
      false exactly for the statuses `raise_for_status` rejects, 400 to 599.
      `None` (no response) is false. */
  predicate ResponseTruthy(reply: Reply) {
    reply.Status? && !(400 <= reply.code < 600)
  }

  /** `_attempt_cancellation` exactly as written: the fallback guard is
      `resp and resp.status_code == 404`, and a 404 response is falsy, so the
      guard never holds and at most the primary request is ever sent. */
  function CancellationAsWritten(requestId: Value, status: Value, primaryReply: Reply): (sent: seq<StopRequest>)
    ensures !Truthy(requestId) ==> sent == []
    ensures Truthy(requestId) ==> sent == [SelectSignals(Render(requestId), status).0]
  {
    if !Truthy(requestId) then []
    else
      var (primary, fallback) := SelectSignals(Render(requestId), status);
      if ResponseTruthy(primaryReply) && primaryReply.code == 404 then [primary, fallback]
      else [primary]
  }

  /** `_attempt_cancellation` as evidently intended: nothing is sent without a
      request id; otherwise the primary signal is sent, and the fallback
      follows exactly when the primary came back with status 404. */
  function Cancellation(requestId: Value, status: Value, primaryReply: Reply): (sent: seq<StopRequest>)
    ensures !Truthy(requestId) ==> sent == []
    ensures Truthy(requestId) ==> 1 <= |sent| <= 2 && sent[0] == SelectSignals(Render(requestId), status).0
    ensures |sent| == 2 <==> Truthy(requestId) && primaryReply == Status(404)
    ensures |sent| == 2 ==> sent[1] == SelectSignals(Render(requestId), status).1 && sent[0].verb != sent[1].verb
  {
    if !Truthy(requestId) then []
    else
      var (primary, fallback) := SelectSignals(Render(requestId), status);
      if primaryReply.Status? && primaryReply.code == 404 then [primary, fallback]
      else [primary]
  }

  /** The two definitions part exactly on a 404 reply to the primary request:
      the code as written stops after one request, the intended behaviour
      sends the fallback too. */
  lemma AsWrittenSkipsFallback(requestId: Value, status: Value)
    requires Truthy(requestId)
    ensures |CancellationAsWritten(requestId, status, Status(404))| == 1
    ensures |Cancellation(requestId, status, Status(404))| == 2
  {
  }

  /** Concretely: a running task whose interrupt request answers 404 is never
      sent the cancel request by the code as written. */
  lemma AsWrittenRunning404()
    ensures CancellationAsWritten(Str("r1"), Str("Running"), Status(404)) == [InterruptSignal("r1")]
    ensures Cancellation(Str("r1"), Str("Running"), Status(404)) == [InterruptSignal("r1"), CancelSignal("r1")]
  {
  }

  /** On every reply other than 404 the two definitions agree. */
  lemma AgreeUnless404(requestId: Value, status: Value, primaryReply: Reply)
    requires primaryReply != Status(404)
    ensures CancellationAsWritten(requestId, status, primaryReply) == Cancellation(requestId, status, primaryReply)
  {
  }
}
