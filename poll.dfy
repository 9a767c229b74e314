/** The polling loop of `execute_app` (py/bizyair_webapp.py:383-443): the
    detail endpoint is queried once per tick, the latest snapshot (`poll_data`)
    and the status are replaced, a simulated progress value is derived, and the
    loop stops on `Success` or raises on `Failed`/`Error`.

    The loop is driven by a sequence of ticks, each either the host's
    interruption (checked first in every iteration) or one reply of the detail
    endpoint. When the ticks run out the loop has not finished yet. */
module Poll {
  import opened Json

  /** One reply of the detail endpoint: a 200 with its decoded body, a 404,
      another status, or a transport exception. */
  datatype Reply = Ok(body: Value) | NotFound | OtherStatus(code: int) | TransportError

  /** One iteration's external input: the host interrupted processing, or the
      poll request came back with `reply`. */
  datatype Tick = Interrupted | Polled(reply: Reply)

  /** The loop's variables: `poll_data` (`Null` for `None`), `status` and
      `simulated_progress`. */
  datatype State = State(pollData: Value, status: Value, progress: real)

  /** Why the loop raised: the host's interruption, a server-declared failure
      carrying `message_str`, or a Python exception from malformed data. */
  datatype Exception = Interrupt | TaskFailed(message: Value) | Crash

  /** How one iteration ends. */
  datatype Next =
    | Continue(s: State)
    | Break(s: State, outputs: Value)
    | Raise(e: Exception, status: Value)

  /** One iteration: how it ends, and the progress value it reported (empty
      when it raised before reporting). */
  datatype Step = Step(next: Next, report: seq<real>)

  /** How the whole loop ends. `Raised` carries the `status` variable at the
      raise, with which cancellation is attempted. `TimedOut` is the check after
      the loop (:442-443). `Pending` means the ticks ran out first. */
  datatype End =
    | Finished(outputs: Value)
    | Raised(e: Exception, status: Value)
    | TimedOut
    | Pending(s: State)

  datatype PollRun = PollRun(end: End, log: seq<real>)

  const Queuing: Value := Str("Queuing")

  /** The state before the first iteration (:372, :388-389). */
  function Start(initialStatus: Value): State {
    State(Null, initialStatus, 0.25)
  }

  predicate IsTerminal(v: Value) {
    v == Str("Success") || v == Str("Failed") || v == Str("Error")
  }

  function Min(a: real, b: real): real {
    if a <= b then a else b
  }

  /** The server progress made a fraction: values above 1.0 are read as
      percentages. */
  function NormalizeProgress(raw: real): (r: real)
    ensures raw > 1.0 ==> r * 100.0 == raw && r > 0.01
    ensures raw <= 1.0 ==> r == raw
    ensures raw <= 100.0 ==> r <= 1.0
  {
    if raw > 1.0 then raw / 100.0 else raw
  }

  /** The simulated progress step (:417-420). */
  function NextProgress(status: Value, server: real, prev: real): (r: real)
    ensures status == Str("Running") && server > 0.0 ==> r == server
    ensures status == Str("Running") && server <= 0.0 && prev <= 0.95 ==> prev <= r <= 0.95
    ensures status == Str("Running") && server <= 0.0 ==> r <= 0.95 && r <= prev + 0.01
    ensures status == Queuing ==> r == 0.1
    ensures status == Str("Preparing") ==> r == 0.2
    ensures status != Str("Running") && status != Queuing && status != Str("Preparing") ==> r == prev
    ensures 0.0 <= prev <= 1.0 && server <= 1.0 ==> 0.0 <= r <= 1.0
  {
    if status == Str("Running") then (if server > 0.0 then server else Min(prev + 0.01, 0.95))
    else if status == Queuing then 0.1
    else if status == Str("Preparing") then 0.2
    else prev
  }

  /** The snapshot a 200 reply carries: the body's `data` when its `code` is
      20000, the whole body otherwise. */
  function Snapshot(body: Value): Value
    requires body.Obj?
  {
    if NumEquals(Get(body, "code"), 20000) then Get(body, "data") else body
  }

  /** The request part of an iteration (:397-406): the new `poll_data` and
      `status`. Transport errors and other statuses change nothing; so does a
      body on which Python's `.get` raises (the exception is swallowed). */
  function Receive(s: State, reply: Reply): (r: (Value, Value))
    ensures reply.TransportError? || reply.OtherStatus? ==> r == (s.pollData, s.status)
    ensures reply.NotFound? ==> r == (s.pollData, Queuing)
  {
    match reply
    case TransportError => (s.pollData, s.status)
    case OtherStatus(_) => (s.pollData, s.status)
    case NotFound => (s.pollData, Queuing)
    case Ok(body) =>
      if !body.Obj? then (s.pollData, s.status)
      else
        var pd := Snapshot(body);
        if !Truthy(pd) then (pd, Queuing)
        else if pd.Obj? then (pd, GetOr(pd, "status", Queuing))
        else (pd, s.status)
  }

  /** The rest of an iteration (:409-436) on the received `poll_data` and
      `status`: the status is re-read from the snapshot, progress is updated
      and reported, then a failed status raises and `Success` breaks. */
  function Observe(pd: Value, status: Value, progress: real): (st: Step)
    ensures st.next.Raise? && st.next.e.TaskFailed? ==> IsTerminal(st.next.status) && st.next.status != Str("Success")
    ensures st.next.Break? ==> st.next.s.status == Str("Success")
    ensures st.next.Continue? ==> !IsTerminal(st.next.s.status) && |st.report| == 1
  {
    if Truthy(pd) && !pd.Obj? then Step(Raise(Crash, status), [])
    else
      var status' := if Truthy(pd) then GetOr(pd, "status", status) else status;
      var message := if Truthy(pd) then GetOr(pd, "message_str", Str("")) else Str("");
      var raw := if Truthy(pd) then GetOr(pd, "progress", Int(0)) else Int(0);
      match ToReal(raw)
      case None => Step(Raise(Crash, status'), [])
      case Some(server) =>
        var progress' := NextProgress(status', NormalizeProgress(server), progress);
        if status' == Str("Failed") || status' == Str("Error") then
          Step(Raise(TaskFailed(message), status'), [progress'])
        else if status' == Str("Success") then
          if pd.Obj? then Step(Break(State(pd, status', progress'), GetOr(pd, "outputs", List([]))), [progress'])
          else Step(Raise(Crash, status'), [progress'])
        else Step(Continue(State(pd, status', progress')), [progress'])
  }

  /** One iteration after the loop condition held. */
  function Iterate(s: State, tick: Tick): Step {
    match tick
    case Interrupted => Step(Raise(Interrupt, s.status), [])
    case Polled(reply) =>
      var (pd, status) := Receive(s, reply);
      Observe(pd, status, s.progress)
  }

  /** The loop condition (:392): `None` when `poll_data.get` raises. */
  function LoopCondition(s: State): Option<bool> {
    if s.pollData == Null then Some(true)
    else if !s.pollData.Obj? then None
    else Some(!IsTerminal(Get(s.pollData, "status")))
  }

  /** The loop from state `s`, having reported `log` so far, on the remaining ticks. */
  function Run(s: State, log: seq<real>, ticks: seq<Tick>): (r: PollRun)
    decreases |ticks|
  {
    match LoopCondition(s)
    case None => PollRun(Raised(Crash, s.status), log)
    case Some(false) =>
      // the check after the loop; `outputs` is still the initial `[]`
      if s.status == Str("Success") then PollRun(Finished(List([])), log) else PollRun(TimedOut, log)
    case Some(true) =>
      if ticks == [] then PollRun(Pending(s), log)
      else
        var step := Iterate(s, ticks[0]);
        match step.next
        case Raise(e, status) => PollRun(Raised(e, status), log + step.report)
        case Break(_, outputs) => PollRun(Finished(outputs), log + step.report)
        case Continue(s') => Run(s', log + step.report, ticks[1..])
  }

  /** One iteration of the loop body after the interruption check (:395-436),
      statement by statement, on the loop's variables. */
  method PollOnce(pollData0: Value, status0: Value, progress0: real, reply: Reply) returns (step: Step)
    ensures step == Iterate(State(pollData0, status0, progress0), Polled(reply))
  {
    var pollData, status := ReceiveReply(pollData0, status0, reply);
    step := ObserveSnapshot(pollData, status, progress0);
  }

  /** The request part of one iteration (:397-406), on the loop's variables. */
  method ReceiveReply(pollData0: Value, status0: Value, reply: Reply) returns (pollData: Value, status: Value)
    ensures (pollData, status) == Receive(State(pollData0, status0, 0.0), reply)
  {
    pollData, status := pollData0, status0;
    match reply {
      case Ok(body) =>
        if body.Obj? {
          pollData := if NumEquals(Get(body, "code"), 20000) then Get(body, "data") else body;
          if !Truthy(pollData) {
            status := Queuing;
          } else if pollData.Obj? {
            status := GetOr(pollData, "status", Queuing);
          }
        }
      case NotFound =>
        status := Queuing;
      case OtherStatus(_) =>
      case TransportError =>
    }
  }

  /** The rest of one iteration (:409-436), on the loop's variables. */
  method ObserveSnapshot(pollData: Value, status0: Value, progress0: real) returns (step: Step)
    ensures step == Observe(pollData, status0, progress0)
  {
    var status, progress := status0, progress0;
    if Truthy(pollData) {
      if !pollData.Obj? {
        return Step(Raise(Crash, status), []);
      }
      status := GetOr(pollData, "status", status);
    }
    var serverMsg := if Truthy(pollData) then GetOr(pollData, "message_str", Str("")) else Str("");
    var raw := if Truthy(pollData) then GetOr(pollData, "progress", Int(0)) else Int(0);
    var server := ToReal(raw);
    if server.None? {
      return Step(Raise(Crash, status), []);
    }
    var serverProgress := NormalizeProgress(server.value);
    if status == Str("Running") {
      progress := if serverProgress > 0.0 then serverProgress else Min(progress + 0.01, 0.95);
    } else if status == Queuing {
      progress := 0.1;
    } else if status == Str("Preparing") {
      progress := 0.2;
    }
    if status == Str("Failed") || status == Str("Error") {
      return Step(Raise(TaskFailed(serverMsg), status), [progress]);
    }
    if status == Str("Success") {
      if !pollData.Obj? {
        return Step(Raise(Crash, status), [progress]);
      }
      return Step(Break(State(pollData, status, progress), GetOr(pollData, "outputs", List([]))), [progress]);
    }
    step := Step(Continue(State(pollData, status, progress)), [progress]);
  }

  /** The polling loop (:391-443): the loop condition, the interruption check,
      one iteration, and the time-out check after the loop. */
  method PollTask(initialStatus: Value, ticks: seq<Tick>) returns (run: PollRun)
    ensures run == Run(Start(initialStatus), [], ticks)
  {
    var pollData := Null;
    var status := initialStatus;
    var progress := 0.25;
    var log: seq<real> := [];
    var i := 0;
    while true
      invariant 0 <= i <= |ticks|
      invariant Run(State(pollData, status, progress), log, ticks[i..]) == Run(Start(initialStatus), [], ticks)
      decreases |ticks| - i
    {
      if pollData != Null {
        if !pollData.Obj? {
          return PollRun(Raised(Crash, status), log);
        }
        if IsTerminal(Get(pollData, "status")) {
          break;
        }
      }
      if i == |ticks| {
        return PollRun(Pending(State(pollData, status, progress)), log);
      }
      assert ticks[i..][0] == ticks[i] && ticks[i..][1..] == ticks[i + 1..];
      if ticks[i].Interrupted? {
        return PollRun(Raised(Interrupt, status), log);
      }
      var step := PollOnce(pollData, status, progress, ticks[i].reply);
      log := log + step.report;
      match step.next {
        case Raise(e, st) =>
          return PollRun(Raised(e, st), log);
        case Break(_, outputs) =>
          return PollRun(Finished(outputs), log);
        case Continue(s) =>
          pollData, status, progress := s.pollData, s.status, s.progress;
      }
      i := i + 1;
    }
    // the loop condition failed; `outputs` is still the initial []
    if status != Str("Success") {
      return PollRun(TimedOut, log);
    }
    run := PollRun(Finished(List([])), log);
  }

  // ---------------------------------------------------------------------------
  // Properties of the loop
  // ---------------------------------------------------------------------------

  /** A snapshot that is a dict never carries a terminal status at the top of
      the loop: a terminal status breaks or raises in the iteration that sees it. */
  predicate NoTerminalSnapshot(s: State) {
    s.pollData.Obj? ==> !IsTerminal(Get(s.pollData, "status"))
  }

  /** Every iteration that continues leaves no terminal snapshot behind. */
  lemma IterateKeepsNoTerminal(s: State, tick: Tick)
    requires NoTerminalSnapshot(s)
    requires Iterate(s, tick).next.Continue?
    ensures NoTerminalSnapshot(Iterate(s, tick).next.s)
  {
    if tick.Polled? {
      var (pd, status) := Receive(s, tick.reply);
      var s' := Iterate(s, tick).next.s;
      if pd.Obj? && Truthy(pd) {
        assert s'.status == GetOr(pd, "status", status);
        assert s'.pollData == pd;
        if HasKey(pd, "status") {
          assert Get(pd, "status") == s'.status;
        }
      }
    }
  }

  /** The loop is left only through the `Success` break, never through its
      condition, so the time-out raise after it (:442-443) cannot happen. */
  lemma {:induction false} NeverTimesOut(s: State, log: seq<real>, ticks: seq<Tick>)
    requires NoTerminalSnapshot(s)
    ensures !Run(s, log, ticks).end.TimedOut?
    decreases |ticks|
  {
    if LoopCondition(s) == Some(true) && ticks != [] {
      var step := Iterate(s, ticks[0]);
      if step.next.Continue? {
        IterateKeepsNoTerminal(s, ticks[0]);
        NeverTimesOut(step.next.s, log + step.report, ticks[1..]);
      }
    }
  }

  /** From the start of polling, the loop never times out. */
  lemma PollingNeverTimesOut(initialStatus: Value, ticks: seq<Tick>)
    ensures !Run(Start(initialStatus), [], ticks).end.TimedOut?
  {
    NeverTimesOut(Start(initialStatus), [], ticks);
  }

  /** A state as the loop leaves it after an ordinary iteration: the snapshot
      is absent or a dict whose status, when present, is the loop's status;
      its progress field converts; the status is not terminal. */
  predicate Settled(s: State) {
    && (s.pollData == Null || s.pollData.Obj?)
    && !IsTerminal(s.status)
    && (s.pollData.Obj? ==> ToReal(GetOr(s.pollData, "progress", Int(0))).Some?)
    && (s.pollData.Obj? && Truthy(s.pollData) ==> s.status == GetOr(s.pollData, "status", s.status))
  }

  /** The server progress the settled snapshot reports, as a fraction. */
  function SnapshotProgress(s: State): real
    requires Settled(s)
  {
    if s.pollData.Obj? && Truthy(s.pollData) then NormalizeProgress(ToReal(GetOr(s.pollData, "progress", Int(0))).value)
    else 0.0
  }

  /** A transport exception or an unexpected status changes neither the
      snapshot nor the status: the iteration reports progress and the loop
      goes on. */
  lemma TransportErrorIgnored(s: State, reply: Reply)
    requires Settled(s)
    requires reply.TransportError? || reply.OtherStatus?
    ensures Iterate(s, Polled(reply)) ==
      Step(Continue(State(s.pollData, s.status, NextProgress(s.status, SnapshotProgress(s), s.progress))),
           [NextProgress(s.status, SnapshotProgress(s), s.progress)])
  {
    if s.pollData.Obj? && Truthy(s.pollData) {
      assert GetOr(s.pollData, "status", s.status) == s.status;
    }
  }

  /** A 404 sets `Queuing`, but a snapshot already held wins: the status is
      then read back from it (:404, :409). */
  lemma NotFoundDefersToSnapshot(s: State)
    requires Settled(s)
    ensures var st := Iterate(s, Polled(NotFound));
      st.next.Continue? &&
      st.next.s.status == (if s.pollData.Obj? && Truthy(s.pollData) then GetOr(s.pollData, "status", Queuing) else Queuing)
  {
  }

  /** A snapshot whose status is `Cancelled` does not stop the loop: only
      `Success`, `Failed` and `Error` do. */
  lemma CancelledKeepsPolling(s: State, body: Value)
    requires body.Obj? && Snapshot(body).Obj? && Truthy(Snapshot(body))
    requires Get(Snapshot(body), "status") == Str("Cancelled") && HasKey(Snapshot(body), "status")
    requires ToReal(GetOr(Snapshot(body), "progress", Int(0))).Some?
    ensures Iterate(s, Polled(Ok(body))).next.Continue?
    ensures Iterate(s, Polled(Ok(body))).next.s.status == Str("Cancelled")
  {
  }

  /** A snapshot declaring `Failed` or `Error` raises with its `message_str`
      (default empty); one declaring `Success` ends the loop with its `outputs`
      (default `[]`). */
  lemma TerminalSnapshot(s: State, body: Value)
    requires body.Obj? && Snapshot(body).Obj? && Truthy(Snapshot(body)) && HasKey(Snapshot(body), "status")
    requires ToReal(GetOr(Snapshot(body), "progress", Int(0))).Some?
    ensures var pd := Snapshot(body);
      var next := Iterate(s, Polled(Ok(body))).next;
      (Get(pd, "status") == Str("Failed") || Get(pd, "status") == Str("Error") ==>
        next == Raise(TaskFailed(GetOr(pd, "message_str", Str(""))), Get(pd, "status"))) &&
      (Get(pd, "status") == Str("Success") ==> next.Break? && next.outputs == GetOr(pd, "outputs", List([])))
  {
  }

  /** A 200 reply whose snapshot says `Running` with no server progress. */
  predicate RunningWithoutProgress(t: Tick) {
    && t.Polled? && t.reply.Ok? && t.reply.body.Obj?
    && var pd := Snapshot(t.reply.body);
    && pd.Obj? && HasKey(pd, "status") && Get(pd, "status") == Str("Running")
    && ToReal(GetOr(pd, "progress", Int(0))).Some?
    && ToReal(GetOr(pd, "progress", Int(0))).value <= 0.0
  }

  /** The simulated progress after `k + 1` ticks of a `Running` server that
      reports no progress, starting from `p`. */
  function Climb(p: real, k: nat): real {
    Min(p + 0.01 * (k + 1) as real, 0.95)
  }

  /** One such tick: the snapshot is replaced, the status stays `Running`, and
      the simulated progress grows by 0.01 up to 0.95. */
  lemma RunningStep(s: State, t: Tick)
    requires RunningWithoutProgress(t)
    ensures Iterate(s, t) == Step(
      Continue(State(Snapshot(t.reply.body), Str("Running"), Min(s.progress + 0.01, 0.95))),
      [Min(s.progress + 0.01, 0.95)])
  {
    var pd := Snapshot(t.reply.body);
    assert Truthy(pd);
    assert Receive(s, t.reply) == (pd, Str("Running"));
  }

  /** While the server reports `Running` with no progress, each tick adds 0.01
      to the simulated progress, capped at 0.95: the report for the `k`-th
      tick is `min(p + 0.01 * (k + 1), 0.95)`, and the loop is still waiting
      when the ticks run out. */
  lemma {:induction false} SimulatedProgressClimbs(s: State, log: seq<real>, ticks: seq<Tick>)
    requires LoopCondition(s) == Some(true)
    requires s.progress <= 0.95
    requires forall k :: 0 <= k < |ticks| ==> RunningWithoutProgress(ticks[k])
    ensures var r := Run(s, log, ticks);
      && r.end.Pending? && |r.log| == |log| + |ticks| && r.log[..|log|] == log
      && forall k :: |log| <= k < |r.log| ==> r.log[k] == Climb(s.progress, k - |log|)
    decreases |ticks|
  {
    if ticks != [] {
      RunningStep(s, ticks[0]);
      var p' := Min(s.progress + 0.01, 0.95);
      var s' := State(Snapshot(ticks[0].reply.body), Str("Running"), p');
      SimulatedProgressClimbs(s', log + [p'], ticks[1..]);
      var r := Run(s, log, ticks);
      assert r == Run(s', log + [p'], ticks[1..]);
      assert r.log[..|log| + 1] == log + [p'];
      assert r.log[..|log|] == (r.log[..|log| + 1])[..|log|];
      forall k | |log| <= k < |r.log|
        ensures r.log[k] == Climb(s.progress, k - |log|)
      {
        if k == |log| {
          assert r.log[k] == (r.log[..|log| + 1])[|log|];
        } else {
          assert r.log[k] == Climb(p', k - |log + [p']|);
        }
      }
    }
  }

  /** From the start of polling, the simulated progress under a `Running`
      server that reports no progress climbs from 0.25 and stays within
      [0.26, 0.95], never decreasing from one report to the next. */
  lemma SimulatedProgressFromStart(initialStatus: Value, ticks: seq<Tick>)
    requires forall k :: 0 <= k < |ticks| ==> RunningWithoutProgress(ticks[k])
    ensures var r := Run(Start(initialStatus), [], ticks);
      && |r.log| == |ticks|
      && (forall k :: 0 <= k < |r.log| ==> 0.26 <= r.log[k] <= 0.95)
      && (forall k :: 0 < k < |r.log| ==> r.log[k - 1] <= r.log[k])
  {
    SimulatedProgressClimbs(Start(initialStatus), [], ticks);
  }

  /** A transport exception followed by a `Success` reply ends polling with
      the outputs of that reply; the failed request does not abort the flow. */
  lemma TransientErrorThenSuccess(initialStatus: Value, outputs: Value)
    requires !IsTerminal(initialStatus)
    ensures Run(Start(initialStatus), [],
      [Polled(TransportError), Polled(Ok(Obj([("status", Str("Success")), ("outputs", outputs)])))]).end
      == Finished(outputs)
  {
    var body := SuccessBody(outputs);
    var s0 := Start(initialStatus);
    var p1 := NextProgress(initialStatus, 0.0, 0.25);
    var s1 := State(Null, initialStatus, p1);
    TransportErrorIgnored(s0, TransportError);
    RunContinues(s0, [], Polled(TransportError), [Polled(Ok(body))]);
    SuccessBodyReceived(s1, outputs);
    SuccessBodyObserved(outputs, p1);
    RunBreaks(s1, [p1], Polled(Ok(body)));
  }

  /** An iteration that continues hands its state and report on to the rest of the loop. */
  lemma RunContinues(s: State, log: seq<real>, t: Tick, rest: seq<Tick>)
    requires LoopCondition(s) == Some(true) && Iterate(s, t).next.Continue?
    ensures Run(s, log, [t] + rest) == Run(Iterate(s, t).next.s, log + Iterate(s, t).report, rest)
  {
    assert ([t] + rest)[1..] == rest;
  }

  /** An iteration that breaks ends the loop with its outputs. */
  lemma RunBreaks(s: State, log: seq<real>, t: Tick)
    requires LoopCondition(s) == Some(true) && Iterate(s, t).next.Break?
    ensures Run(s, log, [t]).end == Finished(Iterate(s, t).next.outputs)
  {
  }

  /** A reply body `{"status": "Success", "outputs": outputs}`. */
  function SuccessBody(outputs: Value): Value {
    Obj([("status", Str("Success")), ("outputs", outputs)])
  }

  /** Such a body is the new snapshot, with status `Success`. */
  lemma SuccessBodyReceived(s: State, outputs: Value)
    ensures Receive(s, Ok(SuccessBody(outputs))) == (SuccessBody(outputs), Str("Success"))
  {
    var body := SuccessBody(outputs);
    assert Lookup(body.entries, "code") == None by { assert body.entries[1..][1..] == []; }
    assert Lookup(body.entries, "status") == Some(Str("Success"));
  }

  /** Observing such a snapshot breaks out of the loop with its outputs. */
  lemma SuccessBodyObserved(outputs: Value, progress: real)
    ensures Observe(SuccessBody(outputs), Str("Success"), progress).next
      == Break(State(SuccessBody(outputs), Str("Success"), NextProgress(Str("Success"), 0.0, progress)), outputs)
  {
    var body := SuccessBody(outputs);
    assert body.entries[1..][1..] == [];
    assert Lookup(body.entries, "status") == Some(Str("Success"));
    assert Lookup(body.entries, "outputs") == Some(outputs);
    assert Lookup(body.entries, "progress") == None;
    assert Lookup(body.entries, "message_str") == None;
    assert GetOr(body, "progress", Int(0)) == Int(0);
  }

  /** The reported progress can fall while the task is not finished: a
      `Running` tick with no server progress reports 0.26, and a following
      `Queuing` tick reports the 0.1 floor. */
  lemma ProgressCanFall()
    ensures Run(Start(Queuing), [], [
      Polled(Ok(Obj([("status", Str("Running"))]))),
      Polled(Ok(Obj([("status", Queuing)])))]).log == [0.26, 0.1]
  {
    var ticks := [Polled(Ok(Obj([("status", Str("Running"))]))), Polled(Ok(Obj([("status", Queuing)])))];
    var s1 := State(Obj([("status", Str("Running"))]), Str("Running"), 0.26);
    assert Iterate(Start(Queuing), ticks[0]) == Step(Continue(s1), [0.26]);
    assert ticks[1..] == [ticks[1]];
    var s2 := State(Obj([("status", Queuing)]), Queuing, 0.1);
    assert Iterate(s1, ticks[1]) == Step(Continue(s2), [0.1]);
    assert ticks[1..][1..] == [];
    assert LoopCondition(s2) == Some(true);
    assert Run(s2, [0.26, 0.1], []).log == [0.26, 0.1];
    assert Run(s1, [0.26], ticks[1..]) == Run(s2, [0.26] + [0.1], []);
    assert Run(Start(Queuing), [], ticks) == Run(s1, [] + [0.26], ticks[1..]);
  }

  /** A server progress of 100 while `Running` is reported as 1.0 although no
      terminal status has arrived. */
  lemma FullProgressWhileRunning()
    ensures Run(Start(Queuing), [], [Polled(Ok(Obj([("status", Str("Running")), ("progress", Int(100))])))])
      == PollRun(Pending(State(Obj([("status", Str("Running")), ("progress", Int(100))]), Str("Running"), 1.0)), [1.0])
  {
    var pd := Obj([("status", Str("Running")), ("progress", Int(100))]);
    assert GetOr(pd, "progress", Int(0)) == Int(100);
    assert Iterate(Start(Queuing), Polled(Ok(pd))) == Step(Continue(State(pd, Str("Running"), 1.0)), [1.0]);
  }
}
