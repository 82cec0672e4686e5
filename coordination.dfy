/** The controller and the worker connected as the `Tracer` constructor wires
    them (tracer/tracer.py:15-16): `_attach` carries requests to the worker,
    `attachCompleted` carries completions back. Each signal is a queue; the
    system takes one of three steps at a time, in any interleaving.

    The worker runs either as written, reporting `str(e)`, or with the
    corrected report that never describes a failure by the empty string. */
module Coordination {
  import opened Wrappers
  import opened Tracer
  import opened AttachWorker

  datatype Variant = AsWritten | Corrected

  /** `delivered` requests have reached the worker and `received` completions
      have reached the controller. */
  datatype System = System(controller: Controller, delivered: nat, worker: WorkerState, received: nat)

  datatype Step =
    | CallerAttaches(request: AttachRequest)  // someone calls Tracer.attach
    | WorkerRuns(engine: Engine)              // the worker handles the next request
    | ControllerReceives                      // the controller handles the next completion

  const START: System := System(INITIAL, 0, IDLE, 0)

  function WorkerTurn(v: Variant, w: WorkerState, request: AttachRequest, e: Engine): WorkerState {
    match v
    case AsWritten => HandleAttach(w, request.process, request.triggerPort, e)
    case Corrected => HandleAttachDescribed(w, request.process, request.triggerPort, e)
  }

  /** One step. A caller's attach touches only the controller; a worker turn
      consumes one request and emits one completion; a controller turn
      consumes one completion. Requests and completions are only ever appended. */
  function Next(v: Variant, s: System, step: Step): (r: System)
    ensures |s.controller.requests| <= |r.controller.requests|
    ensures r.controller.requests[..|s.controller.requests|] == s.controller.requests
    ensures |s.worker.completions| <= |r.worker.completions|
    ensures r.worker.completions[..|s.worker.completions|] == s.worker.completions
    ensures s.delivered <= r.delivered <= s.delivered + 1
    ensures s.received <= r.received <= s.received + 1
    ensures step.CallerAttaches? ==> r.worker == s.worker && r.delivered == s.delivered && r.received == s.received
    ensures step.CallerAttaches? ==> r.controller == Apply(s.controller, CallAttach(step.request))
    ensures step.WorkerRuns? ==> r.controller == s.controller && r.received == s.received
    ensures step.WorkerRuns? && s.delivered < |s.controller.requests| ==>
      && r.delivered == s.delivered + 1 && |r.worker.completions| == |s.worker.completions| + 1
      && r.worker == WorkerTurn(v, s.worker, s.controller.requests[s.delivered], step.engine)
    ensures step.ControllerReceives? ==>
      r.worker == s.worker && r.delivered == s.delivered && r.controller.requests == s.controller.requests
    ensures step.ControllerReceives? && s.received < |s.worker.completions| ==>
      r.received == s.received + 1 && r.controller == CompleteStep(s.controller, s.worker.completions[s.received])
  {
    match step
    case CallerAttaches(request) =>
      (match AttachStep(s.controller, request)
       case Success(c) => s.(controller := c)
       case Failure(_) => s)
    case WorkerRuns(engine) =>
      if s.delivered < |s.controller.requests| then
        s.(worker := WorkerTurn(v, s.worker, s.controller.requests[s.delivered], engine),
           delivered := s.delivered + 1)
      else s
    case ControllerReceives =>
      if s.received < |s.worker.completions| then
        s.(controller := CompleteStep(s.controller, s.worker.completions[s.received]),
           received := s.received + 1)
      else s
  }

  function Execute(v: Variant, s: System, steps: seq<Step>): System
    decreases |steps|
  {
    if steps == [] then s else Execute(v, Next(v, s, steps[0]), steps[1..])
  }

  /** Requests emitted but not yet handled, plus completions emitted but not yet received. */
  function InFlight(s: System): int {
    (|s.controller.requests| - s.delivered) + (|s.worker.completions| - s.received)
  }

  predicate HoldsNothing(w: WorkerState) { w.process.None? && w.script.None? }
  predicate HoldsSession(w: WorkerState) { w.process.Some? && w.script.Some? }

  /** The coordination invariant of the program as written: at most one
      attempt is ever in flight, it is in flight exactly while the controller
      is attaching, a detached controller goes with a worker holding nothing,
      and a pending completion says truthfully whether a session is held. */
  ghost predicate Inv(s: System) {
    && IsStateName(s.controller.state)
    && s.delivered <= |s.controller.requests|
    && s.received <= |s.worker.completions|
    && |s.worker.completions| == s.delivered
    && (s.controller.state == ATTACHING <==> InFlight(s) == 1)
    && (s.controller.state != ATTACHING ==> InFlight(s) == 0)
    && (s.controller.state == DETACHED ==> HoldsNothing(s.worker))
    && (s.controller.state == ATTACHED ==> HoldsSession(s.worker) || HoldsNothing(s.worker))
    && (s.controller.state == ATTACHING && s.delivered < |s.controller.requests| ==> HoldsNothing(s.worker))
    && (s.controller.state == ATTACHING && s.received < |s.worker.completions| ==>
          var report := s.worker.completions[s.received];
          (report == None ==> HoldsSession(s.worker)) && (report != None ==> HoldsNothing(s.worker)))
  }

  /** With the corrected report, in addition: attached goes with a held
      session, and no pending failure is described by the empty string. */
  ghost predicate CorrectedInv(s: System) {
    && Inv(s)
    && (s.controller.state == ATTACHED ==> HoldsSession(s.worker))
    && (s.controller.state == ATTACHING && s.received < |s.worker.completions| ==>
          s.worker.completions[s.received] != Some(""))
  }

  lemma StartSatisfiesInv()
    ensures Inv(START) && CorrectedInv(START)
  {
  }

  lemma NextPreservesInv(v: Variant, s: System, step: Step)
    requires Inv(s)
    ensures Inv(Next(v, s, step))
  {
  }

  /** The invariant holds after any interleaving of steps, as written or corrected. */
  lemma {:induction false} ExecutePreservesInv(v: Variant, s: System, steps: seq<Step>)
    requires Inv(s)
    ensures Inv(Execute(v, s, steps))
    decreases |steps|
  {
    if steps != [] {
      NextPreservesInv(v, s, steps[0]);
      ExecutePreservesInv(v, Next(v, s, steps[0]), steps[1..]);
    }
  }

  /** A worker turn serves the latest request: the pending request is the last
      one the caller emitted, and the worker's first call attaches to that
      request's process. */
  lemma WorkerServesLatestRequest(v: Variant, s: System, e: Engine)
    requires Inv(s) && s.delivered < |s.controller.requests|
    ensures var q := s.controller.requests[|s.controller.requests| - 1];
      var w := Next(v, s, WorkerRuns(e)).worker;
      && s.delivered == |s.controller.requests| - 1
      && w == WorkerTurn(v, s.worker, q, e)
      && |w.calls| > |s.worker.calls|
      && w.calls[|s.worker.calls|] == DeviceAttach(q.process.device, q.process.pid)
  {
    var q := s.controller.requests[|s.controller.requests| - 1];
    FirstRaiseOfSteps(e);
    assert AttemptCalls(q.process, q.triggerPort)[0] == DeviceAttach(q.process.device, q.process.pid);
  }

  /** Strict single attempt: never more than one attach in flight. */
  lemma AtMostOneAttempt(v: Variant, steps: seq<Step>)
    ensures var s := Execute(v, START, steps); 0 <= InFlight(s) <= 1
  {
    StartSatisfiesInv();
    ExecutePreservesInv(v, START, steps);
  }

  /** Every completion the controller handles arrives while it is attaching,
      so the completion handler only ever moves out of attaching. */
  lemma CompletionsArriveWhileAttaching(v: Variant, steps: seq<Step>)
    ensures var s := Execute(v, START, steps);
      s.received < |s.worker.completions| ==> s.controller.state == ATTACHING
  {
    StartSatisfiesInv();
    ExecutePreservesInv(v, START, steps);
  }

  /** A detached controller goes with a worker that holds no session and no script. */
  lemma DetachedHoldsNothing(v: Variant, steps: seq<Step>)
    ensures var s := Execute(v, START, steps);
      s.controller.state == DETACHED ==> HoldsNothing(s.worker)
  {
    StartSatisfiesInv();
    ExecutePreservesInv(v, START, steps);
  }

  /** Once attached, nothing in the system moves the controller again. */
  lemma {:induction false} AttachedIsFinal(v: Variant, s: System, steps: seq<Step>)
    requires Inv(s) && s.controller.state == ATTACHED
    ensures Execute(v, s, steps).controller.state == ATTACHED
    decreases |steps|
  {
    if steps != [] {
      NextPreservesInv(v, s, steps[0]);
      AttachedIsFinal(v, Next(v, s, steps[0]), steps[1..]);
    }
  }

  // ---------------------------------------------------------------------
  // The completion of a failure whose message is empty
  // ---------------------------------------------------------------------

  /** As written, an attach whose `device.attach` raises an exception with an
      empty message ends with the controller attached while the worker holds
      no session and no script. */
  lemma EmptyFailureReadsAsSuccess(request: AttachRequest)
    ensures var failure := Engine(Raises(""), Returns, Returns, Returns, Returns);
      var s := Execute(AsWritten, START, [CallerAttaches(request), WorkerRuns(failure), ControllerReceives]);
      s.controller.state == ATTACHED && HoldsNothing(s.worker)
  {
    var failure := Engine(Raises(""), Returns, Returns, Returns, Returns);
    var steps := [CallerAttaches(request), WorkerRuns(failure), ControllerReceives];
    var s1 := Next(AsWritten, START, steps[0]);
    assert s1.controller == Controller(ATTACHING, [ATTACHING], [request]);
    FirstRaiseOfSteps(failure);
    var s2 := Next(AsWritten, s1, steps[1..][0]);
    assert s2.worker.completions == [Some("")] && HoldsNothing(s2.worker);
    var s3 := Next(AsWritten, s2, steps[1..][1..][0]);
    assert s3.controller.state == ATTACHED && s3.worker == s2.worker;
    assert steps[1..][1..][1..] == [];
    assert Execute(AsWritten, START, steps) == Execute(AsWritten, s1, steps[1..])
        == Execute(AsWritten, s2, steps[1..][1..]) == Execute(AsWritten, s3, []);
  }

  /** With the corrected report, every failed attempt brings the controller
      back to detached. */
  lemma DescribedFailureDetaches(c: Controller, e: Engine)
    requires Report(e).Some?
    ensures CompleteStep(c, DescribedReport(e)).state == DETACHED
  {
  }

  lemma NextPreservesCorrectedInv(s: System, step: Step)
    requires CorrectedInv(s)
    ensures CorrectedInv(Next(Corrected, s, step))
  {
  }

  lemma {:induction false} ExecutePreservesCorrectedInv(s: System, steps: seq<Step>)
    requires CorrectedInv(s)
    ensures CorrectedInv(Execute(Corrected, s, steps))
    decreases |steps|
  {
    if steps != [] {
      NextPreservesCorrectedInv(s, steps[0]);
      ExecutePreservesCorrectedInv(Next(Corrected, s, steps[0]), steps[1..]);
    }
  }

  /** With the corrected report, the controller reports attached only while
      the worker holds a live session and script, and detached only when it
      holds neither. */
  lemma StateMatchesWorker(steps: seq<Step>)
    ensures var s := Execute(Corrected, START, steps);
      && (s.controller.state == ATTACHED ==> HoldsSession(s.worker))
      && (s.controller.state == DETACHED ==> HoldsNothing(s.worker))
  {
    StartSatisfiesInv();
    ExecutePreservesCorrectedInv(START, steps);
  }
}
