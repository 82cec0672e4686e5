/** The attach worker (class `Worker`, tracer/tracer.py:126-153).

    The instrumentation engine is an oracle: for each foreign call of one
    attach attempt it says whether the call returns or raises, and with what
    message. The worker's own fields `_process` and `_script`, the calls it
    makes into the engine, and its `attachCompleted` emissions are the state. */
module AttachWorker {
  import opened Wrappers
  import opened Tracer
  import Payload

  /** How one foreign call ends. */
  datatype Outcome = Returns | Raises(message: string)

  /** The engine's behaviour for one attempt: `device.attach`, `create_script`,
      `script.on`, `script.load`, and the `detach` of the cleanup path. The
      error of that `detach` is swallowed: both ways it can end lead to the
      same state (`DetachErrorSwallowed`). */
  datatype Engine = Engine(attach: Outcome, createScript: Outcome, register: Outcome, load: Outcome, detach: Outcome)

  datatype Session = Session(device: nat, pid: int)
  datatype Script = Script(session: Session, source: string)

  /** A call made into the engine. */
  datatype Call =
    | DeviceAttach(device: nat, pid: int)
    | CreateScript(session: Session, source: string)
    | RegisterHandler(script: Script)
    | Load(script: Script)
    | Detach(session: Session)

  /** The worker: `_process`, `_script`, the engine calls made so far and
      the value of every `attachCompleted` emission so far (None for success). */
  datatype WorkerState = WorkerState(
    process: Option<Session>,
    script: Option<Script>,
    calls: seq<Call>,
    completions: seq<Option<string>>)

  const IDLE: WorkerState := WorkerState(None, None, [], [])

  function SessionOf(p: Process): Session { Session(p.device, p.pid) }

  function ScriptOf(p: Process, triggerPort: int): Script {
    Script(SessionOf(p), Payload.ScriptSource(triggerPort))
  }

  // ---------------------------------------------------------------------
  // The reference description of one attempt
  // ---------------------------------------------------------------------

  /** The four steps of the `try` body, in order. */
  function Steps(e: Engine): seq<Outcome> {
    [e.attach, e.createScript, e.register, e.load]
  }

  /** The index of the first step that raises, if any. */
  function FirstRaise(os: seq<Outcome>): (k: Option<nat>)
    ensures k.Some? ==> k.value < |os| && os[k.value].Raises?
    ensures k.Some? ==> forall j | 0 <= j < k.value :: os[j].Returns?
    ensures k.None? ==> forall j | 0 <= j < |os| :: os[j].Returns?
    decreases |os|
  {
    if os == [] then None
    else if os[0].Raises? then Some(0)
    else match FirstRaise(os[1..])
      case None => None
      case Some(j) => Some(j + 1)
  }

  /** The first raising step, spelled out for the four steps of an attempt. */
  lemma {:induction false} FirstRaiseOfSteps(e: Engine)
    ensures FirstRaise(Steps(e)) ==
      if e.attach.Raises? then Some(0)
      else if e.createScript.Raises? then Some(1)
      else if e.register.Raises? then Some(2)
      else if e.load.Raises? then Some(3)
      else None
  {
    var os0 := Steps(e);
    var os1 := [e.createScript, e.register, e.load];
    var os2 := [e.register, e.load];
    var os3 := [e.load];
    assert os0[1..] == os1 && os1[1..] == os2 && os2[1..] == os3 && os3[1..] == [];
    assert FirstRaise(os3) == if e.load.Raises? then Some(0) else None;
    assert FirstRaise(os2) == if e.register.Raises? then Some(0)
      else if e.load.Raises? then Some(1) else None;
    assert FirstRaise(os1) == if e.createScript.Raises? then Some(0)
      else if e.register.Raises? then Some(1) else if e.load.Raises? then Some(2) else None;
  }

  /** What the completion of an attempt reports: None when all four steps
      return, otherwise `str(e)` of the first step that raised, which is empty
      when the exception carries no message. */
  function Report(e: Engine): Option<string> {
    match FirstRaise(Steps(e))
    case None => None
    case Some(k) => Some(Steps(e)[k].message)
  }

  /** The four calls of a complete attempt, in the order they are made. */
  function AttemptCalls(p: Process, triggerPort: int): seq<Call> {
    var s := ScriptOf(p, triggerPort);
    [DeviceAttach(p.device, p.pid), CreateScript(s.session, s.source), RegisterHandler(s), Load(s)]
  }

  /** How many of those calls are made: up to and including the first that raises. */
  function CallsMade(e: Engine): nat {
    match FirstRaise(Steps(e))
    case None => 4
    case Some(k) => k + 1
  }

  /** The session the cleanup path detaches, if any: the one `_process` held
      when `device.attach` raised (a previous attempt's), or the new one. */
  function CleanupDetaches(w: WorkerState, p: Process, e: Engine): seq<Call> {
    match FirstRaise(Steps(e))
    case None => []
    case Some(k) =>
      if k == 0 then (if w.process.Some? then [Detach(w.process.value)] else [])
      else [Detach(SessionOf(p))]
  }

  // ---------------------------------------------------------------------
  // `Worker.attach`
  // ---------------------------------------------------------------------

  /** The `except` block: drop the script, detach and drop the session if one is
      held, and report the failure. `detach` is how that detach call ends; the
      inner bare `except: pass` swallows its error. */
  function Cleanup(w: WorkerState, message: string, detach: Outcome): (r: WorkerState)
    ensures r.process == None && r.script == None
    ensures r.completions == w.completions + [Some(message)]
    ensures r.calls == w.calls + (if w.process.Some? then [Detach(w.process.value)] else [])
  {
    var w' := w.(script := None);
    var w'' := if w'.process.Some? then
        var detached := w'.(calls := w'.calls + [Detach(w'.process.value)]);
        match detach
        case Returns => detached.(process := None)
        case Raises(_) => detached.(process := None)
      else w';
    w''.(completions := w''.completions + [Some(message)])
  }

  /** One call of `Worker.attach(process, triggerPort)` against engine `e`. */
  function HandleAttach(w: WorkerState, p: Process, triggerPort: int, e: Engine): (r: WorkerState)
    ensures r.completions == w.completions + [Report(e)]
    ensures Report(e).Some? ==> r.process == None && r.script == None
    ensures Report(e).None? ==> r.process == Some(SessionOf(p)) && r.script == Some(ScriptOf(p, triggerPort))
    ensures r.calls == w.calls + AttemptCalls(p, triggerPort)[..CallsMade(e)] + CleanupDetaches(w, p, e)
  {
    FirstRaiseOfSteps(e);
    var session := SessionOf(p);
    var script := ScriptOf(p, triggerPort);
    var w0 := w.(calls := w.calls + [DeviceAttach(p.device, p.pid)]);
    if e.attach.Raises? then Cleanup(w0, e.attach.message, e.detach) else
    var w1 := w0.(process := Some(session), calls := w0.calls + [CreateScript(session, script.source)]);
    if e.createScript.Raises? then Cleanup(w1, e.createScript.message, e.detach) else
    var w2 := w1.(script := Some(script), calls := w1.calls + [RegisterHandler(script)]);
    if e.register.Raises? then Cleanup(w2, e.register.message, e.detach) else
    var w3 := w2.(calls := w2.calls + [Load(script)]);
    if e.load.Raises? then Cleanup(w3, e.load.message, e.detach) else
    w3.(completions := w3.completions + [None])
  }

  /** Whatever the cleanup's `detach` does, the attempt ends the same way and
      reports the primary failure: both branches of the `except: pass` around
      `detach` in `Cleanup` go on to drop the session. */
  lemma DetachErrorSwallowed(w: WorkerState, p: Process, triggerPort: int, e: Engine, d: Outcome)
    ensures HandleAttach(w, p, triggerPort, e.(detach := d)) == HandleAttach(w, p, triggerPort, e)
  {
  }

  /** A failed attempt holds no session and no script afterwards, and a
      session it obtained is detached before the failure is reported. */
  lemma FailedAttemptReleases(w: WorkerState, p: Process, triggerPort: int, e: Engine)
    requires Report(e).Some?
    ensures var r := HandleAttach(w, p, triggerPort, e);
      && r.process == None && r.script == None
      && (e.attach.Returns? ==> r.calls[|r.calls| - 1] == Detach(SessionOf(p)))
      && r.completions[|r.completions| - 1] == Some(Steps(e)[FirstRaise(Steps(e)).value].message)
  {
  }

  /** An attempt by a worker that holds no session makes no detach call
      unless `device.attach` returned. */
  lemma IdleWorkerDetachesOnlyItsOwnSession(w: WorkerState, p: Process, triggerPort: int, e: Engine)
    requires w.process == None
    ensures CleanupDetaches(w, p, e) == (if Report(e).Some? && e.attach.Returns? then [Detach(SessionOf(p))] else [])
  {
  }

  // ---------------------------------------------------------------------
  // A corrected report (see the failure with an empty message below)
  // ---------------------------------------------------------------------

  /** The fallback description of an exception whose `str()` is empty. */
  const UNDESCRIBED_FAILURE: string := "attach failed"

  /** A failure text that is never empty: the exception's message when it has one. */
  function Describe(message: string): (d: string)
    ensures d != ""
    ensures message != "" ==> d == message
  {
    if message == "" then UNDESCRIBED_FAILURE else message
  }

  /** The report with every failure described by a non-empty text. */
  function DescribedReport(e: Engine): (r: Option<string>)
    ensures r.None? <==> Report(e).None?
    ensures r.Some? ==> r.value != "" && (Report(e).value != "" ==> r.value == Report(e).value)
  {
    match Report(e)
    case None => None
    case Some(m) => Some(Describe(m))
  }

  /** `Worker.attach` corrected so that a failure is never reported as "":
      the same calls and the same held session and script as the attempt as
      written, with the failure described by a non-empty text. */
  function HandleAttachDescribed(w: WorkerState, p: Process, triggerPort: int, e: Engine): (r: WorkerState)
    ensures var asWritten := HandleAttach(w, p, triggerPort, e);
      && r.process == asWritten.process
      && r.script == asWritten.script
      && r.calls == asWritten.calls
      && r.completions == w.completions + [DescribedReport(e)]
  {
    HandleAttach(w, p, triggerPort, e).(completions := w.completions + [DescribedReport(e)])
  }

  class Worker {
    var process: Option<Session>
    var script: Option<Script>
    var calls: seq<Call>
    var completions: seq<Option<string>>

    function View(): WorkerState
      reads this
    {
      WorkerState(process, script, calls, completions)
    }

    constructor ()
      ensures View() == IDLE
    {
      process := None;
      script := None;
      calls := [];
      completions := [];
    }

    /** `attach`: the `try` body runs until a step raises; the `except` block
        then cleans up. Exactly one completion is emitted either way. */
    method Attach(p: Process, triggerPort: int, e: Engine)
      modifies this
      ensures View() == HandleAttach(old(View()), p, triggerPort, e)
    {
      var raised: Option<string> := None;
      label try: {
        calls := calls + [DeviceAttach(p.device, p.pid)];
        if e.attach.Raises? { raised := Some(e.attach.message); break try; }
        process := Some(SessionOf(p));

        var source := Payload.ScriptSource(triggerPort);
        calls := calls + [CreateScript(process.value, source)];
        if e.createScript.Raises? { raised := Some(e.createScript.message); break try; }
        script := Some(Script(process.value, source));

        calls := calls + [RegisterHandler(script.value)];
        if e.register.Raises? { raised := Some(e.register.message); break try; }

        calls := calls + [Load(script.value)];
        if e.load.Raises? { raised := Some(e.load.message); break try; }

        completions := completions + [None];
      }
      if raised.Some? {
        script := None;
        if process.Some? {
          calls := calls + [Detach(process.value)];
          if e.detach.Raises? {
            // `except: pass`: the detach error is dropped
          }
          process := None;
        }
        completions := completions + [Some(raised.value)];
      }
    }
  }
}
