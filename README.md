# frida-tracer attach controller, worker and message routing, in Dafny

This project models the sequential core of `tracer/tracer.py`. The file attaches
a Frida instrumentation script to a running process and classifies the messages
the script sends back. The model has five parts:

- **`Tracer`** (`tracer.dfy`): the attach controller. Its `state` is a string:
  `detached`, `attaching` or `attached`. The `state` setter notifies observers
  (`stateChanged`) only when the value changes. `attach` is accepted only from
  `detached`. It moves the controller to `attaching` and emits one request on
  the `_attach` signal. The completion handler moves it to `attached` when the
  error is empty and to `detached` otherwise.
  - The controller is a class with `state`, `notified` and `requests` fields.
    `notified` holds the value observers read at each notification. `requests`
    is the queue of outgoing attach requests.
  - Each method is proved against a pure step function on a `Controller` value.
  - Lemmas about arbitrary runs show three things. The state and every
    notified value are always one of the three names. Notifications are
    exactly the actual transitions. Each request comes with exactly one move
    into `attaching`.
- **`AttachWorker`** (`worker.dfy`): `Worker.attach`. It runs four steps in a
  fixed order: `device.attach`, `create_script`, `script.on`, `script.load`.
  When a step raises, it clears `_script`, detaches the held session (swallowing
  any error from that detach), clears `_process`, and reports `str(e)`.
  - The Frida engine is an oracle. For each call it says whether the call
    returns or raises, and with what message.
  - `HandleAttach` states the attempt's whole effect with a reference
    description: exactly one completion, the first failing step's message,
    which calls were made, and what is held afterwards. The `Worker` class
    method is proved equal to it.
  - The code as written has a quirk: when `device.attach` raises, `_process`
    still holds the previous attempt's session, and the cleanup detaches that
    session. The model keeps this.
  - `HandleAttachDescribed` is a separately named corrected variant, described
    under Findings.
- **`Payload`** (`payload.dfy`): `TRACER_SCRIPT_TEMPLATE % {'triggerPort': port}`.
  It models Python's `%` operator for `%%` and `%(key)d`. It proves that
  rendering a port in decimal and reading it back gives the same port, and
  that the port's decimal text lands exactly at the placeholder of the peer-port
  comparison.
- **`Messages`** (`messages.dfy`): `Worker._onMessage`. It routes on
  `type == 'send'`, then on the stanza's `from` and `name`. A batch of trace
  events gets a record count of `size / 16`, using Python 2 floor division.
  Where the source only prints, the model returns a `Routed` value.
- **`Coordination`** (`coordination.dfy`): the controller and the worker
  connected by the two signals, each a queue, under any interleaving. The
  worker runs either as written or with the corrected report. For both, an
  invariant says three things:
  - at most one attempt is ever in flight;
  - an attempt is in flight exactly while the controller is `attaching`;
  - a `detached` controller goes with a worker that holds nothing.

  As consequences, completions arrive only while `attaching`, and `attached`
  is final. As written, `attached` does not imply that a session is held
  (see Findings).

The handler does not check that `size` is a multiple of 16, so a size of
161 counts as 10 records (`Messages.BatchCountExamples`). The file keeps no
module table or running totals of events: the handler only prints.

## Model

| member | source | states |
|---|---|---|
| Tracer.AssignState | tracer/tracer.py:30-34 | the setter stores the new value; it notifies exactly once, with the new value, when the value differs, and not at all when it is equal; requests are untouched |
| Tracer.AttachStep | tracer/tracer.py:36-41 | attach fails with "invalid state" exactly when the state is not detached; otherwise the state becomes attaching, one notification is added, and exactly one request with the caller's process and trigger port is appended |
| Tracer.CompleteStep | tracer/tracer.py:43-49 | the completion sets attached when the error is None or empty and detached otherwise, notifying only if that changes the state |
| Tracer.CompletionLeavesAttaching | tracer/tracer.py:44-49 | out of attaching, only attached (no error) and detached (an error) are reachable, and the move is always notified |
| Tracer.InitialIsValid | tracer/tracer.py:10 | the controller starts detached, with no notifications and no requests |
| Tracer.RunKeepsStateNames | tracer/tracer.py:10-49 | over any sequence of attach calls and completions, the state and every notified value stay among detached, attaching and attached |
| Tracer.NotificationsAreTransitions | tracer/tracer.py:30-34 | over any run, the notifications are exactly the state changes in the state history, in order |
| Tracer.RequestsMatchMovesToAttaching | tracer/tracer.py:38-41 | over any run, requests are only appended, and their number grows by exactly the number of notified moves into attaching |
| Tracer.SuccessfulAttachScenario | tracer/tracer.py:36-49 | attach followed by a completion without error is observed as detached, attaching, attached, with one request |
| Tracer.FailedAttachScenario | tracer/tracer.py:36-49 | attach followed by a completion with an error is observed as detached, attaching, detached |
| Tracer.OutsideWriteReopensAttach | tracer/tracer.py:26-41 | writing "detached" to the public property while an attempt is in flight lets a second attach through and emits a second request |
| Tracer.SecondAttachRefused | tracer/tracer.py:37-39 | a second attach issued after an accepted one is refused with "invalid state" |
| Tracer.Tracer.constructor | tracer/tracer.py:7-10 | a new controller is detached with nothing emitted |
| Tracer.Tracer.SetState | tracer/tracer.py:30-34 | the object's new state is the setter's step applied to the old one |
| Tracer.Tracer.Attach | tracer/tracer.py:36-41 | it returns the raised message and leaves the object unchanged when refused; otherwise the object takes the accepted step; a valid state stays valid |
| Tracer.Tracer.OnAttachCompleted | tracer/tracer.py:43-49 | the object takes the completion step and its state is afterwards a valid name |
| Payload.Decimal | tracer/tracer.py:107 | `%d` renders a non-empty text of digits, with a leading minus sign exactly for negative integers and no leading zero for a non-zero value |
| Payload.Format | tracer/tracer.py:139-141 | the `%` operator leaves a text without any '%' unchanged and never fails on one |
| Payload.DecimalRoundTrip | tracer/tracer.py:107 | the decimal text `%d` renders for any integer reads back as that integer |
| Payload.FormatPlaceholder | tracer/tracer.py:139-141 | formatting percent-free text around `%(triggerPort)d` with the port mapping yields that text around the port's decimal form, without error |
| Payload.ScriptSource | tracer/tracer.py:139-141 | the script source is the template formatted with the trigger port, and formatting succeeds |
| Payload.PortAtPlaceholder | tracer/tracer.py:107 | the script keeps the comparison text before and after, and the text in between reads back as the trigger port |
| AttachWorker.Cleanup | tracer/tracer.py:145-153 | the except block leaves `_process` and `_script` cleared, detaches the held session if there is one (however that detach ends), and appends exactly one completion carrying `str(e)` |
| AttachWorker.HandleAttach | tracer/tracer.py:136-153 | exactly one completion is appended: None when all four steps return, otherwise `str(e)` of the first raising step (empty if the exception has no message); the calls made are the fixed-order prefix up to the failing step plus the cleanup detach; on failure no session or script is held; on success both are |
| AttachWorker.DetachErrorSwallowed | tracer/tracer.py:148-151 | whatever the cleanup's detach does, the attempt ends in the same state with the same report |
| AttachWorker.FailedAttemptReleases | tracer/tracer.py:145-152 | after a failed attempt `_process` and `_script` are cleared, the session obtained by a successful device.attach is detached as the last call, and the completion is exactly `str(e)` of the first raising step |
| AttachWorker.IdleWorkerDetachesOnlyItsOwnSession | tracer/tracer.py:136-152 | a worker holding no session detaches only the session it obtained itself, and only when a later step raised |
| AttachWorker.Worker.constructor | tracer/tracer.py:129-133 | a new worker holds no session or script and has emitted nothing |
| AttachWorker.Worker.Attach | tracer/tracer.py:136-153 | the try/except sequence on the object has exactly the effect of HandleAttach |
| Messages.FloorDiv | tracer/tracer.py:160 | the quotient is the floor of size divided by the stride, as Python 2 integer division gives |
| Messages.OnMessage | tracer/tracer.py:155-162 | a message is passed through unclassified exactly when its type is not 'send', and then unchanged; a batch count comes only from a well-formed events stanza; a stanza is reported as seen exactly when it has a name and a source and is not an events batch, and then with its own name and source |
| Messages.TraceBatchExactly | tracer/tracer.py:155-160 | records are counted exactly for 'send' messages whose stanza is '+add' from /stalker/events with a numeric size, and the count is that size divided by 16, rounded down |
| Messages.AttachmentIgnored | tracer/tracer.py:155-160 | the binary attachment does not influence routing; the count comes from the announced size |
| Messages.PayloadStanzasRouted | tracer/tracer.py:156-160 | the module inventory and intercepted-function stanzas are seen as stanzas; an events stanza of length n yields n / 16 records |
| Messages.BatchCountExamples | tracer/tracer.py:160 | a size of 160 gives 10 records, 161 also gives 10, and -1 gives -1 (floor division) |
| Coordination.Next | tracer/tracer.py:15-16 | a caller's attach applies the controller's attach to the controller and touches nothing else; a worker turn with a request pending runs the worker's attach on the next undelivered request and leaves the controller alone; a controller turn consumes one completion and applies the completion handler to it; requests and completions are only appended |
| Coordination.WorkerServesLatestRequest | tracer/tracer.py:36-41 | in a reachable system the request a worker turn takes is the last one the caller emitted, and the worker's first call attaches to that request's process |
| Coordination.StartSatisfiesInv | tracer/tracer.py:10-17 | the freshly wired system satisfies the coordination invariant |
| Coordination.NextPreservesInv | tracer/tracer.py:15-16 | for the worker as written and corrected, a caller's attach, a worker turn and a controller turn each preserve the invariant |
| Coordination.ExecutePreservesInv | tracer/tracer.py:15-16 | for the worker as written and corrected, the invariant holds after any interleaving of steps |
| Coordination.AtMostOneAttempt | tracer/tracer.py:37-41 | as written and corrected, in every reachable system at most one attach request or completion is in flight |
| Coordination.CompletionsArriveWhileAttaching | tracer/tracer.py:44-49 | as written and corrected, whenever a completion is waiting for the controller, the controller is attaching |
| Coordination.DetachedHoldsNothing | tracer/tracer.py:145-153 | as written and corrected, whenever the controller is detached the worker holds no session and no script |
| Coordination.AttachedIsFinal | tracer/tracer.py:37-39 | as written and corrected, once attached, no interleaving of steps changes the state again |
| Coordination.EmptyFailureReadsAsSuccess | tracer/tracer.py:46-47 | as written, the run attach, worker turn with device.attach raising an exception whose message is empty, controller turn, ends attached while the worker holds no session and no script |

## Left out

- Threads and Qt are out of scope: the worker thread, `moveToThread`, cross-thread signal delivery, `deleteLater`, and `dispose`'s `quit`/`wait` (tracer/tracer.py:11-24). This is concurrency. The signals are modelled as queues, and `Coordination` covers every interleaving of their delivery.
- The Frida calls `device.attach`, `create_script`, `script.on`, `script.load` and `detach` are foreign code. An oracle stands in for them: each call returns or raises with a message. No message is delivered to the handler, because registering it is only recorded as a call.
- The JavaScript payload's runtime behaviour is out of scope: module enumeration, `Interceptor`, `Socket`, `Stalker` and timers. It runs inside the engine.
- The rest of the template is not reproduced. The model keeps only the peer-port comparison around the placeholder. The rest of the text contains no `%`, so `Payload.FormatPlaceholder` covers the full template as well.
- Payload.Format: of Python's `%` directives, only `%%` and `%(key)d` are modelled. Any other conversion yields `UnmodelledConversion`, and flags, width and precision are not modelled.
- The `print` diagnostics (tracer/tracer.py:45, 158, 160, 162) are logging only. The message handler returns its routing decision instead.
- The `Process` class from `.process` is not part of this model. A process is modelled as a device identifier and a pid, and a Frida session as the same pair.
- Coordination: only the controller writes `state`. The property is writable from outside through Qt (tracer/tracer.py:26-34), and such writes are not a step of the system. A write of "detached" while an attempt is in flight lets a second attach through (`Tracer.OutsideWriteReopensAttach`). So AtMostOneAttempt, AttachedIsFinal and the invariant assume that nobody else writes the property.
- StateMatchesWorker: "attached implies a held session" is proved only with the corrected report. It is false for the program as written (`Coordination.EmptyFailureReadsAsSuccess`), so it has no row in the model table.
- AttachWorker.HandleAttach: `Raises` stands only for exceptions that `except Exception, e` (tracer/tracer.py:145) catches and whose `str()` succeeds. An exception outside that hierarchy leaves the method, and under Python 2 `str(e)` on a unicode message with non-ASCII text raises at tracer/tracer.py:153, after `_process` is cleared. In both cases no completion is emitted and the controller stays attaching; the model's "exactly one completion" does not cover them.
- Tracer.Tracer.Attach: the trigger port is an unbounded integer. The model does not capture PyQt's conversion of the `_attach` signal's `int` argument to a C int.
- Messages.TraceBatchExactly: JSON floats and booleans are not modelled. A size that is not an integer is reported as `NotANumber`, although Python would divide a float.

## Findings

| source | as written | input that shows it | evidently intended | confidence | as-written member | corrected member |
|---|---|---|---|---|---|---|
| tracer/tracer.py:46, tracer/tracer.py:153 | the worker reports a failure as `str(e)`, and the controller treats any falsy error as success | an engine whose `device.attach` raises an exception whose `str()` is empty: the controller moves to `attached` while the worker holds no session | a failed attempt always brings the controller back to `detached` | medium; not executed | Coordination.EmptyFailureReadsAsSuccess | Coordination.StateMatchesWorker |

The worker model (`AttachWorker.HandleAttach`, `AttachWorker.Worker.Attach`)
reports `str(e)` as the code does. The corrected variant,
`AttachWorker.HandleAttachDescribed`, differs only in its report:
`AttachWorker.Describe` replaces an empty message with a fixed non-empty
text. Run with that variant, the system keeps the stronger invariant
`Coordination.CorrectedInv`. From it, `Coordination.StateMatchesWorker` proves
that `attached` goes with a held session. `Coordination.DescribedFailureDetaches`
proves that every failed attempt ends `detached`.
