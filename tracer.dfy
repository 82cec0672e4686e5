/** The attach controller (class `Tracer`, tracer/tracer.py:6-49).

    Its observable state is the string-valued `state` property, the
    `stateChanged` notifications it emits and the attach requests it emits on
    its `_attach` signal for the worker. Observers read the property when they
    are notified, and delivery is synchronous, so each notification is
    recorded as the state value observers see at that moment. */
module Tracer {
  import opened Wrappers

  const DETACHED: string := "detached"
  const ATTACHING: string := "attaching"
  const ATTACHED: string := "attached"

  /** The message of the exception `attach` raises outside `detached`. */
  const INVALID_STATE: string := "invalid state"

  predicate IsStateName(s: string) {
    s == DETACHED || s == ATTACHING || s == ATTACHED
  }

  /** A target process: the device it runs on and its pid. */
  datatype Process = Process(device: nat, pid: int)

  /** The arguments carried by one emission of `_attach`. */
  datatype AttachRequest = AttachRequest(process: Process, triggerPort: int)

  /** A snapshot of the controller: the state, the value observers saw at each
      `stateChanged` emission so far, and every attach request emitted so far. */
  datatype Controller = Controller(state: string, notified: seq<string>, requests: seq<AttachRequest>)

  const INITIAL: Controller := Controller(DETACHED, [], [])

  /** Python treats both None and the empty string as "no error". */
  predicate IsNoError(error: Option<string>) {
    error == None || error == Some("")
  }

  /** The `state` setter: assigns, and notifies only when the value changes. */
  function AssignState(c: Controller, s: string): (r: Controller)
    ensures r.state == s && r.requests == c.requests
    ensures |r.notified| == |c.notified| + (if s == c.state then 0 else 1)
    ensures r.notified[..|c.notified|] == c.notified
    ensures s != c.state ==> r.notified[|c.notified|] == s
  {
    if s != c.state then c.(state := s, notified := c.notified + [s]) else c
  }

  /** `attach`: refused with INVALID_STATE unless detached; otherwise moves to
      attaching and emits exactly one request carrying the caller's arguments. */
  function AttachStep(c: Controller, request: AttachRequest): (r: Result<Controller, string>)
    ensures r.Failure? <==> c.state != DETACHED
    ensures r.Failure? ==> r.error == INVALID_STATE
    ensures r.Success? ==> && r.value.state == ATTACHING
                           && r.value.notified == c.notified + [ATTACHING]
                           && r.value.requests == c.requests + [request]
  {
    if c.state != DETACHED then Failure(INVALID_STATE)
    else
      var c' := AssignState(c, ATTACHING);
      Success(c'.(requests := c'.requests + [request]))
  }

  /** `_onAttachCompleted`: no error means attached, any error means detached. */
  function CompleteStep(c: Controller, error: Option<string>): (r: Controller)
    ensures r.state == (if IsNoError(error) then ATTACHED else DETACHED)
    ensures r.requests == c.requests
    ensures r.notified == c.notified + (if r.state == c.state then [] else [r.state])
  {
    if IsNoError(error) then AssignState(c, ATTACHED) else AssignState(c, DETACHED)
  }

  /** Out of attaching, the only targets are attached and detached, and the
      completion handler always reports the move. */
  lemma CompletionLeavesAttaching(c: Controller, error: Option<string>)
    requires c.state == ATTACHING
    ensures var r := CompleteStep(c, error);
      && (r.state == ATTACHED <==> IsNoError(error))
      && (r.state == DETACHED <==> !IsNoError(error))
      && r.notified == c.notified + [r.state]
  {
  }

  // ---------------------------------------------------------------------
  // Runs: any sequence of calls into the controller
  // ---------------------------------------------------------------------

  /** What can happen to the controller: a call to `attach`, or the worker's
      completion signal arriving. */
  datatype Event = CallAttach(request: AttachRequest) | AttachCompleted(error: Option<string>)

  /** One event; a refused `attach` raises and leaves the controller as it was. */
  function Apply(c: Controller, e: Event): Controller {
    match e
    case CallAttach(request) =>
      (match AttachStep(c, request)
       case Success(c') => c'
       case Failure(_) => c)
    case AttachCompleted(error) => CompleteStep(c, error)
  }

  function Run(c: Controller, events: seq<Event>): Controller
    decreases |events|
  {
    if events == [] then c else Run(Apply(c, events[0]), events[1..])
  }

  /** The state after each event of a run. */
  function States(c: Controller, events: seq<Event>): (hs: seq<string>)
    ensures |hs| == |events|
    decreases |events|
  {
    if events == [] then [] else
      var c' := Apply(c, events[0]);
      [c'.state] + States(c', events[1..])
  }

  /** The entries of a state history that differ from the one before them,
      starting from `from`: the actual transitions. */
  function Transitions(from: string, hs: seq<string>): seq<string>
    decreases |hs|
  {
    if hs == [] then []
    else (if hs[0] != from then [hs[0]] else []) + Transitions(hs[0], hs[1..])
  }

  function Occurrences(s: string, xs: seq<string>): nat
    decreases |xs|
  {
    if xs == [] then 0 else (if xs[0] == s then 1 else 0) + Occurrences(s, xs[1..])
  }

  lemma {:induction false} OccurrencesAppend(s: string, xs: seq<string>, ys: seq<string>)
    ensures Occurrences(s, xs + ys) == Occurrences(s, xs) + Occurrences(s, ys)
    decreases |xs|
  {
    if xs != [] {
      assert (xs + ys)[0] == xs[0];
      assert (xs + ys)[1..] == xs[1..] + ys;
      OccurrencesAppend(s, xs[1..], ys);
    } else {
      assert xs + ys == ys;
    }
  }

  predicate ValidController(c: Controller) {
    && IsStateName(c.state)
    && forall i | 0 <= i < |c.notified| :: IsStateName(c.notified[i])
  }

  /** The state is always one of the three names, and so is every value an
      observer was ever notified of. */
  lemma {:induction false} RunKeepsStateNames(c: Controller, events: seq<Event>)
    requires ValidController(c)
    ensures ValidController(Run(c, events))
    decreases |events|
  {
    if events != [] {
      RunKeepsStateNames(Apply(c, events[0]), events[1..]);
    }
  }

  lemma InitialIsValid()
    ensures ValidController(INITIAL) && INITIAL.state == DETACHED
  {
  }

  /** One event notifies exactly when it changes the state. */
  lemma ApplyNotifies(c: Controller, e: Event)
    ensures var c' := Apply(c, e);
      c'.notified == c.notified + (if c'.state != c.state then [c'.state] else [])
  {
  }

  /** Notifications: exactly one per actual transition of the state, in
      order, and none when a value is assigned that equals the current one. */
  lemma {:induction false} NotificationsAreTransitions(c: Controller, events: seq<Event>)
    ensures Run(c, events).notified == c.notified + Transitions(c.state, States(c, events))
    decreases |events|
  {
    if events == [] {
      assert c.notified + [] == c.notified;
    } else {
      var c' := Apply(c, events[0]);
      var rest := States(c', events[1..]);
      var step := if c'.state != c.state then [c'.state] else [];
      ApplyNotifies(c, events[0]);
      NotificationsAreTransitions(c', events[1..]);
      TransitionsCons(c.state, c'.state, rest);
      SeqAssoc(c.notified, step, Transitions(c'.state, rest));
    }
  }

  lemma TransitionsCons(from: string, h: string, rest: seq<string>)
    ensures Transitions(from, [h] + rest) == (if h != from then [h] else []) + Transitions(h, rest)
  {
    var hs := [h] + rest;
    assert hs[0] == h && hs[1..] == rest;
  }

  lemma SeqAssoc(a: seq<string>, b: seq<string>, c: seq<string>)
    ensures a + b + c == a + (b + c)
  {
  }

  /** Every request for the worker comes with a move into attaching, and every
      move into attaching comes with exactly one request. */
  lemma {:induction false} RequestsMatchMovesToAttaching(c: Controller, events: seq<Event>)
    ensures var r := Run(c, events);
      && |c.requests| <= |r.requests|
      && r.requests[..|c.requests|] == c.requests
      && |r.requests| - |c.requests| == Occurrences(ATTACHING, r.notified) - Occurrences(ATTACHING, c.notified)
    decreases |events|
  {
    if events != [] {
      var c' := Apply(c, events[0]);
      RequestsMatchMovesToAttaching(c', events[1..]);
      var r := Run(c, events);
      assert r == Run(c', events[1..]);
      match events[0] {
        case CallAttach(request) =>
          if c.state == DETACHED {
            OccurrencesAppend(ATTACHING, c.notified, [ATTACHING]);
            assert c'.requests == c.requests + [request];
            assert r.requests[..|c.requests|] == r.requests[..|c'.requests|][..|c.requests|];
          }
        case AttachCompleted(error) =>
          var step := if c'.state != c.state then [c'.state] else [];
          assert c'.notified == c.notified + step;
          OccurrencesAppend(ATTACHING, c.notified, step);
      }
    }
  }

  /** The observed sequence for a successful attach: detached, attaching, attached. */
  lemma SuccessfulAttachScenario(request: AttachRequest)
    ensures var r := Run(INITIAL, [CallAttach(request), AttachCompleted(None)]);
      && r.state == ATTACHED
      && [INITIAL.state] + r.notified == [DETACHED, ATTACHING, ATTACHED]
      && r.requests == [request]
  {
    var e := [CallAttach(request), AttachCompleted(None)];
    var c1 := Controller(ATTACHING, [ATTACHING], [request]);
    assert Apply(INITIAL, e[0]) == c1;
    var c2 := Controller(ATTACHED, [ATTACHING, ATTACHED], [request]);
    assert Apply(c1, e[1..][0]) == c2;
    assert e[1..][1..] == [];
    assert Run(INITIAL, e) == Run(c1, e[1..]) == Run(c2, []);
  }

  /** The observed sequence for a failed attach: detached, attaching, detached. */
  lemma FailedAttachScenario(request: AttachRequest, message: string)
    requires message != ""
    ensures var r := Run(INITIAL, [CallAttach(request), AttachCompleted(Some(message))]);
      && r.state == DETACHED
      && [INITIAL.state] + r.notified == [DETACHED, ATTACHING, DETACHED]
  {
    var e := [CallAttach(request), AttachCompleted(Some(message))];
    var c1 := Controller(ATTACHING, [ATTACHING], [request]);
    assert Apply(INITIAL, e[0]) == c1;
    var c2 := Controller(DETACHED, [ATTACHING, DETACHED], [request]);
    assert Apply(c1, e[1..][0]) == c2;
    assert e[1..][1..] == [];
    assert Run(INITIAL, e) == Run(c1, e[1..]) == Run(c2, []);
  }

  /** A second `attach` before the first one completes is refused. */
  lemma SecondAttachRefused(c: Controller, first: AttachRequest, second: AttachRequest)
    requires c.state == DETACHED
    ensures AttachStep(AttachStep(c, first).value, second) == Failure(INVALID_STATE)
  {
  }

  /** The `state` property is writable from outside the controller. Writing
      "detached" while an attempt is in flight lets a second attach through,
      so a second request is emitted. */
  lemma OutsideWriteReopensAttach(first: AttachRequest, second: AttachRequest)
    ensures var c := AssignState(AttachStep(INITIAL, first).value, DETACHED);
      && AttachStep(c, second).Success?
      && AttachStep(c, second).value.requests == [first, second]
  {
  }

  // ---------------------------------------------------------------------
  // The controller object
  // ---------------------------------------------------------------------

  class Tracer {
    var state: string
    var notified: seq<string>
    var requests: seq<AttachRequest>

    function View(): Controller
      reads this
    {
      Controller(state, notified, requests)
    }

    constructor ()
      ensures View() == INITIAL
    {
      state := DETACHED;
      notified := [];
      requests := [];
    }

    /** The `state` property's setter. */
    method SetState(s: string)
      modifies this
      ensures View() == AssignState(old(View()), s)
    {
      if s != state {
        state := s;
        notified := notified + [s];
      }
    }

    /** `attach`: returns the message of the exception it raises, or None. */
    method Attach(process: Process, triggerPort: int) returns (raised: Option<string>)
      modifies this
      ensures match AttachStep(old(View()), AttachRequest(process, triggerPort))
        case Success(c) => raised == None && View() == c
        case Failure(e) => raised == Some(e) && View() == old(View())
      ensures old(IsStateName(state)) ==> IsStateName(state)
    {
      if state != DETACHED {
        return Some(INVALID_STATE);
      }
      SetState(ATTACHING);
      requests := requests + [AttachRequest(process, triggerPort)];
      raised := None;
    }

    /** `_onAttachCompleted`. */
    method OnAttachCompleted(error: Option<string>)
      modifies this
      ensures View() == CompleteStep(old(View()), error)
      ensures IsStateName(state)
    {
      if IsNoError(error) {
        SetState(ATTACHED);
      } else {
        SetState(DETACHED);
      }
    }
  }
}
