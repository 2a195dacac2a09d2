/** The manager as a concurrent protocol (manager.go:99-423).  One step is one critical section
    or one channel operation.  Any number of client calls, each with a number of its own, run
    beside the backend goroutine; any interleaving is a run.  A context may be done at any
    time, and the backend may return at any time. */
module Protocol {
  import opened ControllerTypes
  import opened Traces
  import opened AxisCapture
  import opened Streams

  // ---- State ----

  /** A call of Start or Close that is under way or has returned. */
  datatype LifeCall =
    | StartUnlocked
    | StartRegistered
    | StartWaiting
    | StartJoining
    | StartReturned(outcome: Started)
    | CloseJoining(covered: bool)
    | CloseFinishing
    | CloseReturned(flipped: bool, covered: bool)

  datatype Started = Refused | Running | Failed

  /** Who runs the body of finishOnce. */
  datatype Owner = TheBackend | TheClose(call: nat)

  datatype Finishing = NotFinishing | Finishing(step: nat, owner: Owner) | Finished

  /** `starter` and `closer` record which call flipped `started` and `closed`; `registered`
      that wg.Add was reached.  The `...Closes` count close operations on the channels. */
  datatype Life = Life(
    started: bool, closed: bool, starter: Option<nat>, closer: Option<nat>, registered: bool, group: int,
    ready: Option<bool>, finishing: Finishing,
    doneCloses: nat, eventsCloses: nat, axisEventsCloses: nat, errorsCloses: nat,
    calls: map<nat, LifeCall>)

  datatype Backend =
    | Absent
    | Idle
    | SendingEvent(edge: ButtonEvent)
    | SendingAxisEvent(sample: AxisEvent)
    | Reporting(failure: Failure)
    | ReportingLast(failure: Failure)
    | Ending
    | Leaving
    | Gone

  datatype Bound = OfButton(button: Binding) | OfAxis(axis: AxisBinding)

  datatype Stage = Selecting | LeavingCapture | ReturnedCapture

  /** One registered call of Capture or CaptureAxis: its request and how far the call is.
      `since` is the length of the trace of sink calls at registration, `origin` the axis
      values then; `taken` is what the call received. */
  datatype Ticket = Ticket(
    isAxis: bool, since: nat, origin: map<AxisKey, real>, baselines: map<AxisKey, real>,
    result: seq<Bound>, taken: seq<Bound>, stage: Stage)

  /** `starved` records that a delivery met a full result channel. */
  datatype Slots = Slots(
    capture: Option<nat>, axisCapture: Option<nat>, tickets: map<nat, Ticket>, starved: bool)

  /** `calls` is the trace of sink calls, `enabledAt` its length at the first call of AxisEvents. */
  datatype State = State(
    threshold: real, life: Life, backend: Backend, slots: Slots,
    values: map<AxisKey, real>, calls: seq<SinkCall>, enabledAt: Option<nat>,
    events: Stream<ButtonEvent>, axisEvents: Stream<AxisEvent>, errors: Stream<Failure>, panicked: bool)

  function Init(threshold: real): State {
    State(threshold,
          Life(false, false, None, None, false, 0, None, NotFinishing, 0, 0, 0, 0, map[]),
          Absent, Slots(None, None, map[], false), map[], [], None,
          NewStream(EVENT_BUFFER), NewStream(EVENT_BUFFER), NewStream(ERROR_BUFFER), false)
  }

  // ---- Steps ----

  datatype Action =
    // Start; `admitted` when there is no option error and the context is not done
    | Start(t: nat, admitted: bool)
    | Register(t: nat)
    | Launch(t: nat)
    | SeeReady(t: nat)
    | SeeContext(t: nat)
    | StartJoin(t: nat)
    // Close
    | Close(t: nat)
    | CloseJoin(t: nat)
    // finishOnce.Do, for either caller
    | EnterFinish(owner: Owner)
    | FinishStep
    // the backend goroutine
    | SendReady(ok: bool)
    | Sink(call: SinkCall)
    | OfferEvent
    | OfferAxisEvent
    | AttemptReport
    | EndRun(failure: Option<string>)
    | LeaveGroup
    // Capture, CaptureAxis
    | Capture(t: nat, isAxis: bool)
    | TakeResult(t: nat)
    | GiveUp(t: nat)
    | CleanUp(t: nat)
    // the consumers
    | AxisEvents
    | ReadEvent
    | ReadAxisEvent
    | ReadError

  predicate At(s: State, t: nat, call: LifeCall) {
    t in s.life.calls && s.life.calls[t] == call
  }

  predicate Holds(s: State, t: nat, stage: Stage) {
    t in s.slots.tickets && s.slots.tickets[t].stage == stage
  }

  /** The caller of finish, about to enter finishOnce.Do. */
  predicate AtFinish(s: State, owner: Owner) {
    match owner
    case TheBackend => s.backend == Ending
    case TheClose(t) => At(s, t, CloseFinishing)
  }

  predicate Enabled(s: State, a: Action) {
    match a
    case Start(t, _) => t !in s.life.calls
    case Register(t) => At(s, t, StartUnlocked)
    case Launch(t) => At(s, t, StartRegistered)
    case SeeReady(t) => At(s, t, StartWaiting) && s.life.ready.Some?
    case SeeContext(t) => At(s, t, StartWaiting)
    case StartJoin(t) => At(s, t, StartJoining) && s.life.group == 0
    case Close(t) => t !in s.life.calls
    case CloseJoin(t) => t in s.life.calls && s.life.calls[t].CloseJoining? && s.life.group == 0
    case EnterFinish(owner) => AtFinish(s, owner) && !s.life.finishing.Finishing?
    case FinishStep => s.life.finishing.Finishing?
    case SendReady(_) => s.backend == Idle && s.life.ready.None?
    case Sink(_) => s.backend == Idle
    case OfferEvent => s.backend.SendingEvent?
    case OfferAxisEvent => s.backend.SendingAxisEvent?
    case AttemptReport => s.backend.Reporting? || s.backend.ReportingLast?
    case EndRun(_) => s.backend == Idle
    case LeaveGroup => s.backend == Leaving
    case Capture(t, _) => t !in s.slots.tickets
    case TakeResult(t) => Holds(s, t, Selecting) && s.slots.tickets[t].result != []
    case GiveUp(t) => Holds(s, t, Selecting)
    case CleanUp(t) => Holds(s, t, LeavingCapture)
    case AxisEvents => true
    case ReadEvent => s.events.buffer != []
    case ReadAxisEvent => s.axisEvents.buffer != []
    case ReadError => s.errors.buffer != []
  }

  function Become(life: Life, t: nat, call: LifeCall): Life {
    life.(calls := life.calls[t := call])
  }

  function ApplyStart(life: Life, t: nat, admitted: bool): Life {
    if !admitted || life.closed || life.started then Become(life, t, StartReturned(Refused))
    else Become(life.(started := true, starter := Some(t)), t, StartUnlocked)
  }

  function ApplyClose(life: Life, t: nat): Life {
    if life.closed then Become(life, t, CloseReturned(false, false))
    else
      Become(life.(closed := true, closer := Some(t)), t,
             if life.started then CloseJoining(life.registered) else CloseFinishing)
  }

  // ---- finish ----

  function LeaveFinish(s: State, owner: Owner): State {
    match owner
    case TheBackend => s.(backend := Leaving)
    case TheClose(t) => s.(life := Become(s.life, t, CloseReturned(true, true)))
  }

  function ApplyFinishStep(s: State): State
    requires s.life.finishing.Finishing?
  {
    var life := s.life;
    var Finishing(step, owner) := life.finishing;
    var next := life.(finishing := Finishing(step + 1, owner));
    match step
    case 0 => s.(life := next.(closed := true), slots := s.slots.(capture := None, axisCapture := None))
    case 1 => s.(life := next.(doneCloses := life.doneCloses + 1), panicked := s.panicked || life.doneCloses > 0)
    case 2 => s.(life := next.(eventsCloses := life.eventsCloses + 1), panicked := s.panicked || life.eventsCloses > 0)
    case 3 => s.(life := next.(axisEventsCloses := life.axisEventsCloses + 1),
                 panicked := s.panicked || life.axisEventsCloses > 0)
    case 4 => s.(life := next.(errorsCloses := life.errorsCloses + 1), panicked := s.panicked || life.errorsCloses > 0)
    case _ => LeaveFinish(s.(life := life.(finishing := Finished)), owner)
  }

  // ---- The sink ----

  /** The send of a binding to a request, inside the critical section. */
  function Deliver(slots: Slots, t: nat, bound: Bound): Slots
    requires t in slots.tickets
  {
    var ticket := slots.tickets[t];
    if |ticket.result| < 1 then
      slots.(tickets := slots.tickets[t := ticket.(result := ticket.result + [bound])],
             capture := if bound.OfButton? then None else slots.capture,
             axisCapture := if bound.OfAxis? then None else slots.axisCapture)
    else slots.(starved := true)
  }

  /** The critical section of emitButton. */
  function SlotsAfterEdge(slots: Slots, edge: ButtonEvent): Slots {
    if edge.state == Pressed && slots.capture.Some? && slots.capture.value in slots.tickets then
      Deliver(slots, slots.capture.value, OfButton(Binding(edge.device.instanceGuid, edge.button)))
    else slots
  }

  /** The critical section of emitAxis, but for axisValues. */
  function SlotsAfterSample(slots: Slots, threshold: real, event: AxisEvent): Slots {
    if slots.axisCapture.Some? && slots.axisCapture.value in slots.tickets then
      var t := slots.axisCapture.value;
      var sampled := Sample(slots.tickets[t].baselines, threshold, event);
      var noted := slots.(tickets := slots.tickets[t := slots.tickets[t].(baselines := sampled.baselines)]);
      if sampled.binding.Some? then Deliver(noted, t, OfAxis(sampled.binding.value)) else noted
    else slots
  }

  function ApplySink(s: State, call: SinkCall): State {
    var heard := s.(calls := s.calls + [call], values := Remember(s.values, call));
    match call
    case SetDevices(_) => heard
    case SyncAxis(_) => heard
    case EmitButton(edge) =>
      if edge.button >= MAX_BUTTONS then heard
      else heard.(slots := SlotsAfterEdge(s.slots, edge), backend := SendingEvent(edge))
    case EmitAxis(event) =>
      if !Accepted(event) then heard
      else
        heard.(slots := SlotsAfterSample(s.slots, s.threshold, event),
               backend := if s.enabledAt.Some? then SendingAxisEvent(event) else Idle)
    case Report(error) => heard.(backend := Reporting(Other(error)))
  }

  // ---- Capture ----

  function ApplyCapture(s: State, t: nat, isAxis: bool): State {
    if s.life.closed || !s.life.started || s.slots.capture.Some? || s.slots.axisCapture.Some? then s
    else
      var origin := if isAxis then s.values else map[];
      var tickets := s.slots.tickets[t := Ticket(isAxis, |s.calls|, origin, origin, [], [], Selecting)];
      s.(slots := if isAxis then s.slots.(tickets := tickets, axisCapture := Some(t))
                  else s.slots.(tickets := tickets, capture := Some(t)))
  }

  /** The deferred function of Capture and CaptureAxis. */
  function ApplyCleanUp(slots: Slots, t: nat): Slots
    requires t in slots.tickets
  {
    var ticket := slots.tickets[t];
    slots.(tickets := slots.tickets[t := ticket.(stage := ReturnedCapture)],
           capture := if !ticket.isAxis && slots.capture == Some(t) then None else slots.capture,
           axisCapture := if ticket.isAxis && slots.axisCapture == Some(t) then None else slots.axisCapture)
  }

  function Retake(s: State, t: nat, ticket: Ticket): State {
    s.(slots := s.slots.(tickets := s.slots.tickets[t := ticket]))
  }

  function Apply(s: State, a: Action): State
    requires Enabled(s, a)
  {
    match a
    case Start(t, admitted) => s.(life := ApplyStart(s.life, t, admitted))
    case Register(t) =>
      s.(life := Become(s.life.(registered := true, group := s.life.group + 1), t, StartRegistered))
    case Launch(t) => s.(life := Become(s.life, t, StartWaiting), backend := Idle)
    case SeeReady(t) =>
      s.(life := Become(s.life, t, if s.life.ready.value then StartReturned(Running) else StartJoining))
    case SeeContext(t) => s.(life := Become(s.life, t, StartJoining))
    case StartJoin(t) => s.(life := Become(s.life, t, StartReturned(Failed)))
    case Close(t) => s.(life := ApplyClose(s.life, t))
    case CloseJoin(t) => s.(life := Become(s.life, t, CloseReturned(true, s.life.calls[t].covered)))
    case EnterFinish(owner) =>
      if s.life.finishing == Finished then LeaveFinish(s, owner)
      else s.(life := s.life.(finishing := Finishing(0, owner)))
    case FinishStep => ApplyFinishStep(s)
    case SendReady(ok) => s.(life := s.life.(ready := Some(ok)))
    case Sink(call) => ApplySink(s, call)
    case OfferEvent =>
      s.(events := TrySend(s.events, s.backend.edge),
         backend := if |s.events.buffer| < s.events.capacity then Idle else Reporting(EventBufferFull),
         panicked := s.panicked || s.life.eventsCloses > 0)
    case OfferAxisEvent =>
      s.(axisEvents := TrySend(s.axisEvents, s.backend.sample),
         backend := if |s.axisEvents.buffer| < s.axisEvents.capacity then Idle else Reporting(AxisEventBufferFull),
         panicked := s.panicked || s.life.axisEventsCloses > 0)
    case AttemptReport =>
      s.(errors := TrySend(s.errors, s.backend.failure),
         backend := if s.backend.ReportingLast? then Ending else Idle,
         panicked := s.panicked || s.life.errorsCloses > 0)
    case EndRun(failure) => s.(backend := if failure.Some? then ReportingLast(Other(failure.value)) else Ending)
    case LeaveGroup =>
      s.(life := s.life.(group := s.life.group - 1), backend := Gone, panicked := s.panicked || s.life.group <= 0)
    case Capture(t, isAxis) => ApplyCapture(s, t, isAxis)
    case TakeResult(t) =>
      var ticket := s.slots.tickets[t];
      Retake(s, t, ticket.(result := ticket.result[1..], taken := ticket.taken + [ticket.result[0]],
          stage := LeavingCapture))
    case GiveUp(t) => Retake(s, t, s.slots.tickets[t].(stage := LeavingCapture))
    case CleanUp(t) => s.(slots := ApplyCleanUp(s.slots, t))
    case AxisEvents => s.(enabledAt := if s.enabledAt.None? then Some(|s.calls|) else s.enabledAt)
    case ReadEvent => s.(events := Receive(s.events))
    case ReadAxisEvent => s.(axisEvents := Receive(s.axisEvents))
    case ReadError => s.(errors := Receive(s.errors))
  }

  // ---- Several steps at once ----

  predicate InsideSink(backend: Backend) {
    backend.SendingEvent? || backend.SendingAxisEvent? || backend.Reporting?
  }

  /** The backend's next step inside a sink call. */
  function NextInSink(backend: Backend): Action
    requires InsideSink(backend)
  {
    if backend.SendingEvent? then OfferEvent
    else if backend.SendingAxisEvent? then OfferAxisEvent
    else AttemptReport
  }

  function MoveInSink(s: State): State {
    if InsideSink(s.backend) then Apply(s, NextInSink(s.backend)) else s
  }

  /** A whole sink call with nobody else making a step. */
  function PlaySink(s: State, call: SinkCall): (r: State)
    requires s.backend == Idle
    ensures r.backend == Idle
  {
    MoveInSink(MoveInSink(ApplySink(s, call)))
  }

  /** The whole of finish with nobody else making a step. */
  function FinishAll(s: State): (r: State)
    requires s.life.finishing.Finishing? && s.life.finishing.step <= 5
    ensures r.life.finishing == Finished
    decreases 5 - s.life.finishing.step
  {
    if s.life.finishing.step == 5 then ApplyFinishStep(s) else FinishAll(ApplyFinishStep(s))
  }

  ghost predicate Steps(s: State, a: Action, after: State) {
    Enabled(s, a) && after == Apply(s, a)
  }

  /** A run of the protocol. */
  ghost predicate Runs(threshold: real, actions: seq<Action>, states: seq<State>) {
    && |states| == |actions| + 1
    && states[0] == Init(threshold)
    && (forall k | 0 <= k < |actions| ::
          Enabled(states[k], actions[k]) && states[k + 1] == Apply(states[k], actions[k]))
  }

  lemma RunStep(threshold: real, actions: seq<Action>, states: seq<State>, k: nat)
    requires Runs(threshold, actions, states) && k < |actions|
    ensures Steps(states[k], actions[k], states[k + 1])
  {
  }
}
