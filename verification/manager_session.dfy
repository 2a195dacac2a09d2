/** Whole sessions of one Manager, as its tests play them (manager_test.go:122-168, 294-345). */
module ManagerSession {
  import opened ControllerTypes
  import opened Streams
  import opened Protocol
  import opened Managers

  /** The rest of Start, and the backend's answer. */
  ghost method LaunchReady(m: Manager)
    requires m.Valid() && At(m.now, 0, StartUnlocked) && m.now.life.ready.None?
    modifies m`now
    ensures m.Valid() && m.now.backend == Idle && m.now.slots == old(m.now.slots)
    ensures m.now.life.registered && m.now.life.calls.Keys == old(m.now.life.calls.Keys)
    ensures At(m.now, 0, StartReturned(Running))
  {
    m.ElsewhereInLife(Register(0));
    m.ElsewhereInLife(Launch(0));
    m.ElsewhereInLife(SendReady(true));
    m.ElsewhereInLife(SeeReady(0));
  }

  /** startFakeManager: Start with a backend that reports ready at once. */
  method StartFakeManager() returns (m: Manager)
    ensures fresh(m) && fresh(m.events) && fresh(m.axisEvents) && fresh(m.errors) && fresh(m.done)
    ensures m.Valid() && m.started && !m.closed && !m.finished && m.capture == null && m.axisCapture == null
    ensures m.now.backend == Idle && m.events.buffer == [] && m.errors.buffer == []
    ensures m.now.life.calls.Keys == {0} && m.now.life.registered && m.now.slots.tickets == map[]
    ensures At(m.now, 0, StartReturned(Running))
  {
    m := new Manager([]);
    var refused := m.StartLocked(false, 0);
    LaunchReady(m);
  }

  /** A Capture waits. */
  method StartWithCapture() returns (m: Manager)
    ensures fresh(m) && fresh(m.events) && fresh(m.axisEvents) && fresh(m.errors) && fresh(m.done)
    ensures m.Valid() && m.started && !m.closed && !m.finished && m.capture != null
    ensures m.now.backend == Idle && m.now.life.calls.Keys == {0} && m.now.life.registered
  {
    m := StartFakeManager();
    var refused, request := m.RegisterCapture(1);
  }

  /** Close releases a waiting Capture and leaves the channels closed. */
  method CloseReleasesCaptureAndClosesChannels() returns (m: Manager)
    ensures m.finished && m.capture == null && m.events.closed && m.errors.closed
    ensures At(m.now, 2, CloseJoining(true)) && m.now.backend == Leaving
  {
    m := StartWithCapture();
    ghost var before := m.now;
    var wait := m.Close(2);
    assert At(m.now, 2, CloseJoining(true)) && m.now.backend == Idle;
    ClosedConcludes(m.now);
    m.Conclude(None);
  }

  function WheelEdge(state: ButtonState): ButtonEvent {
    ButtonEvent(DeviceInfo("wheel-1", "", "", "", 0, 0), 4, state)
  }

  /** The waiting Capture does not take a release. */
  method ReleaseWhileCapturing(m: Manager, request: CaptureRequest)
    requires m.Valid() && !m.finished && m.now.backend == Idle && m.capture == request && m.events.buffer == []
    modifies m`capture, m.events`buffer, m.errors`buffer, m`now, request.result
    ensures m.Valid() && m.now.backend == Idle && m.capture == request && m.now.slots == old(m.now.slots)
    ensures m.events.buffer == [WheelEdge(Released)]
  {
    m.EmitButton(WheelEdge(Released));
  }

  /** It takes the press that follows, and the stream has it as well. */
  method PressWhileCapturing(m: Manager, request: CaptureRequest)
    requires m.Valid() && !m.finished && m.now.backend == Idle && m.capture == request && |m.events.buffer| == 1
    requires Waits(m.now.slots, request.id)
    modifies m`capture, m.events`buffer, m.errors`buffer, m`now, request.result
    ensures m.Valid() && m.now.backend == Idle && m.capture == null
    ensures m.events.buffer == old(m.events.buffer) + [WheelEdge(Pressed)]
    ensures request.result.buffer == [Binding("wheel-1", 4)]
    ensures Enabled(m.now, TakeResult(request.id)) && !m.now.slots.tickets[request.id].isAxis
  {
    m.EmitButton(WheelEdge(Pressed));
  }

  /** What the receive is in the protocol. */
  ghost method TakeFromSlot(m: Manager, t: nat)
    requires m.Valid() && m.capture == null && Enabled(m.now, TakeResult(t)) && !m.now.slots.tickets[t].isAxis
    modifies m`now
    ensures m.Valid() && Holds(m.now, t, LeavingCapture) && !m.now.slots.tickets[t].isAxis
  {
    m.ElsewhereInCapture(TakeResult(t));
  }

  /** The select of Capture receives. */
  method ReceiveBinding(m: Manager, request: CaptureRequest) returns (binding: Binding)
    requires m.Valid() && m.capture == null && request.result.buffer != []
    requires Enabled(m.now, TakeResult(request.id)) && !m.now.slots.tickets[request.id].isAxis
    modifies m`now, request.result
    ensures m.Valid() && binding == old(request.result.buffer[0])
    ensures Holds(m.now, request.id, LeavingCapture) && !m.now.slots.tickets[request.id].isAxis
  {
    TakeFromSlot(m, request.id);
    binding := request.result.Receive();
  }

  /** A Capture is under way. */
  method StartCapturing() returns (m: Manager, request: CaptureRequest)
    ensures fresh(m) && fresh(m.events) && fresh(m.errors) && fresh(request.result)
    ensures m.Valid() && !m.finished && m.now.backend == Idle && m.events.buffer == []
    ensures m.capture == request && request.id in m.issued && m.issued[request.id] == request
    ensures Waits(m.now.slots, request.id)
  {
    m := StartFakeManager();
    var refused;
    refused, request := m.RegisterCapture(1);
  }

  /** A Capture that waits. */
  predicate Waits(slots: Slots, t: nat) {
    && slots.capture == Some(t) && t in slots.tickets
    && slots.tickets[t].stage == Selecting && slots.tickets[t].result == [] && !slots.tickets[t].isAxis
  }

  /** A Capture is under way, a release goes by, and a press completes it. */
  method PressCompletesCapture() returns (m: Manager, request: CaptureRequest)
    ensures fresh(m) && fresh(request.result) && m.Valid() && m.capture == null
    ensures m.events.buffer == [WheelEdge(Released), WheelEdge(Pressed)]
    ensures request.result.buffer == [Binding("wheel-1", 4)]
    ensures request.id in m.issued && m.issued[request.id] == request
    ensures Enabled(m.now, TakeResult(request.id)) && !m.now.slots.tickets[request.id].isAxis
  {
    m, request := StartCapturing();
    ReleaseWhileCapturing(m, request);
    PressWhileCapturing(m, request);
  }

  /** Capture returns the next press, and takes nothing away from the stream. */
  method CaptureReturnsNextPressedWithoutConsumingEvent() returns (m: Manager, binding: Binding)
    ensures binding == Binding("wheel-1", 4) && m.capture == null
    ensures m.events.buffer == [WheelEdge(Released), WheelEdge(Pressed)]
  {
    var request;
    m, request := PressCompletesCapture();
    binding := ReceiveBinding(m, request);
    m.CleanUpCapture(request);
  }

  /** One more press of the wheel's buttons. */
  method PressNext(m: Manager, button: nat)
    requires m.Valid() && !m.finished && m.now.backend == Idle && m.capture == null
    requires |m.events.buffer| <= EVENT_BUFFER && button < MAX_BUTTONS
    modifies m`capture, m.events`buffer, m.errors`buffer, m`now
    ensures m.Valid() && m.now.backend == Idle && m.capture == null
    ensures |m.events.buffer| == if |old(m.events.buffer)| < EVENT_BUFFER then |old(m.events.buffer)| + 1
                                else EVENT_BUFFER
    ensures m.errors.buffer == if |old(m.events.buffer)| < EVENT_BUFFER then old(m.errors.buffer)
                               else Pushed(old(m.errors.buffer), EventBufferFull, ERROR_BUFFER)
  {
    m.EmitButton(ButtonEvent(DeviceInfo("wheel", "", "", "", 0, 0), button, Pressed));
  }

  /** With nobody reading, the event after the 256th is dropped and reported. */
  method EventBufferOverflowIsReported() returns (m: Manager)
    ensures |m.events.buffer| == EVENT_BUFFER && m.errors.buffer == [EventBufferFull]
  {
    m := StartFakeManager();
    for index := 0 to EVENT_BUFFER + 1
      invariant fresh(m) && fresh(m.events) && fresh(m.errors)
      invariant m.Valid() && !m.finished && m.now.backend == Idle && m.capture == null
      invariant |m.events.buffer| == if index <= EVENT_BUFFER then index else EVENT_BUFFER
      invariant m.errors.buffer == if index <= EVENT_BUFFER then [] else [EventBufferFull]
    {
      PressNext(m, index % MAX_BUTTONS);
    }
  }

  /** The waiting call is not touched by the goroutine's last steps. */
  lemma ClosedConcludes(s: State)
    requires s.backend == Idle && !s.life.finishing.Finishing?
    ensures AfterConclude(s, None).life.calls == s.life.calls
  {
    var ended := RunEnded(s, None);
    if s.life.finishing == NotFinishing {
      CallsStay(Apply(ended, EnterFinish(TheBackend)));
    }
  }

  lemma {:induction false} CallsStay(s: State)
    requires s.life.finishing.Finishing? && s.life.finishing.step <= 5 && s.life.finishing.owner == TheBackend
    ensures FinishAll(s).life.calls == s.life.calls
    decreases 5 - s.life.finishing.step
  {
    if s.life.finishing.step == 5 {
    } else {
      CallsStay(ApplyFinishStep(s));
    }
  }
}
