/** Manager (manager.go:40-64, 99-423) with its fields updated in place.  A ghost field holds the
    state of the protocol the fields stand for: each method takes the protocol's steps, so what
    is proved of every reachable state of the protocol is true of the fields. */
module Managers {
  import opened ControllerTypes
  import opened Traces
  import opened Streams
  import opened AxisCapture
  import opened Protocol

  function Pushed<T>(buffer: seq<T>, item: T, capacity: nat): seq<T> {
    if |buffer| < capacity then buffer + [item] else buffer
  }

  /** A buffered Go channel.  Sending on or closing a closed one panics. */
  class Channel<T> {
    const capacity: nat
    var buffer: seq<T>
    var closed: bool

    constructor (capacity: nat)
      ensures this.capacity == capacity && buffer == [] && !closed
    {
      this.capacity := capacity;
      buffer := [];
      closed := false;
    }

    method TrySend(item: T) returns (sent: bool)
      requires !closed
      modifies this`buffer
      ensures sent <==> |old(buffer)| < capacity
      ensures buffer == Pushed(old(buffer), item, capacity)
    {
      sent := |buffer| < capacity;
      if sent {
        buffer := buffer + [item];
      }
    }

    method Receive() returns (item: T)
      requires buffer != []
      modifies this`buffer
      ensures item == old(buffer[0]) && buffer == old(buffer[1..])
    {
      item := buffer[0];
      buffer := buffer[1..];
    }

    method Close()
      requires !closed
      modifies this`closed
      ensures closed
    {
      closed := true;
    }
  }

  class CaptureRequest {
    const result: Channel<Binding>
    ghost const id: nat

    constructor (ghost id: nat)
      ensures this.id == id
      ensures fresh(result) && result.capacity == 1 && result.buffer == [] && !result.closed
    {
      this.id := id;
      result := new Channel(1);
    }
  }

  class AxisCaptureRequest {
    const result: Channel<AxisBinding>
    var baselines: map<AxisKey, real>
    ghost const id: nat

    constructor (ghost id: nat)
      ensures this.id == id
      ensures fresh(result) && result.capacity == 1 && result.buffer == [] && !result.closed && baselines == map[]
    {
      this.id := id;
      result := new Channel(1);
      baselines := map[];
    }
  }

  datatype Refusal = ErrOption | ErrClosed | ErrNotStarted | ErrCaptureInProgress | ErrAlreadyStarted | ErrContext

  /** What NewManager takes: WithWindowHandle, WithAxisCaptureThreshold, or nil. */
  datatype ManagerOption = WindowHandle(hwnd: nat) | CaptureThreshold(threshold: real) | NilOption

  predicate Acceptable(option: ManagerOption) {
    match option
    case WindowHandle(hwnd) => hwnd != 0
    case CaptureThreshold(threshold) => WithAxisCaptureThreshold(threshold).Some?
    case NilOption => true
  }

  /** The options applied in turn: an unacceptable one is remembered and changes nothing. */
  method ApplyOptions(options: seq<ManagerOption>) returns (threshold: Threshold, window: nat, refused: bool)
    ensures refused <==> exists k :: 0 <= k < |options| && !Acceptable(options[k])
    ensures threshold == LastThreshold(options)
    ensures window == LastWindow(options)
  {
    threshold, window, refused := DEFAULT_AXIS_CAPTURE_THRESHOLD, 0, false;
    for k := 0 to |options|
      invariant refused <==> exists j :: 0 <= j < k && !Acceptable(options[j])
      invariant threshold == LastThreshold(options[..k])
      invariant window == LastWindow(options[..k])
    {
      assert options[..k + 1][..k] == options[..k];
      match options[k]
      case NilOption =>
      case WindowHandle(hwnd) =>
        if hwnd == 0 {
          refused := true;
        } else {
          window := hwnd;
        }
      case CaptureThreshold(requested) =>
        match WithAxisCaptureThreshold(requested)
        case Some(accepted) => threshold := accepted;
        case None => refused := true;
    }
    assert options[..|options|] == options;
  }

  function LastThreshold(options: seq<ManagerOption>): real {
    if options == [] then DEFAULT_AXIS_CAPTURE_THRESHOLD
    else
      var last := options[|options| - 1];
      if last.CaptureThreshold? && Acceptable(last) then last.threshold else LastThreshold(options[..|options| - 1])
  }

  function LastWindow(options: seq<ManagerOption>): nat {
    if options == [] then 0
    else
      var last := options[|options| - 1];
      if last.WindowHandle? && Acceptable(last) then last.hwnd else LastWindow(options[..|options| - 1])
  }

  /** An option that sets the threshold. */
  predicate SetsThreshold(option: ManagerOption) {
    option.CaptureThreshold? && 0.0 < option.threshold <= 1.0
  }

  predicate SetsWindow(option: ManagerOption) {
    option.WindowHandle? && option.hwnd != 0
  }

  /** Of the options that set something the last one counts; with none, the threshold is 0.95
      and there is no window of the caller's. */
  lemma {:induction false} LastOptionCounts(options: seq<ManagerOption>)
    ensures || (LastThreshold(options) == 0.95 && forall k | 0 <= k < |options| :: !SetsThreshold(options[k]))
            || (exists k :: 0 <= k < |options| && SetsThreshold(options[k])
                            && LastThreshold(options) == options[k].threshold
                            && forall j | k < j < |options| :: !SetsThreshold(options[j]))
    ensures || (LastWindow(options) == 0 && forall k | 0 <= k < |options| :: !SetsWindow(options[k]))
            || (exists k :: 0 <= k < |options| && SetsWindow(options[k]) && LastWindow(options) == options[k].hwnd
                            && forall j | k < j < |options| :: !SetsWindow(options[j]))
  {
    if options == [] {
    } else {
      var n := |options| - 1;
      LastOptionCounts(options[..n]);
      assert options == options[..n] + [options[n]];
    }
  }

  class Manager {
    const threshold: Threshold
    const window: nat
    const optionRefused: bool
    var started: bool
    var closed: bool
    var devices: seq<DeviceInfo>
    var capture: CaptureRequest?
    var axisCapture: AxisCaptureRequest?
    var axisValues: map<AxisKey, real>
    var axisEventsEnabled: bool
    const events: Channel<ButtonEvent>
    const axisEvents: Channel<AxisEvent>
    const errors: Channel<Failure>
    const done: Channel<bool>
    var finished: bool
    ghost var now: State
    ghost var issued: map<nat, CaptureRequest>
    ghost var axisIssued: map<nat, AxisCaptureRequest>

    /** At most one request, with nothing in its result channel; the four channels are closed
        exactly when finish has run, and then nobody waits. */
    ghost predicate Parts()
      reads this, events, axisEvents, errors, done
      reads if capture == null then {} else {capture.result}
      reads if axisCapture == null then {} else {axisCapture.result}
    {
      && events.capacity == axisEvents.capacity == EVENT_BUFFER && errors.capacity == ERROR_BUFFER
      && events.closed == axisEvents.closed == errors.closed == done.closed == finished
      && (capture != null ==> Empty(capture.result) && axisCapture == null)
      && (axisCapture != null ==> Empty(axisCapture.result))
      && (finished ==> closed && capture == null && axisCapture == null)
      && (capture != null || axisCapture != null ==> started)
      && (capture != null ==> capture.id in issued && issued[capture.id] == capture)
      && (axisCapture != null ==> axisCapture.id in axisIssued && axisIssued[axisCapture.id] == axisCapture)
    }

    ghost predicate Valid()
      reads this, events, axisEvents, errors, done
      reads if capture == null then {} else {capture.result}
      reads if axisCapture == null then {} else {axisCapture, axisCapture.result}
    {
      Parts() && Shows(now)
    }

    /** The fields stand for this state of the protocol. */
    ghost predicate Shows(s: State)
      reads this, events, axisEvents, errors
      reads if axisCapture == null then {} else {axisCapture}
    {
      && s.threshold == threshold && s.life.started == started && s.life.closed == closed
      && s.life.finishing == (if finished then Finished else NotFinishing)
      && s.values == axisValues && s.enabledAt.Some? == axisEventsEnabled
      && s.events.buffer == events.buffer && s.events.capacity == EVENT_BUFFER
      && s.axisEvents.buffer == axisEvents.buffer && s.axisEvents.capacity == EVENT_BUFFER
      && s.errors.buffer == errors.buffer && s.errors.capacity == ERROR_BUFFER
      && ShowsSlots(s.slots)
    }

    ghost predicate ShowsSlots(slots: Slots)
      reads this
      reads if axisCapture == null then {} else {axisCapture}
    {
      && slots.capture == (if capture == null then None else Some(capture.id))
      && slots.axisCapture == (if axisCapture == null then None else Some(axisCapture.id))
      && (capture != null ==> capture.id in slots.tickets && slots.tickets[capture.id].result == [])
      && (axisCapture != null ==>
            axisCapture.id in slots.tickets && slots.tickets[axisCapture.id].result == []
            && slots.tickets[axisCapture.id].baselines == axisCapture.baselines)
    }

    ghost predicate Empty<T>(result: Channel<T>)
      reads result
    {
      result.capacity == 1 && result.buffer == [] && !result.closed
    }

    constructor (options: seq<ManagerOption>)
      ensures Valid() && now == Init(threshold)
      ensures threshold == LastThreshold(options) && window == LastWindow(options)
      ensures optionRefused <==> exists k :: 0 <= k < |options| && !Acceptable(options[k])
      ensures !started && !closed && !finished && !axisEventsEnabled && capture == null && axisCapture == null
      ensures devices == [] && axisValues == map[] && issued == map[] && axisIssued == map[]
      ensures events.buffer == [] && axisEvents.buffer == [] && errors.buffer == []
      ensures events.capacity == axisEvents.capacity == 256 && errors.capacity == 16
      ensures fresh(events) && fresh(axisEvents) && fresh(errors) && fresh(done)
    {
      var accepted, handle, refused := ApplyOptions(options);
      threshold, window, optionRefused := accepted, handle, refused;
      started, closed, finished, axisEventsEnabled := false, false, false, false;
      devices, axisValues := [], map[];
      capture, axisCapture := null, null;
      events := new Channel(EVENT_BUFFER);
      axisEvents := new Channel(EVENT_BUFFER);
      errors := new Channel(ERROR_BUFFER);
      done := new Channel(0);
      now, issued, axisIssued := Init(accepted), map[], map[];
    }

    // ---- Start, Close, finish ----

    /** The critical section of Start. */
    method StartLocked(contextDone: bool, ghost t: nat) returns (refused: Option<Refusal>)
      requires Valid() && t !in now.life.calls
      modifies this`started, this`now
      ensures Valid() && now == AfterStart(old(now), t, !optionRefused && !contextDone)
      ensures refused == if optionRefused then Some(ErrOption)
                         else if closed then Some(ErrClosed)
                         else if old(started) then Some(ErrAlreadyStarted)
                         else if contextDone then Some(ErrContext)
                         else None
      ensures started <==> old(started) || refused.None?
    {
      now := AfterStart(now, t, !optionRefused && !contextDone);
      if optionRefused {
        return Some(ErrOption);
      }
      if closed {
        return Some(ErrClosed);
      }
      if started {
        return Some(ErrAlreadyStarted);
      }
      if contextDone {
        return Some(ErrContext);
      }
      started := true;
      return None;
    }

    /** The critical section of Close: whether this call is the one that closes, and whether it
        has to wait for a backend. */
    method CloseLocked(ghost t: nat) returns (first: bool, wait: bool)
      requires Valid() && t !in now.life.calls
      modifies this`closed, this`now
      ensures Valid() && closed && now == AfterClose(old(now), t)
      ensures first == !old(closed) && wait == (first && started)
    {
      now := AfterClose(now, t);
      if closed {
        return false, false;
      }
      closed := true;
      return true, started;
    }

    /** finish, for a caller that has come to it: the first runs its body, any other passes. */
    method Finish(ghost owner: Owner)
      requires Valid() && Enabled(now, EnterFinish(owner))
      modifies this`closed, this`capture, this`axisCapture, this`finished, this`now
      modifies events`closed, axisEvents`closed, errors`closed, done`closed
      ensures Valid() && finished && capture == null && axisCapture == null
      ensures now == AfterFinish(old(now), owner)
    {
      FinishEffect(now, owner);
      now := AfterFinish(now, owner);
      if !finished {
        FinishBody();
      }
    }

    /** The body of finishOnce. */
    method FinishBody()
      requires Parts() && !finished
      modifies this`closed, this`capture, this`axisCapture, this`finished
      modifies events`closed, axisEvents`closed, errors`closed, done`closed
      ensures Parts() && finished && closed && capture == null && axisCapture == null
    {
      finished := true;
      closed := true;
      capture := null;
      axisCapture := null;
      done.Close();
      events.Close();
      axisEvents.Close();
      errors.Close();
    }

    /** Close, up to the wait for the backend if there is one. */
    method Close(ghost t: nat) returns (wait: bool)
      requires Valid() && t !in now.life.calls
      modifies this`closed, this`capture, this`axisCapture, this`finished, this`now
      modifies events`closed, axisEvents`closed, errors`closed, done`closed
      ensures Valid() && closed
      ensures wait == (!old(closed) && started)
      ensures !old(closed) && !started ==> finished && At(now, t, CloseReturned(true, true))
      ensures old(closed) || started ==> now == AfterClose(old(now), t)
    {
      var first;
      first, wait := CloseLocked(t);
      if first && !wait {
        FinishReturns(now, TheClose(t));
        Finish(TheClose(t));
      }
    }

    /** What the goroutine does when run has returned, up to wg.Done. */
    method Conclude(error: Option<string>)
      requires Valid() && !finished && now.backend == Idle
      modifies this`closed, this`capture, this`axisCapture, this`finished, this`now, errors`buffer
      modifies events`closed, axisEvents`closed, errors`closed, done`closed
      ensures Valid() && finished && capture == null && axisCapture == null
      ensures now == AfterConclude(old(now), error) && now.backend == Leaving
      ensures errors.buffer == if error.Some? then Pushed(old(errors.buffer), Other(error.value), ERROR_BUFFER)
                               else old(errors.buffer)
    {
      now := RunEnded(now, error);
      if error.Some? {
        Complain(Other(error.value));
      }
      FinishReturns(now, TheBackend);
      Finish(TheBackend);
    }

    // ---- Capture, CaptureAxis ----

    method RegisterCapture(ghost t: nat) returns (refused: Option<Refusal>, request: CaptureRequest)
      requires Valid() && t !in now.slots.tickets
      modifies this`capture, this`now, this`issued
      ensures fresh(request) && fresh(request.result) && request.id == t && Empty(request.result)
      ensures Valid() && now == ApplyCapture(old(now), t, false)
      ensures issued == if refused.None? then old(issued)[t := request] else old(issued)
      ensures refused == if old(closed) then Some(ErrClosed)
                         else if !old(started) then Some(ErrNotStarted)
                         else if old(capture) != null || old(axisCapture) != null then Some(ErrCaptureInProgress)
                         else None
      ensures capture == if refused.None? then request else old(capture)
    {
      request := new CaptureRequest(t);
      now := ApplyCapture(now, t, false);
      if closed {
        return Some(ErrClosed), request;
      }
      if !started {
        return Some(ErrNotStarted), request;
      }
      if capture != null || axisCapture != null {
        return Some(ErrCaptureInProgress), request;
      }
      capture, issued := request, issued[t := request];
      return None, request;
    }

    /** The deferred function of Capture: it takes away its own request and no other. */
    method CleanUpCapture(request: CaptureRequest)
      requires Valid() && request.id in issued && issued[request.id] == request
      requires Holds(now, request.id, LeavingCapture) && !now.slots.tickets[request.id].isAxis
      modifies this`capture, this`now
      ensures Valid() && now == Apply(old(now), CleanUp(request.id))
      ensures capture == if old(capture) == request then null else old(capture)
    {
      now := Apply(now, CleanUp(request.id));
      if capture == request {
        capture := null;
      }
    }

    /** The copying loop of CaptureAxis. */
    method CopyValues(request: AxisCaptureRequest)
      requires request.baselines == map[]
      modifies request
      ensures request.baselines == axisValues
    {
      var remaining := axisValues.Keys;
      while remaining != {}
        invariant remaining <= axisValues.Keys
        invariant request.baselines == map key | key in axisValues && key !in remaining :: axisValues[key]
        decreases remaining
      {
        var key :| key in remaining;
        request.baselines := request.baselines[key := axisValues[key]];
        remaining := remaining - {key};
      }
    }

    method RegisterAxisCapture(ghost t: nat) returns (refused: Option<Refusal>, request: AxisCaptureRequest)
      requires Valid() && t !in now.slots.tickets
      modifies this`axisCapture, this`now, this`axisIssued
      ensures fresh(request) && fresh(request.result) && request.id == t && Empty(request.result)
      ensures Valid() && now == ApplyCapture(old(now), t, true)
      ensures axisIssued == if refused.None? then old(axisIssued)[t := request] else old(axisIssued)
      ensures refused == if old(closed) then Some(ErrClosed)
                         else if !old(started) then Some(ErrNotStarted)
                         else if old(capture) != null || old(axisCapture) != null then Some(ErrCaptureInProgress)
                         else None
      ensures axisCapture == if refused.None? then request else old(axisCapture)
      ensures refused.None? ==> request.baselines == axisValues
    {
      request := new AxisCaptureRequest(t);
      if closed {
        return Some(ErrClosed), request;
      }
      if !started {
        return Some(ErrNotStarted), request;
      }
      if capture != null || axisCapture != null {
        return Some(ErrCaptureInProgress), request;
      }
      CopyValues(request);
      EnterAxisCapture(request);
      return None, request;
    }

    method EnterAxisCapture(request: AxisCaptureRequest)
      requires Valid() && !closed && started && capture == null && axisCapture == null
      requires request.id !in now.slots.tickets
      requires Empty(request.result) && request.baselines == axisValues
      modifies this`axisCapture, this`now, this`axisIssued
      ensures Valid() && now == ApplyCapture(old(now), request.id, true)
      ensures axisCapture == request && axisIssued == old(axisIssued)[request.id := request]
    {
      now := ApplyCapture(now, request.id, true);
      axisCapture, axisIssued := request, axisIssued[request.id := request];
    }

    method CleanUpAxisCapture(request: AxisCaptureRequest)
      requires Valid() && request.id in axisIssued && axisIssued[request.id] == request
      requires Holds(now, request.id, LeavingCapture) && now.slots.tickets[request.id].isAxis
      modifies this`axisCapture, this`now
      ensures Valid() && now == Apply(old(now), CleanUp(request.id))
      ensures axisCapture == if old(axisCapture) == request then null else old(axisCapture)
    {
      now := Apply(now, CleanUp(request.id));
      if axisCapture == request {
        axisCapture := null;
      }
    }

    // ---- The sink ----

    /** The pruning loop of setDevices. */
    method Prune(list: seq<DeviceInfo>)
      modifies this`axisValues
      ensures axisValues == Remember(old(axisValues), SinkCall.SetDevices(list))
    {
      var present: set<string> := {};
      for k := 0 to |list|
        invariant forall guid :: guid in present <==> Present(list[..k], guid)
        modifies {}
      {
        present := present + {list[k].instanceGuid};
        PresentAppend(list, k);
      }
      assert list[..|list|] == list;
      var remaining := axisValues.Keys;
      while remaining != {}
        invariant remaining <= old(axisValues).Keys
        invariant axisValues == map key | key in old(axisValues) && (key in remaining || key.device in present) ::
                                  old(axisValues)[key]
        decreases remaining
      {
        var key :| key in remaining;
        if key.device !in present {
          axisValues := axisValues - {key};
        }
        remaining := remaining - {key};
      }
    }

    method SetDevices(list: seq<DeviceInfo>)
      requires Valid() && now.backend == Idle
      modifies this`devices, this`axisValues, this`now
      ensures Valid() && now == Heard(old(now), SinkCall.SetDevices(list))
      ensures devices == list
    {
      devices := list;
      Prune(list);
      now := Heard(now, SinkCall.SetDevices(list));
    }

    method SyncAxis(event: AxisEvent)
      requires Valid() && now.backend == Idle
      modifies this`axisValues, this`now
      ensures Valid() && now == Heard(old(now), SinkCall.SyncAxis(event))
      ensures axisValues == if event.device.instanceGuid != "" && 0.0 <= event.value <= 1.0
                            then old(axisValues)[AxisKey(event.device.instanceGuid, event.axis) := event.value]
                            else old(axisValues)
    {
      now := Heard(now, SinkCall.SyncAxis(event));
      if event.device.instanceGuid == "" || event.value < 0.0 || event.value > 1.0 {
        return;
      }
      axisValues := axisValues[AxisKey(event.device.instanceGuid, event.axis) := event.value];
    }

    /** The select of report. */
    method Complain(failure: Failure)
      requires Valid() && !finished && (now.backend == Reporting(failure) || now.backend == ReportingLast(failure))
      modifies errors`buffer, this`now
      ensures Valid() && now == Complained(old(now))
      ensures errors.buffer == Pushed(old(errors.buffer), failure, ERROR_BUFFER)
    {
      now := Complained(now);
      var sent := errors.TrySend(failure);
    }

    method Report(error: string)
      requires Valid() && !finished && now.backend == Idle
      modifies errors`buffer, this`now
      ensures Valid() && now == AfterReport(old(now), error)
      ensures errors.buffer == Pushed(old(errors.buffer), Other(error), ERROR_BUFFER)
    {
      now := ErrorHeard(now, error);
      Complain(Other(error));
    }

    /** The critical section of emitButton. */
    method ServeCapture(event: ButtonEvent)
      requires Valid() && now.backend == Idle && event.button < MAX_BUTTONS
      modifies this`capture, this`now
      modifies if capture == null then {} else {capture.result}
      ensures Valid() && now == EdgeServed(old(now), event)
      ensures capture == if event.state == Pressed then null else old(capture)
      ensures old(capture) != null ==>
                old(capture).result.buffer
                  == if event.state == Pressed then [Binding(event.device.instanceGuid, event.button)] else []
    {
      now := EdgeServed(now, event);
      if event.state == Pressed && capture != null {
        var sent := capture.result.TrySend(Binding(event.device.instanceGuid, event.button));
        if sent {
          capture := null;
        }
      }
    }

    /** The send itself. */
    method OfferEdge(event: ButtonEvent) returns (sent: bool)
      requires Valid() && !finished && now.backend == SendingEvent(event)
      modifies events`buffer, this`now
      ensures Valid() && now == EdgeOffered(old(now))
      ensures sent <==> |old(events.buffer)| < EVENT_BUFFER
      ensures events.buffer == Pushed(old(events.buffer), event, EVENT_BUFFER)
    {
      now := EdgeOffered(now);
      sent := events.TrySend(event);
    }

    /** The select of emitButton. */
    method SendEdge(event: ButtonEvent)
      requires Valid() && !finished && now.backend == SendingEvent(event)
      modifies events`buffer, errors`buffer, this`now
      ensures Valid() && now == EdgeSent(old(now))
      ensures events.buffer == Pushed(old(events.buffer), event, EVENT_BUFFER)
      ensures errors.buffer == if |old(events.buffer)| >= EVENT_BUFFER
                               then Pushed(old(errors.buffer), EventBufferFull, ERROR_BUFFER) else old(errors.buffer)
    {
      var sent := OfferEdge(event);
      if !sent {
        Complain(EventBufferFull);
      }
    }

    method EmitButton(event: ButtonEvent)
      requires Valid() && !finished && now.backend == Idle
      modifies this`capture, events`buffer, errors`buffer, this`now
      modifies if capture == null then {} else {capture.result}
      ensures Valid() && now == AfterEdge(old(now), event)
      ensures capture == if event.button < 128 && event.state == Pressed then null else old(capture)
      ensures old(capture) != null && capture == null ==>
                old(capture).result.buffer == [Binding(event.device.instanceGuid, event.button)]
      ensures events.buffer == if event.button < 128 && |old(events.buffer)| < 256 then old(events.buffer) + [event]
                               else old(events.buffer)
      ensures errors.buffer == if event.button < 128 && |old(events.buffer)| >= 256
                               then Pushed(old(errors.buffer), EventBufferFull, 16) else old(errors.buffer)
    {
      if event.button >= MAX_BUTTONS {
        Ignore(SinkCall.EmitButton(event));
        return;
      }
      ServeCapture(event);
      SendEdge(event);
    }

    /** The critical section of emitAxis. */
    method ServeAxisCapture(event: AxisEvent)
      requires Valid() && now.backend == Idle && Accepted(event)
      modifies this`axisValues, this`axisCapture, this`now
      modifies if axisCapture == null then {} else {axisCapture, axisCapture.result}
      ensures Valid() && now == SampleServed(old(now), event)
      ensures axisValues == Remember(old(axisValues), SinkCall.EmitAxis(event))
      ensures old(axisCapture) == null ==> axisCapture == null
      ensures old(axisCapture) != null ==>
        var step := Sample(old(axisCapture.baselines), threshold, event);
        && old(axisCapture).baselines == step.baselines
        && old(axisCapture).result.buffer == (if step.binding.Some? then [step.binding.value] else [])
        && axisCapture == (if step.binding.Some? then null else old(axisCapture))
    {
      RememberValue(event);
      if axisCapture != null {
        ServeRequest(event);
      }
      Proceed(if axisEventsEnabled then SendingAxisEvent(event) else Idle);
    }

    /** A call that comes to nothing. */
    ghost method Ignore(call: SinkCall)
      requires Valid() && Remember(now.values, call) == now.values
      modifies this`now
      ensures Valid() && now == Heard(old(now), call)
    {
      now := Heard(now, call);
    }

    /** The backend is past its critical section. */
    ghost method Proceed(backend: Backend)
      requires Valid()
      modifies this`now
      ensures Valid() && now == old(now).(backend := backend)
    {
      now := now.(backend := backend);
    }

    /** Its first part: the new value of the axis. */
    method RememberValue(event: AxisEvent)
      requires Valid() && Accepted(event)
      modifies this`axisValues, this`now
      ensures Valid() && now == Heard(old(now), SinkCall.EmitAxis(event))
    {
      axisValues := axisValues[AxisKey(event.device.instanceGuid, event.axis) := event.value];
      now := Heard(now, SinkCall.EmitAxis(event));
    }

    /** Its second part: what the sample is for the waiting request. */
    method ServeRequest(event: AxisEvent)
      requires Valid() && axisCapture != null
      modifies this`axisCapture, this`now, axisCapture, axisCapture.result
      ensures Valid() && now == old(now).(slots := SlotsAfterSample(old(now).slots, threshold, event))
      ensures var step := Sample(old(axisCapture.baselines), threshold, event);
              && old(axisCapture).baselines == step.baselines
              && old(axisCapture).result.buffer == (if step.binding.Some? then [step.binding.value] else [])
              && axisCapture == (if step.binding.Some? then null else old(axisCapture))
    {
      now := now.(slots := SlotsAfterSample(now.slots, threshold, event));
      var key := AxisKey(event.device.instanceGuid, event.axis);
      if key !in axisCapture.baselines {
        axisCapture.baselines := axisCapture.baselines[key := event.value];
        return;
      }
      var binding := Judge(axisCapture.baselines[key], event);
      if binding.Some? {
        var sent := axisCapture.result.TrySend(binding.value);
        if sent {
          axisCapture := null;
        }
      }
    }

    /** Whether a sample completes the request, with the binding it then gets. */
    method Judge(baseline: real, event: AxisEvent) returns (binding: Option<AxisBinding>)
      ensures binding == if Qualifies(baseline, event.value, threshold) then Some(BindingFor(event, baseline)) else None
      ensures binding.Some? <==> Enough(baseline, event.value, threshold)
      ensures binding.Some? ==>
                binding.value == AxisBinding(event.device.instanceGuid, event.axis, event.axisName,
                                             if event.value < baseline then Decreasing else Increasing, baseline)
    {
      QualifiesIff(baseline, event.value, threshold);
      var delta := event.value - baseline;
      var absoluteDelta := delta;
      if absoluteDelta < 0.0 {
        absoluteDelta := -absoluteDelta;
      }
      var direction := Increasing;
      if delta < 0.0 {
        direction := Decreasing;
      }
      binding := None;
      if absoluteDelta >= MINIMUM_AXIS_CAPTURE_MOVEMENT
         && NormalizedAxisTravel(baseline, event.value, direction) >= threshold {
        binding := Some(AxisBinding(event.device.instanceGuid, event.axis, event.axisName, direction, baseline));
      }
    }

    /** The send itself. */
    method OfferSample(event: AxisEvent) returns (sent: bool)
      requires Valid() && !finished && now.backend == SendingAxisEvent(event)
      modifies axisEvents`buffer, this`now
      ensures Valid() && now == SampleOffered(old(now))
      ensures sent <==> |old(axisEvents.buffer)| < EVENT_BUFFER
      ensures axisEvents.buffer == Pushed(old(axisEvents.buffer), event, EVENT_BUFFER)
    {
      now := SampleOffered(now);
      sent := axisEvents.TrySend(event);
    }

    /** The select of emitAxis. */
    method SendSample(event: AxisEvent)
      requires Valid() && !finished && now.backend == SendingAxisEvent(event)
      modifies axisEvents`buffer, errors`buffer, this`now
      ensures Valid() && now == SampleSent(old(now))
      ensures axisEvents.buffer == Pushed(old(axisEvents.buffer), event, EVENT_BUFFER)
      ensures errors.buffer == if |old(axisEvents.buffer)| >= EVENT_BUFFER
                               then Pushed(old(errors.buffer), AxisEventBufferFull, ERROR_BUFFER)
                               else old(errors.buffer)
    {
      var sent := OfferSample(event);
      if !sent {
        Complain(AxisEventBufferFull);
      }
    }

    /** What an accepted sample is to a waiting request: with no baseline for its axis it
        becomes the baseline; with enough movement it completes the request; otherwise nothing. */
    ghost predicate Judged(baselines: map<AxisKey, real>, event: AxisEvent, request: AxisCaptureRequest, served: bool)
      reads request, request.result
    {
      var key := AxisKey(event.device.instanceGuid, event.axis);
      && request.baselines == (if key in baselines then baselines else baselines[key := event.value])
      && (served <==> key in baselines && Enough(baselines[key], event.value, threshold))
      && request.result.buffer
         == (if served then
               [AxisBinding(event.device.instanceGuid, event.axis, event.axisName,
                            if event.value < baselines[key] then Decreasing else Increasing, baselines[key])]
             else [])
    }

    lemma SampleMeans(event: AxisEvent)
      ensures forall baselines: map<AxisKey, real> ::
                var key := AxisKey(event.device.instanceGuid, event.axis);
                var step := Sample(baselines, threshold, event);
                && step.baselines == (if key in baselines then baselines else baselines[key := event.value])
                && (step.binding.Some? <==> key in baselines && Enough(baselines[key], event.value, threshold))
                && (step.binding.Some? ==>
                      step.binding.value
                      == AxisBinding(event.device.instanceGuid, event.axis, event.axisName,
                                     if event.value < baselines[key] then Decreasing else Increasing, baselines[key]))
    {
      var key := AxisKey(event.device.instanceGuid, event.axis);
      forall baselines: map<AxisKey, real> | key in baselines
        ensures Qualifies(baselines[key], event.value, threshold) <==> Enough(baselines[key], event.value, threshold)
      {
        QualifiesIff(baselines[key], event.value, threshold);
      }
    }

    /** emitAxis past its guard. */
    method EmitAccepted(event: AxisEvent)
      requires Valid() && !finished && now.backend == Idle && Accepted(event)
      modifies this`axisValues, this`axisCapture, axisEvents`buffer, errors`buffer, this`now
      modifies if axisCapture == null then {} else {axisCapture, axisCapture.result}
      ensures Valid() && now == AfterAccepted(old(now), event)
      ensures axisValues == old(axisValues)[AxisKey(event.device.instanceGuid, event.axis) := event.value]
      ensures axisEvents.buffer == if axisEventsEnabled then Pushed(old(axisEvents.buffer), event, EVENT_BUFFER)
                                   else old(axisEvents.buffer)
      ensures errors.buffer == if axisEventsEnabled && |old(axisEvents.buffer)| >= EVENT_BUFFER
                               then Pushed(old(errors.buffer), AxisEventBufferFull, ERROR_BUFFER)
                               else old(errors.buffer)
      ensures old(axisCapture) == null ==> axisCapture == null
      ensures old(axisCapture) != null ==>
                Judged(old(axisCapture.baselines), event, old(axisCapture), axisCapture == null)
      ensures axisCapture == null || axisCapture == old(axisCapture)
    {
      ServeJudged(event);
      if !axisEventsEnabled {
        return;
      }
      SendSample(event);
    }

    /** The critical section, with what the sample is to the request. */
    method ServeJudged(event: AxisEvent)
      requires Valid() && now.backend == Idle && Accepted(event)
      modifies this`axisValues, this`axisCapture, this`now
      modifies if axisCapture == null then {} else {axisCapture, axisCapture.result}
      ensures Valid() && now == SampleServed(old(now), event)
      ensures axisValues == old(axisValues)[AxisKey(event.device.instanceGuid, event.axis) := event.value]
      ensures old(axisCapture) == null ==> axisCapture == null
      ensures old(axisCapture) != null ==>
                Judged(old(axisCapture.baselines), event, old(axisCapture), axisCapture == null)
      ensures axisCapture == null || axisCapture == old(axisCapture)
    {
      SampleMeans(event);
      ServeAxisCapture(event);
    }

    method EmitAxis(event: AxisEvent)
      requires Valid() && !finished && now.backend == Idle
      modifies this`axisValues, this`axisCapture, axisEvents`buffer, errors`buffer, this`now
      modifies if axisCapture == null then {} else {axisCapture, axisCapture.result}
      ensures Valid() && now == AfterSample(old(now), event)
      ensures event.device.instanceGuid == "" || !(0.0 <= event.value <= 1.0) ==>
                axisValues == old(axisValues) && axisEvents.buffer == old(axisEvents.buffer)
                && errors.buffer == old(errors.buffer) && axisCapture == old(axisCapture)
      ensures event.device.instanceGuid != "" && 0.0 <= event.value <= 1.0 ==>
        && axisValues == old(axisValues)[AxisKey(event.device.instanceGuid, event.axis) := event.value]
        && axisEvents.buffer == (if axisEventsEnabled then Pushed(old(axisEvents.buffer), event, 256)
                                 else old(axisEvents.buffer))
        && errors.buffer == (if axisEventsEnabled && |old(axisEvents.buffer)| >= 256
                             then Pushed(old(errors.buffer), AxisEventBufferFull, 16) else old(errors.buffer))
        && (old(axisCapture) != null ==>
              Judged(old(axisCapture.baselines), event, old(axisCapture), axisCapture == null))
      ensures axisCapture == null || axisCapture == old(axisCapture)
    {
      if event.device.instanceGuid == "" || event.value < 0.0 || event.value > 1.0 {
        Ignore(SinkCall.EmitAxis(event));
        return;
      }
      EmitAccepted(event);
    }

    // ---- The clients' side ----

    method AxisEvents() returns (stream: Channel<AxisEvent>)
      requires Valid()
      modifies this`axisEventsEnabled, this`now
      ensures Valid() && axisEventsEnabled && stream == axisEvents && now == Apply(old(now), Action.AxisEvents)
    {
      axisEventsEnabled := true;
      now := Apply(now, Action.AxisEvents);
      return axisEvents;
    }

    /** A step inside Start, Close or run that no field shows. */
    ghost method ElsewhereInLife(a: Action)
      requires Valid() && Enabled(now, a) && UnseenInLife(a)
      modifies this`now
      ensures Valid() && now == Apply(old(now), a)
    {
      now := Apply(now, a);
    }

    /** A step of the select in Capture or CaptureAxis. */
    ghost method ElsewhereInCapture(a: Action)
      requires Valid() && Enabled(now, a) && (a.TakeResult? || a.GiveUp?)
      modifies this`now
      ensures Valid() && now == Apply(old(now), a)
    {
      now := Apply(now, a);
    }
  }

  predicate UnseenInLife(a: Action) {
    || a.Register? || a.Launch? || a.SeeReady? || a.SeeContext? || a.StartJoin? || a.CloseJoin?
    || a.SendReady? || a.LeaveGroup?
  }

  // ---- What several steps amount to ----

  /** A sink call that only hands something over. */
  ghost function Heard(s: State, call: SinkCall): State {
    s.(calls := s.calls + [call], values := Remember(s.values, call))
  }

  /** The critical section of emitButton. */
  ghost function EdgeServed(s: State, edge: ButtonEvent): State {
    Heard(s, SinkCall.EmitButton(edge)).(slots := SlotsAfterEdge(s.slots, edge), backend := SendingEvent(edge))
  }

  /** The send in its select. */
  ghost function EdgeOffered(s: State): State
    requires s.backend.SendingEvent?
  {
    s.(events := TrySend(s.events, s.backend.edge),
       backend := if |s.events.buffer| < s.events.capacity then Idle else Reporting(EventBufferFull),
       panicked := s.panicked || s.life.eventsCloses > 0)
  }

  /** The critical section of emitAxis. */
  ghost function SampleServed(s: State, event: AxisEvent): State {
    Heard(s, SinkCall.EmitAxis(event)).(
      slots := SlotsAfterSample(s.slots, s.threshold, event),
      backend := if s.enabledAt.Some? then SendingAxisEvent(event) else Idle)
  }

  /** The send in its select. */
  ghost function SampleOffered(s: State): State
    requires s.backend.SendingAxisEvent?
  {
    s.(axisEvents := TrySend(s.axisEvents, s.backend.sample),
       backend := if |s.axisEvents.buffer| < s.axisEvents.capacity then Idle else Reporting(AxisEventBufferFull),
       panicked := s.panicked || s.life.axisEventsCloses > 0)
  }

  /** A report that has been called for. */
  ghost function ErrorHeard(s: State, error: string): State {
    Heard(s, SinkCall.Report(error)).(backend := Reporting(Other(error)))
  }

  /** And its select. */
  ghost function Complained(s: State): State
    requires s.backend.Reporting? || s.backend.ReportingLast?
  {
    s.(errors := TrySend(s.errors, s.backend.failure),
       backend := if s.backend.ReportingLast? then Ending else Idle,
       panicked := s.panicked || s.life.errorsCloses > 0)
  }

  /** The steps the methods take are the protocol's. */
  lemma CallsAreSteps(s: State, call: SinkCall)
    requires s.backend == Idle
    ensures ApplySink(s, call)
         == match call
            case SetDevices(_) => Heard(s, call)
            case SyncAxis(_) => Heard(s, call)
            case EmitButton(edge) => if edge.button < MAX_BUTTONS then EdgeServed(s, edge) else Heard(s, call)
            case EmitAxis(event) => if Accepted(event) then SampleServed(s, event) else Heard(s, call)
            case Report(error) => ErrorHeard(s, error)
  {
  }

  lemma SendsAreSteps(s: State)
    ensures s.backend.SendingEvent? ==> Apply(s, OfferEvent) == EdgeOffered(s)
    ensures s.backend.SendingAxisEvent? ==> Apply(s, OfferAxisEvent) == SampleOffered(s)
    ensures s.backend.Reporting? || s.backend.ReportingLast? ==> Apply(s, AttemptReport) == Complained(s)
    ensures s.backend == Idle ==> forall error :: Apply(s, EndRun(error)) == RunEnded(s, error)
  {
  }

  /** A whole call of emitButton, with nobody else making a step. */
  ghost function AfterEdge(s: State, edge: ButtonEvent): State {
    if edge.button >= MAX_BUTTONS then Heard(s, SinkCall.EmitButton(edge))
    else EdgeSent(EdgeServed(s, edge))
  }

  /** The select: the send, or else the report. */
  ghost function EdgeSent(s: State): State
    requires s.backend.SendingEvent?
  {
    if EdgeOffered(s).backend.Reporting? then Complained(EdgeOffered(s)) else EdgeOffered(s)
  }

  ghost function SampleSent(s: State): State
    requires s.backend.SendingAxisEvent?
  {
    if SampleOffered(s).backend.Reporting? then Complained(SampleOffered(s)) else SampleOffered(s)
  }

  lemma EdgePlayed(s: State, edge: ButtonEvent)
    requires s.backend == Idle
    ensures PlaySink(s, SinkCall.EmitButton(edge)) == AfterEdge(s, edge)
  {
    CallsAreSteps(s, SinkCall.EmitButton(edge));
    if edge.button < MAX_BUTTONS {
      SendsAreSteps(EdgeServed(s, edge));
      SendsAreSteps(EdgeOffered(EdgeServed(s, edge)));
    }
  }

  /** The same for emitAxis. */
  ghost function AfterSample(s: State, event: AxisEvent): State {
    if Accepted(event) then AfterAccepted(s, event) else Heard(s, SinkCall.EmitAxis(event))
  }

  ghost function AfterAccepted(s: State, event: AxisEvent): State {
    var served := SampleServed(s, event);
    if served.backend == Idle then served else SampleSent(served)
  }

  lemma SamplePlayed(s: State, event: AxisEvent)
    requires s.backend == Idle
    ensures PlaySink(s, SinkCall.EmitAxis(event)) == AfterSample(s, event)
  {
    CallsAreSteps(s, SinkCall.EmitAxis(event));
    var served := SampleServed(s, event);
    if Accepted(event) && served.backend != Idle {
      SendsAreSteps(served);
      SendsAreSteps(SampleOffered(served));
    }
  }

  ghost function AfterReport(s: State, error: string): State {
    Complained(ErrorHeard(s, error))
  }

  /** The other sink calls. */
  lemma RestPlayed(s: State, call: SinkCall)
    requires s.backend == Idle && !call.EmitButton? && !call.EmitAxis?
    ensures PlaySink(s, call) == if call.Report? then AfterReport(s, call.error) else Heard(s, call)
  {
    CallsAreSteps(s, call);
    if call.Report? {
      SendsAreSteps(ErrorHeard(s, call.error));
    }
  }

  /** run returns. */
  ghost function RunEnded(s: State, error: Option<string>): State {
    s.(backend := if error.Some? then ReportingLast(Other(error.value)) else Ending)
  }

  /** The goroutine from there to wg.Done. */
  ghost function AfterConclude(s: State, error: Option<string>): State
    requires !s.life.finishing.Finishing?
  {
    var ended := RunEnded(s, error);
    AfterFinish(if error.Some? then Complained(ended) else ended, TheBackend)
  }

  /** The critical section of Close. */
  ghost function AfterClose(s: State, t: nat): State
    requires t !in s.life.calls
  {
    s.(life := ApplyClose(s.life, t))
  }

  /** The critical section of Start. */
  ghost function AfterStart(s: State, t: nat, admitted: bool): State
    requires t !in s.life.calls
  {
    s.(life := ApplyStart(s.life, t, admitted))
  }

  /** finish from the caller's arrival to its return. */
  ghost function AfterFinish(s: State, owner: Owner): State
    requires Enabled(s, EnterFinish(owner))
  {
    var entered := Apply(s, EnterFinish(owner));
    if s.life.finishing == Finished then entered else FinishAll(entered)
  }

  lemma LeaveFinishLife(s: State, owner: Owner)
    ensures var r := LeaveFinish(s, owner);
            r.life.started == s.life.started && r.life.closed == s.life.closed
  {
  }

  lemma FinishStepLife(s: State)
    requires s.life.finishing.Finishing?
    ensures var r := ApplyFinishStep(s);
            r.life.started == s.life.started && r.life.closed == (s.life.closed || s.life.finishing.step == 0)
  {
    if s.life.finishing.step > 4 {
      LeaveFinishLife(s.(life := s.life.(finishing := Finished)), s.life.finishing.owner);
    } else {
      ChannelStepLife(s);
    }
  }

  lemma ChannelStepLife(s: State)
    requires s.life.finishing.Finishing? && s.life.finishing.step <= 4
    ensures var r := ApplyFinishStep(s);
            r.life.started == s.life.started && r.life.closed == (s.life.closed || s.life.finishing.step == 0)
  {
    if s.life.finishing.step == 0 {
      assert ApplyFinishStep(s).life.closed;
    }
  }

  lemma FinishStepEffect(s: State)
    requires s.life.finishing.Finishing?
    ensures var r := ApplyFinishStep(s);
            && r.threshold == s.threshold && r.values == s.values && r.enabledAt == s.enabledAt
            && r.events == s.events && r.axisEvents == s.axisEvents && r.errors == s.errors
            && r.life.started == s.life.started && r.life.closed == (s.life.closed || s.life.finishing.step == 0)
            && r.slots == if s.life.finishing.step == 0 then s.slots.(capture := None, axisCapture := None) else s.slots
  {
    FinishStepLife(s);
  }

  lemma {:induction false} FinishAllEffect(s: State)
    requires s.life.finishing.Finishing? && s.life.finishing.step <= 5
    ensures var r := FinishAll(s);
            && r.threshold == s.threshold && r.values == s.values && r.enabledAt == s.enabledAt
            && r.events == s.events && r.axisEvents == s.axisEvents && r.errors == s.errors
            && r.life.started == s.life.started && r.life.closed == (s.life.closed || s.life.finishing.step == 0)
            && r.slots == if s.life.finishing.step == 0 then s.slots.(capture := None, axisCapture := None) else s.slots
    decreases 5 - s.life.finishing.step
  {
    FinishStepEffect(s);
    if s.life.finishing.step == 5 {
    } else {
      FinishAllEffect(ApplyFinishStep(s));
    }
  }

  lemma FinishEffect(s: State, owner: Owner)
    requires Enabled(s, EnterFinish(owner))
    ensures var r := AfterFinish(s, owner);
            && r.life.finishing == Finished
            && r.threshold == s.threshold && r.values == s.values && r.enabledAt == s.enabledAt
            && r.events == s.events && r.axisEvents == s.axisEvents && r.errors == s.errors
            && r.life.started == s.life.started
            && (s.life.finishing == NotFinishing ==>
                  r.life.closed && r.slots == s.slots.(capture := None, axisCapture := None))
            && (s.life.finishing == Finished ==> r.life.closed == s.life.closed && r.slots == s.slots)
  {
    if s.life.finishing == NotFinishing {
      FinishAllEffect(Apply(s, EnterFinish(owner)));
    }
  }

  lemma {:induction false} FinishAllReturns(s: State)
    requires s.life.finishing.Finishing? && s.life.finishing.step <= 5
    ensures var r, owner := FinishAll(s), s.life.finishing.owner;
            match owner
            case TheBackend => r.backend == Leaving
            case TheClose(t) => At(r, t, CloseReturned(true, true))
    decreases 5 - s.life.finishing.step
  {
    if s.life.finishing.step == 5 {
    } else {
      FinishAllReturns(ApplyFinishStep(s));
    }
  }

  lemma FinishReturns(s: State, owner: Owner)
    requires Enabled(s, EnterFinish(owner))
    ensures var r := AfterFinish(s, owner);
            match owner
            case TheBackend => r.backend == Leaving
            case TheClose(t) => At(r, t, CloseReturned(true, true))
  {
    if s.life.finishing == NotFinishing {
      FinishAllReturns(Apply(s, EnterFinish(owner)));
    }
  }

  lemma PresentAppend(list: seq<DeviceInfo>, k: nat)
    requires k < |list|
    ensures forall guid :: Present(list[..k + 1], guid) <==> Present(list[..k], guid) || guid == list[k].instanceGuid
  {
    forall guid ensures Present(list[..k + 1], guid) <==> Present(list[..k], guid) || guid == list[k].instanceGuid {
      if i :| 0 <= i < |list[..k]| && list[..k][i].instanceGuid == guid {
        assert list[..k + 1][i].instanceGuid == guid;
      }
      assert list[..k + 1][k].instanceGuid == list[k].instanceGuid;
    }
  }
}
