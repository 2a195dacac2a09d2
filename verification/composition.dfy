/** The two layers together: the sink calls of a run of the DirectInput backend are the backend
    steps of the manager's protocol. */
module Composition {
  import opened ControllerTypes
  import opened Traces
  import opened Streams
  import opened RuntimeSpec
  import opened RuntimeTheorems
  import opened Protocol
  import opened ProtocolLifecycle
  import opened ProtocolCapture
  import opened ProtocolStreams

  // ---- Every trace can be played ----

  lemma PlayOne(threshold: real, actions: seq<Action>, states: seq<State>, call: SinkCall)
    returns (more: seq<Action>, after: seq<State>)
    requires Protocol.Runs(threshold, actions, states) && states[|actions|].backend == Idle
    ensures Protocol.Runs(threshold, actions + more, states + after) && |after| == |more| > 0
    ensures after[|after| - 1].backend == Idle && after[|after| - 1].calls == states[|actions|].calls + [call]
  {
    var s := states[|actions|];
    RunOn(threshold, actions, states, Sink(call));
    more, after := [Sink(call)], [Apply(s, Sink(call))];
    while after[|after| - 1].backend != Idle
      invariant Protocol.Runs(threshold, actions + more, states + after) && |after| == |more| > 0
      invariant after[|after| - 1].calls == s.calls + [call]
      invariant after[|after| - 1].backend == Idle || InsideSink(after[|after| - 1].backend)
      decreases StepsLeft(after[|after| - 1].backend)
    {
      var now := after[|after| - 1];
      var a := NextInSink(now.backend);
      assert now == (states + after)[|actions + more|];
      RunFurther(threshold, actions, states, more, after, a);
      more, after := more + [a], after + [Apply(now, a)];
    }
  }

  function StepsLeft(backend: Backend): nat {
    if backend.Reporting? then 1 else if InsideSink(backend) then 2 else 0
  }

  /** Whatever the backend has to say, the manager takes it, call by call, with nobody else
      making a step. */
  lemma {:induction false} TracePlays(threshold: real, actions: seq<Action>, states: seq<State>, calls: seq<SinkCall>)
    returns (more: seq<Action>, after: seq<State>)
    requires Protocol.Runs(threshold, actions, states) && states[|actions|].backend == Idle
    ensures Protocol.Runs(threshold, actions + more, states + after) && |after| == |more|
    ensures var last := (states + after)[|actions + more|];
            last.backend == Idle && last.calls == states[|actions|].calls + calls
    decreases |calls|
  {
    if calls == [] {
      more, after := [], [];
      assert actions + more == actions && states + after == states;
      assert states[|actions|].calls + calls == states[|actions|].calls;
    } else {
      var front, last := calls[..|calls| - 1], calls[|calls| - 1];
      var m, f := TracePlays(threshold, actions, states, front);
      var m', f' := PlayOne(threshold, actions + m, states + f, last);
      Associative(actions, m, m');
      Associative(states, f, f');
      assert states[|actions|].calls + calls == states[|actions|].calls + front + [last];
      more, after := m + m', f + f';
      assert (states + after)[|actions + more|] == f'[|f'| - 1];
    }
  }

  // ---- The cache across the layers ----

  /** Whenever the manager has taken exactly the calls of the backend's operations so far, its
      axis values are exactly the known axes of the attached devices, whatever else ran. */
  lemma AxisValuesAreDeviceState(ops: seq<Op>, changes: seq<Change>, j: nat,
                                 threshold: real, actions: seq<Action>, states: seq<State>, k: nat,
                                 key: AxisKey, value: real)
    requires RuntimeTheorems.Runs(ops, changes) && j < |changes|
    requires Protocol.Runs(threshold, actions, states) && k < |states| && states[k].calls == changes[j].calls
    ensures key in states[k].values && states[k].values[key] == value <==> HasState(changes[j].devices, key, value)
  {
    SlotsAlways(threshold, actions, states, k);
    CacheAgreement(ops, changes, j, key, value);
  }

  // ---- The edges across the layers ----

  /** The edges of one button in a stream of events, Pressed as true. */
  function EventEdges(events: seq<ButtonEvent>, guid: string, button: nat): seq<bool> {
    if events == [] then []
    else
      var last := events[|events| - 1];
      if last.device.instanceGuid == guid && last.button == button then
        EventEdges(events[..|events| - 1], guid, button) + [last.state == Pressed]
      else EventEdges(events[..|events| - 1], guid, button)
  }

  lemma EventEdgesAppend(events: seq<ButtonEvent>, event: ButtonEvent, guid: string, button: nat)
    ensures EventEdges(events + [event], guid, button)
         == if event.device.instanceGuid == guid && event.button == button
            then EventEdges(events, guid, button) + [event.state == Pressed] else EventEdges(events, guid, button)
  {
    assert (events + [event])[..|events|] == events;
  }

  lemma {:induction false} StreamHasTheEdges(calls: seq<SinkCall>, guid: string, button: nat)
    requires button < MAX_BUTTONS
    ensures EventEdges(ButtonStream(calls), guid, button) == Edges(calls, guid, button)
  {
    if calls == [] {
    } else {
      var front, last := calls[..|calls| - 1], calls[|calls| - 1];
      StreamHasTheEdges(front, guid, button);
      assert calls == front + [last];
      StreamsAppend(front, last);
      EdgesConcat(front, [last], guid, button);
      OneCall(last, guid, button);
      if last.EmitButton? && last.edge.button < MAX_BUTTONS {
        EventEdgesAppend(ButtonStream(front), last.edge, guid, button);
      }
      if !IsEdge(last, guid, button) { assert Edges(front, guid, button) + [] == Edges(front, guid, button); }
    }
  }

  /** With nothing dropped and nothing in hand, the consumer has the edges of the trace. */
  lemma NothingDropped(s: State, guid: string, button: nat)
    requires EventsInv(s) && !s.backend.SendingEvent? && button < MAX_BUTTONS
    requires forall i | 0 <= i < |s.events.offers| :: s.events.offers[i].kept
    ensures EventEdges(s.events.received + s.events.buffer, guid, button) == Edges(s.calls, guid, button)
  {
    DeliveredInOrder(s.events);
    assert Items(s.events.offers) + [] == Items(s.events.offers);
    StreamHasTheEdges(s.calls, guid, button);
  }

  lemma EventsAlways(threshold: real, actions: seq<Action>, states: seq<State>, k: nat)
    requires Protocol.Runs(threshold, actions, states) && k < |states|
    ensures EventsInv(states[k])
  {
    StreamsAlways(threshold, actions, states, k);
  }

  /** What a consumer that keeps up can rely on: once the backend has run and released its
      devices, the events it has read or still has to read hold no press of a button after a
      press of that button, and leave no button pressed. */
  lemma ConsumerSeesSafeEdges(ops: seq<Op>, changes: seq<Change>, order: seq<string>,
                              threshold: real, actions: seq<Action>, states: seq<State>, k: nat,
                              guid: string, button: nat)
    requires RuntimeTheorems.Runs(ops, changes) && Walks(order, changes[|ops|].devices.Keys) && button < MAX_BUTTONS
    requires Protocol.Runs(threshold, actions, states) && k < |states| && !states[k].backend.SendingEvent?
    requires states[k].calls == changes[|ops|].calls + ReleaseAll(changes[|ops|].devices, order).calls
    requires forall i | 0 <= i < |states[k].events.offers| :: states[k].events.offers[i].kept
    ensures var edges := EventEdges(states[k].events.received + states[k].events.buffer, guid, button);
            && NoDoublePress(edges)
            && (edges != [] ==> edges[|edges| - 1] == false)
  {
    WholeRunEdgeSafety(ops, changes, order, guid, button);
    EventsAlways(threshold, actions, states, k);
    NothingDropped(states[k], guid, button);
  }
}
