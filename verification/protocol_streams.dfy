/** Events, axis events and errors over all interleavings: bounded, in order, and nothing is
    lost without a report. */
module ProtocolStreams {
  import opened ControllerTypes
  import opened Traces
  import opened Streams
  import opened Protocol
  import opened ProtocolLifecycle
  import opened ProtocolCapture

  function EdgeInHand(backend: Backend): seq<ButtonEvent> {
    if backend.SendingEvent? then [backend.edge] else []
  }

  function SampleInHand(backend: Backend): seq<AxisEvent> {
    if backend.SendingAxisEvent? then [backend.sample] else []
  }

  function ReportInHand(backend: Backend, failure: Failure): nat {
    if backend == Reporting(failure) then 1 else 0
  }

  ghost predicate EventsInv(s: State) {
    && Faithful(s.events) && s.events.capacity == EVENT_BUFFER
    && Items(s.events.offers) + EdgeInHand(s.backend) == ButtonStream(s.calls)
  }

  ghost predicate AxisEventsInv(s: State) {
    && Faithful(s.axisEvents) && s.axisEvents.capacity == EVENT_BUFFER
    && (s.enabledAt.Some? ==> s.enabledAt.value <= |s.calls|)
    && Items(s.axisEvents.offers) + SampleInHand(s.backend)
         == if s.enabledAt.Some? then AxisStream(s.calls[s.enabledAt.value..]) else []
  }

  ghost predicate ErrorsInv(s: State) {
    && Faithful(s.errors) && s.errors.capacity == ERROR_BUFFER
    && Dropped(s.events.offers)
        == Count(Items(s.errors.offers), EventBufferFull) + ReportInHand(s.backend, EventBufferFull)
    && Dropped(s.axisEvents.offers)
         == Count(Items(s.errors.offers), AxisEventBufferFull) + ReportInHand(s.backend, AxisEventBufferFull)
    && (s.backend.ReportingLast? ==> s.backend.failure.Other?)
  }

  ghost predicate StreamsInv(s: State) {
    EventsInv(s) && AxisEventsInv(s) && ErrorsInv(s)
  }

  lemma InitStreams(threshold: real)
    ensures StreamsInv(Init(threshold))
  {
  }

  lemma StreamsFrame(s: State, after: State)
    requires StreamsInv(s)
    requires after.events == s.events && after.axisEvents == s.axisEvents && after.errors == s.errors
    requires after.calls == s.calls && after.enabledAt == s.enabledAt
    requires after.backend == s.backend || (Quiet(s.backend) && Quiet(after.backend))
    ensures StreamsInv(after)
  {
    EventsFrame(s, after);
    AxisEventsFrame(s, after);
    ErrorsFrame(s, after);
  }

  /** Nothing in hand. */
  predicate Quiet(backend: Backend) {
    !backend.SendingEvent? && !backend.SendingAxisEvent? && (backend.Reporting? ==> backend.failure.Other?)
    && (backend.ReportingLast? ==> backend.failure.Other?)
  }

  // ---- Framing, stream by stream ----

  lemma EventsFrame(s: State, after: State)
    requires EventsInv(s) && after.events == s.events && ButtonStream(after.calls) == ButtonStream(s.calls)
    requires EdgeInHand(after.backend) == EdgeInHand(s.backend)
    ensures EventsInv(after)
  {
  }

  lemma AxisEventsFrame(s: State, after: State)
    requires AxisEventsInv(s) && after.axisEvents == s.axisEvents && after.calls == s.calls
        && after.enabledAt == s.enabledAt
    requires SampleInHand(after.backend) == SampleInHand(s.backend)
    ensures AxisEventsInv(after)
  {
  }

  lemma ErrorsFrame(s: State, after: State)
    requires ErrorsInv(s) && after.errors == s.errors && after.events == s.events && after.axisEvents == s.axisEvents
    requires ReportInHand(after.backend, EventBufferFull) == ReportInHand(s.backend, EventBufferFull)
    requires ReportInHand(after.backend, AxisEventBufferFull) == ReportInHand(s.backend, AxisEventBufferFull)
    requires after.backend.ReportingLast? ==> after.backend.failure.Other?
    ensures ErrorsInv(after)
  {
  }

  // ---- Sink calls ----

  lemma EventsTouched(s: State, call: SinkCall)
    requires s.backend == Idle
    ensures var after := ApplySink(s, call);
            && after.events == s.events && after.calls == s.calls + [call]
            && EdgeInHand(after.backend)
               == if call.EmitButton? && call.edge.button < MAX_BUTTONS then [call.edge] else []
  {
  }

  lemma NothingAppended<T>(s: seq<T>)
    ensures s + [] == s
  {
  }

  lemma EventsAfterCall(s: State, call: SinkCall)
    requires EventsInv(s) && s.backend == Idle
    ensures EventsInv(ApplySink(s, call))
  {
    StreamsAppend(s.calls, call);
    NothingAppended(Items(s.events.offers));
    EventsTouched(s, call);
  }

  lemma AxisEventsAfterCall(s: State, call: SinkCall)
    requires AxisEventsInv(s) && s.backend == Idle
    ensures AxisEventsInv(ApplySink(s, call))
  {
    assert Items(s.axisEvents.offers) + [] == Items(s.axisEvents.offers);
    if s.enabledAt.Some? {
      var n := s.enabledAt.value;
      SinceAppend(s.calls, call, n);
      StreamsAppend(s.calls[n..], call);
    }
  }

  lemma ErrorsAfterCall(s: State, call: SinkCall)
    requires ErrorsInv(s) && s.backend == Idle
    ensures ErrorsInv(ApplySink(s, call))
  {
    ErrorsFrame(s, ApplySink(s, call));
  }

  lemma SinkKeepsStreams(s: State, call: SinkCall)
    requires StreamsInv(s) && s.backend == Idle
    ensures StreamsInv(ApplySink(s, call))
  {
    EventsAfterCall(s, call);
    AxisEventsAfterCall(s, call);
    ErrorsAfterCall(s, call);
  }

  // ---- Offers ----

  lemma EventsAfterOffer(s: State, after: State)
    requires EventsInv(s) && s.backend.SendingEvent? && !after.backend.SendingEvent?
    requires after.events == TrySend(s.events, s.backend.edge) && after.calls == s.calls
    ensures EventsInv(after)
  {
    TrySendFaithful(s.events, s.backend.edge);
    assert Items(after.events.offers) + [] == Items(after.events.offers);
  }

  lemma DroppedAfterOffer<T>(s: Stream<T>, item: T)
    ensures Dropped(TrySend(s, item).offers) == Dropped(s.offers) + (if |s.buffer| < s.capacity then 0 else 1)
  {
    KeptAppend(s.offers, Offer(item, |s.buffer| < s.capacity, |s.received|));
  }

  /** A drop puts its report in the backend's hand. */
  lemma ErrorsAfterOffer(s: State, after: State)
    requires ErrorsInv(s) && s.backend.SendingEvent? && after.errors == s.errors && after.axisEvents == s.axisEvents
    requires after.events == TrySend(s.events, s.backend.edge)
    requires after.backend == if |s.events.buffer| < s.events.capacity then Idle else Reporting(EventBufferFull)
    ensures ErrorsInv(after)
  {
    DroppedAfterOffer(s.events, s.backend.edge);
  }

  lemma ErrorsAfterAxisOffer(s: State, after: State)
    requires ErrorsInv(s) && s.backend.SendingAxisEvent? && after.errors == s.errors && after.events == s.events
    requires after.axisEvents == TrySend(s.axisEvents, s.backend.sample)
    requires after.backend == if |s.axisEvents.buffer| < s.axisEvents.capacity then Idle
                              else Reporting(AxisEventBufferFull)
    ensures ErrorsInv(after)
  {
    DroppedAfterOffer(s.axisEvents, s.backend.sample);
  }

  lemma OfferEventKeepsStreams(s: State)
    requires StreamsInv(s) && s.backend.SendingEvent?
    ensures StreamsInv(Apply(s, OfferEvent))
  {
    var after := Apply(s, OfferEvent);
    EventsAfterOffer(s, after);
    AxisEventsFrame(s, after);
    ErrorsAfterOffer(s, after);
  }

  lemma AxisEventsAfterOffer(s: State, after: State)
    requires AxisEventsInv(s) && s.backend.SendingAxisEvent? && !after.backend.SendingAxisEvent?
    requires after.axisEvents == TrySend(s.axisEvents, s.backend.sample)
    requires after.calls == s.calls && after.enabledAt == s.enabledAt
    ensures AxisEventsInv(after)
  {
    TrySendFaithful(s.axisEvents, s.backend.sample);
    assert Items(after.axisEvents.offers) + [] == Items(after.axisEvents.offers);
  }

  lemma OfferAxisEventKeepsStreams(s: State)
    requires StreamsInv(s) && s.backend.SendingAxisEvent?
    ensures StreamsInv(Apply(s, OfferAxisEvent))
  {
    var after := Apply(s, OfferAxisEvent);
    EventsFrame(s, after);
    AxisEventsAfterOffer(s, after);
    ErrorsAfterAxisOffer(s, after);
  }

  /** A report that has been made is one more failure offered, kept or dropped. */
  lemma ReportTouches(s: State)
    requires Enabled(s, AttemptReport) && s.errors.capacity == ERROR_BUFFER
    ensures var after, failure := Apply(s, AttemptReport), s.backend.failure;
            && after.errors == TrySend(s.errors, failure)
            && Items(after.errors.offers) == Items(s.errors.offers) + [failure]
            && after.events == s.events && after.axisEvents == s.axisEvents
            && after.backend == (if s.backend.ReportingLast? then Ending else Idle)
  {
  }

  /** The failure in hand becomes one of the offered ones. */
  lemma OneMoreOffered(items: seq<Failure>, backend: Backend, after: Backend, kind: Failure)
    requires backend.Reporting? || (backend.ReportingLast? && backend.failure.Other?)
    requires (after == Idle || after == Ending) && !kind.Other?
    ensures Count(items + [backend.failure], kind) + ReportInHand(after, kind)
         == Count(items, kind) + ReportInHand(backend, kind)
  {
    CountAppend(items, backend.failure, kind);
  }

  lemma ErrorsOffered(s: State, after: State, items: seq<Failure>)
    requires ErrorsInv(s) && Faithful(after.errors) && after.errors.capacity == ERROR_BUFFER
    requires after.events == s.events && after.axisEvents == s.axisEvents
    requires after.backend == Idle || after.backend == Ending
    requires items == Items(s.errors.offers)
    requires forall kind: Failure | !kind.Other? ::
               Count(Items(after.errors.offers), kind) + ReportInHand(after.backend, kind)
               == Count(items, kind) + ReportInHand(s.backend, kind)
    ensures ErrorsInv(after)
  {
  }

  lemma ErrorsAfterReport(s: State)
    requires ErrorsInv(s) && Enabled(s, AttemptReport)
    ensures ErrorsInv(Apply(s, AttemptReport))
  {
    var after, items := Apply(s, AttemptReport), Items(s.errors.offers);
    ReportTouches(s);
    TrySendFaithful(s.errors, s.backend.failure);
    forall kind: Failure | !kind.Other?
      ensures Count(Items(after.errors.offers), kind) + ReportInHand(after.backend, kind)
           == Count(items, kind) + ReportInHand(s.backend, kind)
    {
      OneMoreOffered(items, s.backend, after.backend, kind);
    }
    ErrorsOffered(s, after, items);
  }

  lemma AttemptReportKeepsStreams(s: State)
    requires StreamsInv(s) && Enabled(s, AttemptReport)
    ensures StreamsInv(Apply(s, AttemptReport))
  {
    var after := Apply(s, AttemptReport);
    EventsFrame(s, after);
    AxisEventsFrame(s, after);
    ErrorsAfterReport(s);
  }

  // ---- The rest ----

  lemma ConsumerKeepsStreams(s: State, a: Action)
    requires StreamsInv(s) && Enabled(s, a) && (a.ReadEvent? || a.ReadAxisEvent? || a.ReadError?)
    ensures StreamsInv(Apply(s, a))
  {
    if a.ReadEvent? { ReceiveFaithful(s.events); }
    else if a.ReadAxisEvent? { ReceiveFaithful(s.axisEvents); }
    else { ReceiveFaithful(s.errors); }
  }

  lemma AxisEventsKeepsStreams(s: State)
    requires StreamsInv(s)
    ensures StreamsInv(Apply(s, AxisEvents))
  {
    var after := Apply(s, AxisEvents);
    EventsFrame(s, after);
    ErrorsFrame(s, after);
    assert AxisEventsInv(after) by {
      assert s.calls[|s.calls|..] == [];
    }
  }

  lemma FinishTouches(s: State, a: Action)
    requires LifeInv(s) && Enabled(s, a) && (a.EnterFinish? || a.FinishStep?)
    ensures var after := Apply(s, a);
            && after.events == s.events && after.axisEvents == s.axisEvents && after.errors == s.errors
            && after.calls == s.calls && after.enabledAt == s.enabledAt
            && (after.backend == s.backend || (Quiet(s.backend) && Quiet(after.backend)))
  {
  }

  lemma ElsewhereTouches(s: State, a: Action)
    requires Enabled(s, a) && !TouchesStreams(a) && !a.EnterFinish? && !a.FinishStep?
    requires a.Launch? ==> s.backend == Absent
    ensures var after := Apply(s, a);
            && after.events == s.events && after.axisEvents == s.axisEvents && after.errors == s.errors
            && after.calls == s.calls && after.enabledAt == s.enabledAt
            && (after.backend == s.backend || (Quiet(s.backend) && Quiet(after.backend)))
  {
  }

  predicate TouchesStreams(a: Action) {
    a.Sink? || a.OfferEvent? || a.OfferAxisEvent? || a.AttemptReport?
    || a.ReadEvent? || a.ReadAxisEvent? || a.ReadError? || a.AxisEvents?
  }

  lemma StreamsStep(s: State, a: Action)
    requires StreamsInv(s) && Enabled(s, a) && TouchesStreams(a)
    ensures StreamsInv(Apply(s, a))
  {
    match a
    case Sink(call) => SinkKeepsStreams(s, call);
    case OfferEvent => OfferEventKeepsStreams(s);
    case OfferAxisEvent => OfferAxisEventKeepsStreams(s);
    case AttemptReport => AttemptReportKeepsStreams(s);
    case AxisEvents => AxisEventsKeepsStreams(s);
    case _ => ConsumerKeepsStreams(s, a);
  }

  lemma ElsewhereKeepsStreams(s: State, a: Action)
    requires StreamsInv(s) && LifeInv(s) && Enabled(s, a) && !TouchesStreams(a)
    ensures StreamsInv(Apply(s, a))
  {
    if a.EnterFinish? || a.FinishStep? { FinishTouches(s, a); } else { ElsewhereTouches(s, a); }
    StreamsFrame(s, Apply(s, a));
  }

  lemma StreamsStepTo(s: State, a: Action, after: State)
    requires StreamsInv(s) && LifeInv(s) && Steps(s, a, after)
    ensures StreamsInv(after)
  {
    if TouchesStreams(a) { StreamsStep(s, a); } else { ElsewhereKeepsStreams(s, a); }
  }

  ghost predicate KeepsAt(states: seq<State>, k: nat) {
    k + 1 < |states| && (StreamsInv(states[k]) ==> StreamsInv(states[k + 1]))
  }

  lemma StreamsNext(threshold: real, actions: seq<Action>, states: seq<State>, k: nat)
    requires Runs(threshold, actions, states) && k < |actions|
    ensures KeepsAt(states, k)
  {
    LifeAlways(threshold, actions, states, k);
    RunStep(threshold, actions, states, k);
    StreamsKept(states[k], actions[k], states[k + 1]);
  }

  lemma StreamsKept(s: State, a: Action, after: State)
    requires LifeInv(s) && Steps(s, a, after)
    ensures StreamsInv(s) ==> StreamsInv(after)
  {
    if StreamsInv(s) { StreamsStepTo(s, a, after); }
  }

  lemma {:induction false} StreamsUpTo(states: seq<State>, k: nat)
    requires k < |states| && StreamsInv(states[0]) && forall i: nat | i < k :: KeepsAt(states, i)
    ensures StreamsInv(states[k])
  {
    if k == 0 {
    } else {
      StreamsUpTo(states, k - 1);
      assert KeepsAt(states, k - 1);
    }
  }

  lemma StreamsAlways(threshold: real, actions: seq<Action>, states: seq<State>, k: nat)
    requires Runs(threshold, actions, states) && k < |states|
    ensures StreamsInv(states[k])
  {
    InitStreams(threshold);
    forall i: nat | i < k ensures KeepsAt(states, i) {
      StreamsNext(threshold, actions, states, i);
    }
    StreamsUpTo(states, k);
  }

  lemma EventsDelivered(s: State)
    requires EventsInv(s)
    ensures exists positions :: PicksInOrder(s.events.received + s.events.buffer, Items(s.events.offers), positions)
    ensures |s.events.buffer| <= EVENT_BUFFER
    ensures forall i | 0 <= i < |Items(s.events.offers)| ::
              s.events.offers[i].kept <==> Pending(s.events.offers, i) != EVENT_BUFFER
  {
    DeliveredInOrder(s.events);
  }

  lemma SamplesDelivered(s: State)
    requires AxisEventsInv(s)
    ensures exists positions ::
              PicksInOrder(s.axisEvents.received + s.axisEvents.buffer, Items(s.axisEvents.offers), positions)
    ensures |s.axisEvents.buffer| <= EVENT_BUFFER
    ensures forall i | 0 <= i < |Items(s.axisEvents.offers)| ::
              s.axisEvents.offers[i].kept <==> Pending(s.axisEvents.offers, i) != EVENT_BUFFER
  {
    DeliveredInOrder(s.axisEvents);
  }

  // ---- Main results ----

  /** The events a consumer has read, then those that wait for it, are in order some of the
      emitted button events below 128; one is missing only if 256 were pending at that moment,
      and for every missing one a report was attempted or is the backend's next step. */
  lemma BoundedDelivery(threshold: real, actions: seq<Action>, states: seq<State>, k: nat)
    requires Runs(threshold, actions, states) && k < |states|
    ensures var s := states[k];
            var offered := Items(s.events.offers);
            && offered + EdgeInHand(s.backend) == ButtonStream(s.calls)
            && (exists positions :: PicksInOrder(s.events.received + s.events.buffer, offered, positions))
            && |s.events.buffer| <= EVENT_BUFFER
            && (forall i | 0 <= i < |offered| ::
                  s.events.offers[i].kept <==> Pending(s.events.offers, i) != EVENT_BUFFER)
            && Dropped(s.events.offers)
                == Count(Items(s.errors.offers), EventBufferFull) + ReportInHand(s.backend, EventBufferFull)
  {
    StreamsAlways(threshold, actions, states, k);
    EventsDelivered(states[k]);
  }

  /** The same for axis events, from the first call of AxisEvents on. */
  lemma BoundedAxisDelivery(threshold: real, actions: seq<Action>, states: seq<State>, k: nat)
    requires Runs(threshold, actions, states) && k < |states|
    ensures var s := states[k];
            var offered := Items(s.axisEvents.offers);
            && (s.enabledAt.None? ==> offered == [])
            && (s.enabledAt.Some? ==>
                  s.enabledAt.value <= |s.calls|
                  && offered + SampleInHand(s.backend) == AxisStream(s.calls[s.enabledAt.value..]))
            && (exists positions :: PicksInOrder(s.axisEvents.received + s.axisEvents.buffer, offered, positions))
            && |s.axisEvents.buffer| <= EVENT_BUFFER
            && (forall i | 0 <= i < |offered| ::
                  s.axisEvents.offers[i].kept <==> Pending(s.axisEvents.offers, i) != EVENT_BUFFER)
            && Dropped(s.axisEvents.offers)
                 == Count(Items(s.errors.offers), AxisEventBufferFull) + ReportInHand(s.backend, AxisEventBufferFull)
  {
    StreamsAlways(threshold, actions, states, k);
    SamplesDelivered(states[k]);
  }

  /** A press serves the waiting Capture in the same step, whether or not there will be room
      for it on the stream. */
  lemma PressServesCapture(threshold: real, actions: seq<Action>, states: seq<State>, k: nat, t: nat, edge: ButtonEvent)
    requires Runs(threshold, actions, states) && k < |actions| && actions[k] == Sink(EmitButton(edge))
    requires edge.state == Pressed && edge.button < MAX_BUTTONS && states[k].slots.capture == Some(t)
    ensures var slots := states[k + 1].slots;
            slots.capture.None? && t in slots.tickets && slots.tickets[t].result == [BindingOf(edge)]
  {
    SlotsAlways(threshold, actions, states, k);
  }

  /** No step of a sink call waits for anybody: from any reachable state the backend's own
      next one or two steps, possible at once, bring it back to run. */
  lemma SinkNeverWaits(threshold: real, actions: seq<Action>, states: seq<State>, k: nat)
    requires Runs(threshold, actions, states) && k < |states| && InsideSink(states[k].backend)
    ensures var s := states[k];
            && Enabled(s, NextInSink(s.backend))
            && var s1 := Apply(s, NextInSink(s.backend));
               && !s1.panicked
               && (s1.backend == Idle
                   || (InsideSink(s1.backend) && Enabled(s1, NextInSink(s1.backend))
                       && var s2 := Apply(s1, NextInSink(s1.backend)); s2.backend == Idle && !s2.panicked))
  {
    LifeAlways(threshold, actions, states, k);
  }

  /** Nothing the backend reports is passed over: a report, and the error run ends with, is the
      next thing the goroutine offers to errors, and it gets in if there is room. */
  lemma EveryErrorIsOffered(threshold: real, actions: seq<Action>, states: seq<State>, k: nat)
    requires Runs(threshold, actions, states) && k < |actions|
    ensures actions[k].Sink? && actions[k].call.Report? ==>
              states[k + 1].backend == Reporting(Other(actions[k].call.error))
    ensures actions[k].EndRun? && actions[k].failure.Some? ==>
              states[k + 1].backend == ReportingLast(Other(actions[k].failure.value))
    ensures actions[k] == AttemptReport ==>
              && (states[k].backend.Reporting? || states[k].backend.ReportingLast?)
              && var before, after, failure := states[k].errors, states[k + 1].errors, states[k].backend.failure;
                 && Items(after.offers) == Items(before.offers) + [failure]
                 && after.buffer == (if |before.buffer| < 16 then before.buffer + [failure] else before.buffer)
  {
    RunStep(threshold, actions, states, k);
    if actions[k] == AttemptReport {
      StreamsAlways(threshold, actions, states, k);
      ReportTouches(states[k]);
    }
  }
}
