/** The two capture slots and the axis values over all interleavings: who may be in a slot, and
    what a request is told. */
module ProtocolCapture {
  import opened ControllerTypes
  import opened Traces
  import opened AxisCapture
  import opened Protocol
  import opened ProtocolLifecycle

  predicate InSlot(slots: Slots, t: nat) {
    slots.capture == Some(t) || slots.axisCapture == Some(t)
  }

  function BindingOf(edge: ButtonEvent): Bound {
    OfButton(Binding(edge.device.instanceGuid, edge.button))
  }

  /** What is true of a request, told from the trace of sink calls since its registration. */
  ghost predicate Honest(k: Ticket, inSlot: bool, calls: seq<SinkCall>, threshold: real) {
    && k.since <= |calls|
    && |k.taken| + |k.result| <= 1
    && (inSlot ==> k.taken == [] && k.result == [] && k.stage != ReturnedCapture)
    && (k.stage == Selecting ==> k.taken == [])
    && if k.isAxis then HonestAxis(k, inSlot, calls[..k.since], AxisStream(calls[k.since..]), threshold)
       else HonestButton(k, inSlot, PressStream(calls[k.since..]))
  }

  /** A waiting Capture has heard no press; a served one was told the first. */
  ghost predicate HonestButton(k: Ticket, inSlot: bool, presses: seq<ButtonEvent>) {
    && (inSlot ==> presses == [])
    && (k.taken + k.result != [] ==> presses != [] && (k.taken + k.result)[0] == BindingOf(presses[0]))
  }

  /** A waiting CaptureAxis has the baselines Track says; a served one was told what Track says. */
  ghost predicate HonestAxis(k: Ticket, inSlot: bool, before: seq<SinkCall>, samples: seq<AxisEvent>, threshold: real) {
    var progress := Track(k.origin, threshold, samples);
    && k.origin == Cache(map[], before)
    && (inSlot ==> progress == Progress.Waiting(k.baselines))
    && (k.taken + k.result != [] ==> progress.Captured? && (k.taken + k.result)[0] == OfAxis(progress.binding))
  }

  ghost predicate SlotsInv(s: State) {
    && !(s.slots.capture.Some? && s.slots.axisCapture.Some?)
    && (s.slots.capture.Some? ==>
          s.slots.capture.value in s.slots.tickets && !s.slots.tickets[s.slots.capture.value].isAxis)
    && (s.slots.axisCapture.Some? ==>
          s.slots.axisCapture.value in s.slots.tickets && s.slots.tickets[s.slots.axisCapture.value].isAxis)
    && !s.slots.starved
    && s.values == Cache(map[], s.calls)
    && (forall t | t in s.slots.tickets :: Honest(s.slots.tickets[t], InSlot(s.slots, t), s.calls, s.threshold))
  }

  lemma InitSlots(threshold: real)
    ensures SlotsInv(Init(threshold))
  {
  }

  // ---- One more sink call ----

  lemma SinceAppend(calls: seq<SinkCall>, call: SinkCall, since: nat)
    requires since <= |calls|
    ensures (calls + [call])[..since] == calls[..since]
    ensures (calls + [call])[since..] == calls[since..] + [call]
  {
  }

  lemma TrackAppend(origin: map<AxisKey, real>, threshold: real, events: seq<AxisEvent>, event: AxisEvent)
    requires Accepted(event)
    ensures Track(origin, threshold, events + [event])
         == match Track(origin, threshold, events)
            case Captured(binding, at) => Captured(binding, at)
            case Waiting(baselines) =>
              var step := Sample(baselines, threshold, event);
              if step.binding.Some? then Captured(step.binding.value, |events|) else Progress.Waiting(step.baselines)
  {
    assert (events + [event])[..|events|] == events;
  }

  /** A request outside the slots is told nothing more, and what it was told stays true. */
  lemma ServedStaysHonest(k: Ticket, calls: seq<SinkCall>, call: SinkCall, threshold: real)
    requires Honest(k, false, calls, threshold)
    ensures Honest(k, false, calls + [call], threshold)
  {
    SinceAppend(calls, call, k.since);
    StreamsAppend(calls[k.since..], call);
    if k.isAxis && call.EmitAxis? && Accepted(call.sample) {
      TrackAppend(k.origin, threshold, AxisStream(calls[k.since..]), call.sample);
    }
  }

  /** A waiting Capture after one more call: served by the first press, else still waiting. */
  lemma WaitingButton(k: Ticket, calls: seq<SinkCall>, call: SinkCall, threshold: real)
    requires !k.isAxis && Honest(k, true, calls, threshold)
    ensures if call.EmitButton? && call.edge.button < MAX_BUTTONS && call.edge.state == Pressed
            then Honest(k.(result := [BindingOf(call.edge)]), false, calls + [call], threshold)
            else Honest(k, true, calls + [call], threshold)
  {
    SinceAppend(calls, call, k.since);
    StreamsAppend(calls[k.since..], call);
  }

  /** A waiting CaptureAxis after one more call. */
  lemma WaitingAxis(k: Ticket, calls: seq<SinkCall>, call: SinkCall, threshold: real)
    requires k.isAxis && Honest(k, true, calls, threshold)
    ensures if call.EmitAxis? && Accepted(call.sample) then
              var step := Sample(k.baselines, threshold, call.sample);
              var noted := k.(baselines := step.baselines);
              if step.binding.Some? then
                Honest(noted.(result := [OfAxis(step.binding.value)]), false, calls + [call], threshold)
              else Honest(noted, true, calls + [call], threshold)
            else Honest(k, true, calls + [call], threshold)
  {
    SinceAppend(calls, call, k.since);
    StreamsAppend(calls[k.since..], call);
    if call.EmitAxis? && Accepted(call.sample) {
      TrackAppend(k.origin, threshold, AxisStream(calls[k.since..]), call.sample);
    }
  }

  // ---- Every step keeps it ----

  /** Requests that are not in the slot are left alone by a sink call. */
  lemma OthersStayHonest(s: State, call: SinkCall, t: nat)
    requires SlotsInv(s) && t in s.slots.tickets && !InSlot(s.slots, t)
    ensures Honest(s.slots.tickets[t], false, s.calls + [call], s.threshold)
  {
    ServedStaysHonest(s.slots.tickets[t], s.calls, call, s.threshold);
  }

  lemma ValuesFollow(s: State, call: SinkCall)
    requires s.values == Cache(map[], s.calls)
    ensures Remember(s.values, call) == Cache(map[], s.calls + [call])
  {
    assert (s.calls + [call])[..|s.calls|] == s.calls;
  }

  lemma TicketAfterEdge(s: State, edge: ButtonEvent, t: nat)
    requires SlotsInv(s) && edge.button < MAX_BUTTONS && t in s.slots.tickets
    ensures var slots := SlotsAfterEdge(s.slots, edge);
            t in slots.tickets
            && Honest(slots.tickets[t], InSlot(slots, t), s.calls + [EmitButton(edge)], s.threshold)
  {
    var call := EmitButton(edge);
    if !InSlot(s.slots, t) { OthersStayHonest(s, call, t); }
    else if s.slots.tickets[t].isAxis { WaitingAxis(s.slots.tickets[t], s.calls, call, s.threshold); }
    else { WaitingButton(s.slots.tickets[t], s.calls, call, s.threshold); }
  }

  lemma EdgeKeepsSlots(s: State, edge: ButtonEvent)
    requires SlotsInv(s) && edge.button < MAX_BUTTONS
    ensures var slots := SlotsAfterEdge(s.slots, edge);
            SlotsInv(s.(slots := slots, calls := s.calls + [EmitButton(edge)],
                values := Remember(s.values, EmitButton(edge))))
  {
    var call, slots := EmitButton(edge), SlotsAfterEdge(s.slots, edge);
    ValuesFollow(s, call);
    forall t | t in slots.tickets ensures Honest(slots.tickets[t], InSlot(slots, t), s.calls + [call], s.threshold) {
      TicketAfterEdge(s, edge, t);
    }
  }

  lemma TicketAfterSample(s: State, event: AxisEvent, t: nat)
    requires SlotsInv(s) && Accepted(event) && t in s.slots.tickets
    ensures var slots := SlotsAfterSample(s.slots, s.threshold, event);
            t in slots.tickets
            && Honest(slots.tickets[t], InSlot(slots, t), s.calls + [EmitAxis(event)], s.threshold)
  {
    var call := EmitAxis(event);
    if !InSlot(s.slots, t) { OthersStayHonest(s, call, t); }
    else if s.slots.tickets[t].isAxis { WaitingAxis(s.slots.tickets[t], s.calls, call, s.threshold); }
    else { WaitingButton(s.slots.tickets[t], s.calls, call, s.threshold); }
  }

  lemma SampleKeepsSlots(s: State, event: AxisEvent)
    requires SlotsInv(s) && Accepted(event)
    ensures var slots := SlotsAfterSample(s.slots, s.threshold, event);
            SlotsInv(s.(slots := slots, calls := s.calls + [EmitAxis(event)],
                values := Remember(s.values, EmitAxis(event))))
  {
    var call, slots := EmitAxis(event), SlotsAfterSample(s.slots, s.threshold, event);
    ValuesFollow(s, call);
    forall t | t in slots.tickets ensures Honest(slots.tickets[t], InSlot(slots, t), s.calls + [call], s.threshold) {
      TicketAfterSample(s, event, t);
    }
  }

  /** Calls the slots do not see: turned away, or none of their business. */
  lemma OtherCallKeepsSlots(s: State, call: SinkCall)
    requires SlotsInv(s)
    requires call.EmitButton? ==> call.edge.button >= MAX_BUTTONS
    requires call.EmitAxis? ==> !Accepted(call.sample)
    ensures SlotsInv(s.(calls := s.calls + [call], values := Remember(s.values, call)))
  {
    ValuesFollow(s, call);
    forall t | t in s.slots.tickets
      ensures Honest(s.slots.tickets[t], InSlot(s.slots, t), s.calls + [call], s.threshold)
    {
      if !InSlot(s.slots, t) { OthersStayHonest(s, call, t); }
      else if s.slots.tickets[t].isAxis { WaitingAxis(s.slots.tickets[t], s.calls, call, s.threshold); }
      else { WaitingButton(s.slots.tickets[t], s.calls, call, s.threshold); }
    }
  }

  /** The invariant reads nothing but these fields. */
  lemma SlotsFrame(s: State, after: State)
    requires SlotsInv(s)
    requires after.slots == s.slots && after.calls == s.calls && after.values == s.values
        && after.threshold == s.threshold
    ensures SlotsInv(after)
  {
  }

  lemma SinkKeepsSlots(s: State, call: SinkCall)
    requires SlotsInv(s)
    ensures SlotsInv(ApplySink(s, call))
  {
    var after := ApplySink(s, call);
    if call.EmitButton? && call.edge.button < MAX_BUTTONS {
      EdgeKeepsSlots(s, call.edge);
      SlotsFrame(s.(slots := SlotsAfterEdge(s.slots, call.edge), calls := s.calls + [call],
          values := Remember(s.values, call)), after);
    } else if call.EmitAxis? && Accepted(call.sample) {
      SampleKeepsSlots(s, call.sample);
      SlotsFrame(s.(slots := SlotsAfterSample(s.slots, s.threshold, call.sample), calls := s.calls + [call],
          values := Remember(s.values, call)), after);
    } else {
      OtherCallKeepsSlots(s, call);
      SlotsFrame(s.(calls := s.calls + [call], values := Remember(s.values, call)), after);
    }
  }

  lemma CaptureKeepsSlots(s: State, t: nat, isAxis: bool)
    requires SlotsInv(s) && t !in s.slots.tickets
    ensures SlotsInv(ApplyCapture(s, t, isAxis))
  {
    assert s.calls[|s.calls|..] == [] && s.calls[..|s.calls|] == s.calls;
  }

  function Taken(k: Ticket): Ticket
    requires k.result != []
  {
    k.(result := k.result[1..], taken := k.taken + [k.result[0]], stage := LeavingCapture)
  }

  lemma TakenStaysHonest(k: Ticket, inSlot: bool, calls: seq<SinkCall>, threshold: real)
    requires Honest(k, inSlot, calls, threshold) && k.result != []
    ensures Honest(Taken(k), inSlot, calls, threshold)
  {
    assert k.taken + k.result == Taken(k).taken + Taken(k).result;
  }

  lemma LeavingStaysHonest(k: Ticket, inSlot: bool, calls: seq<SinkCall>, threshold: real)
    requires Honest(k, inSlot, calls, threshold)
    ensures Honest(k.(stage := LeavingCapture), inSlot, calls, threshold)
  {
  }

  lemma OneTicketChanges(s: State, t: nat, k: Ticket)
    requires SlotsInv(s) && t in s.slots.tickets && k.isAxis == s.slots.tickets[t].isAxis
    requires Honest(k, InSlot(s.slots, t), s.calls, s.threshold)
    ensures SlotsInv(Retake(s, t, k))
  {
    var after := Retake(s, t, k);
    forall u | u in after.slots.tickets
      ensures Honest(after.slots.tickets[u], InSlot(after.slots, u), after.calls, after.threshold)
    {
      if u != t { assert after.slots.tickets[u] == s.slots.tickets[u]; }
    }
  }

  lemma RetakeKeepsSlots(s: State, a: Action)
    requires SlotsInv(s) && Enabled(s, a) && (a.TakeResult? || a.GiveUp?)
    ensures SlotsInv(Apply(s, a))
  {
    var t, k := a.t, s.slots.tickets[a.t];
    if a.TakeResult? {
      TakenStaysHonest(k, InSlot(s.slots, t), s.calls, s.threshold);
      OneTicketChanges(s, t, Taken(k));
    } else {
      LeavingStaysHonest(k, InSlot(s.slots, t), s.calls, s.threshold);
      OneTicketChanges(s, t, k.(stage := LeavingCapture));
    }
  }

  lemma CleanUpKeepsSlots(s: State, t: nat)
    requires SlotsInv(s) && t in s.slots.tickets
    ensures SlotsInv(s.(slots := ApplyCleanUp(s.slots, t)))
  {
  }

  lemma EmptySlots(s: State)
    requires SlotsInv(s)
    ensures SlotsInv(s.(slots := s.slots.(capture := None, axisCapture := None)))
  {
  }

  lemma FinishStepTouches(s: State)
    requires s.life.finishing.Finishing?
    ensures var after := ApplyFinishStep(s);
            && after.calls == s.calls && after.values == s.values && after.threshold == s.threshold
            && after.slots == if s.life.finishing.step == 0 then s.slots.(capture := None, axisCapture := None)
                              else s.slots
  {
  }

  lemma FinishKeepsSlots(s: State)
    requires SlotsInv(s) && s.life.finishing.Finishing?
    ensures SlotsInv(ApplyFinishStep(s))
  {
    FinishStepTouches(s);
    var before := s.(slots := ApplyFinishStep(s).slots);
    assert SlotsInv(before) by { EmptySlots(s); }
    SlotsFrame(before, ApplyFinishStep(s));
  }

  lemma ThresholdStays(s: State, a: Action)
    requires Enabled(s, a)
    ensures Apply(s, a).threshold == s.threshold
  {
  }

  lemma SlotsStep(s: State, a: Action)
    requires SlotsInv(s) && Enabled(s, a)
    ensures SlotsInv(Apply(s, a))
  {
    match a
    case Sink(call) => SinkKeepsSlots(s, call);
    case Capture(t, isAxis) => CaptureKeepsSlots(s, t, isAxis);
    case TakeResult(_) => RetakeKeepsSlots(s, a);
    case GiveUp(_) => RetakeKeepsSlots(s, a);
    case CleanUp(t) => CleanUpKeepsSlots(s, t);
    case FinishStep => FinishKeepsSlots(s);
    case _ => SlotsFrame(s, Apply(s, a));
  }

  lemma SlotsStepTo(s: State, a: Action, after: State)
    requires SlotsInv(s) && Steps(s, a, after)
    ensures SlotsInv(after) && after.threshold == s.threshold
  {
    SlotsStep(s, a);
    ThresholdStays(s, a);
  }

  lemma {:induction false} SlotsAlways(threshold: real, actions: seq<Action>, states: seq<State>, k: nat)
    requires Runs(threshold, actions, states) && k < |states|
    ensures SlotsInv(states[k]) && states[k].threshold == threshold
  {
    if k == 0 {
      InitSlots(threshold);
    } else {
      SlotsAlways(threshold, actions, states, k - 1);
      RunStep(threshold, actions, states, k - 1);
      SlotsStepTo(states[k - 1], actions[k - 1], states[k]);
    }
  }

  // ---- Main results ----

  /** finish has left its critical section. */
  predicate PastCriticalSection(finishing: Finishing) {
    match finishing
    case NotFinishing => false
    case Finishing(step, _) => step > 0
    case Finished => true
  }

  lemma LeftEmpty(s: State)
    requires LifeInv(s) && PastCriticalSection(s.life.finishing)
    ensures s.slots.capture.None? && s.slots.axisCapture.None?
  {
  }

  /** In every reachable state at most one slot is taken, a waiting request has an empty result
      channel, no delivery has ever met a full one, no request was told twice, and from the end
      of finish's critical section on both slots are empty for good. */
  lemma CaptureProtocol(threshold: real, actions: seq<Action>, states: seq<State>, k: nat, t: nat)
    requires Runs(threshold, actions, states) && k < |states|
    ensures var slots := states[k].slots;
            && !(slots.capture.Some? && slots.axisCapture.Some?)
            && !slots.starved
            && (InSlot(slots, t) ==> t in slots.tickets && slots.tickets[t].result == [])
            && (t in slots.tickets ==> |slots.tickets[t].taken| + |slots.tickets[t].result| <= 1)
            && (PastCriticalSection(states[k].life.finishing) ==> slots.capture.None? && slots.axisCapture.None?)
  {
    SlotsAlways(threshold, actions, states, k);
    LifeAlways(threshold, actions, states, k);
    if PastCriticalSection(states[k].life.finishing) {
      LeftEmpty(states[k]);
    }
  }

  lemma SinkServesWhomItRemoves(s: State, call: SinkCall, t: nat)
    requires SlotsInv(s) && InSlot(s.slots, t)
    ensures var slots := ApplySink(s, call).slots;
            InSlot(slots, t) || (t in slots.tickets && slots.tickets[t].result != [])
  {
  }

  /** A request leaves its slot only by its own delivery, by its own call's cleanup, or by
      finish; no other caller's cleanup removes it. */
  lemma SlotIsLeftByItsOwner(threshold: real, actions: seq<Action>, states: seq<State>, k: nat, t: nat)
    requires Runs(threshold, actions, states) && k < |actions|
    requires InSlot(states[k].slots, t) && !InSlot(states[k + 1].slots, t)
    ensures || actions[k] == CleanUp(t)
            || (actions[k] == FinishStep && states[k].life.finishing.step == 0)
            || (actions[k].Sink? && t in states[k + 1].slots.tickets && states[k + 1].slots.tickets[t].result != [])
  {
    var s, a := states[k], actions[k];
    match a
    case FinishStep => FinishStepTouches(s);
    case Sink(call) =>
      SlotsAlways(threshold, actions, states, k);
      SinkServesWhomItRemoves(s, call, t);
    case CleanUp(_) =>
    case _ => SlotsOnlyGain(s, a, t);
  }

  lemma SlotsOnlyGain(s: State, a: Action, t: nat)
    requires Enabled(s, a) && a != FinishStep && !a.Sink? && !a.CleanUp? && InSlot(s.slots, t)
    ensures InSlot(Apply(s, a).slots, t)
  {
  }

  /** What Capture returns is the first press after its registration. */
  lemma CaptureReturnsFirstPress(threshold: real, actions: seq<Action>, states: seq<State>, k: nat, t: nat)
    requires Runs(threshold, actions, states) && k < |states|
    requires t in states[k].slots.tickets && !states[k].slots.tickets[t].isAxis
    ensures var ticket := states[k].slots.tickets[t];
            && ticket.since <= |states[k].calls|
            && var presses := PressStream(states[k].calls[ticket.since..]);
               && (InSlot(states[k].slots, t) ==> presses == [])
               && (ticket.taken + ticket.result != [] ==>
                     presses != [] && ticket.taken + ticket.result == [BindingOf(presses[0])])
  {
    SlotsAlways(threshold, actions, states, k);
  }

  /** `got` is the binding for sample `at`, the first that qualifies, and keeps its promises. */
  ghost predicate BoundBy(origin: map<AxisKey, real>, threshold: real, samples: seq<AxisEvent>, at: nat,
          got: seq<Bound>) {
    && at < |samples| && Completes(origin, threshold, samples, at)
    && (forall i | 0 <= i < at :: !Completes(origin, threshold, samples, i))
    && var binding := BindingFor(samples[at], BaselineOf(origin, samples[..at], KeyOf(samples[at])).value);
       got == [OfAxis(binding)] && Promises(binding, samples[at], threshold)
  }

  lemma CapturedIsBound(origin: map<AxisKey, real>, threshold: real, samples: seq<AxisEvent>)
    requires 0.0 < threshold <= 1.0 && Track(origin, threshold, samples).Captured?
    ensures var Captured(binding, at) := Track(origin, threshold, samples);
            BoundBy(origin, threshold, samples, at, [OfAxis(binding)])
  {
    FirstQualifyingSample(origin, threshold, samples);
    DeliveredBindingRoundTrip(origin, threshold, samples);
  }

  lemma HonestAxisMeans(k: Ticket, inSlot: bool, calls: seq<SinkCall>, threshold: real)
    requires Honest(k, inSlot, calls, threshold) && k.isAxis && 0.0 < threshold <= 1.0
    ensures var origin, samples := Cache(map[], calls[..k.since]), AxisStream(calls[k.since..]);
            && (inSlot ==> forall i | 0 <= i < |samples| :: !Completes(origin, threshold, samples, i))
            && (k.taken + k.result != [] ==>
                  var progress := Track(origin, threshold, samples);
                  progress.Captured? && BoundBy(origin, threshold, samples, progress.at, k.taken + k.result))
  {
    var samples, got := AxisStream(calls[k.since..]), k.taken + k.result;
    FirstQualifyingSample(k.origin, threshold, samples);
    if got != [] {
      CapturedIsBound(k.origin, threshold, samples);
      assert got == [got[0]];
    }
  }

  /** What CaptureAxis returns is bound to the first sample after its registration that
      qualifies, with the baselines of BaselineOf from the axis values at registration, and it
      keeps its promises; while the request waits no sample has qualified. */
  lemma CaptureAxisReturnsFirstQualifying(threshold: real, actions: seq<Action>, states: seq<State>, k: nat, t: nat)
    requires Runs(threshold, actions, states) && k < |states| && 0.0 < threshold <= 1.0
    requires t in states[k].slots.tickets && states[k].slots.tickets[t].isAxis
    ensures var ticket := states[k].slots.tickets[t];
            && ticket.since <= |states[k].calls|
            && var origin := Cache(map[], states[k].calls[..ticket.since]);
               var samples := AxisStream(states[k].calls[ticket.since..]);
               && (InSlot(states[k].slots, t) ==>
                     forall i | 0 <= i < |samples| :: !Completes(origin, threshold, samples, i))
               && (ticket.taken + ticket.result != [] ==>
                     var progress := Track(origin, threshold, samples);
                     progress.Captured?
                     && BoundBy(origin, threshold, samples, progress.at, ticket.taken + ticket.result))
  {
    SlotsAlways(threshold, actions, states, k);
    HonestAxisMeans(states[k].slots.tickets[t], InSlot(states[k].slots, t), states[k].calls, threshold);
  }

  lemma SelectTouches(s: State, a: Action, t: nat)
    requires SlotsInv(s) && Enabled(s, a) && (a == TakeResult(t) || a == GiveUp(t))
    ensures var before, after := s.slots.tickets[t], Apply(s, a).slots.tickets[t];
            && before.taken == [] && after.stage == LeavingCapture
            && (a == TakeResult(t) ==> |before.result| == 1 && after.taken == before.result && after.result == [])
            && (a == GiveUp(t) ==> after.taken == [] && after.result == before.result)
  {
    assert Honest(s.slots.tickets[t], InSlot(s.slots, t), s.calls, s.threshold);
  }

  /** The select of a capture call either receives the one binding it was sent, or leaves
      empty-handed. */
  lemma SelectTakesOnce(threshold: real, actions: seq<Action>, states: seq<State>, k: nat, t: nat)
    requires Runs(threshold, actions, states) && k < |actions|
    requires actions[k] == TakeResult(t) || actions[k] == GiveUp(t)
    ensures t in states[k].slots.tickets && t in states[k + 1].slots.tickets
    ensures var before, after := states[k].slots.tickets[t], states[k + 1].slots.tickets[t];
            && before.taken == [] && after.stage == LeavingCapture
            && (actions[k] == TakeResult(t) ==>
                  |before.result| == 1 && after.taken == before.result && after.result == [])
            && (actions[k] == GiveUp(t) ==> after.taken == [] && after.result == before.result)
  {
    SlotsAlways(threshold, actions, states, k);
    RunStep(threshold, actions, states, k);
    SelectTouches(states[k], actions[k], t);
  }

  /** A waiting CaptureAxis, and one accepted sample. */
  lemma SampleServes(s: State, t: nat, event: AxisEvent)
    requires SlotsInv(s) && s.slots.axisCapture == Some(t) && 0.0 < s.threshold <= 1.0 && Accepted(event)
    ensures var ticket, after := s.slots.tickets[t], ApplySink(s, EmitAxis(event)).slots;
            var baseline := BaselineOf(ticket.origin, AxisStream(s.calls[ticket.since..]), KeyOf(event));
            if baseline.Some? && Enough(baseline.value, event.value, s.threshold)
            then
              after.axisCapture.None? && t in after.tickets
              && after.tickets[t].result
                 == [OfAxis(AxisBinding(event.device.instanceGuid, event.axis, event.axisName,
                                        if event.value < baseline.value then Decreasing else Increasing,
                                        baseline.value))]
            else after.axisCapture == Some(t)
  {
    var ticket := s.slots.tickets[t];
    var samples := AxisStream(s.calls[ticket.since..]);
    assert Honest(ticket, true, s.calls, s.threshold);
    WaitingBaselines(ticket.origin, s.threshold, samples, KeyOf(event));
    var baseline := BaselineOf(ticket.origin, samples, KeyOf(event));
    if baseline.Some? {
      QualifiesIff(baseline.value, event.value, s.threshold);
    }
  }

  /** Enough movement serves the waiting CaptureAxis in the same step, in either direction;
      anything less leaves it waiting. */
  lemma MovementServesCapture(threshold: real, actions: seq<Action>, states: seq<State>, k: nat, t: nat,
          event: AxisEvent)
    requires Runs(threshold, actions, states) && k < |actions| && actions[k] == Sink(EmitAxis(event))
    requires 0.0 < threshold <= 1.0 && states[k].slots.axisCapture == Some(t)
    ensures t in states[k].slots.tickets && states[k].slots.tickets[t].since <= |states[k].calls|
    ensures var ticket, after := states[k].slots.tickets[t], states[k + 1].slots;
            var origin := Cache(map[], states[k].calls[..ticket.since]);
            var baseline := BaselineOf(origin, AxisStream(states[k].calls[ticket.since..]), KeyOf(event));
            if event.device.instanceGuid != "" && 0.0 <= event.value <= 1.0
               && baseline.Some? && Enough(baseline.value, event.value, threshold)
            then
              after.axisCapture.None? && t in after.tickets
              && after.tickets[t].result
                 == [OfAxis(AxisBinding(event.device.instanceGuid, event.axis, event.axisName,
                                        if event.value < baseline.value then Decreasing else Increasing,
                                        baseline.value))]
            else after.axisCapture == Some(t)
  {
    SlotsAlways(threshold, actions, states, k);
    RunStep(threshold, actions, states, k);
    assert Honest(states[k].slots.tickets[t], true, states[k].calls, threshold);
    if Accepted(event) {
      SampleServes(states[k], t, event);
    }
  }
}
