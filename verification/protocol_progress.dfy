/** Nobody who waits for the backend waits in vain: from every reachable state the steps that
    are left to the backend let a waiting Close or Start return. */
module ProtocolProgress {
  import opened ControllerTypes
  import opened Protocol
  import opened ProtocolLifecycle

  predicate Joining(call: LifeCall) {
    call.CloseJoining? || call == StartJoining
  }

  /** What the backend goroutine does next on its way out, or what launches it. */
  function TowardExit(s: State): Action
    requires s.life.starter.Some? && s.backend != Gone
  {
    match s.backend
    case Absent => Launch(s.life.starter.value)
    case Idle => EndRun(None)
    case SendingEvent(_) => OfferEvent
    case SendingAxisEvent(_) => OfferAxisEvent
    case Reporting(_) => AttemptReport
    case ReportingLast(_) => AttemptReport
    case Ending => if s.life.finishing.Finishing? then FinishStep else EnterFinish(TheBackend)
    case Leaving => LeaveGroup
  }

  /** How many of these steps are left at most. */
  function StepsToExit(s: State): int {
    match s.backend
    case Absent => 14
    case SendingEvent(_) => 13
    case SendingAxisEvent(_) => 13
    case Reporting(_) => 12
    case Idle => 11
    case ReportingLast(_) => 10
    case Ending => if s.life.finishing.Finishing? then 8 - s.life.finishing.step else 9
    case Leaving => 1
    case Gone => 0
  }

  /** The backend's finish is nobody else's. */
  lemma BackendOwnsFinish(s: State)
    requires LifeInv(s) && s.backend == Ending
    ensures s.life.finishing != Finished
    ensures s.life.finishing.Finishing? ==> s.life.finishing.owner == TheBackend
  {
  }

  lemma ExitStep(s: State, t: nat)
    requires LifeInv(s) && s.life.registered && s.backend != Gone
    requires t in s.life.calls && Joining(s.life.calls[t])
    ensures Enabled(s, TowardExit(s))
    ensures var after := Apply(s, TowardExit(s));
            && 0 <= StepsToExit(after) < StepsToExit(s) && after.life.registered
            && t in after.life.calls && after.life.calls[t] == s.life.calls[t]
  {
    if s.backend == Ending { BackendOwnsFinish(s); }
  }

  lemma JoinStep(s: State, t: nat)
    requires LifeInv(s) && t in s.life.calls && Joining(s.life.calls[t])
    requires !s.life.registered || s.backend == Gone
    ensures Enabled(s, Join(s, t))
    ensures var after := Apply(s, Join(s, t));
            t in after.life.calls
            && (after.life.calls[t].CloseReturned? || after.life.calls[t] == StartReturned(Failed))
  {
  }

  function Join(s: State, t: nat): Action
    requires t in s.life.calls
  {
    if s.life.calls[t] == StartJoining then StartJoin(t) else CloseJoin(t)
  }

  predicate BackendsOwn(a: Action) {
    a.Launch? || Backs(a) || a == EnterFinish(TheBackend) || a == FinishStep
  }

  lemma ExitKeepsLife(s: State)
    requires LifeInv(s) && s.life.registered && s.backend != Gone && Enabled(s, TowardExit(s))
    ensures BackendsOwn(TowardExit(s)) && LifeInv(Apply(s, TowardExit(s)))
  {
    LifeStep(s, TowardExit(s));
    if s.backend == Ending { BackendOwnsFinish(s); }
  }

  ghost predicate AllBackends(actions: seq<Action>) {
    forall k | 0 <= k < |actions| :: BackendsOwn(actions[k])
  }

  lemma AllBackendsAppend(actions: seq<Action>, a: Action)
    requires AllBackends(actions) && BackendsOwn(a)
    ensures AllBackends(actions + [a])
  {
  }

  /** The goroutine's steps from here to its end, while the waiter waits. */
  lemma BackendCanLeave(threshold: real, actions: seq<Action>, states: seq<State>, t: nat)
    returns (more: seq<Action>, after: seq<State>)
    requires Runs(threshold, actions, states)
    requires t in states[|actions|].life.calls && Joining(states[|actions|].life.calls[t])
    ensures Runs(threshold, actions + more, states + after) && |after| == |more|
    ensures AllBackends(more)
    ensures var last := (states + after)[|actions + more|];
            && (!last.life.registered || last.backend == Gone)
            && t in last.life.calls && Joining(last.life.calls[t])
  {
    more, after := [], [];
    var s := states[|actions|];
    assert actions + more == actions && states + after == states;
    LifeAlways(threshold, actions, states, |actions|);
    while s.life.registered && s.backend != Gone
      invariant Runs(threshold, actions + more, states + after) && |after| == |more|
      invariant s == (states + after)[|actions + more|] && LifeInv(s)
      invariant t in s.life.calls && Joining(s.life.calls[t])
      invariant AllBackends(more)
      decreases StepsToExit(s)
    {
      var a := TowardExit(s);
      ExitStep(s, t);
      ExitKeepsLife(s);
      RunFurther(threshold, actions, states, more, after, a);
      AllBackendsAppend(more, a);
      more, after, s := more + [a], after + [Apply(s, a)], Apply(s, a);
    }
  }

  /** No deadlock: a Close or Start that waits for the goroutine can always be let through by
      steps of the goroutine alone, whatever state it is in. */
  lemma WaitersCanReturn(threshold: real, actions: seq<Action>, states: seq<State>, t: nat)
    returns (more: seq<Action>, after: seq<State>)
    requires Runs(threshold, actions, states)
    requires t in states[|actions|].life.calls && Joining(states[|actions|].life.calls[t])
    ensures Runs(threshold, actions + more, states + after) && |after| == |more| > 0
    ensures AllBackends(more[..|more| - 1])
    ensures more[|more| - 1] == StartJoin(t) || more[|more| - 1] == CloseJoin(t)
    ensures var last := after[|after| - 1];
            t in last.life.calls && (last.life.calls[t].CloseReturned? || last.life.calls[t] == StartReturned(Failed))
  {
    more, after := BackendCanLeave(threshold, actions, states, t);
    var s := (states + after)[|actions + more|];
    LifeAlways(threshold, actions + more, states + after, |actions + more|);
    JoinStep(s, t);
    RunFurther(threshold, actions, states, more, after, Join(s, t));
    assert (more + [Join(s, t)])[..|more|] == more;
    more, after := more + [Join(s, t)], after + [Apply(s, Join(s, t))];
  }
}
