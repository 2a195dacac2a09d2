/** Starting, closing and finishing: what holds in every state the protocol can reach. */
module ProtocolLifecycle {
  import opened ControllerTypes
  import opened Protocol

  /** A stage only the call that flipped `started` can be in. */
  predicate OwnsStart(call: LifeCall) {
    match call
    case StartUnlocked => true
    case StartRegistered => true
    case StartWaiting => true
    case StartJoining => true
    case StartReturned(outcome) => outcome != Refused
    case _ => false
  }

  predicate BeforeLaunch(call: LifeCall) {
    call == StartUnlocked || call == StartRegistered
  }

  /** A stage only the call that flipped `closed` can be in. */
  predicate OwnsClose(call: LifeCall) {
    call.CloseJoining? || call.CloseFinishing? || (call.CloseReturned? && call.flipped)
  }

  ghost predicate StartInv(s: State) {
    var life := s.life;
    && (life.started <==> life.starter.Some?)
    && (life.started ==> life.starter.value in life.calls && OwnsStart(life.calls[life.starter.value]))
    && (forall t | t in life.calls && OwnsStart(life.calls[t]) :: life.starter == Some(t))
    && (life.registered <==> life.started && life.calls[life.starter.value] != StartUnlocked)
    && (s.backend == Absent <==> !life.started || BeforeLaunch(life.calls[life.starter.value]))
    && life.group == (if life.registered && s.backend != Gone then 1 else 0)
  }

  ghost predicate CloseInv(s: State) {
    var life := s.life;
    && (life.closer.Some? ==> life.closed)
    && (forall t | t in life.calls && OwnsClose(life.calls[t]) :: life.closer == Some(t))
    && (forall t | t in life.calls && life.calls[t].CloseFinishing? :: !life.started)
    && (forall t | t in life.calls && life.calls[t].CloseJoining? ::
          life.started && (life.calls[t].covered ==> life.registered))
  }

  /** The channels are closed one after the other, once each, by the one who finishes. */
  ghost predicate FinishInv(s: State) {
    var life := s.life;
    match life.finishing
    case NotFinishing =>
      && ClosesAre(life, 0, 0, 0, 0)
      && s.backend != Leaving && s.backend != Gone
    case Finishing(step, owner) =>
      && step <= 5
      && ClosesAre(life, if step > 1 then 1 else 0, if step > 2 then 1 else 0,
                   if step > 3 then 1 else 0, if step > 4 then 1 else 0)
      && AtFinish(s, owner)
      && (step > 0 ==> SlotsClosed(s))
    case Finished =>
      && ClosesAre(life, 1, 1, 1, 1)
      && SlotsClosed(s)
      && (if life.started then s.backend == Leaving || s.backend == Gone else s.backend == Absent)
  }

  predicate ClosesAre(life: Life, done: nat, events: nat, axisEvents: nat, errors: nat) {
    && life.doneCloses == done && life.eventsCloses == events
    && life.axisEventsCloses == axisEvents && life.errorsCloses == errors
  }

  predicate SlotsClosed(s: State) {
    s.life.closed && s.slots.capture.None? && s.slots.axisCapture.None?
  }

  predicate AllClosed(life: Life) {
    ClosesAre(life, 1, 1, 1, 1)
  }

  /** Calls that promise their caller a finished manager. */
  ghost predicate ReturnInv(s: State) {
    forall t | t in s.life.calls && PromisesFinished(s.life.calls[t]) :: s.life.finishing == Finished
  }

  predicate PromisesFinished(call: LifeCall) {
    call == StartReturned(Failed) || (call.CloseReturned? && call.covered)
  }

  ghost predicate LifeInv(s: State) {
    StartInv(s) && CloseInv(s) && FinishInv(s) && ReturnInv(s) && !s.panicked
  }

  lemma InitLife(threshold: real)
    ensures LifeInv(Init(threshold))
  {
  }

  // ---- Every step keeps it ----

  lemma StartKeepsLife(s: State, t: nat, admitted: bool)
    requires LifeInv(s) && Enabled(s, Start(t, admitted))
    ensures LifeInv(Apply(s, Start(t, admitted)))
  {
  }

  lemma GroupKeepsLife(s: State, a: Action)
    requires LifeInv(s) && Enabled(s, a) && (a.Register? || a.Launch? || a.LeaveGroup?)
    ensures LifeInv(Apply(s, a))
  {
  }

  lemma StartReturnKeepsLife(s: State, a: Action)
    requires LifeInv(s) && Enabled(s, a) && (a.SeeReady? || a.SeeContext? || a.StartJoin?)
    ensures LifeInv(Apply(s, a))
  {
  }

  lemma FirstCloseKeepsLife(s: State, t: nat)
    requires LifeInv(s) && Enabled(s, Close(t)) && !s.life.closed
    ensures LifeInv(Apply(s, Close(t)))
  {
  }

  lemma LaterCloseKeepsLife(s: State, t: nat)
    requires LifeInv(s) && Enabled(s, Close(t)) && s.life.closed
    ensures LifeInv(Apply(s, Close(t)))
  {
  }

  lemma CloseJoinKeepsLife(s: State, t: nat)
    requires LifeInv(s) && Enabled(s, CloseJoin(t))
    ensures LifeInv(Apply(s, CloseJoin(t)))
  {
  }

  lemma EnterFinishKeepsLife(s: State, owner: Owner)
    requires LifeInv(s) && Enabled(s, EnterFinish(owner))
    ensures LifeInv(Apply(s, EnterFinish(owner)))
  {
  }

  lemma FinishStepKeepsLife(s: State)
    requires LifeInv(s) && Enabled(s, FinishStep) && s.life.finishing.step < 5
    ensures LifeInv(Apply(s, FinishStep))
  {
  }

  lemma LeaveFinishKeepsLife(s: State)
    requires LifeInv(s) && Enabled(s, FinishStep) && s.life.finishing.step == 5
    ensures LifeInv(Apply(s, FinishStep))
  {
  }

  predicate Active(backend: Backend) {
    backend != Absent && backend != Ending && backend != Leaving && backend != Gone
  }

  /** The backend goes on with its work, or comes to the end of it. */
  lemma BackendGoesOn(s: State, after: State)
    requires LifeInv(s) && after.life == s.life.(ready := after.life.ready) && after.panicked == s.panicked
    requires Active(s.backend) && (Active(after.backend) || after.backend == Ending)
    requires SlotsClosed(s) ==> SlotsClosed(after)
    ensures LifeInv(after)
  {
  }

  lemma SinkKeepsLife(s: State, call: SinkCall)
    requires LifeInv(s) && s.backend == Idle
    ensures LifeInv(ApplySink(s, call))
  {
    BackendGoesOn(s, ApplySink(s, call));
  }

  lemma RunKeepsLife(s: State, a: Action)
    requires LifeInv(s) && Enabled(s, a) && (a.SendReady? || a.Sink? || a.EndRun?)
    ensures LifeInv(Apply(s, a))
  {
    if a.Sink? { SinkKeepsLife(s, a.call); } else { BackendGoesOn(s, Apply(s, a)); }
  }

  lemma SendKeepsLife(s: State, a: Action)
    requires LifeInv(s) && Enabled(s, a) && (a.OfferEvent? || a.OfferAxisEvent? || a.AttemptReport?)
    ensures LifeInv(Apply(s, a))
  {
  }

  /** The invariant reads nothing but these fields. */
  lemma LifeFrame(s: State, after: State)
    requires LifeInv(s) && after.life == s.life && after.backend == s.backend && after.panicked == s.panicked
    requires SlotsClosed(s) ==> SlotsClosed(after)
    ensures LifeInv(after)
  {
  }

  predicate Clients(a: Action) {
    || a.Capture? || a.TakeResult? || a.GiveUp? || a.CleanUp?
    || a.AxisEvents? || a.ReadEvent? || a.ReadAxisEvent? || a.ReadError?
  }

  lemma ClientsTouch(s: State, a: Action)
    requires Enabled(s, a) && Clients(a)
    ensures var after := Apply(s, a);
            && after.life == s.life && after.backend == s.backend && after.panicked == s.panicked
            && (SlotsClosed(s) ==> SlotsClosed(after))
  {
  }

  lemma ClientsKeepLife(s: State, a: Action)
    requires LifeInv(s) && Enabled(s, a) && Clients(a)
    ensures LifeInv(Apply(s, a))
  {
    ClientsTouch(s, a);
    LifeFrame(s, Apply(s, a));
  }

  predicate Closes(a: Action) {
    a.Close? || a.CloseJoin? || a.EnterFinish? || a.FinishStep?
  }

  lemma CloseKeepsLife(s: State, a: Action)
    requires LifeInv(s) && Enabled(s, a) && Closes(a)
    ensures LifeInv(Apply(s, a))
  {
    match a
    case Close(t) =>
      if s.life.closed { LaterCloseKeepsLife(s, t); } else { FirstCloseKeepsLife(s, t); }
    case CloseJoin(t) => CloseJoinKeepsLife(s, t);
    case EnterFinish(owner) => EnterFinishKeepsLife(s, owner);
    case FinishStep =>
      if s.life.finishing.step < 5 { FinishStepKeepsLife(s); } else { LeaveFinishKeepsLife(s); }
  }

  predicate Backs(a: Action) {
    a.SendReady? || a.Sink? || a.EndRun? || a.OfferEvent? || a.OfferAxisEvent? || a.AttemptReport? || a.LeaveGroup?
  }

  lemma BackendKeepsLife(s: State, a: Action)
    requires LifeInv(s) && Enabled(s, a) && Backs(a)
    ensures LifeInv(Apply(s, a))
  {
    if a.LeaveGroup? { GroupKeepsLife(s, a); }
    else if a.SendReady? || a.Sink? || a.EndRun? { RunKeepsLife(s, a); }
    else { SendKeepsLife(s, a); }
  }

  predicate Starts(a: Action) {
    a.Start? || a.Register? || a.Launch? || a.SeeReady? || a.SeeContext? || a.StartJoin?
  }

  lemma StartsKeepLife(s: State, a: Action)
    requires LifeInv(s) && Enabled(s, a) && Starts(a)
    ensures LifeInv(Apply(s, a))
  {
    if a.Start? { StartKeepsLife(s, a.t, a.admitted); }
    else if a.Register? || a.Launch? { GroupKeepsLife(s, a); }
    else { StartReturnKeepsLife(s, a); }
  }

  lemma LifeStep(s: State, a: Action)
    requires LifeInv(s) && Enabled(s, a)
    ensures LifeInv(Apply(s, a))
  {
    if Starts(a) { StartsKeepLife(s, a); }
    else if Closes(a) { CloseKeepsLife(s, a); }
    else if Backs(a) { BackendKeepsLife(s, a); }
    else { ClientsKeepLife(s, a); }
  }

  // ---- Over whole runs ----

  lemma LifeStepTo(s: State, a: Action, after: State)
    requires LifeInv(s) && Steps(s, a, after)
    ensures LifeInv(after)
  {
    LifeStep(s, a);
  }

  lemma {:induction false} LifeAlways(threshold: real, actions: seq<Action>, states: seq<State>, k: nat)
    requires Runs(threshold, actions, states) && k < |states|
    ensures LifeInv(states[k])
  {
    if k == 0 {
      InitLife(threshold);
    } else {
      LifeAlways(threshold, actions, states, k - 1);
      RunStep(threshold, actions, states, k - 1);
      LifeStepTo(states[k - 1], actions[k - 1], states[k]);
    }
  }

  /** In every interleaving each channel is closed at most once, nothing panics, and no send
      meets a channel that is closed. */
  lemma ChannelLifecycle(threshold: real, actions: seq<Action>, states: seq<State>, k: nat)
    requires Runs(threshold, actions, states) && k < |states|
    ensures var life := states[k].life;
            && life.doneCloses <= 1 && life.eventsCloses <= 1 && life.axisEventsCloses <= 1 && life.errorsCloses <= 1
            && !states[k].panicked
    ensures k < |actions| ==>
              var life := states[k].life;
              && (actions[k] == OfferEvent ==> life.eventsCloses == 0)
              && (actions[k] == OfferAxisEvent ==> life.axisEventsCloses == 0)
              && (actions[k] == AttemptReport ==> life.errorsCloses == 0)
  {
    LifeAlways(threshold, actions, states, k);
  }

  /** A Start that fails after it has launched the backend leaves all four channels closed. */
  lemma FailedStartIsFinished(threshold: real, actions: seq<Action>, states: seq<State>, k: nat, t: nat)
    requires Runs(threshold, actions, states) && k < |states| && At(states[k], t, StartReturned(Failed))
    ensures AllClosed(states[k].life)
  {
    LifeAlways(threshold, actions, states, k);
  }

  // ---- What Start returns ----

  /** What has been done so far that bears on one call of Start: whether the backend has
      answered, whether the call has seen its context done, whether it was turned away. */
  datatype Past = Past(saidReady: bool, saidFailed: bool, sawContext: bool, turnedAway: bool)

  function Onward(past: Past, s: State, a: Action, t: nat): Past {
    Past(past.saidReady || a == SendReady(true), past.saidFailed || a == SendReady(false),
         past.sawContext || a == SeeContext(t),
         past.turnedAway || (a.Start? && a.t == t && (!a.admitted || s.life.closed || s.life.started)))
  }

  /** Every answer of a Start has its cause. */
  predicate Explained(s: State, t: nat, past: Past) {
    && (s.life.ready == Some(true) ==> past.saidReady)
    && (s.life.ready == Some(false) ==> past.saidFailed)
    && (At(s, t, StartReturned(Running)) ==> s.life.ready == Some(true))
    && (At(s, t, StartJoining) || At(s, t, StartReturned(Failed)) ==> past.sawContext || s.life.ready == Some(false))
    && (At(s, t, StartReturned(Refused)) ==> past.turnedAway)
  }

  predicate OfClose(call: LifeCall) {
    call.CloseJoining? || call.CloseFinishing? || call.CloseReturned?
  }

  function StageOf(s: State, t: nat): Option<LifeCall> {
    if t in s.life.calls then Some(s.life.calls[t]) else None
  }

  /** No answer of the backend, and no step of a Start. */
  predicate Quiet(s: State, after: State, t: nat) {
    && after.life.ready == s.life.ready
    && var stage, next := StageOf(s, t), StageOf(after, t);
       next == stage || (next.Some? && OfClose(next.value) && (stage.Some? ==> OfClose(stage.value)))
  }

  lemma LeavingIsQuiet(s: State, owner: Owner, t: nat)
    requires AtFinish(s, owner)
    ensures Quiet(s, LeaveFinish(s, owner), t)
  {
  }

  lemma FinishReady(s: State)
    requires s.life.finishing.Finishing?
    ensures ApplyFinishStep(s).life.ready == s.life.ready
  {
    if s.life.finishing.step > 4 {
      assert ApplyFinishStep(s).life.ready == s.life.ready;
    } else if s.life.finishing.step > 1 {
      assert ApplyFinishStep(s).life.ready == s.life.ready;
    }
  }

  lemma FinishIsQuiet(s: State, t: nat)
    requires s.life.finishing.Finishing? && AtFinish(s, s.life.finishing.owner)
    ensures Quiet(s, ApplyFinishStep(s), t)
  {
    FinishReady(s);
    FinishCalls(s);
    LeavingIsQuiet(s, s.life.finishing.owner, t);
  }

  lemma ClosesAreQuiet(s: State, a: Action, t: nat)
    requires FinishInv(s) && Enabled(s, a) && Closes(a)
    ensures Quiet(s, Apply(s, a), t)
  {
    match a
    case FinishStep => FinishIsQuiet(s, t);
    case EnterFinish(owner) => LeavingIsQuiet(s, owner, t);
    case Close(_) =>
    case CloseJoin(_) =>
  }

  lemma BacksAreQuiet(s: State, a: Action, t: nat)
    requires Enabled(s, a) && Backs(a) && !a.SendReady?
    ensures Quiet(s, Apply(s, a), t)
  {
  }

  lemma QuietExplains(s: State, after: State, t: nat, past: Past)
    requires Explained(s, t, past) && Quiet(s, after, t)
    ensures Explained(after, t, past)
  {
  }

  /** A step of a Start moves that call alone. */
  lemma StartMoves(s: State, t: nat, admitted: bool, other: nat)
    requires Enabled(s, Start(t, admitted))
    ensures var after := Apply(s, Start(t, admitted));
            && after.life.ready == s.life.ready
            && StageOf(after, other)
               == if other != t then StageOf(s, other)
                  else Some(if !admitted || s.life.closed || s.life.started then StartReturned(Refused)
                            else StartUnlocked)
  {
  }

  predicate Launches(a: Action) {
    a.Register? || a.Launch?
  }

  lemma LaunchMoves(s: State, a: Action, t: nat)
    requires Enabled(s, a) && Launches(a)
    ensures Apply(s, a).life.ready == s.life.ready
    ensures StageOf(Apply(s, a), t)
         == if a.t != t then StageOf(s, t) else Some(if a.Register? then StartRegistered else StartWaiting)
  {
  }

  predicate Answers(a: Action) {
    a.SeeReady? || a.SeeContext? || a.StartJoin?
  }

  lemma AnswerMoves(s: State, a: Action, t: nat)
    requires Enabled(s, a) && Answers(a)
    ensures Apply(s, a).life.ready == s.life.ready
    ensures StageOf(Apply(s, a), t)
         == if a.t != t then StageOf(s, t)
            else Some(if a.StartJoin? then StartReturned(Failed)
                      else if a.SeeReady? && s.life.ready == Some(true) then StartReturned(Running)
                      else StartJoining)
  {
    if a.SeeReady? {
      ReadyMoves(s, a.t, t);
    } else {
      WaitMoves(s, a, t);
    }
  }

  lemma ReadyMoves(s: State, u: nat, t: nat)
    requires Enabled(s, SeeReady(u))
    ensures Apply(s, SeeReady(u)).life.ready == s.life.ready
    ensures StageOf(Apply(s, SeeReady(u)), t)
         == if u != t then StageOf(s, t)
            else Some(if s.life.ready == Some(true) then StartReturned(Running) else StartJoining)
  {
  }

  lemma WaitMoves(s: State, a: Action, t: nat)
    requires Enabled(s, a) && (a.SeeContext? || a.StartJoin?)
    ensures Apply(s, a).life.ready == s.life.ready
    ensures StageOf(Apply(s, a), t)
         == if a.t != t then StageOf(s, t)
            else Some(if a.StartJoin? then StartReturned(Failed) else StartJoining)
  {
  }

  lemma StartExplains(s: State, a: Action, t: nat, past: Past)
    requires Explained(s, t, past) && Enabled(s, a) && Starts(a)
    ensures Explained(Apply(s, a), t, Onward(past, s, a, t))
  {
    if a.Start? {
      AdmissionExplains(s, a.t, a.admitted, t, past);
    } else if Launches(a) {
      LaunchExplains(s, a, t, past);
    } else {
      AnswerExplains(s, a, t, past);
    }
  }

  lemma AdmissionExplains(s: State, u: nat, admitted: bool, t: nat, past: Past)
    requires Explained(s, t, past) && Enabled(s, Start(u, admitted))
    ensures Explained(Apply(s, Start(u, admitted)), t, Onward(past, s, Start(u, admitted), t))
  {
    StartMoves(s, u, admitted, t);
  }

  lemma LaunchExplains(s: State, a: Action, t: nat, past: Past)
    requires Explained(s, t, past) && Enabled(s, a) && Launches(a)
    ensures Explained(Apply(s, a), t, Onward(past, s, a, t))
  {
    LaunchMoves(s, a, t);
  }

  lemma AnswerExplains(s: State, a: Action, t: nat, past: Past)
    requires Explained(s, t, past) && Enabled(s, a) && Answers(a)
    ensures Explained(Apply(s, a), t, Onward(past, s, a, t))
  {
    AnswerMoves(s, a, t);
  }

  lemma ReadyExplains(s: State, ok: bool, t: nat, past: Past)
    requires Explained(s, t, past) && Enabled(s, SendReady(ok))
    ensures Explained(Apply(s, SendReady(ok)), t, Onward(past, s, SendReady(ok), t))
  {
  }

  lemma OthersAreQuiet(s: State, a: Action, t: nat)
    requires FinishInv(s) && Enabled(s, a) && !Starts(a) && !a.SendReady?
    ensures Quiet(s, Apply(s, a), t)
  {
    if Closes(a) {
      ClosesAreQuiet(s, a, t);
    } else if Backs(a) {
      BacksAreQuiet(s, a, t);
    } else {
      ClientsTouch(s, a);
    }
  }

  lemma StepExplains(s: State, a: Action, t: nat, past: Past)
    requires FinishInv(s) && Explained(s, t, past) && Enabled(s, a)
    ensures Explained(Apply(s, a), t, Onward(past, s, a, t))
  {
    if Starts(a) {
      StartExplains(s, a, t, past);
    } else if a.SendReady? {
      ReadyExplains(s, a.ok, t, past);
    } else {
      OthersAreQuiet(s, a, t);
      QuietExplains(s, Apply(s, a), t, past);
    }
  }

  lemma StepExplainsTo(s: State, a: Action, after: State, t: nat, past: Past)
    requires LifeInv(s) && Explained(s, t, past) && Steps(s, a, after)
    ensures Explained(after, t, Onward(past, s, a, t))
  {
    StepExplains(s, a, t, past);
  }

  /** This action is among the first k. */
  ghost predicate Did(actions: seq<Action>, k: nat, a: Action) {
    exists j :: 0 <= j < k <= |actions| && actions[j] == a
  }

  /** One of the first k actions is a Start of this number that the guards turn away. */
  ghost predicate TurnedAway(actions: seq<Action>, states: seq<State>, k: nat, t: nat) {
    exists j :: 0 <= j < k <= |actions| <= |states| && actions[j].Start? && actions[j].t == t
                && (!actions[j].admitted || states[j].life.closed || states[j].life.started)
  }

  ghost function PastOf(actions: seq<Action>, states: seq<State>, k: nat, t: nat): Past {
    Past(Did(actions, k, SendReady(true)), Did(actions, k, SendReady(false)), Did(actions, k, SeeContext(t)),
         TurnedAway(actions, states, k, t))
  }

  lemma DidOn(actions: seq<Action>, k: nat, a: Action)
    requires k < |actions|
    ensures Did(actions, k, a) || actions[k] == a <==> Did(actions, k + 1, a)
  {
  }

  lemma PastOn(actions: seq<Action>, states: seq<State>, k: nat, t: nat)
    requires k < |actions| < |states|
    ensures Onward(PastOf(actions, states, k, t), states[k], actions[k], t) == PastOf(actions, states, k + 1, t)
  {
    DidOn(actions, k, SendReady(true));
    DidOn(actions, k, SendReady(false));
    DidOn(actions, k, SeeContext(t));
    if TurnedAway(actions, states, k, t) {
      var j :| 0 <= j < k && actions[j].Start? && actions[j].t == t
               && (!actions[j].admitted || states[j].life.closed || states[j].life.started);
    }
  }

  lemma {:induction false} RunExplains(threshold: real, actions: seq<Action>, states: seq<State>, k: nat, t: nat)
    requires Runs(threshold, actions, states) && k < |states|
    ensures Explained(states[k], t, PastOf(actions, states, k, t))
  {
    if k == 0 {
    } else {
      RunExplains(threshold, actions, states, k - 1, t);
      LifeAlways(threshold, actions, states, k - 1);
      RunStep(threshold, actions, states, k - 1);
      StepExplainsTo(states[k - 1], actions[k - 1], states[k], t, PastOf(actions, states, k - 1, t));
      PastOn(actions, states, k - 1, t);
    }
  }

  /** Start returns nil only if the backend has reported itself ready; it fails only if the
      backend has reported an error or the context was done, and then everything is closed; and
      it refuses only for an option error, a done context, a closed or a started manager. */
  lemma StartTellsTheAnswer(threshold: real, actions: seq<Action>, states: seq<State>, k: nat, t: nat,
          outcome: Started)
    requires Runs(threshold, actions, states) && k < |states| && At(states[k], t, StartReturned(outcome))
    ensures match outcome
            case Running => states[k].life.ready == Some(true) && Did(actions, k, SendReady(true))
            case Failed =>
              && AllClosed(states[k].life)
              && (Did(actions, k, SeeContext(t))
                  || (states[k].life.ready == Some(false) && Did(actions, k, SendReady(false))))
            case Refused => TurnedAway(actions, states, k, t)
  {
    RunExplains(threshold, actions, states, k, t);
    LifeAlways(threshold, actions, states, k);
  }

  /** The other way round, step by step: a waiting Start that receives the answer returns nil
      if it is nil and joins the goroutine if it is an error; one whose context is done joins. */
  lemma AnswerIsTaken(threshold: real, actions: seq<Action>, states: seq<State>, k: nat, t: nat)
    requires Runs(threshold, actions, states) && k < |actions|
    ensures actions[k] == SeeReady(t) && states[k].life.ready == Some(true) ==>
              At(states[k + 1], t, StartReturned(Running))
    ensures actions[k] == SeeReady(t) && states[k].life.ready != Some(true) ==>
              states[k].life.ready == Some(false) && At(states[k + 1], t, StartJoining)
    ensures actions[k] == SeeContext(t) ==> At(states[k + 1], t, StartJoining)
    ensures forall ok :: actions[k] == SendReady(ok) ==> states[k + 1].life.ready == Some(ok)
    ensures forall admitted :: actions[k] == Start(t, admitted) ==>
              At(states[k + 1], t, if admitted && !states[k].life.closed && !states[k].life.started
                                   then StartUnlocked else StartReturned(Refused))
  {
    RunStep(threshold, actions, states, k);
  }

  /** The call waits for the goroutine, or has failed. */
  predicate Lost(s: State, t: nat) {
    At(s, t, StartJoining) || At(s, t, StartReturned(Failed))
  }

  lemma StartsLost(s: State, a: Action, t: nat)
    requires Lost(s, t) && Enabled(s, a) && Starts(a)
    ensures Lost(Apply(s, a), t)
  {
    if a.Start? {
      StartMoves(s, a.t, a.admitted, t);
    } else if Launches(a) {
      LaunchMoves(s, a, t);
    } else {
      AnswerMoves(s, a, t);
    }
  }

  lemma LostStep(s: State, a: Action, after: State, t: nat)
    requires Lost(s, t) && LifeInv(s) && Steps(s, a, after)
    ensures Lost(after, t)
  {
    if Starts(a) {
      StartsLost(s, a, t);
    } else if !a.SendReady? {
      OthersAreQuiet(s, a, t);
    }
  }

  ghost predicate LostStays(states: seq<State>, k: nat, t: nat) {
    k + 1 < |states| && (Lost(states[k], t) ==> Lost(states[k + 1], t))
  }

  lemma {:induction false} LostFrom(states: seq<State>, j: nat, k: nat, t: nat)
    requires j <= k < |states| && Lost(states[j], t) && forall i: nat | j <= i < k :: LostStays(states, i, t)
    ensures Lost(states[k], t)
    decreases k
  {
    if k == j {
    } else {
      LostFrom(states, j, k - 1, t);
      assert LostStays(states, k - 1, t);
    }
  }

  lemma RunLost(threshold: real, actions: seq<Action>, states: seq<State>, i: nat, t: nat)
    requires Runs(threshold, actions, states) && i < |actions|
    ensures LostStays(states, i, t)
  {
    if Lost(states[i], t) {
      LifeAlways(threshold, actions, states, i);
      RunStep(threshold, actions, states, i);
      LostStep(states[i], actions[i], states[i + 1], t);
    }
  }

  /** A Start that joins can only fail, whatever else happens. */
  lemma JoiningOnlyFails(threshold: real, actions: seq<Action>, states: seq<State>, j: nat, k: nat, t: nat)
    requires Runs(threshold, actions, states) && j <= k < |states| && At(states[j], t, StartJoining)
    ensures At(states[k], t, StartJoining) || At(states[k], t, StartReturned(Failed))
  {
    forall i: nat | j <= i < k ensures LostStays(states, i, t) {
      RunLost(threshold, actions, states, i, t);
    }
    LostFrom(states, j, k, t);
  }

  // ---- What Close promises ----

  /** The guard that decides whether Close waits for the end. */
  predicate Covered(life: Life) {
    !life.started || life.registered
  }

  predicate Covering(call: LifeCall) {
    call == CloseJoining(true) || call == CloseFinishing || call == CloseReturned(true, true)
  }

  /** The call is the one that finishes, or one that has not been touched. */
  lemma CoveringLeave(s: State, owner: Owner, t: nat)
    requires AtFinish(s, owner) && t in s.life.calls && Covering(s.life.calls[t])
    ensures t in LeaveFinish(s, owner).life.calls && Covering(LeaveFinish(s, owner).life.calls[t])
  {
  }

  lemma FinishCalls(s: State)
    requires s.life.finishing.Finishing?
    ensures ApplyFinishStep(s).life.calls
         == if s.life.finishing.step < 5 then s.life.calls else LeaveFinish(s, s.life.finishing.owner).life.calls
  {
  }

  lemma CoveringFinish(s: State, a: Action, t: nat)
    requires FinishInv(s) && Enabled(s, a) && t in s.life.calls && Covering(s.life.calls[t])
    requires a.EnterFinish? || a.FinishStep?
    ensures t in Apply(s, a).life.calls && Covering(Apply(s, a).life.calls[t])
  {
    if a.EnterFinish? {
      CoveringLeave(s, a.owner, t);
    } else {
      FinishCalls(s);
      CoveringLeave(s, s.life.finishing.owner, t);
    }
  }

  /** Start and its stages take another number. */
  lemma CoveringStarts(s: State, a: Action, t: nat)
    requires Enabled(s, a) && t in s.life.calls && Covering(s.life.calls[t]) && Starts(a)
    ensures a.t != t && t in Apply(s, a).life.calls && Apply(s, a).life.calls[t] == s.life.calls[t]
  {
  }

  lemma CoveringCloses(s: State, a: Action, t: nat)
    requires Enabled(s, a) && t in s.life.calls && Covering(s.life.calls[t]) && (a.Close? || a.CloseJoin?)
    ensures t in Apply(s, a).life.calls && Covering(Apply(s, a).life.calls[t])
  {
  }

  lemma CoveringElsewhere(s: State, a: Action)
    requires Enabled(s, a) && Backs(a)
    ensures Apply(s, a).life.calls == s.life.calls
  {
  }

  lemma CoveringStep(s: State, a: Action, t: nat)
    requires FinishInv(s) && Enabled(s, a) && t in s.life.calls && Covering(s.life.calls[t])
    ensures t in Apply(s, a).life.calls && Covering(Apply(s, a).life.calls[t])
  {
    if a.EnterFinish? || a.FinishStep? { CoveringFinish(s, a, t); }
    else if Starts(a) { CoveringStarts(s, a, t); }
    else if a.Close? || a.CloseJoin? { CoveringCloses(s, a, t); }
    else if Backs(a) { CoveringElsewhere(s, a); }
    else { ClientsTouch(s, a); }
  }

  lemma {:induction false} CoveringStays(threshold: real, actions: seq<Action>, states: seq<State>, j: nat, k: nat,
          t: nat)
    requires Runs(threshold, actions, states) && j <= k < |states|
    requires t in states[j].life.calls && Covering(states[j].life.calls[t])
    ensures t in states[k].life.calls && Covering(states[k].life.calls[t])
  {
    if j == k {
    } else {
      CoveringStays(threshold, actions, states, j, k - 1, t);
      LifeAlways(threshold, actions, states, k - 1);
      CoveringStep(states[k - 1], actions[k - 1], t);
    }
  }

  lemma CoveredCloseFinishes(threshold: real, actions: seq<Action>, states: seq<State>, j: nat, k: nat, t: nat)
    requires Runs(threshold, actions, states) && j < k < |states| && actions[j] == Close(t)
    requires !states[j].life.closed && Covered(states[j].life)
    ensures t in states[k].life.calls && (states[k].life.calls[t].CloseReturned? ==> AllClosed(states[k].life))
  {
    CoveringStays(threshold, actions, states, j + 1, k, t);
    LifeAlways(threshold, actions, states, k);
  }

  lemma RunOn(threshold: real, actions: seq<Action>, states: seq<State>, a: Action)
    requires Runs(threshold, actions, states) && Enabled(states[|actions|], a)
    ensures Runs(threshold, actions + [a], states + [Apply(states[|actions|], a)])
  {
  }

  /** The same for a run that is already a continuation. */
  lemma RunFurther(threshold: real, actions: seq<Action>, states: seq<State>, more: seq<Action>, after: seq<State>,
          a: Action)
    requires |more| == |after| && Runs(threshold, actions + more, states + after)
    requires Enabled((states + after)[|actions + more|], a)
    ensures var next := Apply((states + after)[|actions + more|], a);
            && Runs(threshold, actions + (more + [a]), states + (after + [next]))
            && (states + (after + [next]))[|actions + (more + [a])|] == next
  {
    var next := Apply((states + after)[|actions + more|], a);
    RunOn(threshold, actions + more, states + after, a);
    assert (actions + more) + [a] == actions + (more + [a]);
    assert (states + after) + [next] == states + (after + [next]);
  }

  lemma UncoveredCloseMayReturn(threshold: real, actions: seq<Action>, states: seq<State>, t: nat)
    returns (more: seq<Action>, after: seq<State>)
    requires Runs(threshold, actions, states) && t !in states[|actions|].life.calls
    requires !states[|actions|].life.closed && !Covered(states[|actions|].life)
    ensures ClosesNext(threshold, actions, states, t, more, after)
    ensures after[|after| - 1].life.calls[t].CloseReturned? && ClosesAre(after[|after| - 1].life, 0, 0, 0, 0)
  {
    var s := states[|actions|];
    LifeAlways(threshold, actions, states, |actions|);
    RunOn(threshold, actions, states, Close(t));
    var s1 := Apply(s, Close(t));
    RunOn(threshold, actions + [Close(t)], states + [s1], CloseJoin(t));
    var s2 := Apply(s1, CloseJoin(t));
    more, after := [Close(t), CloseJoin(t)], [s1, s2];
    assert actions + more == actions + [Close(t)] + [CloseJoin(t)];
    assert states + after == states + [s1] + [s2];
  }

  /** A continuation of a run that begins with a Close. */
  ghost predicate ClosesNext(threshold: real, actions: seq<Action>, states: seq<State>, t: nat, more: seq<Action>,
          after: seq<State>) {
    && |more| == |after| > 0 && more[0] == Close(t)
    && Runs(threshold, actions + more, states + after)
    && t in after[|after| - 1].life.calls
  }

  /** The Close that flips `closed` is sure to find all four channels closed when it returns,
      whatever happens in between, if and only if Start had not run yet or was past wg.Add. */
  lemma CloseGuarantee(threshold: real, actions: seq<Action>, states: seq<State>, t: nat)
    requires Runs(threshold, actions, states) && !states[|actions|].life.closed && t !in states[|actions|].life.calls
    ensures Covered(states[|actions|].life)
       <==> forall more: seq<Action>, after: seq<State> | ClosesNext(threshold, actions, states, t, more, after) ::
              after[|after| - 1].life.calls[t].CloseReturned? ==> AllClosed(after[|after| - 1].life)
  {
    var j := |actions|;
    if Covered(states[j].life) {
      forall more: seq<Action>, after: seq<State> | ClosesNext(threshold, actions, states, t, more, after)
        ensures after[|after| - 1].life.calls[t].CloseReturned? ==> AllClosed(after[|after| - 1].life)
      {
        var k := j + |more|;
        assert (actions + more)[j] == Close(t) && (states + after)[j] == states[j];
        assert (states + after)[k] == after[|after| - 1];
        CoveredCloseFinishes(threshold, actions + more, states + after, j, k, t);
      }
    } else {
      var more, after := UncoveredCloseMayReturn(threshold, actions, states, t);
    }
  }

  /** The family of runs that fails is not empty: Close between the unlock in Start and wg.Add
      returns at once; so does any second Close. */
  lemma EarlyCloses(threshold: real)
    ensures var states := [Init(threshold),
                           Apply(Init(threshold), Start(0, true)),
                           Apply(Apply(Init(threshold), Start(0, true)), Close(1))];
            && Runs(threshold, [Start(0, true), Close(1)], states)
            && !Covered(states[1].life)
            && Enabled(states[2], Close(2)) && At(Apply(states[2], Close(2)), 2, CloseReturned(false, false))
            && ClosesAre(Apply(states[2], Close(2)).life, 0, 0, 0, 0)
  {
  }
}
