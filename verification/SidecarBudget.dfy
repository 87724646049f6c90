/**
 What one call of the sidecar lifecycle may launch and wait, in every interleaving: each step
 pays for its launches and backoff out of what its call had left.
 */
module SidecarBudget {
  import opened Domain
  import opened SidecarLifecycle
  import SidecarStartup

  /** The launch attempt a phase belongs to, and whether its launch is behind it. */
  function AttemptOf(phase: Phase): Option<(nat, bool)> {
    match phase
    case Prepare(attempt) => Some((attempt, false))
    case Select(Backoff(attempt), _) => Some((attempt, false))
    case Select(Launch(attempt, _), _) => Some((attempt, false))
    case Check(attempt, _) => Some((attempt, true))
    case Select(Probe(attempt, _), _) => Some((attempt, true))
    case Select(ProbeSleep(attempt, _), _) => Some((attempt, true))
    case Select(Terminate(attempt, _, _), _) => Some((attempt, true))
    case _ => None
  }

  predicate BeforeAttempts(phase: Phase) {
    phase.Start? || phase.Inspect? || (phase.Select? && phase.await.EnsureLock?)
  }

  /** Launches a call may still make from here. */
  function LaunchesLeft(phase: Phase): int {
    match AttemptOf(phase)
    case Some((attempt, launched)) => LAUNCH_ATTEMPTS - attempt - if launched then 1 else 0
    case None => if BeforeAttempts(phase) then LAUNCH_ATTEMPTS else 0
  }

  /** Milliseconds of backoff a call may still request from here. */
  function BackoffLeft(phase: Phase): int {
    match AttemptOf(phase)
    case Some((attempt, _)) => 750 - SidecarStartup.BackoffBefore(attempt + 1)
    case None => if BeforeAttempts(phase) then 750 else 0
  }

  predicate AttemptInRange(phase: Phase) {
    AttemptOf(phase).Some? ==> AttemptOf(phase).value.0 < LAUNCH_ATTEMPTS
  }

  function IsBackoff(phase: Phase): bool {
    phase.Select? && phase.await.Backoff?
  }

  /** Backoff requested by a step: entering the `select!` asks for the sleep, polling it again does not. */
  function Requested(before: Phase, after: Phase): nat {
    if IsBackoff(after) && !IsBackoff(before) && after.await.attempt > 0
    then SidecarStartup.BackoffMillis(after.await.attempt) else 0
  }

  /** One step of a call: what it launches and requests is taken from what it had left. */
  ghost predicate Pays(s: State, s': State, t: TaskId)
    requires t in s.tasks
  {
    && t in s'.tasks && |s'.launched| >= |s.launched|
    && var before, after := s.tasks[t].phase, s'.tasks[t].phase;
    && (AttemptInRange(before) ==>
          && AttemptInRange(after)
          && LaunchesLeft(after) + |s'.launched| - |s.launched| <= LaunchesLeft(before)
          && BackoffLeft(after) + Requested(before, after) <= BackoffLeft(before))
    && forall u :: u != t ==> (u in s'.tasks <==> u in s.tasks) && (u in s.tasks ==> s'.tasks[u] == s.tasks[u])
  }

  lemma BackoffSteps()
    ensures SidecarStartup.BackoffBefore(1) == 0 && SidecarStartup.BackoffBefore(2) == 250
    ensures SidecarStartup.BackoffBefore(3) == 750
    ensures SidecarStartup.BackoffMillis(1) == 250 && SidecarStartup.BackoffMillis(2) == 500
  {
    SidecarStartup.BackoffIsBounded(2);
    assert SidecarStartup.BackoffBefore(2) == SidecarStartup.BackoffBefore(1) + SidecarStartup.BackoffMillis(1);
    assert SidecarStartup.BackoffBefore(3) == SidecarStartup.BackoffBefore(2) + SidecarStartup.BackoffMillis(2);
  }

  lemma GotoPays(s: State, t: TaskId, phase: Phase)
    requires t in s.tasks
    requires AttemptInRange(s.tasks[t].phase) ==>
               && AttemptInRange(phase) && LaunchesLeft(phase) <= LaunchesLeft(s.tasks[t].phase)
               && BackoffLeft(phase) + Requested(s.tasks[t].phase, phase) <= BackoffLeft(s.tasks[t].phase)
    ensures Pays(s, Goto(s, t, phase), t)
  {
  }

  /** `Pays` looks at nothing but the tasks and the number of launches. */
  lemma SamePays(s: State, s': State, s'': State, t: TaskId)
    requires t in s.tasks && Pays(s, s', t) && s''.tasks == s'.tasks && s''.launched == s'.launched
    ensures Pays(s, s'', t)
  {
  }

  lemma EndPays(s: State, t: TaskId, phase: Phase)
    requires t in s.tasks && AttemptOf(phase).None? && !BeforeAttempts(phase)
    ensures Pays(s, Goto(s, t, phase), t)
  {
    BackoffSteps();
    GotoPays(s, t, phase);
  }

  /** The same with whatever else a step changes besides tasks and launches. */
  lemma EndStepPays(s: State, s': State, t: TaskId, phase: Phase)
    requires t in s.tasks && AttemptOf(phase).None? && !BeforeAttempts(phase)
    requires s'.tasks == Goto(s, t, phase).tasks && s'.launched == s.launched
    ensures Pays(s, s', t)
  {
    EndPays(s, t, phase);
    hide Pays;
    SamePays(s, Goto(s, t, phase), s', t);
  }

  lemma InterruptPays(s: State, t: TaskId, await: Await, branch: Branch, error: EngineError)
    requires t in s.tasks && s.tasks[t].phase == Select(await, branch)
    ensures Pays(s, Interrupt(s, t, await, error), t)
  {
    hide Pays;
    EndPays(s, t, Ended(Err(error)));
    match await {
      case Probe(attempt, sidecar) => GotoPays(s, t, Select(Terminate(attempt, sidecar, error), OnStop));
      case ProbeSleep(attempt, sidecar) => GotoPays(s, t, Select(Terminate(attempt, sidecar, error), OnStop));
      case _ => SamePays(s, Goto(s, t, Ended(Err(error))), Interrupt(s, t, await, error), t);
    }
  }

  lemma NextAttemptPays(s: State, base: State, t: TaskId, attempt: nat)
    requires t in s.tasks && base.tasks == s.tasks && base.launched == s.launched
    requires AttemptOf(s.tasks[t].phase).Some? && AttemptOf(s.tasks[t].phase).value.0 == attempt
    requires !IsBackoff(s.tasks[t].phase)
    ensures Pays(s, NextAttempt(base, t, attempt), t)
  {
    BackoffSteps();
    if attempt + 1 < LAUNCH_ATTEMPTS {
      GotoPays(s, t, Select(Backoff(attempt + 1), OnStop));
      hide Pays;
      SamePays(s, Goto(s, t, Select(Backoff(attempt + 1), OnStop)), NextAttempt(base, t, attempt), t);
    } else {
      EndPays(s, t, Ended(Err(RuntimeUnavailable)));
      hide Pays;
      SamePays(s, Goto(s, t, Ended(Err(RuntimeUnavailable))), NextAttempt(base, t, attempt), t);
    }
  }

  lemma EnsuredPays(s: State, base: State, t: TaskId)
    requires t in s.tasks && base.tasks == s.tasks && base.launched == s.launched
    ensures Pays(s, Ensured(base, t), t)
  {
    var phase := if s.tasks[t].connects then Select(ConnectLock, OnStop) else Ended(Ok(()));
    EndPays(s, t, phase);
    hide Pays;
    SamePays(s, Goto(s, t, phase), Ensured(base, t), t);
  }

  lemma LaunchPays(s: State, t: TaskId, attempt: nat, spec: Spec)
    requires t in s.tasks && s.tasks[t].phase == Select(Launch(attempt, spec), OnOperation)
    ensures Pays(s, Operate(s, t, Launch(attempt, spec), Succeeds), t)
  {
  }

  lemma OperatePays(s: State, t: TaskId, await: Await, outcome: Outcome)
    requires t in s.tasks && s.tasks[t].phase == Select(await, OnOperation)
    ensures Pays(s, Operate(s, t, await, outcome), t)
  {
    GotoPays(s, t, Select(await, OnStop));
    hide Pays;
    hide BackoffLeft;
    if !outcome.Pending? {
      match await {
        case EnsureLock => LockPays(s, t, await, Inspect);
        case ConnectLock => LockPays(s, t, await, ConnectCheck);
        case Backoff(attempt) => GotoPays(s, t, Prepare(attempt));
        case Launch(attempt, spec) =>
          if outcome.Succeeds? { LaunchPays(s, t, attempt, spec); } else { NextAttemptPays(s, s, t, attempt); }
        case Probe(attempt, sidecar) => ProbePays(s, t, attempt, sidecar, outcome);
        case ProbeSleep(attempt, sidecar) => GotoPays(s, t, Check(attempt, sidecar));
        case Terminate(attempt, sidecar, why) => TerminatePays(s, t, attempt, sidecar, why, outcome);
      }
    }
  }

  lemma ProbePays(s: State, t: TaskId, attempt: nat, sidecar: Sidecar, outcome: Outcome)
    requires t in s.tasks && s.tasks[t].phase == Select(Probe(attempt, sidecar), OnOperation) && !outcome.Pending?
    ensures Pays(s, Operate(s, t, Probe(attempt, sidecar), outcome), t)
  {
    hide SidecarStartup.BackoffBefore;
    GotoPays(s, t, Select(Probe(attempt, sidecar), OnStop));
    GotoPays(s, t, Select(ProbeSleep(attempt, sidecar), OnStop));
    GotoPays(s, t, Select(Terminate(attempt, sidecar, RuntimeUnavailable), OnStop));
    hide Pays;
    EnsuredPays(s, s.(running := Some(sidecar), healthy := s.healthy + {sidecar.child}), t);
  }

  lemma TerminatePays(s: State, t: TaskId, attempt: nat, sidecar: Sidecar, why: EngineError, outcome: Outcome)
    requires t in s.tasks && s.tasks[t].phase == Select(Terminate(attempt, sidecar, why), OnOperation)
    requires !outcome.Pending?
    ensures Pays(s, Operate(s, t, Terminate(attempt, sidecar, why), outcome), t)
  {
    hide Pays;
    NextAttemptPays(s, Drop(s, sidecar.child), t, attempt);
    EndStepPays(s, Release(Drop(s, sidecar.child), t, Ended(Err(why))), t, Ended(Err(why)));
  }

  lemma LockPays(s: State, t: TaskId, await: Await, phase: Phase)
    requires t in s.tasks && s.tasks[t].phase == Select(await, OnOperation)
    requires (await.EnsureLock? && phase.Inspect?) || (await.ConnectLock? && phase.ConnectCheck?)
    ensures Pays(s, Goto(s, t, phase).(owner := Some(t)), t)
  {
    GotoPays(s, t, phase);
    hide Pays;
    SamePays(s, Goto(s, t, phase), Goto(s, t, phase).(owner := Some(t)), t);
  }

  lemma PollPays(s: State, t: TaskId, await: Await, branch: Branch, outcome: Outcome)
    requires t in s.tasks && s.tasks[t].phase == Select(await, branch)
    ensures Pays(s, Poll(s, t, await, branch, outcome), t)
  {
    hide Operate;
    hide Interrupt;
    forall next { GotoPays(s, t, Select(await, next)); }
    hide Pays;
    match branch {
      case OnOperation => OperatePays(s, t, await, outcome);
      case OnStop =>
        if s.tasks[t].stop.Some? { InterruptPays(s, t, await, branch, MapStop(s.tasks[t].stop.value)); }
      case OnDisconnect =>
        if s.tasks[t].disconnected { InterruptPays(s, t, await, branch, EngineError.Cancelled); }
      case OnShutdown =>
        if s.shutdown { InterruptPays(s, t, await, branch, ShuttingDown); }
    }
  }

  lemma EnsuringPays(s: State, t: TaskId, outcome: Outcome)
    requires t in s.tasks && (s.tasks[t].phase.Start? || s.tasks[t].phase.Inspect?)
    ensures Pays(s, Advance(s, t, outcome), t)
  {
    hide Poll;
    BackoffSteps();
    var failed := Ended(Err(RuntimeUnavailable));
    GotoPays(s, t, if s.tasks[t].phase.Start? then Select(EnsureLock, OnStop) else Prepare(0));
    hide Pays;
    hide BackoffLeft;
    if s.tasks[t].phase.Start? {
      EndPays(s, t, Ended(Err(ShuttingDown)));
    } else {
      SamePays(s, Goto(s, t, Prepare(0)), Goto(DropRunning(s), t, Prepare(0)), t);
      EndStepPays(s, Release(s, t, failed), t, failed);
      EnsuredPays(s, s, t);
    }
  }

  lemma LaunchingPays(s: State, t: TaskId, outcome: Outcome)
    requires t in s.tasks && (s.tasks[t].phase.Prepare? || s.tasks[t].phase.Check?)
    ensures Pays(s, Advance(s, t, outcome), t)
  {
    hide Poll;
    hide Pays;
    var failed := Ended(Err(RuntimeUnavailable));
    match s.tasks[t].phase {
      case Prepare(attempt) =>
        if outcome.Chooses? { GotoPays(s, t, Select(Launch(attempt, outcome.spec), OnStop)); }
        EndStepPays(s, Release(s, t, failed), t, failed);
      case Check(attempt, sidecar) =>
        GotoPays(s, t, Select(Terminate(attempt, sidecar, RuntimeUnavailable), OnStop));
        GotoPays(s, t, Select(Probe(attempt, sidecar), OnStop));
    }
  }

  lemma ServingPays(s: State, t: TaskId, outcome: Outcome)
    requires t in s.tasks && !s.tasks[t].phase.Select?
    requires var phase := s.tasks[t].phase; !phase.Start? && !phase.Inspect? && !phase.Prepare? && !phase.Check?
    ensures Pays(s, Advance(s, t, outcome), t)
  {
    hide Poll;
    hide Pays;
    var failed, s' := Ended(Err(RuntimeUnavailable)), Advance(s, t, outcome);
    match s.tasks[t].phase {
      case ConnectCheck =>
        if s.running.Some? && s'.tasks[t].phase.Connected? { EndStepPays(s, s', t, Connected(s.running.value)); }
        else { EndStepPays(s, s', t, failed); }
      case StatusLock => if s.owner.None? { EndStepPays(s, s', t, StatusCheck); } else { StillPays(s, t); }
      case StatusCheck => EndStepPays(s, s', t, s'.tasks[t].phase);
      case ShutdownFlag => EndStepPays(s, s', t, ShutdownLock);
      case ShutdownLock => if s.owner.None? { EndStepPays(s, s', t, ShutdownTake); } else { StillPays(s, t); }
      case ShutdownTake =>
        if s.running.None? { EndStepPays(s, s', t, ShutdownReturned); }
        else { EndStepPays(s, s', t, ShutdownKill(s.running.value.child)); }
      case ShutdownKill(_) =>
        if outcome.Pending? { StillPays(s, t); } else { EndStepPays(s, s', t, ShutdownReturned); }
      case _ => StillPays(s, t);
    }
  }

  lemma StillPays(s: State, t: TaskId)
    requires t in s.tasks
    ensures Pays(s, s, t)
  {
  }

  lemma AdvancePays(s: State, t: TaskId, outcome: Outcome)
    requires t in s.tasks
    ensures Pays(s, Advance(s, t, outcome), t)
  {
    var phase := s.tasks[t].phase;
    if phase.Select? {
      PollPays(s, t, phase.await, phase.branch, outcome);
      hide Pays;
      hide Poll;
    } else if phase.Start? || phase.Inspect? {
      EnsuringPays(s, t, outcome);
    } else if phase.Prepare? || phase.Check? {
      LaunchingPays(s, t, outcome);
    } else {
      ServingPays(s, t, outcome);
    }
    hide Pays;
    hide Advance;
  }

  // ---- Over a whole run ----

  predicate InRange(s: State, t: TaskId) {
    t in s.tasks ==> AttemptInRange(s.tasks[t].phase)
  }

  function LaunchesLeftTo(s: State, t: TaskId): int {
    if t in s.tasks then LaunchesLeft(s.tasks[t].phase) else LAUNCH_ATTEMPTS
  }

  function BackoffLeftTo(s: State, t: TaskId): int {
    if t in s.tasks then BackoffLeft(s.tasks[t].phase) else 750
  }

  /** Children launched by a step of this call. */
  function LaunchedBy(s: State, a: Action, t: TaskId): int {
    if a.Step? && a.task == t then |Next(s, a).launched| - |s.launched| else 0
  }

  /** Backoff requested by a step of this call. */
  function RequestedBy(s: State, a: Action, t: TaskId): nat {
    if a.Step? && a.task == t && t in s.tasks && t in Next(s, a).tasks
    then Requested(s.tasks[t].phase, Next(s, a).tasks[t].phase) else 0
  }

  function Launches(s: State, actions: seq<Action>, t: TaskId): int
    decreases |actions|
  {
    if actions == [] then 0 else LaunchedBy(s, actions[0], t) + Launches(Next(s, actions[0]), actions[1..], t)
  }

  function BackoffRequested(s: State, actions: seq<Action>, t: TaskId): nat
    decreases |actions|
  {
    if actions == [] then 0 else RequestedBy(s, actions[0], t) + BackoffRequested(Next(s, actions[0]), actions[1..], t)
  }

  lemma LeftIsNatural(s: State, t: TaskId)
    requires InRange(s, t)
    ensures LaunchesLeftTo(s, t) >= 0 && BackoffLeftTo(s, t) >= 0
  {
    BackoffSteps();
  }

  lemma OwnBudget(s: State, a: Action, t: TaskId)
    requires InRange(s, t) && a.Step? && a.task == t && t in s.tasks
    ensures InRange(Next(s, a), t)
    ensures LaunchesLeftTo(Next(s, a), t) + LaunchedBy(s, a, t) <= LaunchesLeftTo(s, t)
    ensures BackoffLeftTo(Next(s, a), t) + RequestedBy(s, a, t) <= BackoffLeftTo(s, t)
  {
    hide Advance;
    hide BackoffLeft;
    hide LaunchesLeft;
    hide AttemptInRange;
    AdvancePays(s, t, a.outcome);
  }

  lemma OtherBudget(s: State, a: Action, t: TaskId)
    requires InRange(s, t) && a.Step? && !(a.task == t && t in s.tasks)
    ensures InRange(Next(s, a), t)
    ensures LaunchesLeftTo(Next(s, a), t) + LaunchedBy(s, a, t) <= LaunchesLeftTo(s, t)
    ensures BackoffLeftTo(Next(s, a), t) + RequestedBy(s, a, t) <= BackoffLeftTo(s, t)
  {
    hide Advance;
    hide BackoffLeft;
    hide LaunchesLeft;
    hide AttemptInRange;
    if a.task in s.tasks { AdvancePays(s, a.task, a.outcome); }
  }

  /** Without a step of its own a call keeps its phase, arrives or is abandoned. */
  lemma SurroundingsPhase(s: State, a: Action, t: TaskId)
    requires !a.Step?
    ensures t in s.tasks ==>
              t in Next(s, a).tasks && Next(s, a).tasks[t].phase in {s.tasks[t].phase, Abandoned}
    ensures t !in s.tasks && t in Next(s, a).tasks ==> CanArrive(Next(s, a).tasks[t].phase)
  {
  }

  lemma SurroundingsBudget(s: State, a: Action, t: TaskId)
    requires InRange(s, t) && !a.Step?
    ensures InRange(Next(s, a), t)
    ensures LaunchesLeftTo(Next(s, a), t) + LaunchedBy(s, a, t) <= LaunchesLeftTo(s, t)
    ensures BackoffLeftTo(Next(s, a), t) + RequestedBy(s, a, t) <= BackoffLeftTo(s, t)
  {
    LeftIsNatural(s, t);
    SurroundingsPhase(s, a, t);
    hide Next;
    hide BackoffLeft;
    BackoffOfIdle();
  }

  lemma StepBudget(s: State, a: Action, t: TaskId)
    requires InRange(s, t)
    ensures InRange(Next(s, a), t)
    ensures LaunchesLeftTo(Next(s, a), t) + LaunchedBy(s, a, t) <= LaunchesLeftTo(s, t)
    ensures BackoffLeftTo(Next(s, a), t) + RequestedBy(s, a, t) <= BackoffLeftTo(s, t)
  {
    if !a.Step? { SurroundingsBudget(s, a, t); }
    else if a.task == t && t in s.tasks { OwnBudget(s, a, t); }
    else { OtherBudget(s, a, t); }
    hide Next;
    hide BackoffLeftTo;
    hide LaunchesLeftTo;
  }

  lemma BackoffOfIdle()
    ensures forall phase :: AttemptOf(phase).None? ==> BackoffLeft(phase) == if BeforeAttempts(phase) then 750 else 0
  {
  }

  lemma {:induction false} BudgetKept(s: State, actions: seq<Action>, t: TaskId)
    requires InRange(s, t)
    ensures InRange(Exec(s, actions), t)
    ensures LaunchesLeftTo(Exec(s, actions), t) + Launches(s, actions, t) <= LaunchesLeftTo(s, t)
    ensures BackoffLeftTo(Exec(s, actions), t) + BackoffRequested(s, actions, t) <= BackoffLeftTo(s, t)
    decreases |actions|
  {
    if actions != [] {
      StepBudget(s, actions[0], t);
      BudgetKept(Next(s, actions[0]), actions[1..], t);
      hide Next;
    }
  }

  /** In every interleaving one call launches at most 3 children and requests at most 750 ms of backoff. */
  lemma CallIsBounded(actions: seq<Action>, t: TaskId)
    ensures Launches(INIT, actions, t) <= 3
    ensures BackoffRequested(INIT, actions, t) <= 750
  {
    BudgetKept(INIT, actions, t);
    LeftIsNatural(Exec(INIT, actions), t);
  }
}
