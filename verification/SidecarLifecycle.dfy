/**
 The sidecar lifecycle under its one lock: any number of generation, startup, status and
 shutdown tasks, interleaved step by step.

 A `select!` is several steps: reading the context, the disconnect flag and the shutdown flag
 in that order, then polling the operation. A flag may flip between any two of them.
 */
module SidecarLifecycle {
  import opened Domain

  type TaskId = nat
  type ChildId = nat

  const LAUNCH_ATTEMPTS: nat := 3

  datatype Spec = Spec(endpoint: nat, bearer: nat)

  datatype Sidecar = Sidecar(child: ChildId, spec: Spec)

  /** The branch a `select!` polls next. */
  datatype Branch = OnStop | OnDisconnect | OnShutdown | OnOperation

  /** What a `select!` is waiting for besides the stop flags. */
  datatype Await =
    | EnsureLock
    | Backoff(attempt: nat)
    | Launch(attempt: nat, spec: Spec)
    | Probe(attempt: nat, sidecar: Sidecar)
    | ProbeSleep(attempt: nat, sidecar: Sidecar)
    | Terminate(attempt: nat, sidecar: Sidecar, why: EngineError)
    | ConnectLock

  datatype Phase =
    | Start                                          // ensure_running reads the shutdown flag
    | Select(await: Await, branch: Branch)
    | Inspect                                        // has the lock, looks at the running sidecar
    | Prepare(attempt: nat)                          // reserves a port and draws a bearer
    | Check(attempt: nat, sidecar: Sidecar)          // asks whether the launched child has exited
    | ConnectCheck                                   // has the lock, copies endpoint and bearer
    | Connected(sidecar: Sidecar)
    | Ended(result: Result<(), EngineError>)
    | StatusLock | StatusCheck | Reported(ready: bool)
    | ShutdownFlag | ShutdownLock | ShutdownTake | ShutdownKill(child: ChildId) | ShutdownReturned
    | Abandoned

  /** `connects` tells a generation from the first start, which stops after ensure_running. */
  datatype Task = Task(phase: Phase, connects: bool, stop: Option<RequestStop>, disconnected: bool)

  datatype State = State(
    tasks: map<TaskId, Task>,
    owner: Option<TaskId>,          // who holds the lifecycle lock
    running: Option<Sidecar>,
    shutdown: bool,
    launched: seq<Spec>,            // by child, in launch order
    exited: set<ChildId>,           // processes that have ended by themselves
    gone: set<ChildId>,             // children terminated, dropped or seen exited
    healthy: set<ChildId>,          // children that answered a health probe
    returned: bool)                 // whether some call of shutdown has returned

  const INIT: State := State(map[], None, None, false, [], {}, {}, {}, false)

  /** How the operation of a step turns out. */
  datatype Outcome = Pending | Succeeds | Fails | Chooses(spec: Spec) | Refused(deadlinePassed: bool)

  datatype Action =
    | Arrive(task: TaskId, phase: Phase, connects: bool)
    | StopContext(task: TaskId, stop: RequestStop)
    | DropReceiver(task: TaskId)
    | ProcessExits(child: ChildId)
    | Step(task: TaskId, outcome: Outcome)
    | Abandon(task: TaskId)         // the caller drops the future at an await

  predicate CanArrive(phase: Phase) {
    phase in {Start, StatusLock, ShutdownFlag}
  }

  // ---- Steps ----

  function Goto(s: State, t: TaskId, phase: Phase): State
    requires t in s.tasks
  {
    s.(tasks := s.tasks[t := s.tasks[t].(phase := phase)])
  }

  /** Leaves the lock and whatever needed it. */
  function Release(s: State, t: TaskId, phase: Phase): State
    requires t in s.tasks
  {
    Goto(s, t, phase).(owner := None)
  }

  /** A call of shutdown returns, whether or not its child was reaped in time. */
  function Return(s: State, t: TaskId): State
    requires t in s.tasks
  {
    Release(s, t, ShutdownReturned).(returned := true)
  }

  function Drop(s: State, child: ChildId): State {
    s.(gone := s.gone + {child})
  }

  function DropRunning(s: State): State {
    if s.running.Some? then Drop(s, s.running.value.child).(running := None) else s
  }

  predicate IsStop(error: EngineError) {
    error in {EngineError.Cancelled, EngineError.DeadlineExceeded, ShuttingDown}
  }

  /** The launch loop goes on to its next attempt, after a backoff, or gives up. */
  function NextAttempt(s: State, t: TaskId, attempt: nat): State
    requires t in s.tasks
  {
    if attempt + 1 < LAUNCH_ATTEMPTS then Goto(s, t, Select(Backoff(attempt + 1), OnStop))
    else Release(s, t, Ended(Err(RuntimeUnavailable)))
  }

  /** A stop branch of this `select!` fired. */
  function Interrupt(s: State, t: TaskId, await: Await, error: EngineError): State
    requires t in s.tasks
  {
    match await
    case EnsureLock => Goto(s, t, Ended(Err(error)))
    case ConnectLock => Goto(s, t, Ended(Err(error)))
    case Backoff(_) => Release(s, t, Ended(Err(error)))
    case Launch(_, _) => Release(s, t, Ended(Err(error)))
    case Probe(attempt, sidecar) => Goto(s, t, Select(Terminate(attempt, sidecar, error), OnStop))
    case ProbeSleep(attempt, sidecar) => Goto(s, t, Select(Terminate(attempt, sidecar, error), OnStop))
    case Terminate(_, sidecar, _) => Release(Drop(s, sidecar.child), t, Ended(Err(error)))
  }

  /** ensure_running succeeded. */
  function Ensured(s: State, t: TaskId): State
    requires t in s.tasks
  {
    Release(s, t, if s.tasks[t].connects then Select(ConnectLock, OnStop) else Ended(Ok(())))
  }

  /** The awaited operation is polled. */
  function Operate(s: State, t: TaskId, await: Await, outcome: Outcome): State
    requires t in s.tasks
  {
    if outcome.Pending? then Goto(s, t, Select(await, OnStop))
    else match await
      case EnsureLock =>
        if s.owner.Some? then Goto(s, t, Select(await, OnStop)) else Goto(s, t, Inspect).(owner := Some(t))
      case ConnectLock =>
        if s.owner.Some? then Goto(s, t, Select(await, OnStop)) else Goto(s, t, ConnectCheck).(owner := Some(t))
      case Backoff(attempt) => Goto(s, t, Prepare(attempt))
      case Launch(attempt, spec) =>
        if outcome.Succeeds? then
          Goto(s, t, Check(attempt, Sidecar(|s.launched|, spec))).(launched := s.launched + [spec])
        else NextAttempt(s, t, attempt)
      case Probe(attempt, sidecar) =>
        if outcome.Succeeds? then
          Ensured(s.(running := Some(sidecar), healthy := s.healthy + {sidecar.child}), t)
        else if !outcome.Refused? then Goto(s, t, Select(await, OnStop))
        else if !outcome.deadlinePassed then Goto(s, t, Select(ProbeSleep(attempt, sidecar), OnStop))
        else Goto(s, t, Select(Terminate(attempt, sidecar, RuntimeUnavailable), OnStop))
      case ProbeSleep(attempt, sidecar) => Goto(s, t, Check(attempt, sidecar))
      case Terminate(attempt, sidecar, why) =>
        if IsStop(why) then Release(Drop(s, sidecar.child), t, Ended(Err(why)))
        else NextAttempt(Drop(s, sidecar.child), t, attempt)
  }

  function Poll(s: State, t: TaskId, await: Await, branch: Branch, outcome: Outcome): State
    requires t in s.tasks
  {
    match branch
    case OnStop =>
      if s.tasks[t].stop.Some? then Interrupt(s, t, await, MapStop(s.tasks[t].stop.value))
      else Goto(s, t, Select(await, OnDisconnect))
    case OnDisconnect =>
      if s.tasks[t].disconnected then Interrupt(s, t, await, EngineError.Cancelled)
      else Goto(s, t, Select(await, OnShutdown))
    case OnShutdown =>
      if s.shutdown then Interrupt(s, t, await, ShuttingDown)
      else Goto(s, t, Select(await, OnOperation))
    case OnOperation => Operate(s, t, await, outcome)
  }

  /** `try_exited` on this child fails (`Fails`) or says whether its process has ended. */
  predicate SeenExited(s: State, child: ChildId, outcome: Outcome) {
    !outcome.Fails? && child in s.exited
  }

  function Advance(s: State, t: TaskId, outcome: Outcome): State
    requires t in s.tasks
  {
    match s.tasks[t].phase
    case Start => if s.shutdown then Goto(s, t, Ended(Err(ShuttingDown))) else Goto(s, t, Select(EnsureLock, OnStop))
    case Select(await, branch) => Poll(s, t, await, branch, outcome)
    case Inspect =>
      if s.running.None? then Goto(s, t, Prepare(0))
      else if outcome.Fails? then Release(s, t, Ended(Err(RuntimeUnavailable)))
      else if SeenExited(s, s.running.value.child, outcome) then Goto(DropRunning(s), t, Prepare(0))
      else Ensured(s, t)
    case Prepare(attempt) =>
      if outcome.Chooses? then Goto(s, t, Select(Launch(attempt, outcome.spec), OnStop))
      else Release(s, t, Ended(Err(RuntimeUnavailable)))
    case Check(attempt, sidecar) =>
      if outcome.Fails? || SeenExited(s, sidecar.child, outcome)
      then Goto(s, t, Select(Terminate(attempt, sidecar, RuntimeUnavailable), OnStop))
      else Goto(s, t, Select(Probe(attempt, sidecar), OnStop))
    case ConnectCheck =>
      if s.running.None? || outcome.Fails? then Release(s, t, Ended(Err(RuntimeUnavailable)))
      else if SeenExited(s, s.running.value.child, outcome)
      then Release(DropRunning(s), t, Ended(Err(RuntimeUnavailable)))
      else Release(s, t, Connected(s.running.value))
    case StatusLock => if s.owner.Some? then s else Goto(s, t, StatusCheck).(owner := Some(t))
    case StatusCheck =>
      var ready := s.running.Some? && !outcome.Fails? && !SeenExited(s, s.running.value.child, outcome);
      Release(if ready then s else DropRunning(s), t, Reported(ready))
    case ShutdownFlag => Goto(s, t, ShutdownLock).(shutdown := true)
    case ShutdownLock => if s.owner.Some? then s else Goto(s, t, ShutdownTake).(owner := Some(t))
    case ShutdownTake =>
      if s.running.None? then Return(s, t)
      else Goto(s, t, ShutdownKill(s.running.value.child)).(running := None)
    case ShutdownKill(child) => if outcome.Pending? then s else Return(Drop(s, child), t)
    case _ => s
  }

  /** The child a task keeps for itself. */
  function HeldBy(phase: Phase): Option<ChildId> {
    match phase
    case Select(Probe(_, sidecar), _) => Some(sidecar.child)
    case Select(ProbeSleep(_, sidecar), _) => Some(sidecar.child)
    case Select(Terminate(_, sidecar, _), _) => Some(sidecar.child)
    case Check(_, sidecar) => Some(sidecar.child)
    case ShutdownKill(child) => Some(child)
    case _ => None
  }

  predicate HoldsLock(phase: Phase) {
    match phase
    case Select(await, _) => !await.EnsureLock? && !await.ConnectLock?
    case Inspect => true
    case Prepare(_) => true
    case Check(_, _) => true
    case ConnectCheck => true
    case StatusCheck => true
    case ShutdownTake => true
    case ShutdownKill(_) => true
    case _ => false
  }

  predicate Finished(phase: Phase) {
    phase.Connected? || phase.Ended? || phase.Reported? || phase.ShutdownReturned? || phase.Abandoned?
  }

  /** Dropping a future drops the lock guard and the child it owns. */
  function Forget(s: State, t: TaskId): State
    requires t in s.tasks
  {
    var phase := s.tasks[t].phase;
    var dropped := if HeldBy(phase).Some? then Drop(s, HeldBy(phase).value) else s;
    if HoldsLock(phase) then Release(dropped, t, Abandoned) else Goto(dropped, t, Abandoned)
  }

  /** One atomic step; an action that does not apply changes nothing. */
  function Next(s: State, a: Action): State {
    match a
    case Arrive(t, phase, connects) =>
      if t in s.tasks || !CanArrive(phase) then s else s.(tasks := s.tasks[t := Task(phase, connects, None, false)])
    case StopContext(t, stop) =>
      if t !in s.tasks || s.tasks[t].stop.Some? then s else s.(tasks := s.tasks[t := s.tasks[t].(stop := Some(stop))])
    case DropReceiver(t) =>
      if t !in s.tasks then s else s.(tasks := s.tasks[t := s.tasks[t].(disconnected := true)])
    case ProcessExits(child) => if child < |s.launched| then s.(exited := s.exited + {child}) else s
    case Step(t, outcome) => if t in s.tasks then Advance(s, t, outcome) else s
    case Abandon(t) => if t in s.tasks && !Finished(s.tasks[t].phase) then Forget(s, t) else s
  }

  function Exec(s: State, actions: seq<Action>): State
    decreases |actions|
  {
    if actions == [] then s else Exec(Next(s, actions[0]), actions[1..])
  }

  lemma {:induction false} ExecConcat(s: State, a: seq<Action>, b: seq<Action>)
    ensures Exec(s, a + b) == Exec(Exec(s, a), b)
    decreases |a|
  {
    if a == [] {
      assert a + b == b;
    } else {
      assert (a + b)[1..] == a[1..] + b;
      ExecConcat(Next(s, a[0]), a[1..], b);
    }
  }

  lemma ExecLast(s: State, actions: seq<Action>, a: Action)
    ensures Exec(s, actions + [a]) == Next(Exec(s, actions), a)
  {
    ExecConcat(s, actions, [a]);
    assert Exec(Exec(s, actions), [a]) == Next(Exec(s, actions), a);
  }

  // ---- The invariant ----

  /** The one child that is neither terminated, dropped nor seen exited, if there is one. */
  function Owned(s: State): Option<ChildId> {
    if s.running.Some? then Some(s.running.value.child)
    else if s.owner.Some? && s.owner.value in s.tasks then HeldBy(s.tasks[s.owner.value].phase)
    else None
  }

  /** These phases come between finding no sidecar running and installing one. */
  predicate Starting(phase: Phase) {
    || phase.Prepare? || phase.Check? || phase.ShutdownKill?
    || (phase.Select? && HoldsLock(phase))
  }

  predicate Known(s: State, sidecar: Sidecar) {
    sidecar.child < |s.launched| && s.launched[sidecar.child] == sidecar.spec
  }

  /** A sidecar was launched with just that endpoint and bearer; past its first step a shutdown has set the flag. */
  predicate PhaseSound(s: State, phase: Phase) {
    match phase
    case Select(Probe(_, sidecar), _) => Known(s, sidecar)
    case Select(ProbeSleep(_, sidecar), _) => Known(s, sidecar)
    case Select(Terminate(_, sidecar, _), _) => Known(s, sidecar)
    case Check(_, sidecar) => Known(s, sidecar)
    case ShutdownLock => s.shutdown
    case ShutdownTake => s.shutdown
    case ShutdownKill(child) => s.shutdown && child < |s.launched|
    case ShutdownReturned => s.shutdown && s.returned
    case Connected(sidecar) => Known(s, sidecar) && sidecar.child in s.healthy
    case _ => true
  }

  predicate TaskInv(s: State, t: TaskId)
    requires t in s.tasks
  {
    var phase := s.tasks[t].phase;
    && (HoldsLock(phase) <==> s.owner == Some(t))
    && (Starting(phase) ==> s.running.None?)
    && PhaseSound(s, phase)
    && (HeldBy(phase).Some? ==> HeldBy(phase).value !in s.gone)
  }

  ghost predicate AllTasks(s: State) {
    forall t :: t in s.tasks ==> TaskInv(s, t)
  }

  ghost predicate ChildrenAccounted(s: State) {
    forall c: ChildId :: c < |s.launched| ==> c in s.gone || Owned(s) == Some(c)
  }

  predicate RunningSound(s: State) {
    s.running.Some? ==>
      var child := s.running.value.child; Known(s, s.running.value) && child in s.healthy && child !in s.gone
  }

  ghost predicate IdsKnown(s: State) {
    && (s.owner.Some? ==> s.owner.value in s.tasks)
    && (forall c :: c in s.gone || c in s.healthy || c in s.exited ==> c < |s.launched|)
  }

  ghost predicate Inv(s: State) {
    AllTasks(s) && RunningSound(s) && ChildrenAccounted(s) && IdsKnown(s)
  }

  lemma OneTask(s: State, t: TaskId)
    requires Inv(s) && t in s.tasks
    ensures TaskInv(s, t)
  {
  }

  /** What a step of `t` may change: its own task, the lock, and what the lock protects while it has it. */
  predicate OwnStep(s: State, s': State, t: TaskId)
    requires t in s.tasks
  {
    && t in s'.tasks && s'.tasks == s.tasks[t := s'.tasks[t]]
    && Grows(s, s') && s'.exited == s.exited
    && (s'.owner == s.owner || (s.owner.None? && s'.owner == Some(t)) || (s.owner == Some(t) && s'.owner.None?))
    && (s.owner != Some(t) ==> s'.running == s.running && s'.gone == s.gone && s'.launched == s.launched)
  }

  /** The owned child stays, or is gone, or is the one just launched. */
  predicate OwnedStep(s: State, s': State) {
    && (s'.gone == s.gone || (Owned(s).Some? && s'.gone == s.gone + {Owned(s).value}))
    && (s'.healthy == s.healthy || (Owned(s).Some? && s'.healthy == s.healthy + {Owned(s).value}))
    && (|| (s'.launched == s.launched
            && (Owned(s') == Owned(s) || (Owned(s).Some? && Owned(s').None? && Owned(s).value in s'.gone)))
        || (Owned(s).None? && Owned(s') == Some(|s.launched|) && |s'.launched| == |s.launched| + 1
            && s'.gone == s.gone && s'.healthy == s.healthy))
  }

  lemma OthersKeep(s: State, s': State, t: TaskId, u: TaskId)
    requires AllTasks(s) && t in s.tasks && OwnStep(s, s', t) && u in s.tasks && u != t
    ensures TaskInv(s', u)
  {
    assert TaskInv(s, u) && TaskInv(s, t);
  }

  lemma OwnedIsKnown(s: State)
    requires Inv(s) && Owned(s).Some?
    ensures Owned(s).value < |s.launched|
  {
    if s.running.None? { OneTask(s, s.owner.value); }
  }

  lemma Rebuild(s: State, s': State, t: TaskId)
    requires Inv(s) && t in s.tasks
    requires OwnStep(s, s', t) && TaskInv(s', t) && RunningSound(s') && OwnedStep(s, s')
    ensures Inv(s')
  {
    if Owned(s).Some? { OwnedIsKnown(s); }
    hide Owned;
    forall u | u in s'.tasks
      ensures TaskInv(s', u)
    {
      if u != t { OthersKeep(s, s', t, u); }
    }
  }

  predicate Grows(s: State, s': State) {
    && s.launched <= s'.launched && s.healthy <= s'.healthy
    && (s.shutdown ==> s'.shutdown) && (s.returned ==> s'.returned)
  }

  lemma PhaseFacts(s: State, s': State, phase: Phase)
    ensures HeldBy(phase).Some? ==> Starting(phase)
    ensures Starting(phase) ==> HoldsLock(phase)
    ensures PhaseSound(s, phase) && Grows(s, s') ==> PhaseSound(s', phase)
  {
  }

  // ---- Each kind of step keeps it ----

  /** A step goes on with the same lock and child. */
  lemma InvGoto(s: State, t: TaskId, phase: Phase)
    requires Inv(s) && t in s.tasks && PhaseSound(s, phase)
    requires HoldsLock(phase) == HoldsLock(s.tasks[t].phase) && HeldBy(phase) == HeldBy(s.tasks[t].phase)
    requires Starting(phase) ==> s.running.None?
    ensures Inv(Goto(s, t, phase))
  {
    OneTask(s, t);
    hide Inv;
    var s' := Goto(s, t, phase);
    PhaseFacts(s, s', phase);
    hide HeldBy;
    hide HoldsLock;
    hide Starting;
    hide PhaseSound;
    Rebuild(s, s', t);
  }

  lemma InvAcquire(s: State, t: TaskId, phase: Phase)
    requires Inv(s) && t in s.tasks && s.owner.None? && PhaseSound(s, phase)
    requires phase in {Inspect, ConnectCheck, StatusCheck, ShutdownTake}
    ensures Inv(Goto(s, t, phase).(owner := Some(t)))
  {
    OneTask(s, t);
    hide Inv;
    Rebuild(s, Goto(s, t, phase).(owner := Some(t)), t);
  }

  /** The child this task holds, if any, is dropped. */
  function DropHeld(s: State, t: TaskId): State
    requires t in s.tasks
  {
    var held := HeldBy(s.tasks[t].phase);
    if held.Some? then Drop(s, held.value) else s
  }

  lemma InvRelease(s: State, t: TaskId, phase: Phase)
    requires Inv(s) && t in s.tasks && s.owner == Some(t) && PhaseSound(s, phase)
    requires !HoldsLock(phase) && HeldBy(phase).None?
    ensures Inv(Release(DropHeld(s, t), t, phase))
  {
    OneTask(s, t);
    hide Inv;
    var s' := Release(DropHeld(s, t), t, phase);
    PhaseFacts(s, s', phase);
    PhaseFacts(s, s', s.tasks[t].phase);
    hide HeldBy;
    hide HoldsLock;
    hide Starting;
    hide PhaseSound;
    Rebuild(s, s', t);
  }

  /** The launch loop goes on without the child. */
  lemma InvDropHeld(s: State, t: TaskId, phase: Phase)
    requires Inv(s) && t in s.tasks && Starting(s.tasks[t].phase)
    requires HoldsLock(phase) && HeldBy(phase).None? && PhaseSound(s, phase)
    ensures Inv(Goto(DropHeld(s, t), t, phase))
  {
    OneTask(s, t);
    hide Inv;
    var s' := Goto(DropHeld(s, t), t, phase);
    PhaseFacts(s, s', phase);
    PhaseFacts(s, s', s.tasks[t].phase);
    hide HeldBy;
    hide HoldsLock;
    hide Starting;
    hide PhaseSound;
    Rebuild(s, s', t);
  }

  lemma InvDropRunning(s: State, t: TaskId)
    requires Inv(s) && t in s.tasks && s.owner == Some(t)
    ensures Inv(DropRunning(s))
  {
    OneTask(s, t);
    hide Inv;
    if s.running.Some? { Rebuild(s, DropRunning(s), t); }
  }

  lemma InvNextAttempt(s: State, t: TaskId, attempt: nat)
    requires Inv(s) && t in s.tasks && Starting(s.tasks[t].phase)
    ensures Inv(NextAttempt(DropHeld(s, t), t, attempt))
  {
    OneTask(s, t);
    hide Inv;
    if attempt + 1 < LAUNCH_ATTEMPTS { InvDropHeld(s, t, Select(Backoff(attempt + 1), OnStop)); }
    else { InvRelease(s, t, Ended(Err(RuntimeUnavailable))); }
  }

  lemma InvLaunched(s: State, t: TaskId, attempt: nat, spec: Spec)
    requires Inv(s) && t in s.tasks && s.tasks[t].phase == Select(Launch(attempt, spec), OnOperation)
    ensures Inv(Operate(s, t, Launch(attempt, spec), Succeeds))
  {
    OneTask(s, t);
    hide Inv;
    Rebuild(s, Operate(s, t, Launch(attempt, spec), Succeeds), t);
  }

  lemma InvInstalled(s: State, t: TaskId, attempt: nat, sidecar: Sidecar)
    requires Inv(s) && t in s.tasks && s.tasks[t].phase == Select(Probe(attempt, sidecar), OnOperation)
    ensures Inv(Operate(s, t, Probe(attempt, sidecar), Succeeds))
  {
    OneTask(s, t);
    hide Inv;
    Rebuild(s, Operate(s, t, Probe(attempt, sidecar), Succeeds), t);
  }

  lemma InvTaken(s: State, t: TaskId)
    requires Inv(s) && t in s.tasks && s.tasks[t].phase == ShutdownTake && s.running.Some?
    ensures Inv(Goto(s, t, ShutdownKill(s.running.value.child)).(running := None))
  {
    OneTask(s, t);
    hide Inv;
    Rebuild(s, Goto(s, t, ShutdownKill(s.running.value.child)).(running := None), t);
  }

  lemma InvReturn(s: State, t: TaskId)
    requires Inv(s) && t in s.tasks && (s.tasks[t].phase.ShutdownTake? || s.tasks[t].phase.ShutdownKill?)
    ensures Inv(Return(DropHeld(s, t), t))
  {
    OneTask(s, t);
    hide Inv;
    Rebuild(s, Return(DropHeld(s, t), t), t);
  }

  lemma InvInterrupt(s: State, t: TaskId, await: Await, branch: Branch, error: EngineError)
    requires Inv(s) && t in s.tasks && s.tasks[t].phase == Select(await, branch)
    ensures Inv(Interrupt(s, t, await, error))
  {
    OneTask(s, t);
    hide Inv;
    match await {
      case EnsureLock => InvGoto(s, t, Ended(Err(error)));
      case ConnectLock => InvGoto(s, t, Ended(Err(error)));
      case Backoff(_) => InvRelease(s, t, Ended(Err(error)));
      case Launch(_, _) => InvRelease(s, t, Ended(Err(error)));
      case Probe(attempt, sidecar) => InvGoto(s, t, Select(Terminate(attempt, sidecar, error), OnStop));
      case ProbeSleep(attempt, sidecar) => InvGoto(s, t, Select(Terminate(attempt, sidecar, error), OnStop));
      case Terminate(_, sidecar, _) => InvRelease(s, t, Ended(Err(error)));
    }
  }

  lemma InvOperate(s: State, t: TaskId, await: Await, outcome: Outcome)
    requires Inv(s) && t in s.tasks && s.tasks[t].phase == Select(await, OnOperation)
    ensures Inv(Operate(s, t, await, outcome))
  {
    OneTask(s, t);
    hide Inv;
    InvGoto(s, t, Select(await, OnStop));
    if !outcome.Pending? {
      match await {
        case EnsureLock => if s.owner.None? { InvAcquire(s, t, Inspect); }
        case ConnectLock => if s.owner.None? { InvAcquire(s, t, ConnectCheck); }
        case Backoff(attempt) => InvGoto(s, t, Prepare(attempt));
        case Launch(attempt, spec) =>
          if outcome.Succeeds? { InvLaunched(s, t, attempt, spec); } else { InvNextAttempt(s, t, attempt); }
        case Probe(attempt, sidecar) =>
          if outcome.Succeeds? { InvInstalled(s, t, attempt, sidecar); }
          else if outcome.Refused? && !outcome.deadlinePassed {
            InvGoto(s, t, Select(ProbeSleep(attempt, sidecar), OnStop));
          } else if outcome.Refused? { InvGoto(s, t, Select(Terminate(attempt, sidecar, RuntimeUnavailable), OnStop)); }
        case ProbeSleep(attempt, sidecar) => InvGoto(s, t, Check(attempt, sidecar));
        case Terminate(attempt, sidecar, why) =>
          if IsStop(why) { InvRelease(s, t, Ended(Err(why))); } else { InvNextAttempt(s, t, attempt); }
      }
    }
  }

  lemma InvPoll(s: State, t: TaskId, await: Await, branch: Branch, outcome: Outcome)
    requires Inv(s) && t in s.tasks && s.tasks[t].phase == Select(await, branch)
    ensures Inv(Poll(s, t, await, branch, outcome))
  {
    hide Inv;
    hide Operate;
    hide Interrupt;
    match branch {
      case OnOperation => InvOperate(s, t, await, outcome);
      case OnStop =>
        if s.tasks[t].stop.Some? { InvInterrupt(s, t, await, branch, MapStop(s.tasks[t].stop.value)); }
        else { InvLookOn(s, t, await, branch, OnDisconnect); }
      case OnDisconnect =>
        if s.tasks[t].disconnected { InvInterrupt(s, t, await, branch, EngineError.Cancelled); }
        else { InvLookOn(s, t, await, branch, OnShutdown); }
      case OnShutdown =>
        if s.shutdown { InvInterrupt(s, t, await, branch, ShuttingDown); }
        else { InvLookOn(s, t, await, branch, OnOperation); }
    }
  }

  lemma InvLookOn(s: State, t: TaskId, await: Await, branch: Branch, next: Branch)
    requires Inv(s) && t in s.tasks && s.tasks[t].phase == Select(await, branch)
    ensures Inv(Goto(s, t, Select(await, next)))
  {
    OneTask(s, t);
    hide Inv;
    InvGoto(s, t, Select(await, next));
  }

  lemma InvEnsured(s: State, t: TaskId)
    requires Inv(s) && t in s.tasks && s.owner == Some(t) && HeldBy(s.tasks[t].phase).None?
    ensures Inv(Ensured(s, t))
  {
    hide Inv;
    InvRelease(s, t, if s.tasks[t].connects then Select(ConnectLock, OnStop) else Ended(Ok(())));
  }

  lemma InvFlag(s: State, t: TaskId)
    requires Inv(s) && t in s.tasks && s.tasks[t].phase.ShutdownFlag?
    ensures Inv(Goto(s, t, ShutdownLock).(shutdown := true))
  {
    OneTask(s, t);
    hide Inv;
    Rebuild(s, Goto(s, t, ShutdownLock).(shutdown := true), t);
  }

  /** The phases of ensure_running between two `select!`s. */
  lemma InvEnsuring(s: State, t: TaskId, outcome: Outcome)
    requires Inv(s) && t in s.tasks
    requires var phase := s.tasks[t].phase; phase.Start? || phase.Inspect? || phase.Prepare? || phase.Check?
    ensures Inv(Advance(s, t, outcome))
  {
    OneTask(s, t);
    hide Inv;
    match s.tasks[t].phase {
      case Start => InvGoto(s, t, if s.shutdown then Ended(Err(ShuttingDown)) else Select(EnsureLock, OnStop));
      case Inspect =>
        if s.running.None? { InvGoto(s, t, Prepare(0)); }
        else if outcome.Fails? { InvRelease(s, t, Ended(Err(RuntimeUnavailable))); }
        else if SeenExited(s, s.running.value.child, outcome) {
          InvDropRunning(s, t);
          InvGoto(DropRunning(s), t, Prepare(0));
        } else { InvEnsured(s, t); }
      case Prepare(attempt) =>
        if outcome.Chooses? { InvGoto(s, t, Select(Launch(attempt, outcome.spec), OnStop)); }
        else { InvRelease(s, t, Ended(Err(RuntimeUnavailable))); }
      case Check(attempt, sidecar) =>
        InvGoto(s, t, Select(Terminate(attempt, sidecar, RuntimeUnavailable), OnStop));
        InvGoto(s, t, Select(Probe(attempt, sidecar), OnStop));
    }
  }

  /** The phases of connection and status between two `select!`s. */
  lemma InvServing(s: State, t: TaskId, outcome: Outcome)
    requires Inv(s) && t in s.tasks
    requires s.tasks[t].phase.ConnectCheck? || s.tasks[t].phase.StatusLock? || s.tasks[t].phase.StatusCheck?
    ensures Inv(Advance(s, t, outcome))
  {
    OneTask(s, t);
    RunningIsSound(s);
    hide Inv;
    match s.tasks[t].phase {
      case ConnectCheck =>
        if s.running.None? || outcome.Fails? { InvRelease(s, t, Ended(Err(RuntimeUnavailable))); }
        else if SeenExited(s, s.running.value.child, outcome) {
          InvDropRunning(s, t);
          InvRelease(DropRunning(s), t, Ended(Err(RuntimeUnavailable)));
        } else { InvRelease(s, t, Connected(s.running.value)); }
      case StatusLock => if s.owner.None? { InvAcquire(s, t, StatusCheck); }
      case StatusCheck =>
        InvRelease(s, t, Reported(true));
        InvDropRunning(s, t);
        InvRelease(DropRunning(s), t, Reported(false));
    }
  }

  lemma InvShutdown(s: State, t: TaskId, outcome: Outcome)
    requires Inv(s) && t in s.tasks
    requires var phase := s.tasks[t].phase;
             phase.ShutdownFlag? || phase.ShutdownLock? || phase.ShutdownTake? || phase.ShutdownKill?
    ensures Inv(Advance(s, t, outcome))
  {
    OneTask(s, t);
    hide Inv;
    match s.tasks[t].phase {
      case ShutdownFlag => InvFlag(s, t);
      case ShutdownLock => if s.owner.None? { InvAcquire(s, t, ShutdownTake); }
      case ShutdownTake => if s.running.None? { InvReturn(s, t); } else { InvTaken(s, t); }
      case ShutdownKill(_) => InvReturn(s, t);
    }
  }

  lemma RunningIsSound(s: State)
    requires Inv(s)
    ensures RunningSound(s)
  {
  }

  lemma InvForget(s: State, t: TaskId)
    requires Inv(s) && t in s.tasks
    ensures Inv(Forget(s, t))
  {
    OneTask(s, t);
    hide Inv;
    if HoldsLock(s.tasks[t].phase) { InvRelease(s, t, Abandoned); } else { InvGoto(s, t, Abandoned); }
  }

  /** A flag or an arrival changes no task's phase, nor what the lock protects. */
  lemma InvSamePhases(s: State, s': State)
    requires Inv(s) && s' == s.(tasks := s'.tasks, exited := s'.exited)
    requires forall t :: t in s.tasks ==> t in s'.tasks && s'.tasks[t].phase == s.tasks[t].phase
    requires forall t :: t in s'.tasks && t !in s.tasks ==> CanArrive(s'.tasks[t].phase)
    requires forall c :: c in s'.exited ==> c < |s.launched|
    ensures Inv(s')
  {
    forall t | t in s'.tasks
      ensures TaskInv(s', t)
    {
      if t in s.tasks {
        OneTask(s, t);
        PhaseFacts(s, s', s.tasks[t].phase);
      }
    }
  }

  /** Flags, arrivals and processes ending by themselves. */
  lemma InvSurroundings(s: State, a: Action)
    requires Inv(s) && !a.Step? && !a.Abandon?
    ensures Inv(Next(s, a))
  {
    assert forall c :: c in s.exited ==> c < |s.launched|;
    hide Inv;
    InvSamePhases(s, Next(s, a));
  }

  lemma InvAdvance(s: State, t: TaskId, outcome: Outcome)
    requires Inv(s) && t in s.tasks
    ensures Inv(Advance(s, t, outcome))
  {
    hide Inv;
    hide Poll;
    match s.tasks[t].phase {
      case Select(await, branch) => InvPoll(s, t, await, branch, outcome);
      case Start => InvEnsuring(s, t, outcome);
      case Inspect => InvEnsuring(s, t, outcome);
      case Prepare(_) => InvEnsuring(s, t, outcome);
      case Check(_, _) => InvEnsuring(s, t, outcome);
      case ConnectCheck => InvServing(s, t, outcome);
      case StatusLock => InvServing(s, t, outcome);
      case StatusCheck => InvServing(s, t, outcome);
      case ShutdownFlag => InvShutdown(s, t, outcome);
      case ShutdownLock => InvShutdown(s, t, outcome);
      case ShutdownTake => InvShutdown(s, t, outcome);
      case ShutdownKill(_) => InvShutdown(s, t, outcome);
      case _ =>
    }
  }

  lemma InvNext(s: State, a: Action)
    requires Inv(s)
    ensures Inv(Next(s, a))
  {
    match a {
      case Step(t, outcome) =>
        hide Inv;
        if t in s.tasks { InvAdvance(s, t, outcome); }
      case Abandon(t) =>
        hide Inv;
        if t in s.tasks { InvForget(s, t); }
      case _ => InvSurroundings(s, a);
    }
  }

  lemma {:induction false} InvAlways(s: State, actions: seq<Action>)
    requires Inv(s)
    ensures Inv(Exec(s, actions))
    decreases |actions|
  {
    if actions != [] {
      InvNext(s, actions[0]);
      InvAlways(Next(s, actions[0]), actions[1..]);
    }
  }

  lemma InvInit()
    ensures Inv(INIT)
  {
  }

  // ---- The shutdown fence ----

  /** No child held, and not past the last look at the flag before a launch. */
  predicate Harmless(phase: Phase) {
    HeldBy(phase).None? && !(phase.Select? && phase.await.Launch? && phase.branch.OnOperation?)
  }

  ghost predicate AllHarmless(s: State) {
    forall t :: t in s.tasks ==> Harmless(s.tasks[t].phase)
  }

  ghost predicate AllGone(s: State) {
    forall c: ChildId :: c < |s.launched| ==> c in s.gone
  }

  /** Nothing runs and nothing can be launched or installed. */
  ghost predicate Fenced(s: State) {
    s.shutdown && s.running.None? && AllGone(s) && AllHarmless(s)
  }

  lemma FenceMoves(s: State, s': State, t: TaskId)
    requires Fenced(s) && t in s.tasks && t in s'.tasks && s'.tasks == s.tasks[t := s'.tasks[t]]
    requires Harmless(s'.tasks[t].phase)
    requires s'.shutdown && s'.running.None? && s'.launched == s.launched && s'.gone == s.gone
    ensures Fenced(s')
  {
  }

  lemma FencePoll(s: State, t: TaskId, await: Await, branch: Branch, outcome: Outcome)
    requires Fenced(s) && t in s.tasks && s.tasks[t].phase == Select(await, branch)
    ensures Fenced(Poll(s, t, await, branch, outcome)) && Poll(s, t, await, branch, outcome).launched == s.launched
  {
    assert Harmless(s.tasks[t].phase);
    hide Fenced;
    FenceIsDown(s);
    var s' := Poll(s, t, await, branch, outcome);
    if branch.OnOperation? {
      FenceMoves(s, s', t);
    } else {
      hide Operate;
      FenceMoves(s, s', t);
    }
  }

  lemma FenceIsDown(s: State)
    requires Fenced(s)
    ensures s.shutdown && s.running.None?
  {
  }

  lemma FenceEnsuring(s: State, t: TaskId, outcome: Outcome)
    requires Fenced(s) && t in s.tasks
    requires var phase := s.tasks[t].phase; phase.Start? || phase.Inspect? || phase.Prepare?
    ensures Fenced(Advance(s, t, outcome)) && Advance(s, t, outcome).launched == s.launched
  {
    assert Harmless(s.tasks[t].phase);
    hide Fenced;
    hide Poll;
    FenceIsDown(s);
    FenceMoves(s, Advance(s, t, outcome), t);
  }

  lemma FenceServing(s: State, t: TaskId, outcome: Outcome)
    requires Fenced(s) && t in s.tasks
    requires var phase := s.tasks[t].phase; phase.ConnectCheck? || phase.StatusLock? || phase.StatusCheck?
    ensures Fenced(Advance(s, t, outcome)) && Advance(s, t, outcome).launched == s.launched
  {
    assert Harmless(s.tasks[t].phase);
    hide Fenced;
    hide Poll;
    FenceIsDown(s);
    FenceMoves(s, Advance(s, t, outcome), t);
  }

  lemma FenceShutdown(s: State, t: TaskId, outcome: Outcome)
    requires Fenced(s) && t in s.tasks
    requires var phase := s.tasks[t].phase; phase.ShutdownFlag? || phase.ShutdownLock? || phase.ShutdownTake?
    ensures Fenced(Advance(s, t, outcome)) && Advance(s, t, outcome).launched == s.launched
  {
    assert Harmless(s.tasks[t].phase);
    hide Fenced;
    hide Poll;
    FenceIsDown(s);
    FenceMoves(s, Advance(s, t, outcome), t);
  }

  lemma FenceAdvance(s: State, t: TaskId, outcome: Outcome)
    requires Fenced(s) && t in s.tasks
    ensures Fenced(Advance(s, t, outcome)) && Advance(s, t, outcome).launched == s.launched
  {
    assert Harmless(s.tasks[t].phase);
    hide Fenced;
    hide Poll;
    var phase := s.tasks[t].phase;
    if phase.Select? { FencePoll(s, t, phase.await, phase.branch, outcome); }
    else if phase.Start? || phase.Inspect? || phase.Prepare? { FenceEnsuring(s, t, outcome); }
    else if phase.ConnectCheck? || phase.StatusLock? || phase.StatusCheck? { FenceServing(s, t, outcome); }
    else if phase.ShutdownFlag? || phase.ShutdownLock? || phase.ShutdownTake? { FenceShutdown(s, t, outcome); }
  }

  lemma FenceNext(s: State, a: Action)
    requires Fenced(s)
    ensures Fenced(Next(s, a)) && Next(s, a).launched == s.launched
  {
    match a {
      case Step(t, outcome) =>
        if t in s.tasks { FenceAdvance(s, t, outcome); }
      case _ =>
    }
  }

  /** No state after the fence launches, runs or owns a child again. */
  lemma {:induction false} FenceHolds(s: State, actions: seq<Action>)
    requires Fenced(s)
    ensures Fenced(Exec(s, actions)) && Exec(s, actions).launched == s.launched
    decreases |actions|
  {
    if actions != [] {
      FenceNext(s, actions[0]);
      FenceHolds(Next(s, actions[0]), actions[1..]);
    }
  }

  /** When a shutdown returns it leaves the fence behind. */
  lemma ReturnFences(s: State, t: TaskId)
    requires Inv(s) && t in s.tasks
    requires s.tasks[t].phase.ShutdownKill? || (s.tasks[t].phase.ShutdownTake? && s.running.None?)
    ensures Fenced(Return(DropHeld(s, t), t))
  {
    OneTask(s, t);
    var s' := Return(DropHeld(s, t), t);
    forall u | u in s'.tasks
      ensures Harmless(s'.tasks[u].phase)
    {
      if u != t { OneTask(s, u); }
    }
  }

  lemma OnlyReturnReturns(s: State, a: Action)
    requires !s.returned && Next(s, a).returned
    ensures a.Step? && a.task in s.tasks
    ensures var phase := s.tasks[a.task].phase; phase.ShutdownKill? || (phase.ShutdownTake? && s.running.None?)
    ensures Next(s, a) == Return(DropHeld(s, a.task), a.task)
  {
  }

  lemma {:induction false} ReturnedStaysFenced(s: State, actions: seq<Action>)
    requires Inv(s) && (s.returned ==> Fenced(s))
    ensures Exec(s, actions).returned ==> Fenced(Exec(s, actions))
    decreases |actions|
  {
    if actions != [] {
      var a := actions[0];
      InvNext(s, a);
      if s.returned {
        FenceNext(s, a);
      } else if Next(s, a).returned {
        OnlyReturnReturns(s, a);
        ReturnFences(s, a.task);
      }
      ReturnedStaysFenced(Next(s, a), actions[1..]);
    }
  }

  /** Once any shutdown has returned: nothing runs, nothing is launched, every child ever launched is gone, for ever. */
  lemma ShutdownFence(before: seq<Action>, after: seq<Action>)
    requires Exec(INIT, before).returned
    ensures var end := Exec(INIT, before + after);
            && end.running.None?
            && end.launched == Exec(INIT, before).launched
            && (forall c: ChildId :: c < |end.launched| ==> c in end.gone)
  {
    InvInit();
    ReturnedStaysFenced(INIT, before);
    ExecConcat(INIT, before, after);
    FenceHolds(Exec(INIT, before), after);
  }

  // ---- Ownership ----

  /** In every run at most one child is not terminated, dropped or seen exited, and at most one task has the lock. */
  lemma SingleOwner(actions: seq<Action>, c: ChildId, d: ChildId, t: TaskId, u: TaskId)
    ensures var s := Exec(INIT, actions);
            && (c < |s.launched| && d < |s.launched| && c !in s.gone && d !in s.gone ==> c == d)
            && (t in s.tasks && u in s.tasks && HoldsLock(s.tasks[t].phase) && HoldsLock(s.tasks[u].phase) ==> t == u)
  {
    InvInit();
    InvAlways(INIT, actions);
    var s := Exec(INIT, actions);
    if t in s.tasks && u in s.tasks {
      OneTask(s, t);
      OneTask(s, u);
    }
  }

  /** A launch happens only when every child launched before it is gone, and takes the flag as just read. */
  lemma LaunchFindsNone(actions: seq<Action>, a: Action)
    requires Exec(INIT, actions + [a]).launched != Exec(INIT, actions).launched
    ensures var s := Exec(INIT, actions);
            && AllGone(s) && s.running.None?
            && |Exec(INIT, actions + [a]).launched| == |s.launched| + 1
  {
    InvInit();
    InvAlways(INIT, actions);
    ExecLast(INIT, actions, a);
    var s := Exec(INIT, actions);
    OnlyLaunchesLaunch(s, a);
    OneTask(s, a.task);
  }

  lemma PollLaunches(s: State, t: TaskId, await: Await, branch: Branch, outcome: Outcome)
    requires t in s.tasks
    ensures var launched := Poll(s, t, await, branch, outcome).launched;
            launched == s.launched || (await.Launch? && |launched| == |s.launched| + 1)
  {
  }

  lemma BetweenLaunchesNone(s: State, t: TaskId, outcome: Outcome)
    requires t in s.tasks && !s.tasks[t].phase.Select?
    ensures Advance(s, t, outcome).launched == s.launched
  {
  }

  lemma OnlyLaunchesLaunch(s: State, a: Action)
    requires Next(s, a).launched != s.launched
    ensures a.Step? && a.task in s.tasks && s.tasks[a.task].phase.Select? && s.tasks[a.task].phase.await.Launch?
    ensures |Next(s, a).launched| == |s.launched| + 1
  {
    if a.Step? && a.task in s.tasks {
      var phase := s.tasks[a.task].phase;
      if phase.Select? { PollLaunches(s, a.task, phase.await, phase.branch, a.outcome); }
      else { BetweenLaunchesNone(s, a.task, a.outcome); }
    }
    hide Poll;
  }

  /** What a generation connects to is the endpoint and bearer of one launched, health-checked child. */
  lemma ConnectionIsOneChild(actions: seq<Action>, t: TaskId)
    requires t in Exec(INIT, actions).tasks && Exec(INIT, actions).tasks[t].phase.Connected?
    ensures var s := Exec(INIT, actions);
            var sidecar := s.tasks[t].phase.sidecar;
            && sidecar.child < |s.launched| && s.launched[sidecar.child] == sidecar.spec
            && sidecar.child in s.healthy
  {
    InvInit();
    InvAlways(INIT, actions);
    OneTask(Exec(INIT, actions), t);
  }

  /** A report of not ready leaves no child behind; a report of ready leaves the running one, not seen exited. */
  lemma StatusTells(actions: seq<Action>, t: TaskId, outcome: Outcome)
    requires t in Exec(INIT, actions).tasks && Exec(INIT, actions).tasks[t].phase.StatusCheck?
    ensures var s' := Exec(INIT, actions + [Step(t, outcome)]);
            && t in s'.tasks && s'.tasks[t].phase.Reported?
            && (s'.tasks[t].phase.ready <==> s'.running.Some?)
            && (s'.running.None? ==> AllGone(s'))
            && (s'.running.Some? ==> s'.running.value.child !in s'.exited)
  {
    InvInit();
    InvAlways(INIT, actions);
    var s := Exec(INIT, actions);
    ExecLast(INIT, actions, Step(t, outcome));
    OneTask(s, t);
  }

  lemma Waiting() returns (actions: seq<Action>)
    ensures Exec(INIT, actions) == INIT.(tasks := map[0 := Task(Select(EnsureLock, OnOperation), true, None, false)])
  {
    actions := Append([], Arrive(0, Start, true));
    actions := Append(actions, Step(0, Pending));
    var task := Task(Select(EnsureLock, OnStop), true, None, false);
    assert Exec(INIT, actions) == INIT.(tasks := map[0 := task]);
    actions := Append(actions, Step(0, Pending));
    actions := Append(actions, Step(0, Pending));
    actions := Append(actions, Step(0, Pending));
  }

  /** A shutdown that finds the lock free and nothing running. */
  lemma ShutDownMeanwhile(before: seq<Action>) returns (actions: seq<Action>)
    requires var s := Exec(INIT, before); 1 !in s.tasks && s.owner.None? && s.running.None?
    ensures var s, s' := Exec(INIT, before), Exec(INIT, actions);
            && s'.returned && s'.owner.None?
            && forall t :: t in s.tasks ==> t in s'.tasks && s'.tasks[t] == s.tasks[t]
  {
    hide Poll;
    hide Exec;
    var s := Exec(INIT, before);
    actions := Append(before, Arrive(1, ShutdownFlag, false));
    var s1 := Exec(INIT, actions);
    actions := Append(actions, Step(1, Pending));
    assert Exec(INIT, actions) == Goto(s1, 1, ShutdownLock).(shutdown := true);
    actions := Append(actions, Step(1, Pending));
    assert Exec(INIT, actions).tasks[1].phase == ShutdownTake;
    actions := Append(actions, Step(1, Pending));
  }

  /** The race the fence is for does happen: a task gets the lock after a shutdown that found it free has returned. */
  lemma LateLock() returns (actions: seq<Action>)
    ensures var s := Exec(INIT, actions);
            s.returned && 0 in s.tasks && s.tasks[0].phase == Inspect && s.owner == Some(0)
  {
    actions := Waiting();
    actions := ShutDownMeanwhile(actions);
    actions := Append(actions, Step(0, Succeeds));
  }

  lemma Append(actions: seq<Action>, a: Action) returns (longer: seq<Action>)
    ensures Exec(INIT, longer) == Next(Exec(INIT, actions), a)
  {
    longer := actions + [a];
    ExecLast(INIT, actions, a);
  }

  // ---- Stop errors name a flag that is set ----

  predicate FlagSet(shutdown: bool, task: Task, error: EngineError) {
    match error
    case ShuttingDown => shutdown
    case Cancelled => task.disconnected || task.stop == Some(RequestStop.Cancelled)
    case DeadlineExceeded => task.stop == Some(RequestStop.DeadlineExceeded)
    case _ => true
  }

  /** The error a phase carries. */
  predicate Truthful(shutdown: bool, task: Task, phase: Phase) {
    match phase
    case Ended(Err(error)) => FlagSet(shutdown, task, error)
    case Select(Terminate(_, _, why), _) => FlagSet(shutdown, task, why)
    case _ => true
  }

  ghost predicate AllTruthful(tasks: map<TaskId, Task>, shutdown: bool) {
    forall t :: t in tasks ==> Truthful(shutdown, tasks[t], tasks[t].phase)
  }

  /** One task moves on; flags are never taken back. */
  lemma TruthMoves(s: State, t: TaskId, phase: Phase)
    requires AllTruthful(s.tasks, s.shutdown) && t in s.tasks && Truthful(s.shutdown, s.tasks[t], phase)
    ensures AllTruthful(Goto(s, t, phase).tasks, s.shutdown)
  {
  }

  lemma TruthInterrupt(s: State, t: TaskId, await: Await, branch: Branch, error: EngineError)
    requires AllTruthful(s.tasks, s.shutdown) && t in s.tasks && s.tasks[t].phase == Select(await, branch)
    requires FlagSet(s.shutdown, s.tasks[t], error)
    ensures AllTruthful(Interrupt(s, t, await, error).tasks, s.shutdown)
    ensures Interrupt(s, t, await, error).shutdown == s.shutdown
  {
    hide AllTruthful;
    TruthMoves(s, t, Ended(Err(error)));
    match await {
      case Probe(attempt, sidecar) => TruthMoves(s, t, Select(Terminate(attempt, sidecar, error), OnStop));
      case ProbeSleep(attempt, sidecar) => TruthMoves(s, t, Select(Terminate(attempt, sidecar, error), OnStop));
      case _ =>
    }
  }

  lemma TruthNextAttempt(s: State, t: TaskId, attempt: nat)
    requires AllTruthful(s.tasks, s.shutdown) && t in s.tasks
    ensures AllTruthful(NextAttempt(s, t, attempt).tasks, s.shutdown)
    ensures NextAttempt(s, t, attempt).shutdown == s.shutdown
    ensures AllTruthful(Ensured(s, t).tasks, s.shutdown)
  {
    hide AllTruthful;
    TruthMoves(s, t, Select(Backoff(attempt + 1), OnStop));
    TruthMoves(s, t, Ended(Err(RuntimeUnavailable)));
    TruthMoves(s, t, Select(ConnectLock, OnStop));
    TruthMoves(s, t, Ended(Ok(())));
  }

  lemma TruthOperate(s: State, t: TaskId, await: Await, outcome: Outcome)
    requires AllTruthful(s.tasks, s.shutdown) && t in s.tasks && s.tasks[t].phase == Select(await, OnOperation)
    ensures AllTruthful(Operate(s, t, await, outcome).tasks, s.shutdown)
    ensures Operate(s, t, await, outcome).shutdown == s.shutdown
  {
    assert Truthful(s.shutdown, s.tasks[t], s.tasks[t].phase);
    hide AllTruthful;
    TruthMoves(s, t, Select(await, OnStop));
    match await {
      case EnsureLock => TruthMoves(s, t, Inspect);
      case ConnectLock => TruthMoves(s, t, ConnectCheck);
      case Backoff(attempt) => TruthMoves(s, t, Prepare(attempt));
      case Launch(attempt, spec) =>
        TruthMoves(s, t, Check(attempt, Sidecar(|s.launched|, spec)));
        TruthNextAttempt(s, t, attempt);
      case Probe(attempt, sidecar) =>
        TruthNextAttempt(s.(running := Some(sidecar), healthy := s.healthy + {sidecar.child}), t, attempt);
        TruthMoves(s, t, Select(ProbeSleep(attempt, sidecar), OnStop));
        TruthMoves(s, t, Select(Terminate(attempt, sidecar, RuntimeUnavailable), OnStop));
      case ProbeSleep(attempt, sidecar) => TruthMoves(s, t, Check(attempt, sidecar));
      case Terminate(attempt, sidecar, why) =>
        TruthMoves(s, t, Ended(Err(why)));
        TruthNextAttempt(Drop(s, sidecar.child), t, attempt);
    }
  }

  lemma TruthPoll(s: State, t: TaskId, await: Await, branch: Branch, outcome: Outcome)
    requires AllTruthful(s.tasks, s.shutdown) && t in s.tasks && s.tasks[t].phase == Select(await, branch)
    ensures AllTruthful(Poll(s, t, await, branch, outcome).tasks, s.shutdown)
    ensures Poll(s, t, await, branch, outcome).shutdown == s.shutdown
  {
    assert Truthful(s.shutdown, s.tasks[t], s.tasks[t].phase);
    hide AllTruthful;
    hide Operate;
    hide Interrupt;
    var task := s.tasks[t];
    match branch {
      case OnOperation => TruthOperate(s, t, await, outcome);
      case OnStop =>
        TruthMoves(s, t, Select(await, OnDisconnect));
        if task.stop.Some? { TruthInterrupt(s, t, await, branch, MapStop(task.stop.value)); }
      case OnDisconnect =>
        TruthMoves(s, t, Select(await, OnShutdown));
        if task.disconnected { TruthInterrupt(s, t, await, branch, EngineError.Cancelled); }
      case OnShutdown =>
        TruthMoves(s, t, Select(await, OnOperation));
        if s.shutdown { TruthInterrupt(s, t, await, branch, ShuttingDown); }
    }
  }

  lemma TruthEnsuring(s: State, t: TaskId, outcome: Outcome)
    requires AllTruthful(s.tasks, s.shutdown) && t in s.tasks
    requires var phase := s.tasks[t].phase; phase.Start? || phase.Inspect? || phase.Prepare? || phase.Check?
    ensures AllTruthful(Advance(s, t, outcome).tasks, s.shutdown)
    ensures Advance(s, t, outcome).shutdown == s.shutdown
  {
    hide AllTruthful;
    hide Poll;
    TruthMoves(s, t, Ended(Err(RuntimeUnavailable)));
    match s.tasks[t].phase {
      case Start => TruthMoves(s, t, if s.shutdown then Ended(Err(ShuttingDown)) else Select(EnsureLock, OnStop));
      case Inspect =>
        TruthMoves(s, t, Prepare(0));
        TruthNextAttempt(s, t, 0);
      case Prepare(attempt) => if outcome.Chooses? { TruthMoves(s, t, Select(Launch(attempt, outcome.spec), OnStop)); }
      case Check(attempt, sidecar) =>
        TruthMoves(s, t, Select(Terminate(attempt, sidecar, RuntimeUnavailable), OnStop));
        TruthMoves(s, t, Select(Probe(attempt, sidecar), OnStop));
    }
  }

  lemma TruthServing(s: State, t: TaskId, outcome: Outcome)
    requires AllTruthful(s.tasks, s.shutdown) && t in s.tasks && !s.tasks[t].phase.Select?
    requires var phase := s.tasks[t].phase; !phase.Start? && !phase.Inspect? && !phase.Prepare? && !phase.Check?
    ensures AllTruthful(Advance(s, t, outcome).tasks, s.shutdown)
    ensures s.shutdown ==> Advance(s, t, outcome).shutdown
  {
    hide AllTruthful;
    hide Poll;
    match s.tasks[t].phase {
      case ConnectCheck =>
        TruthMoves(s, t, Ended(Err(RuntimeUnavailable)));
        if s.running.Some? { TruthMoves(s, t, Connected(s.running.value)); }
      case StatusLock => TruthMoves(s, t, StatusCheck);
      case StatusCheck =>
        TruthMoves(s, t, Reported(true));
        TruthMoves(s, t, Reported(false));
      case ShutdownFlag => TruthMoves(s, t, ShutdownLock);
      case ShutdownLock => TruthMoves(s, t, ShutdownTake);
      case ShutdownTake =>
        TruthMoves(s, t, ShutdownReturned);
        if s.running.Some? { TruthMoves(s, t, ShutdownKill(s.running.value.child)); }
      case ShutdownKill(child) => TruthMoves(s, t, ShutdownReturned);
      case _ =>
    }
  }

  /** Raising a flag, an arrival or a dropped future makes no error untrue. */
  lemma TruthSurroundings(s: State, a: Action)
    requires AllTruthful(s.tasks, s.shutdown) && !a.Step?
    ensures AllTruthful(Next(s, a).tasks, s.shutdown) && Next(s, a).shutdown == s.shutdown
  {
  }

  lemma TruthNext(s: State, a: Action)
    requires AllTruthful(s.tasks, s.shutdown)
    ensures AllTruthful(Next(s, a).tasks, Next(s, a).shutdown)
  {
    hide Poll;
    match a {
      case Step(t, outcome) =>
        if t in s.tasks {
          var phase := s.tasks[t].phase;
          if phase.Select? { TruthPoll(s, t, phase.await, phase.branch, outcome); }
          else if phase.Start? || phase.Inspect? || phase.Prepare? || phase.Check? { TruthEnsuring(s, t, outcome); }
          else {
            TruthServing(s, t, outcome);
            hide Advance;
            TruthGrows(Advance(s, t, outcome), s.shutdown);
          }
        }
      case _ => TruthSurroundings(s, a);
    }
  }

  lemma TruthGrows(s: State, before: bool)
    requires AllTruthful(s.tasks, before) && (before ==> s.shutdown)
    ensures AllTruthful(s.tasks, s.shutdown)
  {
  }

  lemma {:induction false} TruthAlways(s: State, actions: seq<Action>)
    requires AllTruthful(s.tasks, s.shutdown)
    ensures AllTruthful(Exec(s, actions).tasks, Exec(s, actions).shutdown)
    decreases |actions|
  {
    if actions != [] {
      TruthNext(s, actions[0]);
      TruthAlways(Next(s, actions[0]), actions[1..]);
    }
  }

  /** A call that ends in a stop error has the flag of that error raised, in every interleaving. */
  lemma StopErrorsAreTrue(actions: seq<Action>, t: TaskId, error: EngineError)
    requires t in Exec(INIT, actions).tasks && Exec(INIT, actions).tasks[t].phase == Ended(Err(error))
    ensures var s := Exec(INIT, actions);
            FlagSet(s.shutdown, s.tasks[t], error)
  {
    TruthAlways(INIT, actions);
    var s := Exec(INIT, actions);
    assert Truthful(s.shutdown, s.tasks[t], s.tasks[t].phase);
  }
}
