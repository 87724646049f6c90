/**
 Why a call of the sidecar lifecycle fails: every `RuntimeUnavailable` has one of four causes,
 and giving up is preceded by exactly three failed attempts.
 */
module SidecarFailures {
  import opened Domain
  import opened SidecarLifecycle
  import opened SidecarBudget

  /** A launch that fails, or a child that did not become ready and is now terminated. */
  predicate AttemptFails(s: State, t: TaskId, outcome: Outcome) {
    && t in s.tasks && s.tasks[t].phase.Select? && s.tasks[t].phase.branch.OnOperation? && !outcome.Pending?
    && match s.tasks[t].phase.await
       case Launch(_, _) => !outcome.Succeeds?
       case Terminate(_, _, why) => !IsStop(why)
       case _ => false
  }

  datatype Cause = ExitQueryFailed | PreparationFailed | AttemptsExhausted | NothingToConnectTo

  /** The step of this task that may end its call as unavailable, by its cause. */
  predicate Causes(s: State, t: TaskId, outcome: Outcome, cause: Cause) {
    && t in s.tasks
    && match cause
       case ExitQueryFailed =>
         (s.tasks[t].phase.Inspect? || s.tasks[t].phase.ConnectCheck?) && s.running.Some? && outcome.Fails?
       case PreparationFailed => s.tasks[t].phase.Prepare? && !outcome.Chooses?
       case AttemptsExhausted => AttemptFails(s, t, outcome) && s.tasks[t].phase.await.attempt + 1 >= LAUNCH_ATTEMPTS
       case NothingToConnectTo =>
         s.tasks[t].phase.ConnectCheck? && (s.running.None? || s.running.value.child in s.exited)
  }

  predicate IsUnavailable(s: State, t: TaskId) {
    t in s.tasks && s.tasks[t].phase == Ended(Err(RuntimeUnavailable))
  }

  /** The same attempt, its launch now behind it. */
  function Launched(await: Await): Option<(nat, bool)> {
    match AttemptOf(Select(await, OnOperation))
    case Some((attempt, _)) => Some((attempt, true))
    case None => None
  }

  /** Where a step leads a task that waits for this: on to the next attempt or the end after a failed one. */
  predicate Leads(await: Await, failed: bool, phase: Phase) {
    if failed then
      (await.Launch? || await.Terminate?)
      && phase == if await.attempt + 1 < LAUNCH_ATTEMPTS then Select(Backoff(await.attempt + 1), OnStop)
                  else Ended(Err(RuntimeUnavailable))
    else
      && phase != Ended(Err(RuntimeUnavailable))
      && (BeforeAttempts(phase) ==> await.EnsureLock?)
      && (await.EnsureLock? || AttemptOf(phase) in {None, AttemptOf(Select(await, OnOperation)), Launched(await)})
      && (await.EnsureLock? ==> AttemptOf(phase).None?)
  }

  lemma OperateLeads(s: State, t: TaskId, await: Await, outcome: Outcome)
    requires t in s.tasks
    ensures t in Operate(s, t, await, outcome).tasks
    ensures var failed := !outcome.Pending? && ((await.Launch? && !outcome.Succeeds?)
                                                || (await.Terminate? && !IsStop(await.why)));
            Leads(await, failed, Operate(s, t, await, outcome).tasks[t].phase)
  {
    match await {
      case EnsureLock =>
      case ConnectLock =>
      case Backoff(_) =>
      case Launch(_, _) =>
      case Probe(_, _) =>
      case ProbeSleep(_, _) =>
      case Terminate(_, _, _) =>
    }
  }

  lemma InterruptLeads(s: State, t: TaskId, await: Await, error: EngineError)
    requires t in s.tasks && IsStop(error)
    ensures t in Interrupt(s, t, await, error).tasks
    ensures Leads(await, false, Interrupt(s, t, await, error).tasks[t].phase)
  {
    match await {
      case Probe(_, _) =>
      case ProbeSleep(_, _) =>
      case _ =>
    }
  }

  lemma LookLeads(s: State, t: TaskId, await: Await, branch: Branch)
    requires t in s.tasks
    ensures t in Goto(s, t, Select(await, branch)).tasks
    ensures Leads(await, false, Goto(s, t, Select(await, branch)).tasks[t].phase)
  {
  }

  lemma PollLeads(s: State, t: TaskId, await: Await, branch: Branch, outcome: Outcome)
    requires t in s.tasks && s.tasks[t].phase == Select(await, branch)
    ensures var s' := Poll(s, t, await, branch, outcome);
            t in s'.tasks && Leads(await, AttemptFails(s, t, outcome), s'.tasks[t].phase)
  {
    hide Operate;
    hide Interrupt;
    hide Goto;
    match branch {
      case OnOperation =>
        OperateLeads(s, t, await, outcome);
        hide Leads;
      case OnStop =>
        LookLeads(s, t, await, OnDisconnect);
        if s.tasks[t].stop.Some? { InterruptLeads(s, t, await, MapStop(s.tasks[t].stop.value)); }
        hide Leads;
      case OnDisconnect =>
        LookLeads(s, t, await, OnShutdown);
        InterruptLeads(s, t, await, EngineError.Cancelled);
        hide Leads;
      case OnShutdown =>
        LookLeads(s, t, await, OnOperation);
        InterruptLeads(s, t, await, ShuttingDown);
        hide Leads;
    }
  }

  lemma PollUnavailable(s: State, t: TaskId, outcome: Outcome)
    requires t in s.tasks && s.tasks[t].phase.Select?
    ensures IsUnavailable(Advance(s, t, outcome), t) <==> Causes(s, t, outcome, AttemptsExhausted)
  {
    PollLeads(s, t, s.tasks[t].phase.await, s.tasks[t].phase.branch, outcome);
    hide Poll;
    hide AttemptOf;
    hide BeforeAttempts;
  }

  predicate Ensuring(phase: Phase) {
    phase.Start? || phase.Inspect? || phase.Prepare? || phase.Check?
  }

  /** The phases between two `select!`s of ensure_running. */
  lemma EnsuringPhase(s: State, t: TaskId, outcome: Outcome)
    requires t in s.tasks && Ensuring(s.tasks[t].phase)
    ensures t in Advance(s, t, outcome).tasks
    ensures var before, phase := s.tasks[t].phase, Advance(s, t, outcome).tasks[t].phase;
            match before
            case Start => phase in {Ended(Err(ShuttingDown)), Select(EnsureLock, OnStop)}
            case Inspect =>
              if s.running.Some? && outcome.Fails? then phase == Ended(Err(RuntimeUnavailable))
              else phase in {Prepare(0), Ended(Ok(())), Select(ConnectLock, OnStop)}
            case Prepare(attempt) =>
              if !outcome.Chooses? then phase == Ended(Err(RuntimeUnavailable))
              else phase == Select(Launch(attempt, outcome.spec), OnStop)
            case Check(attempt, sidecar) =>
              phase in {Select(Terminate(attempt, sidecar, RuntimeUnavailable), OnStop),
                        Select(Probe(attempt, sidecar), OnStop)}
  {
    hide Poll;
  }

  lemma ConnectPhase(s: State, t: TaskId, outcome: Outcome)
    requires t in s.tasks && s.tasks[t].phase.ConnectCheck?
    ensures t in Advance(s, t, outcome).tasks
    ensures var phase := Advance(s, t, outcome).tasks[t].phase;
            if s.running.None? || outcome.Fails? || s.running.value.child in s.exited
            then phase == Ended(Err(RuntimeUnavailable)) else phase == Connected(s.running.value)
  {
    hide Poll;
  }

  /** Status and shutdown stay among themselves, and what has ended stays as it is. */
  lemma OtherPhase(s: State, t: TaskId, outcome: Outcome)
    requires t in s.tasks
    requires var phase := s.tasks[t].phase; !phase.Select? && !Ensuring(phase) && !phase.ConnectCheck?
    ensures t in Advance(s, t, outcome).tasks
    ensures var phase := Advance(s, t, outcome).tasks[t].phase;
            || phase == s.tasks[t].phase
            || phase.StatusCheck? || phase.Reported?
            || phase.ShutdownLock? || phase.ShutdownTake? || phase.ShutdownKill? || phase.ShutdownReturned?
  {
    hide Poll;
  }

  lemma BetweenUnavailable(s: State, t: TaskId, outcome: Outcome)
    requires t in s.tasks && !s.tasks[t].phase.Select? && !IsUnavailable(s, t)
    ensures IsUnavailable(Advance(s, t, outcome), t)
            <==> || Causes(s, t, outcome, ExitQueryFailed)
                 || Causes(s, t, outcome, PreparationFailed)
                 || Causes(s, t, outcome, NothingToConnectTo)
    ensures !Causes(s, t, outcome, AttemptsExhausted)
  {
    if Ensuring(s.tasks[t].phase) { EnsuringPhase(s, t, outcome); }
    else if s.tasks[t].phase.ConnectCheck? { ConnectPhase(s, t, outcome); }
    else { OtherPhase(s, t, outcome); }
    hide Advance;
  }

  /** A step ends its call as unavailable exactly when it has one of these causes. */
  lemma UnavailableExactly(s: State, t: TaskId, outcome: Outcome)
    requires t in s.tasks && !IsUnavailable(s, t)
    ensures IsUnavailable(Next(s, Step(t, outcome)), t)
            <==> || Causes(s, t, outcome, ExitQueryFailed)
                 || Causes(s, t, outcome, PreparationFailed)
                 || Causes(s, t, outcome, AttemptsExhausted)
                 || Causes(s, t, outcome, NothingToConnectTo)
  {
    if s.tasks[t].phase.Select? { PollUnavailable(s, t, outcome); }
    else { BetweenUnavailable(s, t, outcome); }
    hide Advance;
  }

  /** An attempt is given up on its own account exactly for a child that ended, could not be asked or was late. */
  lemma GivenUpExactly(s: State, t: TaskId, outcome: Outcome, attempt: nat, sidecar: Sidecar)
    requires t in s.tasks
    requires s.tasks[t].phase == Check(attempt, sidecar)
             || s.tasks[t].phase == Select(Probe(attempt, sidecar), OnOperation)
    ensures var s' := Next(s, Step(t, outcome));
            && t in s'.tasks
            && (s'.tasks[t].phase == Select(Terminate(attempt, sidecar, RuntimeUnavailable), OnStop)
                <==> if s.tasks[t].phase.Check? then outcome.Fails? || sidecar.child in s.exited
                     else outcome == Refused(true))
            && s'.running == (if s.tasks[t].phase.Select? && outcome.Succeeds? then Some(sidecar) else s.running)
            && s'.gone == s.gone
  {
  }

  // ---- Failed attempts are counted ----

  function FailedAttempts(actions: seq<Action>, t: TaskId): nat {
    if actions == [] then 0
    else
      var before, a := actions[..|actions| - 1], actions[|actions| - 1];
      FailedAttempts(before, t)
      + if a.Step? && a.task == t && AttemptFails(Exec(INIT, before), t, a.outcome) then 1 else 0
  }

  /** A call in its n-th attempt has failed n times, counting from none. */
  predicate Counted(s: State, t: TaskId, n: nat) {
    if t !in s.tasks then n == 0
    else
      && (AttemptOf(s.tasks[t].phase).Some? ==> n == AttemptOf(s.tasks[t].phase).value.0)
      && (BeforeAttempts(s.tasks[t].phase) ==> n == 0)
  }

  lemma CountLeads(await: Await, branch: Branch, failed: bool, phase: Phase)
    requires Leads(await, failed, phase)
    ensures AttemptOf(phase).Some? && AttemptOf(Select(await, branch)).Some? ==>
              AttemptOf(phase).value.0 == AttemptOf(Select(await, branch)).value.0 + if failed then 1 else 0
    ensures AttemptOf(phase).Some? ==> AttemptOf(Select(await, branch)).Some?
    ensures BeforeAttempts(phase) ==> await.EnsureLock? && !failed
  {
  }

  lemma CountPoll(s: State, t: TaskId, outcome: Outcome, n: nat)
    requires t in s.tasks && s.tasks[t].phase.Select? && Counted(s, t, n)
    ensures Counted(Advance(s, t, outcome), t, n + if AttemptFails(s, t, outcome) then 1 else 0)
  {
    var await, branch := s.tasks[t].phase.await, s.tasks[t].phase.branch;
    PollLeads(s, t, await, branch, outcome);
    hide Poll;
    CountLeads(await, branch, AttemptFails(s, t, outcome), Advance(s, t, outcome).tasks[t].phase);
    hide Leads;
    hide AttemptOf;
    hide AttemptFails;
  }

  lemma CountOwnStep(s: State, t: TaskId, outcome: Outcome, n: nat)
    requires t in s.tasks && Counted(s, t, n)
    ensures Counted(Advance(s, t, outcome), t, n + if AttemptFails(s, t, outcome) then 1 else 0)
  {
    if s.tasks[t].phase.Select? {
      CountPoll(s, t, outcome, n);
      hide Counted;
    } else if Ensuring(s.tasks[t].phase) {
      EnsuringPhase(s, t, outcome);
    } else if s.tasks[t].phase.ConnectCheck? {
      ConnectPhase(s, t, outcome);
    } else {
      OtherPhase(s, t, outcome);
    }
    hide Advance;
  }

  lemma CountNext(s: State, a: Action, t: TaskId, n: nat)
    requires Counted(s, t, n)
    ensures Counted(Next(s, a), t, n + if a.Step? && a.task == t && AttemptFails(s, t, a.outcome) then 1 else 0)
  {
    if a.Step? {
      if a.task in s.tasks {
        AdvancePays(s, a.task, a.outcome);
        if a.task == t { CountOwnStep(s, t, a.outcome, n); }
      }
      hide Advance;
    } else {
      SurroundingsPhase(s, a, t);
      hide Next;
    }
  }

  lemma ExecButLast(actions: seq<Action>)
    requires actions != []
    ensures Exec(INIT, actions) == Next(Exec(INIT, actions[..|actions| - 1]), actions[|actions| - 1])
  {
    hide Exec;
    hide Next;
    ExecLast(INIT, actions[..|actions| - 1], actions[|actions| - 1]);
    assert actions == actions[..|actions| - 1] + [actions[|actions| - 1]];
  }

  lemma {:induction false} CountAlways(actions: seq<Action>, t: TaskId)
    ensures Counted(Exec(INIT, actions), t, FailedAttempts(actions, t))
    decreases |actions|
  {
    if actions != [] {
      var n := |actions| - 1;
      CountAlways(actions[..n], t);
      CountNext(Exec(INIT, actions[..n]), actions[n], t, FailedAttempts(actions[..n], t));
      ExecButLast(actions);
      hide Next;
      hide Counted;
    }
  }

  /** Only its own steps make a call unavailable. */
  lemma OthersMakeNoneUnavailable(s: State, a: Action, t: TaskId)
    requires !IsUnavailable(s, t) && !(a.Step? && a.task == t && t in s.tasks)
    ensures !IsUnavailable(Next(s, a), t)
  {
    if a.Step? {
      if a.task in s.tasks { AdvancePays(s, a.task, a.outcome); }
      hide Advance;
    } else {
      SurroundingsPhase(s, a, t);
      hide Next;
    }
  }

  /**
   In every run a call that has ended as unavailable did so by a step of its own with one of the
   four causes: the sidecar could not be asked whether it had exited, a launch could not be
   prepared, just three attempts failed, or there was no live sidecar to connect to.
   */
  lemma {:induction false} UnavailableHasCause(actions: seq<Action>, t: TaskId) returns (k: nat, cause: Cause)
    requires IsUnavailable(Exec(INIT, actions), t)
    ensures k < |actions| && actions[k].Step? && actions[k].task == t
    ensures Causes(Exec(INIT, actions[..k]), t, actions[k].outcome, cause)
    ensures cause.AttemptsExhausted? ==> FailedAttempts(actions[..k + 1], t) == 3
    decreases |actions|
  {
    if actions == [] {
      assert false;
    } else {
      var n := |actions| - 1;
      var s, a := Exec(INIT, actions[..n]), actions[n];
      ExecButLast(actions);
      if IsUnavailable(s, t) {
        k, cause := UnavailableHasCause(actions[..n], t);
        assert actions[..n][..k] == actions[..k] && actions[..n][..k + 1] == actions[..k + 1];
      } else {
        if !(a.Step? && a.task == t && t in s.tasks) { OthersMakeNoneUnavailable(s, a, t); }
        UnavailableExactly(s, t, a.outcome);
        k := n;
        cause := if Causes(s, t, a.outcome, ExitQueryFailed) then ExitQueryFailed
                 else if Causes(s, t, a.outcome, PreparationFailed) then PreparationFailed
                 else if Causes(s, t, a.outcome, NothingToConnectTo) then NothingToConnectTo
                 else AttemptsExhausted;
        hide Next;
        CountAlways(actions[..n], t);
        BudgetKept(INIT, actions[..n], t);
        assert actions[..n + 1] == actions;
      }
    }
  }
}
