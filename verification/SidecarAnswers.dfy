/**
 What a call of ensure_running and connection comes to: it is served by the sidecar that is
 already running, launches one if there is none, ends with the stop flag that was raised, and
 fails for no reason but the source's own.
 */
module SidecarAnswers {
  import opened Domain
  import opened SidecarLifecycle

  // ---- Steps of one task ----

  function Steps(t: TaskId, outcomes: seq<Outcome>): seq<Action> {
    seq(|outcomes|, i requires 0 <= i < |outcomes| => Step(t, outcomes[i]))
  }

  function After(s: State, t: TaskId, outcomes: seq<Outcome>): State {
    Exec(s, Steps(t, outcomes))
  }

  lemma OneStep(s: State, t: TaskId, outcome: Outcome)
    requires t in s.tasks
    ensures After(s, t, [outcome]) == Advance(s, t, outcome)
  {
    var one := Steps(t, [outcome]);
    assert one[1..] == [];
    assert Exec(s, one) == Exec(Next(s, one[0]), one[1..]) == Next(s, one[0]);
  }

  lemma AfterConcat(s: State, t: TaskId, a: seq<Outcome>, b: seq<Outcome>)
    ensures After(s, t, a + b) == After(After(s, t, a), t, b)
  {
    assert Steps(t, a + b) == Steps(t, a) + Steps(t, b);
    hide Exec;
    ExecConcat(s, Steps(t, a), Steps(t, b));
  }

  lemma GotoTwice(s: State, t: TaskId, phase: Phase, next: Phase)
    requires t in s.tasks
    ensures Goto(Goto(s, t, phase), t, next) == Goto(s, t, next)
  {
  }

  /** No stop flag that this task reads is raised. */
  predicate NoFlag(s: State, t: TaskId)
    requires t in s.tasks
  {
    s.tasks[t].stop.None? && !s.tasks[t].disconnected && !s.shutdown
  }

  /** One round of a `select!` that no flag interrupts: three looks and a poll. */
  function Round(outcome: Outcome): seq<Outcome> {
    [Pending, Pending, Pending, outcome]
  }

  lemma LooksOn(s: State, t: TaskId, await: Await)
    requires t in s.tasks && s.tasks[t].phase == Select(await, OnStop) && NoFlag(s, t)
    ensures After(s, t, [Pending, Pending, Pending]) == Goto(s, t, Select(await, OnOperation))
  {
    hide Operate;
    var s1, s2 := Goto(s, t, Select(await, OnDisconnect)), Goto(s, t, Select(await, OnShutdown));
    OneStep(s, t, Pending);
    OneStep(s1, t, Pending);
    OneStep(s2, t, Pending);
    GotoTwice(s, t, Select(await, OnDisconnect), Select(await, OnShutdown));
    GotoTwice(s, t, Select(await, OnShutdown), Select(await, OnOperation));
    AfterConcat(s, t, [Pending], [Pending]);
    AfterConcat(s, t, [Pending, Pending], [Pending]);
    assert [Pending] + [Pending] == [Pending, Pending];
    assert [Pending, Pending] + [Pending] == [Pending, Pending, Pending];
  }

  lemma RoundPolls(s: State, t: TaskId, await: Await, outcome: Outcome)
    requires t in s.tasks && s.tasks[t].phase == Select(await, OnStop) && NoFlag(s, t)
    ensures After(s, t, Round(outcome)) == Operate(Goto(s, t, Select(await, OnOperation)), t, await, outcome)
  {
    LooksOn(s, t, await);
    var polled := Goto(s, t, Select(await, OnOperation));
    OneStep(polled, t, outcome);
    AfterConcat(s, t, [Pending, Pending, Pending], [outcome]);
    assert Round(outcome) == [Pending, Pending, Pending] + [outcome];
    hide Operate;
  }

  // ---- A live sidecar serves ----

  predicate LiveSidecar(s: State) {
    s.running.Some? && s.running.value.child !in s.exited
  }

  /** Inspecting the sidecar: a live one is kept and ends the call well, any other is replaced. */
  lemma InspectAnswers(actions: seq<Action>, t: TaskId, outcome: Outcome)
    requires t in Exec(INIT, actions).tasks && Exec(INIT, actions).tasks[t].phase == Inspect && !outcome.Fails?
    ensures var s, s' := Exec(INIT, actions), Exec(INIT, actions + [Step(t, outcome)]);
            && s'.launched == s.launched && s'.exited == s.exited && s'.healthy == s.healthy
            && t in s'.tasks && s'.tasks == s.tasks[t := s'.tasks[t]]
            && (LiveSidecar(s) ==>
                  && s'.running == s.running && s'.gone == s.gone && s'.owner.None?
                  && s'.tasks[t] == s.tasks[t].(phase := if s.tasks[t].connects then Select(ConnectLock, OnStop)
                                                         else Ended(Ok(()))))
            && (!LiveSidecar(s) ==>
                  && s'.running.None? && s'.owner == Some(t) && s'.tasks[t] == s.tasks[t].(phase := Prepare(0))
                  && s'.gone == s.gone + if s.running.Some? then {s.running.value.child} else {})
  {
    InvInit();
    InvAlways(INIT, actions);
    OneTask(Exec(INIT, actions), t);
    ExecLast(INIT, actions, Step(t, outcome));
    hide Exec;
    hide Inv;
    assert Exec(INIT, actions).gone + {} == Exec(INIT, actions).gone;
  }

  /** Taking the free lock for a look at the sidecar. */
  lemma TakesLock(s: State, t: TaskId)
    requires t in s.tasks && s.tasks[t].phase == Select(EnsureLock, OnStop) && NoFlag(s, t) && s.owner.None?
    ensures After(s, t, Round(Succeeds)) == Goto(s, t, Inspect).(owner := Some(t))
  {
    RoundPolls(s, t, EnsureLock, Succeeds);
    GotoTwice(s, t, Select(EnsureLock, OnOperation), Inspect);
  }

  /** From behind ensure_running to the connection. */
  lemma Connects(s: State, t: TaskId)
    requires t in s.tasks && s.tasks[t].phase == Select(ConnectLock, OnStop) && NoFlag(s, t)
    requires s.owner.None? && LiveSidecar(s)
    ensures After(s, t, Round(Succeeds) + [Succeeds]) == Goto(s, t, Connected(s.running.value))
  {
    var locked := Goto(s, t, ConnectCheck).(owner := Some(t));
    RoundPolls(s, t, ConnectLock, Succeeds);
    GotoTwice(s, t, Select(ConnectLock, OnOperation), ConnectCheck);
    AfterConcat(s, t, Round(Succeeds), [Succeeds]);
    assert After(s, t, Round(Succeeds)) == locked;
    OneStep(locked, t, Succeeds);
    GotoTwice(s, t, ConnectCheck, Connected(s.running.value));
  }

  /**
   A call that finds the lock free, a live sidecar and no flag raised gets just that sidecar's
   endpoint and bearer, and leaves everything else as it was.
   */
  lemma LiveSidecarServes(s: State, t: TaskId)
    requires t in s.tasks && s.tasks[t].phase == Start && NoFlag(s, t) && s.owner.None? && LiveSidecar(s)
    ensures var ensured := After(s, t, [Succeeds] + Round(Succeeds) + [Succeeds]);
            if s.tasks[t].connects then
              After(ensured, t, Round(Succeeds) + [Succeeds]) == Goto(s, t, Connected(s.running.value))
            else ensured == Goto(s, t, Ended(Ok(())))
  {
    var selecting := Goto(s, t, Select(EnsureLock, OnStop));
    var locked := Goto(selecting, t, Inspect).(owner := Some(t));
    AfterConcat(s, t, [Succeeds] + Round(Succeeds), [Succeeds]);
    AfterConcat(s, t, [Succeeds], Round(Succeeds));
    OneStep(s, t, Succeeds);
    TakesLock(selecting, t);
    OneStep(locked, t, Succeeds);
    hide After;
    hide Poll;
    hide Round;
    var end := if s.tasks[t].connects then Select(ConnectLock, OnStop) else Ended(Ok(()));
    GotoTwice(s, t, Select(EnsureLock, OnStop), Inspect);
    GotoTwice(s, t, Inspect, end);
    var ensured := Goto(s, t, end);
    assert Advance(locked, t, Succeeds) == ensured;
    if s.tasks[t].connects {
      Connects(ensured, t);
      GotoTwice(s, t, end, Connected(s.running.value));
    }
  }

  // ---- A sidecar is launched if none runs ----

  lemma Reach(s: State, t: TaskId, a: seq<Outcome>, mid: State, b: seq<Outcome>, end: State)
    requires After(s, t, a) == mid && After(mid, t, b) == end
    ensures After(s, t, a + b) == end
  {
    AfterConcat(s, t, a, b);
  }

  lemma FindsNone(s: State, t: TaskId)
    requires t in s.tasks && s.tasks[t].phase == Start && NoFlag(s, t) && s.owner.None? && s.running.None?
    ensures After(s, t, [Succeeds] + Round(Succeeds) + [Succeeds]) == Goto(s, t, Prepare(0)).(owner := Some(t))
  {
    var selecting := Goto(s, t, Select(EnsureLock, OnStop));
    var locked := Goto(selecting, t, Inspect).(owner := Some(t));
    OneStep(s, t, Succeeds);
    TakesLock(selecting, t);
    OneStep(locked, t, Succeeds);
    GotoTwice(s, t, Select(EnsureLock, OnStop), Inspect);
    GotoTwice(s, t, Inspect, Prepare(0));
    hide After;
    hide Round;
    hide Poll;
    Reach(s, t, [Succeeds], selecting, Round(Succeeds), locked);
    Reach(s, t, [Succeeds] + Round(Succeeds), locked, [Succeeds], Goto(s, t, Prepare(0)).(owner := Some(t)));
  }

  /** What a launch that turns out healthy leaves: the child is running and the call goes on without the lock. */
  function Installed(s: State, t: TaskId, spec: Spec): State
    requires t in s.tasks
  {
    var sidecar := Sidecar(|s.launched|, spec);
    s.(tasks := s.tasks[t := s.tasks[t].(phase := if s.tasks[t].connects then Select(ConnectLock, OnStop)
                                                  else Ended(Ok(())))],
       owner := None, running := Some(sidecar), launched := s.launched + [spec],
       healthy := s.healthy + {sidecar.child})
  }

  lemma LaunchRound(s: State, t: TaskId, attempt: nat, spec: Spec)
    requires t in s.tasks && NoFlag(s, t)
    ensures After(Goto(s, t, Select(Launch(attempt, spec), OnStop)), t, Round(Succeeds))
            == Goto(s, t, Check(attempt, Sidecar(|s.launched|, spec))).(launched := s.launched + [spec])
  {
    var launching := Goto(s, t, Select(Launch(attempt, spec), OnStop));
    RoundPolls(launching, t, Launch(attempt, spec), Succeeds);
    hide After;
  }

  lemma ProbeRound(s: State, t: TaskId, attempt: nat, spec: Spec)
    requires t in s.tasks && NoFlag(s, t)
    ensures var sidecar := Sidecar(|s.launched|, spec);
            var checking := Goto(s, t, Check(attempt, sidecar)).(launched := s.launched + [spec]);
            After(Goto(checking, t, Select(Probe(attempt, sidecar), OnStop)), t, Round(Succeeds))
            == Installed(s, t, spec)
  {
    var sidecar := Sidecar(|s.launched|, spec);
    var checking := Goto(s, t, Check(attempt, sidecar)).(launched := s.launched + [spec]);
    RoundPolls(Goto(checking, t, Select(Probe(attempt, sidecar), OnStop)), t, Probe(attempt, sidecar), Succeeds);
    hide After;
  }

  /** Any attempt whose launch and first probe succeed installs the child it launched. */
  lemma AttemptInstalls(s: State, t: TaskId, attempt: nat, spec: Spec)
    requires t in s.tasks && s.tasks[t].phase == Prepare(attempt) && NoFlag(s, t) && |s.launched| !in s.exited
    ensures After(s, t, [Chooses(spec)] + Round(Succeeds) + [Succeeds] + Round(Succeeds)) == Installed(s, t, spec)
  {
    var sidecar := Sidecar(|s.launched|, spec);
    var launching := Goto(s, t, Select(Launch(attempt, spec), OnStop));
    var checking := Goto(s, t, Check(attempt, sidecar)).(launched := s.launched + [spec]);
    var probing := Goto(checking, t, Select(Probe(attempt, sidecar), OnStop));
    OneStep(s, t, Chooses(spec));
    assert After(s, t, [Chooses(spec)]) == launching;
    LaunchRound(s, t, attempt, spec);
    OneStep(checking, t, Succeeds);
    ProbeRound(s, t, attempt, spec);
    hide After;
    hide Round;
    hide Poll;
    assert After(checking, t, [Succeeds]) == probing;
    Reach(s, t, [Chooses(spec)], launching, Round(Succeeds), checking);
    Reach(s, t, [Chooses(spec)] + Round(Succeeds), checking, [Succeeds], probing);
    Reach(s, t, [Chooses(spec)] + Round(Succeeds) + [Succeeds], probing, Round(Succeeds), Installed(s, t, spec));
  }

  /**
   With no sidecar running, the lock free and no flag raised, a call whose launch and probe
   succeed launches exactly one child and gets that child's endpoint and bearer.
   */
  lemma LaunchServes(s: State, t: TaskId, spec: Spec)
    requires t in s.tasks && s.tasks[t].phase == Start && s.tasks[t].connects && NoFlag(s, t)
    requires s.owner.None? && s.running.None? && |s.launched| !in s.exited
    ensures var prepared := After(s, t, [Succeeds] + Round(Succeeds) + [Succeeds]);
            var installed := After(prepared, t, [Chooses(spec)] + Round(Succeeds) + [Succeeds] + Round(Succeeds));
            After(installed, t, Round(Succeeds) + [Succeeds])
            == Goto(Installed(s, t, spec), t, Connected(Sidecar(|s.launched|, spec)))
  {
    var prepared := Goto(s, t, Prepare(0)).(owner := Some(t));
    FindsNone(s, t);
    AttemptInstalls(prepared, t, 0, spec);
    hide After;
    hide Round;
    assert Installed(prepared, t, spec) == Installed(s, t, spec);
    Connects(Installed(s, t, spec), t);
  }

  /** A probe that is refused before the deadline is repeated after its sleep, as if nothing had happened. */
  lemma RefusalIsRetried(s: State, t: TaskId, attempt: nat, sidecar: Sidecar)
    requires t in s.tasks && s.tasks[t].phase == Select(Probe(attempt, sidecar), OnStop) && NoFlag(s, t)
    requires sidecar.child !in s.exited
    ensures After(s, t, Round(Refused(false)) + Round(Succeeds) + [Succeeds]) == s
  {
    var sleeping := Goto(s, t, Select(ProbeSleep(attempt, sidecar), OnStop));
    var checking := Goto(s, t, Check(attempt, sidecar));
    RoundPolls(s, t, Probe(attempt, sidecar), Refused(false));
    assert After(s, t, Round(Refused(false))) == sleeping;
    RoundPolls(sleeping, t, ProbeSleep(attempt, sidecar), Succeeds);
    assert After(sleeping, t, Round(Succeeds)) == checking;
    OneStep(checking, t, Succeeds);
    assert After(checking, t, [Succeeds]) == s;
    hide After;
    hide Round;
    Reach(s, t, Round(Refused(false)), sleeping, Round(Succeeds), checking);
    Reach(s, t, Round(Refused(false)) + Round(Succeeds), checking, [Succeeds], s);
  }

  /** A failed launch is followed by the next attempt, after its backoff; after the third there is none. */
  lemma FailedLaunchIsRetried(s: State, t: TaskId, attempt: nat, spec: Spec)
    requires t in s.tasks && s.tasks[t].phase == Select(Launch(attempt, spec), OnStop) && NoFlag(s, t)
    ensures attempt < 2 ==> After(s, t, Round(Fails) + Round(Succeeds)) == Goto(s, t, Prepare(attempt + 1))
    ensures attempt == 2 ==>
              After(s, t, Round(Fails)) == Goto(s, t, Ended(Err(RuntimeUnavailable))).(owner := None)
  {
    RoundPolls(s, t, Launch(attempt, spec), Fails);
    RetriedFrom(s, t, Select(Launch(attempt, spec), OnOperation), attempt);
    if attempt < 2 {
      Reach(s, t, Round(Fails), NextAttempt(s, t, attempt), Round(Succeeds), Goto(s, t, Prepare(attempt + 1)));
    }
  }

  /** A child that did not become ready is gone before the next attempt. */
  lemma TerminatedIsRetried(s: State, t: TaskId, attempt: nat, sidecar: Sidecar)
    requires t in s.tasks && NoFlag(s, t)
    requires s.tasks[t].phase == Select(Terminate(attempt, sidecar, RuntimeUnavailable), OnStop)
    ensures var dropped := s.(gone := s.gone + {sidecar.child});
            && (attempt < 2 ==>
                  After(s, t, Round(Succeeds) + Round(Succeeds)) == Goto(dropped, t, Prepare(attempt + 1)))
            && (attempt == 2 ==>
                  After(s, t, Round(Succeeds)) == Goto(dropped, t, Ended(Err(RuntimeUnavailable))).(owner := None))
  {
    var dropped := Drop(s, sidecar.child);
    RoundPolls(s, t, Terminate(attempt, sidecar, RuntimeUnavailable), Succeeds);
    RetriedFrom(dropped, t, Select(Terminate(attempt, sidecar, RuntimeUnavailable), OnOperation), attempt);
    if attempt < 2 {
      var next := Goto(dropped, t, Prepare(attempt + 1));
      Reach(s, t, Round(Succeeds), NextAttempt(dropped, t, attempt), Round(Succeeds), next);
    }
  }

  /** The next attempt, its backoff slept through. */
  lemma RetriedFrom(s: State, t: TaskId, polled: Phase, attempt: nat)
    requires t in s.tasks && NoFlag(s, t)
    ensures NextAttempt(Goto(s, t, polled), t, attempt) == NextAttempt(s, t, attempt)
    ensures attempt < 2 ==>
              After(NextAttempt(s, t, attempt), t, Round(Succeeds)) == Goto(s, t, Prepare(attempt + 1))
    ensures attempt == 2 ==>
              NextAttempt(s, t, attempt) == Goto(s, t, Ended(Err(RuntimeUnavailable))).(owner := None)
  {
    if attempt < 2 {
      var next := NextAttempt(s, t, attempt);
      RoundPolls(next, t, Backoff(attempt + 1), Succeeds);
    }
  }

  // ---- Raised flags end calls ----

  /** The first flag a `select!` of this task comes to, and how many looks it takes to see it. */
  function FirstFlag(s: State, t: TaskId): Option<(EngineError, nat)>
    requires t in s.tasks
  {
    if s.tasks[t].stop.Some? then Some((MapStop(s.tasks[t].stop.value), 1))
    else if s.tasks[t].disconnected then Some((EngineError.Cancelled, 2))
    else if s.shutdown then Some((ShuttingDown, 3))
    else None
  }

  function Looks(n: nat): seq<Outcome> {
    seq(n, i requires 0 <= i < n => Pending)
  }

  /** Two waits follow a child that is being probed: the probe's own and that for its termination. */
  predicate Probing(await: Await) {
    await.Probe? || await.ProbeSleep?
  }

  /** The call has ended with this error, without the lock and without the child it held. */
  function EndedBy(s: State, t: TaskId, await: Await, error: EngineError): State
    requires t in s.tasks
  {
    s.(tasks := s.tasks[t := s.tasks[t].(phase := Ended(Err(error)))],
       owner := if await.EnsureLock? || await.ConnectLock? then s.owner else None,
       gone := s.gone + match await
                        case Probe(_, sidecar) => {sidecar.child}
                        case ProbeSleep(_, sidecar) => {sidecar.child}
                        case Terminate(_, sidecar, _) => {sidecar.child}
                        case _ => {})
  }

  lemma FlagInterrupts(s: State, t: TaskId, await: Await)
    requires t in s.tasks && s.tasks[t].phase == Select(await, OnStop) && FirstFlag(s, t).Some?
    ensures var (error, looks) := FirstFlag(s, t).value;
            After(s, t, Looks(looks)) == Interrupt(s, t, await, error)
  {
    hide Operate;
    var (error, looks) := FirstFlag(s, t).value;
    var s1, s2 := Goto(s, t, Select(await, OnDisconnect)), Goto(s, t, Select(await, OnShutdown));
    assert Looks(1) == [Pending] && Looks(2) == [Pending] + [Pending] && Looks(3) == Looks(2) + [Pending];
    OneStep(s, t, Pending);
    if looks > 1 {
      OneStep(s1, t, Pending);
      GotoTwice(s, t, Select(await, OnDisconnect), Select(await, OnShutdown));
      InterruptFrom(s, t, Select(await, OnDisconnect), await, error);
      Reach(s, t, [Pending], s1, [Pending], Advance(s1, t, Pending));
    }
    if looks > 2 {
      OneStep(s2, t, Pending);
      InterruptFrom(s, t, Select(await, OnShutdown), await, error);
      Reach(s, t, Looks(2), s2, [Pending], Advance(s2, t, Pending));
    }
  }

  lemma InterruptFrom(s: State, t: TaskId, polled: Phase, await: Await, error: EngineError)
    requires t in s.tasks
    ensures Interrupt(Goto(s, t, polled), t, await, error) == Interrupt(s, t, await, error)
  {
  }

  lemma TerminationEnds(s: State, t: TaskId, await: Await, error: EngineError)
    requires t in s.tasks && Probing(await)
    ensures var terminate := Terminate(await.attempt, await.sidecar, error);
            Interrupt(Goto(s, t, Select(terminate, OnStop)), t, terminate, error) == EndedBy(s, t, await, error)
  {
  }

  /**
   A raised flag ends a call at whatever `select!` it waits: with the first flag's own error,
   without the lock, without its child and with nothing else changed.
   */
  lemma FlagEndsCall(s: State, t: TaskId, await: Await)
    requires t in s.tasks && s.tasks[t].phase == Select(await, OnStop) && FirstFlag(s, t).Some?
    ensures var (error, looks) := FirstFlag(s, t).value;
            After(s, t, Looks(if Probing(await) then 2 * looks else looks)) == EndedBy(s, t, await, error)
  {
    var (error, looks) := FirstFlag(s, t).value;
    FlagInterrupts(s, t, await);
    assert s.gone + {} == s.gone;
    hide After;
    if Probing(await) {
      var attempt, sidecar := await.attempt, await.sidecar;
      var terminating := Goto(s, t, Select(Terminate(attempt, sidecar, error), OnStop));
      FlagInterrupts(terminating, t, Terminate(attempt, sidecar, error));
      TerminationEnds(s, t, await, error);
      hide Interrupt;
      hide EndedBy;
      assert Looks(2 * looks) == Looks(looks) + Looks(looks);
      Reach(s, t, Looks(looks), terminating, Looks(looks), EndedBy(s, t, await, error));
    }
  }

  // ---- Connection, status and shutdown ----

  /** With the lock, a connection is made to the sidecar that is running and alive, and refused otherwise. */
  lemma ConnectAnswers(s: State, t: TaskId, outcome: Outcome)
    requires t in s.tasks && s.tasks[t].phase == ConnectCheck
    ensures var s' := After(s, t, [outcome]);
            if LiveSidecar(s) && !outcome.Fails? then s' == Goto(s, t, Connected(s.running.value)).(owner := None)
            else && s'.tasks == s.tasks[t := s.tasks[t].(phase := Ended(Err(RuntimeUnavailable)))] && s'.owner.None?
                 && (outcome.Fails? ==> s'.running == s.running && s'.gone == s.gone)
                 && (!outcome.Fails? && s.running.Some? ==>
                       s'.running.None? && s'.gone == s.gone + {s.running.value.child})
  {
    OneStep(s, t, outcome);
  }

  /** A status report says whether a sidecar runs, is alive and could be asked; any other is dropped. */
  lemma StatusAnswers(s: State, t: TaskId, outcome: Outcome)
    requires t in s.tasks && s.tasks[t].phase == StatusLock && s.owner.None?
    ensures var s' := After(s, t, [Succeeds] + [outcome]);
            var ready := LiveSidecar(s) && !outcome.Fails?;
            && s'.tasks == s.tasks[t := s.tasks[t].(phase := Reported(ready))] && s'.owner.None?
            && s'.running == (if ready then s.running else None)
            && s'.gone == s.gone + (if !ready && s.running.Some? then {s.running.value.child} else {})
            && s'.launched == s.launched && s'.shutdown == s.shutdown
  {
    var locked := Goto(s, t, StatusCheck).(owner := Some(t));
    OneStep(s, t, Succeeds);
    OneStep(locked, t, outcome);
    AfterConcat(s, t, [Succeeds], [outcome]);
    assert s.gone + {} == s.gone;
  }

  /** A shutdown that finds the lock free raises the flag, takes the running child and returns when it is gone. */
  lemma ShutdownCompletes(s: State, t: TaskId)
    requires t in s.tasks && s.tasks[t].phase == ShutdownFlag && s.owner.None?
    ensures var taken := After(s, t, [Succeeds] + [Succeeds] + [Succeeds]);
            var end := if s.running.Some? then After(taken, t, [Succeeds]) else taken;
            && taken.shutdown && taken.running.None?
            && end == s.(tasks := s.tasks[t := s.tasks[t].(phase := ShutdownReturned)],
                         running := None, shutdown := true, returned := true,
                         gone := s.gone + if s.running.Some? then {s.running.value.child} else {})
  {
    var raised := Goto(s, t, ShutdownLock).(shutdown := true);
    var locked := Goto(raised, t, ShutdownTake).(owner := Some(t));
    OneStep(s, t, Succeeds);
    OneStep(raised, t, Succeeds);
    OneStep(locked, t, Succeeds);
    AfterConcat(s, t, [Succeeds] + [Succeeds], [Succeeds]);
    AfterConcat(s, t, [Succeeds], [Succeeds]);
    hide Poll;
    hide After;
    assert s.gone + {} == s.gone;
    if s.running.Some? { OneStep(Advance(locked, t, Succeeds), t, Succeeds); }
  }
}
