/**
 The engine's two semaphores: a bounded admission queue in front of one execution lane, with
 permits that return when their holder lets go of them.
 */
module EngineAdmission {
  import opened Domain
  import opened Permits

  type TaskId = nat

  datatype Phase =
    | Calling                                       // `generate`, before it tries to admit
    | Refused(error: EngineError)
    | Waiting                                       // admitted, waits for the lane
    | Working                                       // in the lane
    | Leaving(result: Result<(), EngineError>)      // the work has returned, both permits are still held
    | LaneReturned(result: Result<(), EngineError>) // the lane permit is dropped first
    | Returned(result: Result<(), EngineError>)     // then the admission permit
    | Ended

  datatype State = State(
    tasks: map<TaskId, Phase>,
    admission: Pool,
    lane: Pool,
    queued: map<TaskId, EngineError>) // the error event each failed task put on its queue

  /** `max_concurrent` is validated to be one. */
  function Init(queueCapacity: nat): State {
    State(map[], Pool(1 + queueCapacity, 1 + queueCapacity), Pool(1, 1), map[])
  }

  datatype Action =
    | Call(task: TaskId)
    | Reject(task: TaskId, error: EngineError)                // shutdown or an invalid request
    | Admit(task: TaskId)
    | StopWaiting(task: TaskId, error: EngineError)
    | EnterLane(task: TaskId)
    | Finish(task: TaskId, result: Result<(), EngineError>)   // from any return of its work
    | DropLane(task: TaskId)
    | DropAdmission(task: TaskId)
    | QueueError(task: TaskId)

  predicate Is(s: State, t: TaskId, phase: Phase) {
    t in s.tasks && s.tasks[t] == phase
  }

  function Goto(s: State, t: TaskId, phase: Phase): State {
    s.(tasks := s.tasks[t := phase])
  }

  /** One atomic step; an action that does not apply changes nothing. */
  function Next(s: State, a: Action): State {
    var t := a.task;
    match a
    case Call(_) => if t in s.tasks then s else Goto(s, t, Calling)
    case Reject(_, error) => if Is(s, t, Calling) && !error.Overloaded? then Goto(s, t, Refused(error)) else s
    case Admit(_) =>
      if !Is(s, t, Calling) then s
      else if s.admission.free == 0 then Goto(s, t, Refused(Overloaded))
      else Goto(s, t, Waiting).(admission := Take(s.admission))
    case StopWaiting(_, error) => if Is(s, t, Waiting) then Goto(s, t, LaneReturned(Err(error))) else s
    case EnterLane(_) =>
      if Is(s, t, Waiting) && s.lane.free > 0 then Goto(s, t, Working).(lane := Take(s.lane)) else s
    case Finish(_, result) => if Is(s, t, Working) then Goto(s, t, Leaving(result)) else s
    case DropLane(_) =>
      if t in s.tasks && s.tasks[t].Leaving?
      then Goto(s, t, LaneReturned(s.tasks[t].result)).(lane := Give(s.lane)) else s
    case DropAdmission(_) =>
      if t in s.tasks && s.tasks[t].LaneReturned?
      then Goto(s, t, Returned(s.tasks[t].result)).(admission := Give(s.admission)) else s
    case QueueError(_) =>
      if t !in s.tasks || !s.tasks[t].Returned? then s
      else if s.tasks[t].result.Ok? then Goto(s, t, Ended)
      else Goto(s, t, Ended).(queued := s.queued[t := s.tasks[t].result.error])
  }

  function Exec(s: State, actions: seq<Action>): State
    decreases |actions|
  {
    if actions == [] then s else Exec(Next(s, actions[0]), actions[1..])
  }

  // ---- Conservation ----

  predicate HoldsLane(phase: Phase) {
    phase.Working? || phase.Leaving?
  }

  predicate HoldsAdmission(phase: Phase) {
    phase.Waiting? || HoldsLane(phase) || phase.LaneReturned?
  }

  function Admitted(s: State): set<TaskId> {
    set t | t in s.tasks && HoldsAdmission(s.tasks[t])
  }

  function InLane(s: State): set<TaskId> {
    set t | t in s.tasks && HoldsLane(s.tasks[t])
  }

  ghost predicate Inv(s: State, queueCapacity: nat) {
    && s.admission.capacity == 1 + queueCapacity && Conserved(s.admission, Admitted(s))
    && s.lane.capacity == 1 && Conserved(s.lane, InLane(s))
    && (forall t :: t in s.queued ==> Is(s, t, Ended))
  }

  /** One task moves to another phase, and the pools by the permits it gains or loses. */
  lemma InvGoto(s: State, s': State, queueCapacity: nat, t: TaskId, phase: Phase)
    requires Inv(s, queueCapacity) && s'.tasks == s.tasks[t := phase]
    requires Moves(s.admission, s'.admission, t in Admitted(s), HoldsAdmission(phase))
    requires Moves(s.lane, s'.lane, t in InLane(s), HoldsLane(phase))
    requires s'.queued == s.queued || (phase.Ended? && s'.queued.Keys == s.queued.Keys + {t})
    requires t in s.queued ==> phase.Ended?
    ensures Inv(s', queueCapacity)
  {
    Moved(s.admission, s'.admission, Admitted(s), Admitted(s'), t);
    Moved(s.lane, s'.lane, InLane(s), InLane(s'), t);
  }

  lemma InvNext(s: State, queueCapacity: nat, a: Action)
    requires Inv(s, queueCapacity)
    ensures Inv(Next(s, a), queueCapacity)
  {
    var t, s' := a.task, Next(s, a);
    if s' != s {
      InvGoto(s, s', queueCapacity, t, s'.tasks[t]);
    }
  }

  lemma {:induction false} InvAlways(s: State, queueCapacity: nat, actions: seq<Action>)
    requires Inv(s, queueCapacity)
    ensures Inv(Exec(s, actions), queueCapacity)
    decreases |actions|
  {
    if actions != [] {
      InvNext(s, queueCapacity, actions[0]);
      InvAlways(Next(s, actions[0]), queueCapacity, actions[1..]);
    }
  }

  lemma InvInit(queueCapacity: nat)
    ensures Inv(Init(queueCapacity), queueCapacity)
  {
  }

  /** In every run free and held permits add up, lane holders are admitted, and both bounds hold. */
  lemma PermitsConserved(queueCapacity: nat, actions: seq<Action>)
    ensures var s := Exec(Init(queueCapacity), actions);
            && s.admission.free + |Admitted(s)| == 1 + queueCapacity
            && s.lane.free + |InLane(s)| == 1
            && InLane(s) <= Admitted(s)
  {
    InvInit(queueCapacity);
    InvAlways(Init(queueCapacity), queueCapacity, actions);
  }

  /** A caller is refused as overloaded exactly when the lane and the whole queue are taken. */
  lemma OverloadedExactly(queueCapacity: nat, actions: seq<Action>, t: TaskId)
    requires Is(Exec(Init(queueCapacity), actions), t, Calling)
    ensures var s := Exec(Init(queueCapacity), actions);
            && (Is(Next(s, Admit(t)), t, Refused(Overloaded)) <==> |Admitted(s)| == 1 + queueCapacity)
            && (Is(Next(s, Admit(t)), t, Waiting) <==> |Admitted(s)| <= queueCapacity)
  {
    PermitsConserved(queueCapacity, actions);
  }

  /** When a failed task's error event is queued, it has given both permits back. */
  lemma ErrorsFollowPermits(queueCapacity: nat, actions: seq<Action>, t: TaskId)
    requires t in Exec(Init(queueCapacity), actions).queued
    ensures var s := Exec(Init(queueCapacity), actions);
            t !in Admitted(s) && t !in InLane(s)
  {
    InvInit(queueCapacity);
    InvAlways(Init(queueCapacity), queueCapacity, actions);
  }

  // ---- A call from beginning to end ----

  lemma {:induction false} ExecConcat(s: State, a: seq<Action>, b: seq<Action>)
    ensures Exec(s, a + b) == Exec(Exec(s, a), b)
    decreases |a|
  {
    if a == [] {
      assert a + b == b;
    } else {
      assert (a + b)[1..] == a[1..] + b;
      ExecConcat(Next(s, a[0]), a[1..], b);
    }
  }

  lemma ExecLast(s: State, actions: seq<Action>, a: Action)
    ensures Exec(s, actions + [a]) == Next(Exec(s, actions), a)
  {
    ExecConcat(s, actions, [a]);
    assert Exec(Exec(s, actions), [a]) == Next(Exec(s, actions), a);
  }

  function QueuedWith(s: State, t: TaskId, result: Result<(), EngineError>): map<TaskId, EngineError> {
    if result.Err? then s.queued[t := result.error] else s.queued
  }

  lemma GotoTwice(s: State, t: TaskId, phase: Phase, next: Phase)
    ensures Goto(Goto(s, t, phase), t, next) == Goto(s, t, next)
  {
  }

  /** A call that finds a place is admitted and takes just that place. */
  lemma PlaceIsTaken(s: State, t: TaskId)
    requires t !in s.tasks && s.admission.free > 0
    ensures Exec(s, [Call(t), Admit(t)]) == Goto(s, t, Waiting).(admission := Take(s.admission))
  {
    var call, admit := Call(t), Admit(t);
    assert Exec(s, [call]) == Goto(s, t, Calling) by {
      assert [] + [call] == [call];
      ExecLast(s, [], call);
    }
    hide Exec;
    assert [call] + [admit] == [call, admit];
    ExecLast(s, [call], admit);
    GotoTwice(s, t, Calling, Waiting);
  }

  /** The lane lets in whoever waits when it is free, and nobody when it is not. */
  lemma LaneIsTaken(s: State, t: TaskId)
    requires Is(s, t, Waiting)
    ensures Next(s, EnterLane(t)) == if s.lane.free > 0 then Goto(s, t, Working).(lane := Take(s.lane)) else s
  {
  }

  /** Work that has returned lets go of the lane first and then of its place. */
  lemma FinishedLetsGo(s: State, t: TaskId, result: Result<(), EngineError>)
    requires Is(s, t, Working)
    ensures Exec(s, [Finish(t, result), DropLane(t)]) == Goto(s, t, LaneReturned(result)).(lane := Give(s.lane))
    ensures Exec(s, [Finish(t, result), DropLane(t), DropAdmission(t)])
            == Goto(s, t, Returned(result)).(admission := Give(s.admission), lane := Give(s.lane))
  {
    var finish, lane, admission := Finish(t, result), DropLane(t), DropAdmission(t);
    assert Exec(s, [finish]) == Goto(s, t, Leaving(result)) by {
      assert [] + [finish] == [finish];
      ExecLast(s, [], finish);
    }
    assert Exec(s, [finish, lane]) == Goto(s, t, LaneReturned(result)).(lane := Give(s.lane)) by {
      assert [finish] + [lane] == [finish, lane];
      hide Exec;
      ExecLast(s, [finish], lane);
      GotoTwice(s, t, Leaving(result), LaneReturned(result));
    }
    hide Exec;
    assert [finish, lane] + [admission] == [finish, lane, admission];
    ExecLast(s, [finish, lane], admission);
    GotoTwice(s, t, LaneReturned(result), Returned(result));
  }

  /** A call that has let go of everything queues its own error, if it has one, and has ended. */
  lemma ErrorIsOwn(s: State, t: TaskId, result: Result<(), EngineError>)
    requires Is(s, t, Returned(result))
    ensures Next(s, QueueError(t))
            == s.(tasks := s.tasks[t := Ended], queued := if result.Err? then s.queued[t := result.error] else s.queued)
  {
  }

  /** A call stopped while it waits for the lane never takes it and gives its place back. */
  lemma StoppedWaitingLetsGo(s: State, t: TaskId, error: EngineError)
    requires Is(s, t, Waiting)
    ensures Exec(s, [StopWaiting(t, error), DropAdmission(t)])
            == Goto(s, t, Returned(Err(error))).(admission := Give(s.admission))
  {
    var stop, admission := StopWaiting(t, error), DropAdmission(t);
    assert Exec(s, [stop]) == Goto(s, t, LaneReturned(Err(error))) by {
      assert [] + [stop] == [stop];
      ExecLast(s, [], stop);
    }
    hide Exec;
    assert [stop] + [admission] == [stop, admission];
    ExecLast(s, [stop], admission);
    GotoTwice(s, t, LaneReturned(Err(error)), Returned(Err(error)));
  }
}
