/**
 The HTTP middleware's admission protocol: the shutdown gate, a bounded queue and the execution
 permits, which travel into the response body and live until it ends or is dropped.
 */
module HttpAdmission {
  import opened Domain
  import opened Permits

  type RequestId = nat

  datatype Answer = Handled | Overloaded | Unavailable | Internal | TooLarge | TimedOut

  datatype Stage =
    | Arrived                         // before the gate
    | Entered                         // counted by the gate
    | Reading                         // admitted, its token made, its body being read
    | Queued                          // waits for an execution permit
    | Executing                       // in the handler
    | Responding(answer: Answer)      // the body stream owns token guard, permits and gate entry
    | Leaving(left: Option<Answer>)   // what is still held is being dropped, one thing after another
    | Gone(left: Option<Answer>)

  datatype Token = NoToken | Live | Cancelled

  /** One request and what it still holds. */
  datatype Request = Request(stage: Stage, gate: bool, admission: bool, execution: bool, token: Token)

  datatype State = State(requests: map<RequestId, Request>, admission: Pool, execution: Pool)

  datatype Limits = Limits(maxConcurrent: nat, queueCapacity: nat, usizeMax: nat)

  /** `saturating_add`. */
  function Capacity(limits: Limits): nat {
    if limits.maxConcurrent + limits.queueCapacity > limits.usizeMax then limits.usizeMax
    else limits.maxConcurrent + limits.queueCapacity
  }

  function Init(limits: Limits): State {
    State(map[], Pool(Capacity(limits), Capacity(limits)), Pool(limits.maxConcurrent, limits.maxConcurrent))
  }

  datatype Action =
    | Arrive(id: RequestId)
    | Preload(id: RequestId, failure: Answer)       // an MCP body that cannot be read in advance
    | Enter(id: RequestId, open: bool)
    | Admit(id: RequestId)
    | NoContext(id: RequestId)
    | BodyRead(id: RequestId)
    | GiveUp(id: RequestId, answer: Answer)         // stop, deadline or an oversized body
    | Acquire(id: RequestId)
    | Answer(id: RequestId, answer: Answer)         // from the handler, or stop or deadline instead
    | BodyEnds(id: RequestId)
    | Disconnect(id: RequestId)                     // the future or the response body is dropped
    | DropNext(id: RequestId, executionFirst: bool) // the next destructor runs

  const NEW: Request := Request(Arrived, false, false, false, NoToken)

  /** These answers cancel the request's token at once. */
  predicate Cancels(answer: Answer) {
    answer.Unavailable? || answer.TimedOut?
  }

  function Cancel(r: Request, when: bool): Request {
    if when then r.(token := Token.Cancelled) else r
  }

  /** The order locals and the body's state are dropped in: token guard and execution permit, admission permit, gate. */
  function Drop(r: Request, executionFirst: bool, left: Option<Answer>): Request {
    if r.token.Live? && !(executionFirst && r.execution) then Cancel(r, true)
    else if r.execution then r.(execution := false)
    else if r.admission then r.(admission := false)
    else if r.gate then r.(gate := false)
    else r.(stage := Gone(left))
  }

  /** What happens to one request, given whether a permit of each kind is free. */
  function After(r: Request, a: Action, admissionFree: bool, executionFree: bool): Request {
    match a
    case Arrive(_) => r
    case Preload(_, failure) => if r.stage.Arrived? then r.(stage := Gone(Some(failure))) else r
    case Enter(_, open) =>
      if !r.stage.Arrived? then r
      else if open then r.(stage := Entered, gate := true) else r.(stage := Gone(Some(Unavailable)))
    case Admit(_) =>
      if !r.stage.Entered? then r
      else if admissionFree then r.(stage := Reading, admission := true, token := Live)
      else r.(stage := Leaving(Some(Answer.Overloaded)))
    case NoContext(_) => if r.stage.Reading? then r.(stage := Leaving(Some(Internal))) else r
    case BodyRead(_) => if r.stage.Reading? then r.(stage := Queued) else r
    case GiveUp(_, answer) =>
      if r.stage.Reading? || r.stage.Queued? then Cancel(r, Cancels(answer)).(stage := Leaving(Some(answer))) else r
    case Acquire(_) => if r.stage.Queued? && executionFree then r.(stage := Executing, execution := true) else r
    case Answer(_, answer) => if r.stage.Executing? then Cancel(r, Cancels(answer)).(stage := Responding(answer)) else r
    case BodyEnds(_) => if r.stage.Responding? then r.(stage := Leaving(Some(r.stage.answer))) else r
    case Disconnect(_) =>
      if r.stage.Arrived? then r.(stage := Gone(None))
      else if r.stage.Reading? || r.stage.Queued? || r.stage.Executing? || r.stage.Responding?
      then r.(stage := Leaving(None))
      else r
    case DropNext(_, executionFirst) => if r.stage.Leaving? then Drop(r, executionFirst, r.stage.left) else r
  }

  /** The pool after one request gained, lost or kept a permit. */
  function Move(pool: Pool, had: bool, has: bool): Pool
    requires has && !had ==> pool.free > 0
  {
    if had == has then pool else if has then Take(pool) else Give(pool)
  }

  lemma GainsOnlyFree(r: Request, a: Action, admissionFree: bool, executionFree: bool)
    ensures var r' := After(r, a, admissionFree, executionFree);
            && (r'.admission && !r.admission ==> admissionFree) && (r'.execution && !r.execution ==> executionFree)
  {
  }

  /** One atomic step; an action that does not apply changes nothing. */
  function Next(s: State, a: Action): State {
    if a.Arrive? then (if a.id in s.requests then s else s.(requests := s.requests[a.id := NEW]))
    else if a.id !in s.requests then s
    else
      var r := s.requests[a.id];
      var r' := After(r, a, s.admission.free > 0, s.execution.free > 0);
      GainsOnlyFree(r, a, s.admission.free > 0, s.execution.free > 0);
      State(s.requests[a.id := r'],
            Move(s.admission, r.admission, r'.admission),
            Move(s.execution, r.execution, r'.execution))
  }

  function Exec(s: State, actions: seq<Action>): State
    decreases |actions|
  {
    if actions == [] then s else Exec(Next(s, actions[0]), actions[1..])
  }

  // ---- Conservation ----

  function Admitted(s: State): set<RequestId> {
    set id | id in s.requests && s.requests[id].admission
  }

  function Permitted(s: State): set<RequestId> {
    set id | id in s.requests && s.requests[id].execution
  }

  /** In the handler, or with a response body still open. */
  function Active(s: State): set<RequestId> {
    set id | id in s.requests && (s.requests[id].stage.Executing? || s.requests[id].stage.Responding?)
  }

  predicate RequestInv(r: Request) {
    && (r.execution ==> r.admission) && (r.admission ==> r.gate)
    && (r.admission ==> !r.token.NoToken?) && (!r.admission ==> !r.token.Live?)
    && (match r.stage
        case Arrived => !r.gate && r.token.NoToken?
        case Entered => r.gate && !r.admission && r.token.NoToken?
        case Reading => r.admission && !r.execution && r.token.Live?
        case Queued => r.admission && !r.execution && r.token.Live?
        case Executing => r.execution && r.token.Live?
        case Responding(answer) =>
          r.execution && (if answer.Unavailable? || answer.TimedOut? then r.token.Cancelled? else r.token.Live?)
        case Leaving(_) => true
        case Gone(_) => !r.gate)
  }

  ghost predicate Inv(s: State, limits: Limits) {
    && s.admission.capacity == Capacity(limits) && Conserved(s.admission, Admitted(s))
    && s.execution.capacity == limits.maxConcurrent && Conserved(s.execution, Permitted(s))
    && forall id :: id in s.requests ==> RequestInv(s.requests[id])
  }

  lemma RequestStep(r: Request, a: Action, admissionFree: bool, executionFree: bool)
    requires RequestInv(r)
    ensures RequestInv(After(r, a, admissionFree, executionFree))
  {
  }

  lemma InvNext(s: State, limits: Limits, a: Action)
    requires Inv(s, limits)
    ensures Inv(Next(s, a), limits)
  {
    hide After;
    var s' := Next(s, a);
    if a.id in s.requests { RequestStep(s.requests[a.id], a, s.admission.free > 0, s.execution.free > 0); }
    Moved(s.admission, s'.admission, Admitted(s), Admitted(s'), a.id);
    Moved(s.execution, s'.execution, Permitted(s), Permitted(s'), a.id);
  }

  lemma {:induction false} InvAlways(s: State, limits: Limits, actions: seq<Action>)
    requires Inv(s, limits)
    ensures Inv(Exec(s, actions), limits)
    decreases |actions|
  {
    if actions != [] {
      InvNext(s, limits, actions[0]);
      InvAlways(Next(s, actions[0]), limits, actions[1..]);
    }
  }

  lemma InvInit(limits: Limits)
    ensures Inv(Init(limits), limits)
  {
  }

  /** In every run free and held permits add up, and the two limits hold for what they are limits of. */
  lemma PermitsConserved(limits: Limits, actions: seq<Action>)
    ensures var s := Exec(Init(limits), actions);
            && s.admission.free + |Admitted(s)| == Capacity(limits)
            && s.execution.free + |Permitted(s)| == limits.maxConcurrent
            && Active(s) <= Permitted(s) <= Admitted(s)
            && |Active(s)| <= limits.maxConcurrent
            && |Admitted(s)| <= limits.maxConcurrent + limits.queueCapacity
  {
    InvInit(limits);
    InvAlways(Init(limits), limits, actions);
    var s := Exec(Init(limits), actions);
    Smaller(Active(s), Permitted(s));
  }

  /** Overload is answered exactly when every admission permit is held. */
  lemma OverloadedExactly(limits: Limits, actions: seq<Action>, id: RequestId)
    requires id in Exec(Init(limits), actions).requests && Exec(Init(limits), actions).requests[id].stage.Entered?
    ensures var s := Exec(Init(limits), actions);
            var r := Next(s, Admit(id)).requests[id];
            && (r.stage == Leaving(Some(Answer.Overloaded)) <==> |Admitted(s)| == Capacity(limits))
            && (r.stage == Reading && r.admission && r.token.Live? <==> |Admitted(s)| < Capacity(limits))
  {
    PermitsConserved(limits, actions);
  }

  /** An execution permit comes back only after the body ended or was dropped, or the handler's future was. */
  lemma PermitOutlivesBody(limits: Limits, actions: seq<Action>, id: RequestId, a: Action)
    requires id in Exec(Init(limits), actions).requests && Exec(Init(limits), actions).requests[id].execution
    ensures var s := Exec(Init(limits), actions);
            && id in Next(s, a).requests
            && (!Next(s, a).requests[id].execution ==> s.requests[id].stage.Leaving? && a.id == id)
            && (s.requests[id].stage.Responding? ==> Next(s, a).requests[id].execution)
  {
    InvInit(limits);
    InvAlways(Init(limits), limits, actions);
  }

  /** A request that was admitted and has given its admission permit back has its token cancelled and no permit left. */
  lemma ReturnedIsCancelled(limits: Limits, actions: seq<Action>, id: RequestId)
    requires id in Exec(Init(limits), actions).requests
    ensures var r := Exec(Init(limits), actions).requests[id];
            && (!r.admission && !r.token.NoToken? ==> r.token.Cancelled? && !r.execution)
            && (r.stage.Gone? ==> !r.gate && !r.admission && !r.execution && !r.token.Live?)
  {
    InvInit(limits);
    InvAlways(Init(limits), limits, actions);
  }

  /** While a handler works or its body is open the token is live; a stop or deadline answer has cancelled it. */
  lemma TokenFollowsBody(limits: Limits, actions: seq<Action>, id: RequestId)
    requires id in Exec(Init(limits), actions).requests
    ensures var r := Exec(Init(limits), actions).requests[id];
            && (r.stage.Executing? || r.stage == Responding(Handled) ==>
                  r.token.Live? && r.execution && r.admission && r.gate)
            && (r.stage == Responding(Unavailable) || r.stage == Responding(TimedOut) ==> r.token.Cancelled?)
  {
    InvInit(limits);
    InvAlways(Init(limits), limits, actions);
  }

  /** A shutdown or a deadline cancels the request's token with its answer; any other answer leaves it live. */
  lemma StopCancelsAtOnce(limits: Limits, actions: seq<Action>, id: RequestId, answer: Answer)
    requires id in Exec(Init(limits), actions).requests
    requires var stage := Exec(Init(limits), actions).requests[id].stage;
             stage.Reading? || stage.Queued? || stage.Executing?
    ensures var s := Exec(Init(limits), actions);
            var a := if s.requests[id].stage.Executing? then Action.Answer(id, answer) else GiveUp(id, answer);
            && id in Next(s, a).requests
            && Next(s, a).requests[id].token == if answer in {Unavailable, TimedOut} then Token.Cancelled else Live
  {
    InvInit(limits);
    InvAlways(Init(limits), limits, actions);
  }

  // ---- Which answer a request gets ----

  /** The answer this stage carries. */
  function AnswerOf(stage: Stage): Option<Answer> {
    match stage
    case Responding(answer) => Some(answer)
    case Leaving(left) => left
    case Gone(left) => left
    case _ => None
  }

  /** The step that decides on this answer: the gate, the queue, the context, a stop while waiting, or the handler. */
  predicate Decides(s: State, a: Action, id: RequestId, answer: Answer) {
    && id in s.requests && a.id == id && !a.Arrive?
    && var stage := s.requests[id].stage;
    match a
    case Preload(_, failure) => stage.Arrived? && answer == failure
    case Enter(_, open) => stage.Arrived? && !open && answer.Unavailable?
    case Admit(_) => stage.Entered? && s.admission.free == 0 && answer.Overloaded?
    case NoContext(_) => stage.Reading? && answer.Internal?
    case GiveUp(_, given) => (stage.Reading? || stage.Queued?) && answer == given
    case Answer(_, given) => stage.Executing? && answer == given
    case _ => false
  }

  /** An answer is given by just these steps, is kept from then on, and is lost only with the client. */
  lemma AnsweredExactly(s: State, a: Action, id: RequestId, answer: Answer)
    requires id in s.requests
    ensures id in Next(s, a).requests
    ensures var before, after := AnswerOf(s.requests[id].stage), AnswerOf(Next(s, a).requests[id].stage);
            && (before.None? ==> (after == Some(answer) <==> Decides(s, a, id, answer)))
            && (before == Some(answer) ==>
                  after == if a == Disconnect(id) && s.requests[id].stage.Responding? then None else Some(answer))
  {
  }

  /** In every run a request with an answer got it by one step of its own that decides on it. */
  lemma {:induction false} AnswerHasCause(limits: Limits, actions: seq<Action>, id: RequestId) returns (k: nat)
    requires id in Exec(Init(limits), actions).requests
    requires AnswerOf(Exec(Init(limits), actions).requests[id].stage).Some?
    ensures k < |actions|
    ensures Decides(Exec(Init(limits), actions[..k]), actions[k], id,
                    AnswerOf(Exec(Init(limits), actions).requests[id].stage).value)
    decreases |actions|
  {
    if actions == [] {
      assert false;
    } else {
      var n := |actions| - 1;
      var s := Exec(Init(limits), actions[..n]);
      ExecButLast(Init(limits), actions);
      var answer := AnswerOf(Exec(Init(limits), actions).requests[id].stage).value;
      hide Exec;
      assert id in s.requests by { ArrivesUnanswered(s, actions[n], id); }
      AnsweredExactly(s, actions[n], id, answer);
      hide Next;
      if AnswerOf(s.requests[id].stage).None? {
        k := n;
      } else {
        AnsweredExactly(s, actions[n], id, AnswerOf(s.requests[id].stage).value);
        k := AnswerHasCause(limits, actions[..n], id);
        assert actions[..n][..k] == actions[..k];
      }
    }
  }

  lemma ArrivesUnanswered(s: State, a: Action, id: RequestId)
    requires id in Next(s, a).requests && AnswerOf(Next(s, a).requests[id].stage).Some?
    ensures id in s.requests
  {
  }

  lemma {:induction false} ExecConcat(s: State, a: seq<Action>, b: seq<Action>)
    ensures Exec(s, a + b) == Exec(Exec(s, a), b)
    decreases |a|
  {
    if a == [] {
      assert a + b == b;
    } else {
      assert (a + b)[1..] == a[1..] + b;
      ExecConcat(Next(s, a[0]), a[1..], b);
    }
  }

  lemma ExecLast(s: State, actions: seq<Action>, a: Action)
    ensures Exec(s, actions + [a]) == Next(Exec(s, actions), a)
  {
    ExecConcat(s, actions, [a]);
    assert Exec(Exec(s, actions), [a]) == Next(Exec(s, actions), a);
  }

  lemma ExecButLast(s: State, actions: seq<Action>)
    requires actions != []
    ensures Exec(s, actions) == Next(Exec(s, actions[..|actions| - 1]), actions[|actions| - 1])
  {
    hide Exec;
    hide Next;
    ExecLast(s, actions[..|actions| - 1], actions[|actions| - 1]);
    assert actions == actions[..|actions| - 1] + [actions[|actions| - 1]];
  }

  /** The state in which this request looks like this and everything else is as in `s`. */
  function At(s: State, id: RequestId, r: Request, admission: Pool, execution: Pool): State {
    State(s.requests[id := r], admission, execution)
  }

  /** One more of a request's own actions, after those that led to `At(s, id, r, admission, execution)`. */
  lemma OneMore(s: State, before: seq<Action>, a: Action, id: RequestId, r: Request, admission: Pool, execution: Pool)
    requires a.id == id && !a.Arrive? && Exec(s, before) == At(s, id, r, admission, execution)
    requires var r' := After(r, a, admission.free > 0, execution.free > 0);
             && (r'.admission && !r.admission ==> admission.free > 0)
             && (r'.execution && !r.execution ==> execution.free > 0)
    ensures var r' := After(r, a, admission.free > 0, execution.free > 0);
            Exec(s, before + [a])
            == At(s, id, r', Move(admission, r.admission, r'.admission), Move(execution, r.execution, r'.execution))
  {
    ExecLast(s, before, a);
    hide Exec;
    hide After;
    var r' := After(r, a, admission.free > 0, execution.free > 0);
    assert s.requests[id := r][id := r'] == s.requests[id := r'];
  }

  /** An open gate and a free permit of each kind take a request all the way into its response body. */
  lemma UncontendedIsServed(s: State, id: RequestId)
    requires id !in s.requests && s.admission.free > 0 && s.execution.free > 0
    ensures Exec(s, [Arrive(id)] + [Enter(id, true)] + [Admit(id)] + [BodyRead(id)] + [Acquire(id)]
                    + [Action.Answer(id, Handled)])
            == At(s, id, Request(Responding(Handled), true, true, true, Live), Take(s.admission), Take(s.execution))
  {
    var arrive, enter, admit, read := [Arrive(id)], [Enter(id, true)], [Admit(id)], [BodyRead(id)];
    var admitted := Request(Reading, true, true, false, Live);
    assert Exec(s, arrive) == At(s, id, NEW, s.admission, s.execution) by {
      ExecButLast(s, arrive);
      assert Exec(s, []) == s;
    }
    hide Exec;
    OneMore(s, arrive, Enter(id, true), id, NEW, s.admission, s.execution);
    OneMore(s, arrive + enter, Admit(id), id, NEW.(stage := Entered, gate := true), s.admission, s.execution);
    OneMore(s, arrive + enter + admit, BodyRead(id), id, admitted, Take(s.admission), s.execution);
    OneMore(s, arrive + enter + admit + read, Acquire(id), id,
            admitted.(stage := Queued), Take(s.admission), s.execution);
    OneMore(s, arrive + enter + admit + read + [Acquire(id)], Action.Answer(id, Handled), id,
            admitted.(stage := Executing, execution := true), Take(s.admission), Take(s.execution));
  }

  /** When its body has ended, five destructors give back everything a request held, and its token is cancelled. */
  lemma BodyEndReturnsAll(s: State, id: RequestId)
    requires id in s.requests && s.requests[id] == Request(Responding(Handled), true, true, true, Live)
    ensures var drop := DropNext(id, false);
            Exec(s, [BodyEnds(id)] + [drop] + [drop] + [drop] + [drop] + [drop])
            == At(s, id, Request(Gone(Some(Handled)), false, false, false, Token.Cancelled),
                  Give(s.admission), Give(s.execution))
  {
    var drop, ended := DropNext(id, false), [BodyEnds(id)];
    var r := Request(Leaving(Some(Handled)), true, true, true, Live);
    var cancelled, unlocked := r.(token := Token.Cancelled), Give(s.execution);
    assert Exec(s, ended) == At(s, id, r, s.admission, s.execution) by {
      ExecButLast(s, ended);
      assert Exec(s, []) == s;
    }
    hide Exec;
    OneMore(s, ended, drop, id, r, s.admission, s.execution);
    OneMore(s, ended + [drop], drop, id, cancelled, s.admission, s.execution);
    OneMore(s, ended + [drop] + [drop], drop, id, cancelled.(execution := false), s.admission, unlocked);
    OneMore(s, ended + [drop] + [drop] + [drop], drop, id, cancelled.(execution := false, admission := false),
            Give(s.admission), unlocked);
    OneMore(s, ended + [drop] + [drop] + [drop] + [drop], drop, id,
            cancelled.(execution := false, admission := false, gate := false), Give(s.admission), unlocked);
  }

  /** A closed gate turns a request away with nothing held. */
  lemma ClosedGateRefuses(s: State, id: RequestId, open: bool)
    requires id in s.requests && s.requests[id] == NEW
    ensures Next(s, Enter(id, open))
            == s.(requests := s.requests[id := if open then Request(Entered, true, false, false, NoToken)
                                               else Request(Gone(Some(Unavailable)), false, false, false, NoToken)])
  {
  }
}
