/**
 What a WebSocket client is told for each of its messages, as a fact about whole sessions: the
 state before the k-th input and the state after it.
 */
module SessionAnswers {
  import opened Domain
  import opened GenerationTask
  import opened Transports
  import opened WebSocketSession

  /** One frame has been sent that belongs to no generation, and nothing else of the session has changed. */
  predicate ToldAside(s: State, s': State, frame: Frame) {
    && s'.open && s'.sends == s.sends + 1
    && s'.sent == s.sent + [frame] && s'.tags == s.tags + [None]
    && s'.active == s.active && s'.generations == s.generations
  }

  /** The newest generation got its last frame and ended in this way; the others are as they were. */
  predicate ToldLast(s: State, s': State, frame: Frame, fate: Fate) {
    var n := |s.generations| - 1;
    && s.generations != [] && |s'.generations| == n + 1
    && s'.open && s'.active.None?
    && s'.sent == s.sent + [frame] && s'.tags == s.tags + [Some(n)]
    && s'.generations[..n] == s.generations[..n]
    && s'.generations[n] == s.generations[n].(frames := s.generations[n].frames + [frame], fate := fate)
  }

  /** The session has ended: whatever was active is cancelled and dropped. */
  predicate Over(s: State, s': State) {
    && !s'.open && s'.active.None? && |s'.generations| == |s.generations|
    && (s.active.None? ==> s'.generations == s.generations)
    && (s.active.Some? && s.generations != [] ==>
          var n := |s.generations| - 1;
          s'.generations[..n] == s.generations[..n] && s'.generations[n] == s.generations[n].(fate := Dropped))
  }

  predicate ValidId(id: string) {
    0 < |id| <= 128
  }

  /**
   The messages that are answered outside any generation: bad messages, pings, starts that are
   malformed, busy, without a context or refused, and cancels of something else than what is
   active. The engine is asked only for a well-formed start that finds nothing active.
   */
  lemma AnsweredAside(peer: Peer, inputs: seq<Input>, k: nat)
    requires k < |inputs| && inputs[k].FromSocket?
    requires Run(peer, inputs[..k]).open && !peer.sendFails(Run(peer, inputs[..k]).sends)
    ensures var s, s', message := Run(peer, inputs[..k]), Run(peer, inputs[..k + 1]), inputs[k].message;
            && (message.Malformed? || message.Binary? ==> ToldAside(s, s', ErrorFrame(None, "invalid_request")))
            && (message.Ping? ==> ToldAside(s, s', Pong))
            && (message.PingFrame? ==> ToldAside(s, s', SocketPong))
            && (message.PongFrame? ==> s' == s)
            && (message.Cancel? && (s.active.None? || s.active.value.id != message.id) ==>
                  ToldAside(s, s', ErrorFrame(Some(message.id), "invalid_request")))
            && (message.Start? && !ValidId(message.id) ==> ToldAside(s, s', ErrorFrame(None, "invalid_request")))
            && (message.Start? && ValidId(message.id) && s.active.Some? ==>
                  ToldAside(s, s', ErrorFrame(Some(message.id), "overloaded")))
            && (message.Start? && ValidId(message.id) && s.active.None? && peer.starts(s.started).NoContext? ==>
                  ToldAside(s, s', ErrorFrame(Some(message.id), "internal")))
            && (message.Start? && ValidId(message.id) && s.active.None? && peer.starts(s.started).Refused? ==>
                  ToldAside(s, s', ErrorFrame(Some(message.id), EngineCode(peer.starts(s.started).error))))
            && s'.started == s.started + if message.Start? && ValidId(message.id) && s.active.None? then 1 else 0
  {
    RunNext(peer, inputs, k);
    hide Run;
  }

  /** An accepted start sends nothing and makes its generation the active one, with the whole queue to come. */
  lemma StartAccepted(peer: Peer, inputs: seq<Input>, k: nat)
    requires k < |inputs| && Run(peer, inputs[..k]).open && Run(peer, inputs[..k]).active.None?
    requires inputs[k].FromSocket? && inputs[k].message.Start? && ValidId(inputs[k].message.id)
    requires peer.starts(Run(peer, inputs[..k]).started).Accepted?
    ensures var s, s', id := Run(peer, inputs[..k]), Run(peer, inputs[..k + 1]), inputs[k].message.id;
            var queue := peer.starts(s.started).events;
            && s'.open && s'.sent == s.sent && s'.sends == s.sends && s'.started == s.started + 1
            && s'.active == Some(Active(id, queue, None))
            && s'.generations == s.generations + [Generation(id, queue, [], Running, k, s.started)]
  {
    RunNext(peer, inputs, k);
    hide Run;
  }

  /**
   Cancelling the active request ends it: the client is told `cancelled` under the request's id,
   as the last frame of its generation, and nothing is active any more.
   */
  lemma CancelEndsIt(peer: Peer, inputs: seq<Input>, k: nat)
    requires k < |inputs| && Run(peer, inputs[..k]).open && Run(peer, inputs[..k]).active.Some?
    requires inputs[k] == FromSocket(Cancel(Run(peer, inputs[..k]).active.value.id))
    requires !peer.sendFails(Run(peer, inputs[..k]).sends)
    ensures var s, s' := Run(peer, inputs[..k]), Run(peer, inputs[..k + 1]);
            && ToldLast(s, s', ErrorFrame(Some(s.active.value.id), "cancelled"), Withdrawn)
            && s'.generations[|s'.generations| - 1].id == s.active.value.id
  {
    RunNext(peer, inputs, k);
    RunSound(peer, inputs[..k]);
    hide Run;
    var s := Run(peer, inputs[..k]);
    ActiveIsNewest(s.active.value, s.sent, s.tags, s.generations);
    hide Consistent;
  }

  /**
   What an event of the active generation does: a delta is passed on, a usage is kept, and
   everything else is the generation's last frame.
   */
  lemma EventAnswered(peer: Peer, inputs: seq<Input>, k: nat)
    requires k < |inputs| && inputs[k].FromEngine?
    requires Run(peer, inputs[..k]).open && Run(peer, inputs[..k]).active.Some?
    requires !peer.sendFails(Run(peer, inputs[..k]).sends)
    ensures var s, s' := Run(peer, inputs[..k]), Run(peer, inputs[..k + 1]);
            var a := s.active.value;
            if a.events == [] then ToldLast(s, s', ErrorFrame(Some(a.id), "upstream_protocol"), Served)
            else if a.events[0].Err? then
              ToldLast(s, s', ErrorFrame(Some(a.id), EngineCode(a.events[0].error)), Served)
            else if a.events[0].value.Delta? then
              && s'.open && s'.active == Some(a.(events := a.events[1..]))
              && s'.sent == s.sent + [DeltaFrame(a.id, a.events[0].value.text)]
              && s'.tags == s.tags + [Some(|s.generations| - 1)]
            else if a.events[0].value.Usage? then
              && s'.open && s'.sent == s.sent && s'.generations == s.generations
              && s'.active == Some(Active(a.id, a.events[1..], Some(a.events[0].value.usage)))
            else if a.usage.Some? then
              ToldLast(s, s', Final(a.id, a.events[0].value.reason, a.usage.value), Served)
            else ToldLast(s, s', ErrorFrame(Some(a.id), "upstream_protocol"), Served)
  {
    RunNext(peer, inputs, k);
    RunSound(peer, inputs[..k]);
    hide Run;
    var s := Run(peer, inputs[..k]);
    ActiveIsNewest(s.active.value, s.sent, s.tags, s.generations);
    hide Consistent;
  }

  /** This input makes the session send a frame, if it can. */
  predicate Answers(peer: Peer, s: State, input: Input) {
    match input
    case SocketGone => false
    case FromEngine =>
      s.active.Some?
      && (s.active.value.events == [] || s.active.value.events[0].Err? || !s.active.value.events[0].value.Usage?)
    case FromSocket(message) =>
      match message
      case Start(id) => !ValidId(id) || s.active.Some? || !peer.starts(s.started).Accepted?
      case PongFrame => false
      case CloseFrame => false
      case _ => true
  }

  /** One frame was tried, and if it could not be sent the session is over. */
  predicate Tried(peer: Peer, s: State, s': State) {
    s'.sends == s.sends + 1 && (peer.sendFails(s.sends) ==> Over(s, s') && s'.sent == s.sent)
  }

  lemma ForeignTried(peer: Peer, s: State, frame: Frame)
    ensures Tried(peer, s, SendForeign(peer, s, frame))
    ensures Tried(peer, s, SendForeign(peer, s.(started := s.started + 1), frame))
  {
  }

  lemma OwnTried(peer: Peer, s: State, frame: Frame, next: Option<Active>, fate: Fate)
    ensures Tried(peer, s, SendOwn(peer, s, frame, next, fate))
  {
  }

  lemma ClosedTried(peer: Peer, s: State)
    ensures Tried(peer, s, Closed(SendForeign(peer, Closed(s), SocketClose)))
  {
  }

  lemma EventTried(peer: Peer, s: State, a: Active)
    requires s.active == Some(a)
    ensures Answers(peer, s, FromEngine) ==> Tried(peer, s, OnEvent(peer, s, a))
    ensures !Answers(peer, s, FromEngine) ==> OnEvent(peer, s, a).sends == s.sends
  {
    forall frame, next, fate { OwnTried(peer, s, frame, next, fate); }
    hide SendOwn;
    hide Tried;
  }

  /** A frame that cannot be sent ends the session. */
  lemma FailedSendEnds(peer: Peer, inputs: seq<Input>, k: nat)
    requires k < |inputs| && Run(peer, inputs[..k]).open
    ensures var s, s' := Run(peer, inputs[..k]), Run(peer, inputs[..k + 1]);
            && s'.sends == s.sends + (if Answers(peer, s, inputs[k]) then 1 else 0)
            && (Answers(peer, s, inputs[k]) && peer.sendFails(s.sends) ==> Over(s, s') && s'.sent == s.sent)
  {
    RunNext(peer, inputs, k);
    hide Run;
    var s, input := Run(peer, inputs[..k]), inputs[k];
    forall frame { ForeignTried(peer, s, frame); }
    ClosedTried(peer, s);
    if s.active.Some? { EventTried(peer, s, s.active.value); }
    if input.FromSocket? && input.message.Cancel? {
      OwnTried(peer, s, ErrorFrame(Some(input.message.id), "cancelled"), None, Withdrawn);
    }
    hide SendForeign;
    hide SendOwn;
    hide OnEvent;
    hide Over;
    assert Answers(peer, s, input) ==> Tried(peer, s, Run(peer, inputs[..k + 1]));
  }

  /** A close is answered when what was active is gone; a close frame and the loss of the socket are not. */
  lemma ClosingEnds(peer: Peer, inputs: seq<Input>, k: nat)
    requires k < |inputs| && Run(peer, inputs[..k]).open
    ensures var s, s' := Run(peer, inputs[..k]), Run(peer, inputs[..k + 1]);
            && (inputs[k] in {SocketGone, FromSocket(CloseFrame)} ==> Over(s, s') && s'.sent == s.sent)
            && (inputs[k] == FromSocket(Close) && !peer.sendFails(s.sends) ==>
                  Over(s, s') && s'.sent == s.sent + [SocketClose] && s'.tags == s.tags + [None])
  {
    RunNext(peer, inputs, k);
    hide Run;
    hide OnEvent;
    hide OnStart;
  }

  /** A session that has ended stays as it is, whatever comes. */
  lemma {:induction false} OverForGood(peer: Peer, inputs: seq<Input>, k: nat)
    requires k <= |inputs| && !Run(peer, inputs[..k]).open
    ensures Run(peer, inputs) == Run(peer, inputs[..k])
    decreases |inputs|
  {
    if k == |inputs| {
      assert inputs[..k] == inputs;
    } else {
      var n := |inputs| - 1;
      assert inputs[..n][..k] == inputs[..k];
      OverForGood(peer, inputs[..n], k);
      RunNext(peer, inputs, n);
      assert inputs[..n + 1] == inputs;
    }
  }

  /** Nothing that was sent is taken back. */
  lemma {:induction false} TranscriptGrows(peer: Peer, inputs: seq<Input>, k: nat)
    requires k <= |inputs|
    ensures Run(peer, inputs[..k]).sent <= Run(peer, inputs).sent
    decreases |inputs|
  {
    hide Run;
    hide Step;
    if k == |inputs| {
      assert inputs[..k] == inputs;
    } else {
      var n := |inputs| - 1;
      TranscriptGrows(peer, inputs[..n], k);
      RunNext(peer, inputs, n);
      assert inputs[..n + 1] == inputs && inputs[..n][..k] == inputs[..k];
      StepAppends(peer, Run(peer, inputs[..n]), n, inputs[n]);
    }
  }

  /** The greeting comes first, and without it there is no session. */
  lemma GreetingFirst(peer: Peer, inputs: seq<Input>)
    ensures !peer.sendFails(0) ==> Run(peer, inputs).sent != [] && Run(peer, inputs).sent[0] == Frame.Ready
    ensures peer.sendFails(0) ==> Run(peer, inputs).sent == [] && !Run(peer, inputs).open
  {
    hide Run;
    RunFirst(peer);
    assert inputs[..0] == [];
    TranscriptGrows(peer, inputs, 0);
    if peer.sendFails(0) { OverForGood(peer, inputs, 0); }
  }

  lemma StepAppends(peer: Peer, s: State, k: nat, input: Input)
    ensures s.sent <= Step(peer, s, k, input).sent
    ensures !s.open ==> Step(peer, s, k, input) == s
  {
  }
}
