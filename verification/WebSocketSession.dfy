/**
 One WebSocket session: any interleaving of client messages and engine events, with a send
 that may fail at any frame.

 `Run` is the session over a list of inputs, and `Session.Serve` is proved to compute it. Beside
 the transcript the state keeps its history: which generation each frame belongs to, and of every
 accepted start its input, its engine call, its frames and what has become of it.
 */
module WebSocketSession {
  import opened Domain
  import opened GenerationTask
  import opened Transports

  const MAX_ID_BYTES: nat := 128

  datatype Message =
    | Malformed
    | Start(id: string)
    | Cancel(id: string)
    | Ping
    | Close
    | Binary
    | PingFrame
    | PongFrame
    | CloseFrame

  datatype Input = FromSocket(message: Message) | SocketGone | FromEngine

  /** How the engine takes the n-th start that is passed to it. */
  datatype StartResult = NoContext | Refused(error: EngineError) | Accepted(events: seq<QueueItem>)

  /** How the engine takes starts and whether the n-th frame can be sent. */
  datatype Peer = Peer(starts: nat -> StartResult, sendFails: nat -> bool)

  datatype Active = Active(id: string, events: seq<QueueItem>, usage: Option<TokenUsage>)

  datatype Fate = Running | Served | Withdrawn | Dropped

  /**
   An accepted generation: its id and the engine's whole event queue for it, the frames sent for
   it, what became of it, and the numbers of the input that started it and of its engine call.
   */
  datatype Generation = Generation(
    id: string, queue: seq<QueueItem>, frames: seq<Frame>, fate: Fate, input: nat, call: nat)

  datatype State = State(
    active: Option<Active>, sent: seq<Frame>, sends: nat, started: nat, open: bool,
    tags: seq<Option<nat>>, generations: seq<Generation>)

  const FRESH: State := State(None, [], 0, 0, true, [], [])

  /** The newest generation with one more frame and its fate. */
  function AddFrame(generations: seq<Generation>, frame: Frame, fate: Fate): seq<Generation> {
    if generations == [] then []
    else
      var n := |generations| - 1;
      generations[n := generations[n].(frames := generations[n].frames + [frame], fate := fate)]
  }

  function SetFate(generations: seq<Generation>, fate: Fate): seq<Generation> {
    if generations == [] then []
    else
      var n := |generations| - 1;
      generations[n := generations[n].(fate := fate)]
  }

  // ---- The session as a function of its inputs ----

  /** The session returns: what is active is cancelled and dropped. */
  function Closed(s: State): State {
    s.(active := None, open := false,
       generations := if s.active.Some? then SetFate(s.generations, Dropped) else s.generations)
  }

  /** A frame outside any generation. */
  function SendForeign(peer: Peer, s: State, frame: Frame): State {
    if peer.sendFails(s.sends) then Closed(s.(sends := s.sends + 1))
    else s.(sends := s.sends + 1, sent := s.sent + [frame], tags := s.tags + [None])
  }

  function Newest(generations: seq<Generation>): Option<nat> {
    if generations == [] then None else Some(|generations| - 1)
  }

  /** A frame of the active generation, which goes on as `next` or has ended. */
  function SendOwn(peer: Peer, s: State, frame: Frame, next: Option<Active>, fate: Fate): State {
    if peer.sendFails(s.sends) then Closed(s.(sends := s.sends + 1))
    else s.(sends := s.sends + 1, sent := s.sent + [frame], tags := s.tags + [Newest(s.generations)],
            generations := AddFrame(s.generations, frame, fate), active := next)
  }

  /** `handle_websocket_event` on the next item of the active generation. */
  function OnEvent(peer: Peer, s: State, a: Active): State {
    if a.events == [] then SendOwn(peer, s, ErrorFrame(Some(a.id), "upstream_protocol"), None, Served)
    else
      var rest := a.events[1..];
      match a.events[0]
      case Err(e) => SendOwn(peer, s, ErrorFrame(Some(a.id), EngineCode(e)), None, Served)
      case Ok(Delta(text)) => SendOwn(peer, s, DeltaFrame(a.id, text), Some(a.(events := rest)), Running)
      case Ok(Usage(usage)) => s.(active := Some(a.(events := rest, usage := Some(usage))))
      case Ok(Finished(reason)) =>
        if a.usage.Some? then SendOwn(peer, s, Final(a.id, reason, a.usage.value), None, Served)
        else SendOwn(peer, s, ErrorFrame(Some(a.id), "upstream_protocol"), None, Served)
  }

  /** A start that is passed on to the engine. */
  predicate StartAdmitted(id: string, active: Option<Active>) {
    0 < |id| <= MAX_ID_BYTES && active.None?
  }

  /** `start_websocket_generation` for the k-th input. */
  function OnStart(peer: Peer, s: State, k: nat, id: string): State {
    if !(0 < |id| <= MAX_ID_BYTES) then SendForeign(peer, s, ErrorFrame(None, "invalid_request"))
    else if s.active.Some? then SendForeign(peer, s, ErrorFrame(Some(id), "overloaded"))
    else
      var s' := s.(started := s.started + 1);
      match peer.starts(s.started)
      case NoContext => SendForeign(peer, s', ErrorFrame(Some(id), "internal"))
      case Refused(error) => SendForeign(peer, s', ErrorFrame(Some(id), EngineCode(error)))
      case Accepted(events) =>
        s'.(active := Some(Active(id, events, None)),
            generations := s.generations + [Generation(id, events, [], Running, k, s.started)])
  }

  /** `handle_websocket_message` for the k-th input. */
  function OnMessage(peer: Peer, s: State, k: nat, message: Message): State {
    match message
    case Malformed => SendForeign(peer, s, ErrorFrame(None, "invalid_request"))
    case Start(id) => OnStart(peer, s, k, id)
    case Cancel(id) =>
      if s.active.Some? && s.active.value.id == id
      then SendOwn(peer, s, ErrorFrame(Some(id), "cancelled"), None, Withdrawn)
      else SendForeign(peer, s, ErrorFrame(Some(id), "invalid_request"))
    case Ping => SendForeign(peer, s, Pong)
    case Close => Closed(SendForeign(peer, Closed(s), SocketClose))
    case Binary => SendForeign(peer, s, ErrorFrame(None, "invalid_request"))
    case PingFrame => SendForeign(peer, s, SocketPong)
    case PongFrame => s
    case CloseFrame => Closed(s)
  }

  /** One turn of the session loop; nobody polls the engine while nothing is active. */
  function Step(peer: Peer, s: State, k: nat, input: Input): State {
    if !s.open then s
    else match input
      case FromSocket(message) => OnMessage(peer, s, k, message)
      case SocketGone => Closed(s)
      case FromEngine => if s.active.Some? then OnEvent(peer, s, s.active.value) else s
  }

  /** `websocket_session` over any interleaving of inputs. */
  function Run(peer: Peer, inputs: seq<Input>): State {
    if inputs == [] then SendForeign(peer, FRESH, Frame.Ready)
    else
      var n := |inputs| - 1;
      Step(peer, Run(peer, inputs[..n]), n, inputs[n])
  }

  // ---- What a history looks like ----

  predicate OnlyDeltas(id: string, frames: seq<Frame>) {
    forall i :: 0 <= i < |frames| ==> frames[i].DeltaFrame? && frames[i].id == id
  }

  /** Everything a generation sends when it is left alone. */
  function Whole(g: Generation): seq<Frame> {
    Frames(g.id, None, g.queue)
  }

  /** What the frames of a generation look like, by its fate. */
  predicate Story(g: Generation) {
    match g.fate
    case Running => OnlyDeltas(g.id, g.frames) && g.frames <= Whole(g)
    case Dropped => OnlyDeltas(g.id, g.frames) && g.frames <= Whole(g)
    case Served => g.frames == Whole(g)
    case Withdrawn =>
      && g.frames != []
      && g.frames[|g.frames| - 1] == ErrorFrame(Some(g.id), "cancelled")
      && OnlyDeltas(g.id, g.frames[..|g.frames| - 1]) && g.frames[..|g.frames| - 1] <= Whole(g)
  }

  predicate IsTerminalFrame(frame: Frame) {
    frame.Final? || frame.ErrorFrame?
  }

  function TerminalFrames(frames: seq<Frame>): nat {
    if frames == [] then 0 else (if IsTerminalFrame(frames[0]) then 1 else 0) + TerminalFrames(frames[1..])
  }

  /** The frames of a transcript that belong to one generation. */
  function Project(sent: seq<Frame>, tags: seq<Option<nat>>, g: nat): seq<Frame>
    requires |sent| == |tags|
  {
    if sent == [] then []
    else
      var n := |sent| - 1;
      Project(sent[..n], tags[..n], g) + if tags[n] == Some(g) then [sent[n]] else []
  }

  /** The transcript and the generations fit together: nobody's frames are out of turn and none is unaccounted for. */
  ghost predicate Accounted(sent: seq<Frame>, tags: seq<Option<nat>>, generations: seq<Generation>) {
    && |sent| == |tags|
    && (forall g :: 0 <= g < |generations| ==> generations[g].frames == Project(sent, tags, g))
    && (forall i :: 0 <= i < |tags| ==>
          if tags[i].Some? then tags[i].value < |generations| else !sent[i].DeltaFrame? && !sent[i].Final?)
    && (forall i, j :: 0 <= i < j < |tags| && tags[i].Some? && tags[j].Some? ==> tags[i].value <= tags[j].value)
  }

  /** What is active is the newest generation, and what it will still send completes what it has sent. */
  ghost predicate IsCurrent(a: Active, generations: seq<Generation>) {
    && generations != []
    && var g := generations[|generations| - 1];
    && g.fate.Running? && g.id == a.id
    && g.frames + Frames(g.id, a.usage, a.events) == Whole(g)
  }

  ghost predicate Stories(generations: seq<Generation>) {
    forall g :: 0 <= g < |generations| ==> Story(generations[g])
  }

  ghost predicate NoneRunning(generations: seq<Generation>, n: int) {
    forall g :: 0 <= g < n <= |generations| ==> !generations[g].fate.Running?
  }

  /** The state of a session fits its history; at most the newest generation runs. */
  ghost predicate Consistent(
    active: Option<Active>, sent: seq<Frame>, tags: seq<Option<nat>>, generations: seq<Generation>)
  {
    && Accounted(sent, tags, generations) && Stories(generations)
    && match active
       case None => NoneRunning(generations, |generations|)
       case Some(a) => IsCurrent(a, generations) && NoneRunning(generations, |generations| - 1)
  }

  lemma ActiveIsNewest(a: Active, sent: seq<Frame>, tags: seq<Option<nat>>, generations: seq<Generation>)
    requires Consistent(Some(a), sent, tags, generations)
    ensures generations != [] && generations[|generations| - 1].id == a.id
  {
  }

  // ---- What each step of a session does to it ----

  lemma ProjectGrows(sent: seq<Frame>, tags: seq<Option<nat>>, frame: Frame, tag: Option<nat>, g: nat)
    requires |sent| == |tags|
    ensures Project(sent + [frame], tags + [tag], g) == Project(sent, tags, g) + if tag == Some(g) then [frame] else []
  {
    assert (sent + [frame])[..|sent|] == sent && (tags + [tag])[..|tags|] == tags;
  }

  lemma ForeignAccounted(sent: seq<Frame>, tags: seq<Option<nat>>, generations: seq<Generation>, frame: Frame)
    requires Accounted(sent, tags, generations) && !frame.DeltaFrame? && !frame.Final?
    ensures Accounted(sent + [frame], tags + [None], generations)
  {
    forall g: nat | g < |generations|
      ensures generations[g].frames == Project(sent + [frame], tags + [None], g)
    {
      ProjectGrows(sent, tags, frame, None, g);
    }
  }

  /** A frame outside any generation: busy and malformed requests, unmatched cancels, pongs. */
  lemma ForeignKeeps(
    active: Option<Active>, sent: seq<Frame>, tags: seq<Option<nat>>, generations: seq<Generation>, frame: Frame)
    requires Consistent(active, sent, tags, generations) && !frame.DeltaFrame? && !frame.Final?
    ensures Consistent(active, sent + [frame], tags + [None], generations)
  {
    ForeignAccounted(sent, tags, generations, frame);
  }

  lemma OwnAccounted(sent: seq<Frame>, tags: seq<Option<nat>>, generations: seq<Generation>, frame: Frame, fate: Fate)
    requires Accounted(sent, tags, generations) && generations != []
    ensures Accounted(sent + [frame], tags + [Some(|generations| - 1)], AddFrame(generations, frame, fate))
  {
    hide Project;
    var tag := Some(|generations| - 1);
    var generations' := AddFrame(generations, frame, fate);
    forall g: nat | g < |generations|
      ensures generations'[g].frames == Project(sent + [frame], tags + [tag], g)
    {
      ProjectGrows(sent, tags, frame, tag, g);
    }
  }

  lemma DeltaKeeps(a: Active, sent: seq<Frame>, tags: seq<Option<nat>>, generations: seq<Generation>, text: string)
    requires Consistent(Some(a), sent, tags, generations) && a.events != [] && a.events[0] == Ok(Delta(text))
    ensures var frame := DeltaFrame(a.id, text);
            Consistent(Some(a.(events := a.events[1..])), sent + [frame], tags + [Some(|generations| - 1)],
                       AddFrame(generations, frame, Running))
  {
    var frame, g := DeltaFrame(a.id, text), generations[|generations| - 1];
    OwnAccounted(sent, tags, generations, frame, Running);
    hide Accounted;
    FramesStep(a.id, a.usage, a.events);
    Associates(g.frames, [frame], Frames(a.id, a.usage, a.events[1..]));
    hide Frames;
    var generations' := AddFrame(generations, frame, Running);
  }

  lemma UsageKeeps(a: Active, sent: seq<Frame>, tags: seq<Option<nat>>, generations: seq<Generation>, usage: TokenUsage)
    requires Consistent(Some(a), sent, tags, generations) && a.events != [] && a.events[0] == Ok(Usage(usage))
    ensures Consistent(Some(a.(events := a.events[1..], usage := Some(usage))), sent, tags, generations)
  {
    hide Accounted;
    FramesStep(a.id, a.usage, a.events);
  }

  /** The last frame of a generation: its events say so, or its client withdrew it. */
  lemma LastKeeps(
    a: Active, sent: seq<Frame>, tags: seq<Option<nat>>, generations: seq<Generation>, frame: Frame, fate: Fate)
    requires Consistent(Some(a), sent, tags, generations)
    requires (fate.Served? && Frames(a.id, a.usage, a.events) == [frame])
             || (fate.Withdrawn? && frame == ErrorFrame(Some(a.id), "cancelled"))
    ensures Consistent(None, sent + [frame], tags + [Some(|generations| - 1)], AddFrame(generations, frame, fate))
  {
    OwnAccounted(sent, tags, generations, frame, fate);
    hide Accounted;
    hide Frames;
    var g := generations[|generations| - 1];
    assert (g.frames + [frame])[..|g.frames|] == g.frames;
  }

  /** The session is over: what was running is dropped. */
  lemma DropKeeps(a: Active, sent: seq<Frame>, tags: seq<Option<nat>>, generations: seq<Generation>)
    requires Consistent(Some(a), sent, tags, generations)
    ensures Consistent(None, sent, tags, SetFate(generations, Dropped))
  {
    assert Accounted(sent, tags, SetFate(generations, Dropped));
    hide Accounted;
    hide Frames;
  }

  lemma StartKeeps(sent: seq<Frame>, tags: seq<Option<nat>>, generations: seq<Generation>, g: Generation)
    requires Consistent(None, sent, tags, generations) && g.frames == [] && g.fate.Running?
    ensures Consistent(Some(Active(g.id, g.queue, None)), sent, tags, generations + [g])
  {
    var generations' := generations + [g];
    NothingOfNew(sent, tags, |generations|);
    assert Accounted(sent, tags, generations');
    hide Accounted;
    hide Frames;
    assert g.frames + Whole(g) == Whole(g);
  }

  lemma {:induction false} NothingOfNew(sent: seq<Frame>, tags: seq<Option<nat>>, g: nat)
    requires |sent| == |tags| && forall i :: 0 <= i < |tags| ==> tags[i] != Some(g)
    ensures Project(sent, tags, g) == []
    decreases |sent|
  {
    if sent != [] { NothingOfNew(sent[..|sent| - 1], tags[..|sent| - 1], g); }
  }

  lemma FramesStep(id: string, usage: Option<TokenUsage>, queue: seq<QueueItem>)
    ensures queue == [] ==> Frames(id, usage, queue) == [ErrorFrame(Some(id), "upstream_protocol")]
    ensures queue != [] && queue[0].Err? ==>
              Frames(id, usage, queue) == [ErrorFrame(Some(id), EngineCode(queue[0].error))]
    ensures queue != [] && queue[0].Ok? ==>
              var event, rest := queue[0].value, queue[1..];
              Frames(id, usage, queue)
              == if event.Delta? then [DeltaFrame(id, event.text)] + Frames(id, usage, rest)
                 else if event.Usage? then Frames(id, Some(event.usage), rest)
                 else if usage.Some? then [Final(id, event.reason, usage.value)]
                 else [ErrorFrame(Some(id), "upstream_protocol")]
  {
  }

  // ---- Every session keeps its history ----

  /** Only the newest generation can have been dropped, and only by the end of the session. */
  ghost predicate DroppedAtEnd(s: State) {
    forall g :: 0 <= g < |s.generations| && s.generations[g].fate.Dropped? ==> g == |s.generations| - 1 && !s.open
  }

  ghost predicate Sound(s: State) {
    Consistent(s.active, s.sent, s.tags, s.generations) && (!s.open ==> s.active.None?) && DroppedAtEnd(s)
  }

  lemma CloseSound(s: State)
    requires Sound(s)
    ensures Sound(Closed(s))
  {
    if s.active.Some? {
      DropKeeps(s.active.value, s.sent, s.tags, s.generations);
      ActiveIsNewest(s.active.value, s.sent, s.tags, s.generations);
    }
    hide Consistent;
  }

  lemma ForeignSound(peer: Peer, s: State, frame: Frame)
    requires Sound(s) && !frame.DeltaFrame? && !frame.Final?
    ensures Sound(SendForeign(peer, s, frame))
  {
    ForeignKeeps(s.active, s.sent, s.tags, s.generations, frame);
    hide Consistent;
    CloseSound(s.(sends := s.sends + 1));
  }

  lemma DeltaSound(peer: Peer, s: State, a: Active, text: string)
    requires Sound(s) && s.open && s.active == Some(a) && a.events != [] && a.events[0] == Ok(Delta(text))
    ensures Sound(SendOwn(peer, s, DeltaFrame(a.id, text), Some(a.(events := a.events[1..])), Running))
  {
    DeltaKeeps(a, s.sent, s.tags, s.generations, text);
    ActiveIsNewest(a, s.sent, s.tags, s.generations);
    hide Consistent;
    CloseSound(s.(sends := s.sends + 1));
  }

  lemma LastSound(peer: Peer, s: State, a: Active, frame: Frame, fate: Fate)
    requires Sound(s) && s.open && s.active == Some(a)
    requires (fate.Served? && Frames(a.id, a.usage, a.events) == [frame])
             || (fate.Withdrawn? && frame == ErrorFrame(Some(a.id), "cancelled"))
    ensures Sound(SendOwn(peer, s, frame, None, fate))
  {
    LastKeeps(a, s.sent, s.tags, s.generations, frame, fate);
    ActiveIsNewest(a, s.sent, s.tags, s.generations);
    hide Consistent;
    CloseSound(s.(sends := s.sends + 1));
  }

  lemma EventSound(peer: Peer, s: State, a: Active)
    requires Sound(s) && s.open && s.active == Some(a)
    ensures Sound(OnEvent(peer, s, a))
  {
    FramesStep(a.id, a.usage, a.events);
    hide Frames;
    hide Consistent;
    if a.events == [] {
      LastSound(peer, s, a, ErrorFrame(Some(a.id), "upstream_protocol"), Served);
    } else if a.events[0].Err? {
      LastSound(peer, s, a, ErrorFrame(Some(a.id), EngineCode(a.events[0].error)), Served);
    } else if a.events[0].value.Delta? {
      DeltaSound(peer, s, a, a.events[0].value.text);
    } else if a.events[0].value.Usage? {
      UsageKeeps(a, s.sent, s.tags, s.generations, a.events[0].value.usage);
    } else if a.usage.Some? {
      LastSound(peer, s, a, Final(a.id, a.events[0].value.reason, a.usage.value), Served);
    } else {
      LastSound(peer, s, a, ErrorFrame(Some(a.id), "upstream_protocol"), Served);
    }
  }

  lemma StartSound(peer: Peer, s: State, k: nat, id: string)
    requires Sound(s) && s.open
    ensures Sound(OnStart(peer, s, k, id))
  {
    hide Consistent;
    ForeignSound(peer, s, ErrorFrame(None, "invalid_request"));
    ForeignSound(peer, s, ErrorFrame(Some(id), "overloaded"));
    if StartAdmitted(id, s.active) {
      var s', result := s.(started := s.started + 1), peer.starts(s.started);
      if result.Accepted? {
        StartKeeps(s.sent, s.tags, s.generations, Generation(id, result.events, [], Running, k, s.started));
      } else if result.Refused? {
        ForeignSound(peer, s', ErrorFrame(Some(id), EngineCode(result.error)));
      } else {
        ForeignSound(peer, s', ErrorFrame(Some(id), "internal"));
      }
    }
  }

  lemma StepSound(peer: Peer, s: State, k: nat, input: Input)
    requires Sound(s)
    ensures Sound(Step(peer, s, k, input))
  {
    hide Sound;
    hide OnStart;
    CloseSound(s);
    if s.open && input.FromSocket? {
      match input.message {
        case Start(id) => StartSound(peer, s, k, id);
        case Cancel(id) =>
          ForeignSound(peer, s, ErrorFrame(Some(id), "invalid_request"));
          if s.active.Some? && s.active.value.id == id {
            LastSound(peer, s, s.active.value, ErrorFrame(Some(id), "cancelled"), Withdrawn);
          }
        case Close =>
          ForeignSound(peer, Closed(s), SocketClose);
          CloseSound(SendForeign(peer, Closed(s), SocketClose));
        case _ =>
          ForeignSound(peer, s, ErrorFrame(None, "invalid_request"));
          ForeignSound(peer, s, Pong);
          ForeignSound(peer, s, SocketPong);
      }
    } else if s.open && input.FromEngine? && s.active.Some? {
      EventSound(peer, s, s.active.value);
    }
  }

  lemma {:induction false} RunSound(peer: Peer, inputs: seq<Input>)
    ensures Sound(Run(peer, inputs))
    decreases |inputs|
  {
    if inputs == [] {
      assert Sound(FRESH);
      ForeignSound(peer, FRESH, Frame.Ready);
    } else {
      var n := |inputs| - 1;
      RunSound(peer, inputs[..n]);
      StepSound(peer, Run(peer, inputs[..n]), n, inputs[n]);
    }
  }

  // ---- Generations are the accepted starts ----

  datatype AcceptedStart = AcceptedStart(input: nat, call: nat, id: string, queue: seq<QueueItem>)

  /** The k-th input is a start that the session passes on and the engine accepts. */
  predicate AcceptedAt(peer: Peer, inputs: seq<Input>, k: nat)
    requires k < |inputs|
  {
    var s := Run(peer, inputs[..k]);
    && s.open && inputs[k].FromSocket? && inputs[k].message.Start?
    && StartAdmitted(inputs[k].message.id, s.active) && peer.starts(s.started).Accepted?
  }

  function StartAt(peer: Peer, inputs: seq<Input>, k: nat): AcceptedStart
    requires k < |inputs| && AcceptedAt(peer, inputs, k)
  {
    var call := Run(peer, inputs[..k]).started;
    AcceptedStart(k, call, inputs[k].message.id, peer.starts(call).events)
  }

  function AcceptedStarts(peer: Peer, inputs: seq<Input>): seq<AcceptedStart> {
    if inputs == [] then []
    else
      var n := |inputs| - 1;
      AcceptedStarts(peer, inputs[..n]) + if AcceptedAt(peer, inputs, n) then [StartAt(peer, inputs, n)] else []
  }

  function StartsOf(generations: seq<Generation>): seq<AcceptedStart> {
    seq(|generations|, g requires 0 <= g < |generations| =>
      AcceptedStart(generations[g].input, generations[g].call, generations[g].id, generations[g].queue))
  }

  lemma StartsStay(generations: seq<Generation>, frame: Frame, fate: Fate)
    ensures StartsOf(AddFrame(generations, frame, fate)) == StartsOf(generations)
    ensures StartsOf(SetFate(generations, fate)) == StartsOf(generations)
  {
  }

  lemma ClosedStarts(s: State)
    ensures StartsOf(Closed(s).generations) == StartsOf(s.generations) && Closed(s).started == s.started
  {
    StartsStay(s.generations, Pong, Dropped);
  }

  lemma ForeignStarts(peer: Peer, s: State, frame: Frame)
    ensures var s' := SendForeign(peer, s, frame);
            StartsOf(s'.generations) == StartsOf(s.generations) && s'.started == s.started
  {
    ClosedStarts(s.(sends := s.sends + 1));
  }

  lemma OwnStarts(peer: Peer, s: State, frame: Frame, next: Option<Active>, fate: Fate)
    ensures var s' := SendOwn(peer, s, frame, next, fate);
            StartsOf(s'.generations) == StartsOf(s.generations) && s'.started == s.started
  {
    ClosedStarts(s.(sends := s.sends + 1));
    StartsStay(s.generations, frame, fate);
  }

  lemma EventStarts(peer: Peer, s: State, a: Active)
    ensures StartsOf(OnEvent(peer, s, a).generations) == StartsOf(s.generations)
    ensures OnEvent(peer, s, a).started == s.started
  {
    hide StartsOf;
    forall frame, next, fate {
      OwnStarts(peer, s, frame, next, fate);
    }
    hide SendOwn;
  }

  /** Only an accepted start adds to the history, and only starts passed on use up engine calls. */
  lemma StepStarts(peer: Peer, s: State, k: nat, input: Input)
    ensures var s' := Step(peer, s, k, input);
            var passed :=
              s.open && input.FromSocket? && input.message.Start? && StartAdmitted(input.message.id, s.active);
            && s'.started == s.started + (if passed then 1 else 0)
            && StartsOf(s'.generations)
               == StartsOf(s.generations)
                  + if passed && peer.starts(s.started).Accepted?
                    then [AcceptedStart(k, s.started, input.message.id, peer.starts(s.started).events)] else []
  {
    forall s': State, frame {
      ForeignStarts(peer, s', frame);
    }
    ClosedStarts(s);
    ClosedStarts(SendForeign(peer, Closed(s), SocketClose));
    assert StartsOf(s.generations) + [] == StartsOf(s.generations);
    hide SendForeign;
    hide Closed;
    if s.open {
      if input.FromEngine? && s.active.Some? {
        EventStarts(peer, s, s.active.value);
      } else if input.FromSocket? && input.message.Cancel? {
        OwnStarts(peer, s, ErrorFrame(Some(input.message.id), "cancelled"), None, Withdrawn);
      } else if input.FromSocket? && input.message.Start? && peer.starts(s.started).Accepted? {
        var g := Generation(input.message.id, peer.starts(s.started).events, [], Running, k, s.started);
        assert StartsOf(s.generations + [g]) == StartsOf(s.generations) + StartsOf([g]);
      }
    }
    hide OnEvent;
    hide SendOwn;
  }

  /** The generations of a session are exactly the starts it accepted, in the order of the inputs. */
  lemma {:induction false} GenerationsAreStarts(peer: Peer, inputs: seq<Input>)
    ensures StartsOf(Run(peer, inputs).generations) == AcceptedStarts(peer, inputs)
    decreases |inputs|
  {
    if inputs == [] {
      ForeignStarts(peer, FRESH, Frame.Ready);
    } else {
      var n := |inputs| - 1;
      GenerationsAreStarts(peer, inputs[..n]);
      StepStarts(peer, Run(peer, inputs[..n]), n, inputs[n]);
      hide Step;
    }
  }

  /** Whether and how an input was accepted does not depend on what comes after it. */
  lemma AcceptedStays(peer: Peer, inputs: seq<Input>, n: nat, k: nat)
    requires k < n <= |inputs|
    ensures AcceptedAt(peer, inputs[..n], k) <==> AcceptedAt(peer, inputs, k)
    ensures AcceptedAt(peer, inputs, k) ==> StartAt(peer, inputs[..n], k) == StartAt(peer, inputs, k)
  {
    assert inputs[..n][..k] == inputs[..k];
    hide Run;
  }

  ghost predicate InOrder(peer: Peer, inputs: seq<Input>, starts: seq<AcceptedStart>, called: nat) {
    && (forall i :: 0 <= i < |starts| ==>
          && starts[i].input < |inputs| && AcceptedAt(peer, inputs, starts[i].input)
          && starts[i] == StartAt(peer, inputs, starts[i].input)
          && starts[i].call < called)
    && (forall i, j :: 0 <= i < j < |starts| ==> starts[i].input < starts[j].input && starts[i].call < starts[j].call)
  }

  /** Accepted starts come in the order of their inputs and of their engine calls, each where it was accepted. */
  lemma {:induction false} AcceptedInOrder(peer: Peer, inputs: seq<Input>)
    ensures InOrder(peer, inputs, AcceptedStarts(peer, inputs), Run(peer, inputs).started)
    decreases |inputs|
  {
    if inputs != [] {
      var n := |inputs| - 1;
      var before := AcceptedStarts(peer, inputs[..n]);
      AcceptedInOrder(peer, inputs[..n]);
      StepStarts(peer, Run(peer, inputs[..n]), n, inputs[n]);
      hide Step;
      forall i | 0 <= i < |before|
        ensures AcceptedAt(peer, inputs, before[i].input) && before[i] == StartAt(peer, inputs, before[i].input)
      {
        AcceptedStays(peer, inputs, n, before[i].input);
      }
      hide AcceptedAt;
      hide StartAt;
      StartCalls(peer, inputs, n);
    }
  }

  lemma StartCalls(peer: Peer, inputs: seq<Input>, k: nat)
    requires k < |inputs|
    ensures AcceptedAt(peer, inputs, k) ==>
              StartAt(peer, inputs, k).input == k && StartAt(peer, inputs, k).call == Run(peer, inputs[..k]).started
    ensures AcceptedAt(peer, inputs, k) ==>
              Run(peer, inputs[..k + 1]).started == Run(peer, inputs[..k]).started + 1
  {
    var upTo := inputs[..k + 1];
    assert upTo[..k] == inputs[..k];
    StepStarts(peer, Run(peer, inputs[..k]), k, inputs[k]);
    hide Step;
  }

  /** No accepted start is missing. */
  lemma {:induction false} AcceptedIsListed(peer: Peer, inputs: seq<Input>, k: nat) returns (i: nat)
    requires k < |inputs| && AcceptedAt(peer, inputs, k)
    ensures i < |AcceptedStarts(peer, inputs)| && AcceptedStarts(peer, inputs)[i] == StartAt(peer, inputs, k)
    decreases |inputs|
  {
    var n := |inputs| - 1;
    if k == n {
      i := |AcceptedStarts(peer, inputs[..n])|;
    } else {
      AcceptedStays(peer, inputs, n, k);
      i := AcceptedIsListed(peer, inputs[..n], k);
    }
  }

  // ---- When a session closes, and what its engine events do ----

  /** These inputs end a session. */
  predicate Closing(input: Input) {
    input.SocketGone? || (input.FromSocket? && (input.message.Close? || input.message.CloseFrame?))
  }

  ghost predicate AllSent(peer: Peer, sends: nat) {
    forall n: nat :: n < sends ==> !peer.sendFails(n)
  }

  ghost predicate NoneClosing(inputs: seq<Input>) {
    forall k :: 0 <= k < |inputs| ==> !Closing(inputs[k])
  }

  lemma LastClosing(inputs: seq<Input>)
    requires inputs != []
    ensures NoneClosing(inputs) <==> NoneClosing(inputs[..|inputs| - 1]) && !Closing(inputs[|inputs| - 1])
  {
    var n := |inputs| - 1;
    assert forall k :: 0 <= k < n ==> inputs[..n][k] == inputs[k];
  }

  lemma StepOpen(peer: Peer, s: State, k: nat, input: Input)
    requires s.open
    ensures var s' := Step(peer, s, k, input);
            && s.sends <= s'.sends <= s.sends + 1
            && (s'.open <==> !Closing(input) && (s'.sends == s.sends || !peer.sendFails(s.sends)))
  {
  }

  /** A session is open exactly as long as no frame has failed and no closing input has come. */
  lemma {:induction false} OpenExactly(peer: Peer, inputs: seq<Input>)
    ensures var s := Run(peer, inputs);
            s.open <==> AllSent(peer, s.sends) && NoneClosing(inputs)
    decreases |inputs|
  {
    if inputs != [] {
      var n := |inputs| - 1;
      var s := Run(peer, inputs[..n]);
      OpenExactly(peer, inputs[..n]);
      if s.open { StepOpen(peer, s, n, inputs[n]); }
      LastClosing(inputs);
      hide OnMessage;
      hide OnEvent;
      hide NoneClosing;
      hide Closing;
    }
  }

  function EngineInputs(inputs: seq<Input>): nat {
    if inputs == [] then 0
    else EngineInputs(inputs[..|inputs| - 1]) + if inputs[|inputs| - 1].FromEngine? then 1 else 0
  }

  lemma EngineInputsSince(inputs: seq<Input>, from: nat)
    requires from < |inputs|
    ensures var n := |inputs| - 1;
            EngineInputs(inputs[from..]) == EngineInputs(inputs[..n][from..]) + if inputs[n].FromEngine? then 1 else 0
  {
    var since, n := inputs[from..], |inputs| - 1;
    assert since[..|since| - 1] == inputs[..n][from..] && since[|since| - 1] == inputs[n];
  }

  /** How one step moves the active generation's event queue. */
  lemma StepEvents(peer: Peer, s: State, k: nat, input: Input)
    requires !s.open ==> s.active.None?
    ensures var s' := Step(peer, s, k, input);
            s'.active.Some? ==>
              if s.active.None? then
                && s.open && input.FromSocket? && input.message.Start? && StartAdmitted(input.message.id, None)
                && peer.starts(s.started).Accepted? && s'.active.value.events == peer.starts(s.started).events
              else
                var was := s.active.value.events;
                var now := s'.active.value.events;
                if input.FromEngine? then was != [] && now == was[1..] else now == was
  {
  }

  /** What is active is the newest accepted start, with one event consumed for every engine input since. */
  ghost predicate KeepsUp(s: State, starts: seq<AcceptedStart>, inputs: seq<Input>) {
    s.active.Some? ==>
      && starts != []
      && var start := starts[|starts| - 1];
      && start.input < |inputs|
      && var consumed := EngineInputs(inputs[start.input + 1..]);
      && consumed <= |start.queue| && s.active.value.events == start.queue[consumed..]
  }

  lemma KeepsUpStep(s: State, s': State, starts: seq<AcceptedStart>, inputs: seq<Input>)
    requires inputs != [] && s.active.Some? && s'.active.Some?
    requires KeepsUp(s, starts, inputs[..|inputs| - 1])
    requires var was := s.active.value.events;
             if inputs[|inputs| - 1].FromEngine? then was != [] && s'.active.value.events == was[1..]
             else s'.active.value.events == was
    ensures KeepsUp(s', starts, inputs)
  {
    EngineInputsSince(inputs, starts[|starts| - 1].input + 1);
    hide EngineInputs;
  }

  lemma {:induction false} RunKeepsUp(peer: Peer, inputs: seq<Input>)
    ensures KeepsUp(Run(peer, inputs), AcceptedStarts(peer, inputs), inputs)
    decreases |inputs|
  {
    if inputs != [] {
      var n := |inputs| - 1;
      var s, s' := Run(peer, inputs[..n]), Run(peer, inputs);
      RunKeepsUp(peer, inputs[..n]);
      RunSound(peer, inputs[..n]);
      hide Consistent;
      StepEvents(peer, s, n, inputs[n]);
      hide Step;
      if s'.active.Some? {
        if s.active.None? {
          assert AcceptedAt(peer, inputs, n);
          assert inputs[n + 1..] == [];
        } else {
          assert !AcceptedAt(peer, inputs, n);
          hide KeepsUp;
          hide Run;
          KeepsUpStep(s, s', AcceptedStarts(peer, inputs[..n]), inputs);
          assert AcceptedStarts(peer, inputs[..n]) + [] == AcceptedStarts(peer, inputs[..n]);
        }
      }
    }
  }

  /** What a withdrawn generation is withdrawn by. */
  ghost predicate WithdrawnByClient(generations: seq<Generation>, inputs: seq<Input>) {
    forall g :: 0 <= g < |generations| && generations[g].fate.Withdrawn? ==>
      exists k :: generations[g].input < k < |inputs| && inputs[k] == FromSocket(Cancel(generations[g].id))
  }

  /** The same generation, withdrawn only if it was before. */
  ghost predicate NotWithdrawn(before: seq<Generation>, after: seq<Generation>) {
    && |after| == |before|
    && forall g :: 0 <= g < |after| ==>
         && after[g].id == before[g].id && after[g].input == before[g].input
         && (after[g].fate.Withdrawn? ==> before[g].fate.Withdrawn?)
  }

  lemma ClosedWithdraws(s: State)
    ensures NotWithdrawn(s.generations, Closed(s).generations)
  {
  }

  lemma ForeignWithdraws(peer: Peer, s: State, frame: Frame)
    ensures NotWithdrawn(s.generations, SendForeign(peer, s, frame).generations)
  {
    ClosedWithdraws(s.(sends := s.sends + 1));
    hide Closed;
  }

  lemma OwnWithdraws(peer: Peer, s: State, frame: Frame, next: Option<Active>, fate: Fate)
    requires !fate.Withdrawn?
    ensures NotWithdrawn(s.generations, SendOwn(peer, s, frame, next, fate).generations)
  {
    ClosedWithdraws(s.(sends := s.sends + 1));
    hide Closed;
  }

  lemma EventWithdraws(peer: Peer, s: State, a: Active)
    ensures NotWithdrawn(s.generations, OnEvent(peer, s, a).generations)
  {
    forall frame, next, fate: Fate | !fate.Withdrawn? {
      OwnWithdraws(peer, s, frame, next, fate);
    }
    hide SendOwn;
    hide NotWithdrawn;
    assert NotWithdrawn(s.generations, s.generations) by { SameWithdraws(s.generations); }
  }

  lemma SameWithdraws(generations: seq<Generation>)
    ensures NotWithdrawn(generations, generations)
  {
  }

  lemma StartWithdraws(peer: Peer, s: State, k: nat, id: string, g: nat)
    requires g < |OnStart(peer, s, k, id).generations| && OnStart(peer, s, k, id).generations[g].fate.Withdrawn?
    ensures g < |s.generations| && s.generations[g].fate.Withdrawn?
    ensures var now := OnStart(peer, s, k, id).generations[g];
            now.id == s.generations[g].id && now.input == s.generations[g].input
  {
    forall s': State, frame {
      ForeignWithdraws(peer, s', frame);
    }
    hide SendForeign;
  }

  lemma CancelWithdraws(peer: Peer, s: State, a: Active, g: nat)
    requires Sound(s) && s.active == Some(a)
    requires var s' := SendOwn(peer, s, ErrorFrame(Some(a.id), "cancelled"), None, Withdrawn);
             g < |s'.generations| && s'.generations[g].fate.Withdrawn?
    ensures g < |s.generations|
    ensures var now := SendOwn(peer, s, ErrorFrame(Some(a.id), "cancelled"), None, Withdrawn).generations[g];
            && now.id == s.generations[g].id && now.input == s.generations[g].input
            && (s.generations[g].fate.Withdrawn? || now.id == a.id)
  {
    ActiveIsNewest(a, s.sent, s.tags, s.generations);
    ClosedWithdraws(s.(sends := s.sends + 1));
    hide Closed;
    hide Sound;
  }

  lemma StepWithdrawn(peer: Peer, s: State, k: nat, input: Input, g: nat)
    requires Sound(s)
    requires g < |Step(peer, s, k, input).generations| && Step(peer, s, k, input).generations[g].fate.Withdrawn?
    ensures g < |s.generations|
    ensures var was, now := s.generations[g], Step(peer, s, k, input).generations[g];
            && now.id == was.id && now.input == was.input
            && (was.fate.Withdrawn? || input == FromSocket(Cancel(now.id)))
  {
    ClosedWithdraws(s);
    hide Sound;
    if s.open && input.FromSocket? {
      match input.message {
        case Start(id) => StartWithdraws(peer, s, k, id, g);
        case Cancel(id) =>
          ForeignWithdraws(peer, s, ErrorFrame(Some(id), "invalid_request"));
          if s.active.Some? && s.active.value.id == id { CancelWithdraws(peer, s, s.active.value, g); }
        case Close =>
          ForeignWithdraws(peer, Closed(s), SocketClose);
          ClosedWithdraws(SendForeign(peer, Closed(s), SocketClose));
        case _ =>
          ForeignWithdraws(peer, s, ErrorFrame(None, "invalid_request"));
          ForeignWithdraws(peer, s, Pong);
          ForeignWithdraws(peer, s, SocketPong);
      }
    } else if s.open && input.FromEngine? && s.active.Some? {
      EventWithdraws(peer, s, s.active.value);
    }
    hide OnEvent;
    hide OnStart;
    hide SendForeign;
    hide SendOwn;
    hide Closed;
  }

  lemma {:induction false} OnlyClientsWithdraw(peer: Peer, inputs: seq<Input>)
    ensures WithdrawnByClient(Run(peer, inputs).generations, inputs)
    ensures forall g :: 0 <= g < |Run(peer, inputs).generations| ==> Run(peer, inputs).generations[g].input < |inputs|
    decreases |inputs|
  {
    var s' := Run(peer, inputs);
    GenerationsAreStarts(peer, inputs);
    AcceptedInOrder(peer, inputs);
    forall g | 0 <= g < |s'.generations|
      ensures s'.generations[g].input < |inputs|
    {
      assert StartsOf(s'.generations)[g].input == s'.generations[g].input;
    }
    if inputs != [] {
      var n := |inputs| - 1;
      var s := Run(peer, inputs[..n]);
      OnlyClientsWithdraw(peer, inputs[..n]);
      RunSound(peer, inputs[..n]);
      hide Sound;
      hide AcceptedStarts;
      forall g | 0 <= g < |s'.generations| && s'.generations[g].fate.Withdrawn?
        ensures exists k ::
                  s'.generations[g].input < k < |inputs| && inputs[k] == FromSocket(Cancel(s'.generations[g].id))
      {
        StepWithdrawn(peer, s, n, inputs[n], g);
        hide Step;
        if s.generations[g].fate.Withdrawn? {
          var k :| s.generations[g].input < k < n && inputs[..n][k] == FromSocket(Cancel(s.generations[g].id));
          assert inputs[k] == inputs[..n][k];
        } else {
          assert s.generations[g].input < n;
          assert inputs[n] == FromSocket(Cancel(s'.generations[g].id));
        }
      }
    }
  }

  // ---- What the client sees ----

  lemma {:induction false} NoTerminals(id: string, frames: seq<Frame>)
    requires OnlyDeltas(id, frames)
    ensures TerminalFrames(frames) == 0
  {
    if frames != [] { NoTerminals(id, frames[1..]); }
  }

  lemma {:induction false} TerminalsConcat(a: seq<Frame>, b: seq<Frame>)
    ensures TerminalFrames(a + b) == TerminalFrames(a) + TerminalFrames(b)
  {
    if a == [] {
      assert a + b == b;
    } else {
      assert (a + b)[1..] == a[1..] + b;
      TerminalsConcat(a[1..], b);
    }
  }

  /** All frames a generation left alone sends are deltas of its id, but for the last, its one terminal. */
  lemma {:induction false} FramesShape(id: string, usage: Option<TokenUsage>, queue: seq<QueueItem>)
    ensures var frames := Frames(id, usage, queue);
            && frames != [] && OnlyDeltas(id, frames[..|frames| - 1])
            && var last := frames[|frames| - 1];
            && IsTerminalFrame(last) && (if last.Final? then last.id == id else last.id_ == Some(id))
    decreases |queue|
  {
    FramesStep(id, usage, queue);
    if queue != [] && queue[0].Ok? {
      var event := queue[0].value;
      if event.Delta? {
        FramesShape(id, usage, queue[1..]);
        var rest := Frames(id, usage, queue[1..]);
        var frames := Frames(id, usage, queue);
        assert frames == [DeltaFrame(id, event.text)] + rest;
        assert frames[..|frames| - 1] == [DeltaFrame(id, event.text)] + rest[..|rest| - 1];
      } else if event.Usage? {
        FramesShape(id, Some(event.usage), queue[1..]);
      }
    }
  }

  /** One terminal frame, and last, if the generation was served or withdrawn; none otherwise; its own id throughout. */
  lemma OneTerminal(g: Generation)
    requires Story(g)
    ensures TerminalFrames(g.frames) == if g.fate.Served? || g.fate.Withdrawn? then 1 else 0
    ensures g.fate.Served? || g.fate.Withdrawn? ==> g.frames != [] && IsTerminalFrame(g.frames[|g.frames| - 1])
    ensures forall i :: 0 <= i < |g.frames| && IsTerminalFrame(g.frames[i]) ==> i == |g.frames| - 1
    ensures forall i :: 0 <= i < |g.frames| ==>
              match g.frames[i]
              case DeltaFrame(id, _) => id == g.id
              case Final(id, _, _) => id == g.id
              case ErrorFrame(id, _) => id == Some(g.id)
              case _ => false
  {
    FramesShape(g.id, None, g.queue);
    hide Frames;
    if g.fate.Served? || g.fate.Withdrawn? {
      var n := |g.frames| - 1;
      NoTerminals(g.id, g.frames[..n]);
      TerminalsConcat(g.frames[..n], [g.frames[n]]);
      assert g.frames == g.frames[..n] + [g.frames[n]];
      forall i | 0 <= i < n
        ensures g.frames[i].DeltaFrame? && g.frames[i].id == g.id
      {
        assert g.frames[i] == g.frames[..n][i];
      }
    } else {
      NoTerminals(g.id, g.frames);
    }
  }

  /** A served generation tells the client what its event queue means. */
  lemma ServedTellsMeaning(g: Generation, budget: nat)
    requires Story(g) && g.fate.Served? && Word(g.queue, budget)
    ensures ReadFrames(g.id, "", g.frames) == Public(Meaning(g.queue))
  {
    TransportsAgree(g.id, g.queue, budget);
  }

  /** The frames of a generation up to one place in the transcript. */
  lemma {:induction false} ProjectPrefix(sent: seq<Frame>, tags: seq<Option<nat>>, g: nat, k: nat)
    requires |sent| == |tags| && k <= |sent|
    ensures Project(sent[..k], tags[..k], g) <= Project(sent, tags, g)
    decreases |sent|
  {
    var n := |sent| - 1;
    if k <= n {
      assert sent[..n][..k] == sent[..k] && tags[..n][..k] == tags[..k];
      ProjectPrefix(sent[..n], tags[..n], g, k);
    } else {
      assert sent[..k] == sent && tags[..k] == tags;
    }
  }

  lemma LaterIsLonger(sent: seq<Frame>, tags: seq<Option<nat>>, g: nat, i: nat, j: nat)
    requires i < j < |sent| == |tags| && tags[j] == Some(g)
    ensures |Project(sent[..i + 1], tags[..i + 1], g)| < |Project(sent, tags, g)|
  {
    ProjectPrefix(sent[..j], tags[..j], g, i + 1);
    assert sent[..j][..i + 1] == sent[..i + 1] && tags[..j][..i + 1] == tags[..i + 1];
    assert sent[..j + 1][..j] == sent[..j] && tags[..j + 1][..j] == tags[..j];
    assert Project(sent[..j + 1], tags[..j + 1], g) == Project(sent[..j], tags[..j], g) + [sent[j]];
    ProjectPrefix(sent, tags, g, j + 1);
  }

  /**
   Every accepted start is one generation, under the client's own id; it gets exactly one terminal
   frame, unless it is the one still running or the session closed on it.
   */
  lemma EachStartOneTerminal(peer: Peer, inputs: seq<Input>, k: nat) returns (g: nat)
    requires k < |inputs| && AcceptedAt(peer, inputs, k)
    ensures var s := Run(peer, inputs);
            && g < |s.generations| && |s.sent| == |s.tags|
            && var it := s.generations[g];
            && it.input == k && it.id == inputs[k].message.id && it.queue == StartAt(peer, inputs, k).queue
            && it.frames == Project(s.sent, s.tags, g) && Story(it)
            && TerminalFrames(it.frames) == (if it.fate.Served? || it.fate.Withdrawn? then 1 else 0)
            && (it.fate.Running? ==> s.open && s.active.Some? && g == |s.generations| - 1)
            && (it.fate.Dropped? ==> !s.open && g == |s.generations| - 1)
  {
    var s := Run(peer, inputs);
    GenerationsAreStarts(peer, inputs);
    g := AcceptedIsListed(peer, inputs, k);
    RunSound(peer, inputs);
    hide Run;
    hide AcceptedStarts;
    StartCalls(peer, inputs, k);
    var it := s.generations[g];
    assert StartsOf(s.generations)[g] == AcceptedStart(it.input, it.call, it.id, it.queue);
    assert Story(it);
    OneTerminal(it);
  }

  /** The frame at one place of the transcript, found among its generation's frames. */
  lemma FramePlace(sent: seq<Frame>, tags: seq<Option<nat>>, i: nat)
    requires |sent| == |tags| && i < |sent| && tags[i].Some?
    ensures var upTo, all := Project(sent[..i + 1], tags[..i + 1], tags[i].value), Project(sent, tags, tags[i].value);
            0 < |upTo| <= |all| && all[|upTo| - 1] == sent[i]
  {
    assert sent[..i + 1][..i] == sent[..i] && tags[..i + 1][..i] == tags[..i];
    ProjectPrefix(sent, tags, tags[i].value, i + 1);
  }

  /** After a generation's terminal frame nothing from that generation is sent. */
  lemma NothingAfterTerminal(peer: Peer, inputs: seq<Input>, i: nat, j: nat)
    requires var s := Run(peer, inputs);
             |s.sent| == |s.tags| && i < j < |s.sent| && s.tags[i].Some? && IsTerminalFrame(s.sent[i])
    ensures Run(peer, inputs).tags[j] != Run(peer, inputs).tags[i]
  {
    var s := Run(peer, inputs);
    RunSound(peer, inputs);
    hide Run;
    var g := s.tags[i].value;
    assert g < |s.generations| && Story(s.generations[g]);
    assert s.generations[g].frames == Project(s.sent, s.tags, g);
    OneTerminal(s.generations[g]);
    FramePlace(s.sent, s.tags, i);
    hide Project;
    if s.tags[j] == s.tags[i] { LaterIsLonger(s.sent, s.tags, g, i, j); }
  }

  /** Every delta and final frame bears the id of the accepted start it answers; no two generations' frames mix. */
  lemma FramesBelong(peer: Peer, inputs: seq<Input>, i: nat)
    requires i < |Run(peer, inputs).sent|
    requires Run(peer, inputs).sent[i].DeltaFrame? || Run(peer, inputs).sent[i].Final?
    ensures var s := Run(peer, inputs);
            && |s.tags| == |s.sent| && s.tags[i].Some? && s.tags[i].value < |s.generations|
            && var k := s.generations[s.tags[i].value].input;
            && k < |inputs| && AcceptedAt(peer, inputs, k) && inputs[k] == FromSocket(Start(s.sent[i].id))
            && forall j :: i < j < |s.sent| && s.tags[j].Some? ==> s.tags[i].value <= s.tags[j].value
  {
    var s := Run(peer, inputs);
    RunSound(peer, inputs);
    GenerationsAreStarts(peer, inputs);
    AcceptedInOrder(peer, inputs);
    hide Run;
    var g := s.tags[i].value;
    assert Story(s.generations[g]);
    OneTerminal(s.generations[g]);
    FramePlace(s.sent, s.tags, i);
    hide Project;
    var start := StartsOf(s.generations)[g];
    assert start.id == s.generations[g].id && start.input == s.generations[g].input;
  }

  // ---- The session itself ----

  class Session {
    const peer: Peer
    var active: Option<Active>
    var sent: seq<Frame>
    var sends: nat
    var started: nat
    var open: bool
    ghost var tags: seq<Option<nat>>
    ghost var generations: seq<Generation>

    constructor (peer: Peer)
      ensures this.peer == peer && View() == FRESH
    {
      this.peer := peer;
      active, sent, sends, started, open := None, [], 0, 0, true;
      tags, generations := [], [];
    }

    ghost function View(): State
      reads this
    {
      State(active, sent, sends, started, open, tags, generations)
    }

    /** `send_websocket`. */
    method Send(frame: Frame, ghost tag: Option<nat>) returns (ok: bool)
      modifies this`sent, this`sends, this`tags
      ensures ok == !peer.sendFails(old(sends)) && sends == old(sends) + 1
      ensures if ok then sent == old(sent) + [frame] && tags == old(tags) + [tag]
              else sent == old(sent) && tags == old(tags)
    {
      ok := !peer.sendFails(sends);
      sends := sends + 1;
      if ok { sent, tags := sent + [frame], tags + [tag]; }
    }

    /** `cancel_active`, and the return that drops what is active. */
    method Leave()
      modifies this`active, this`open, this`generations
      ensures View() == Closed(old(View()))
    {
      if active.Some? { generations := SetFate(generations, Dropped); }
      active, open := None, false;
    }

    method SendReply(frame: Frame) returns (go: bool)
      requires open
      modifies this
      ensures View() == SendForeign(peer, old(View()), frame) && go == open == !peer.sendFails(old(sends))
    {
      go := Send(frame, None);
      if !go { Leave(); }
    }

    /** One frame of the active generation, which goes on as `next` or has ended. */
    method SendFrame(frame: Frame, next: Option<Active>, ghost fate: Fate) returns (go: bool)
      requires open
      modifies this
      ensures View() == SendOwn(peer, old(View()), frame, next, fate) && go == open == !peer.sendFails(old(sends))
    {
      go := Send(frame, Newest(generations));
      if go {
        generations := AddFrame(generations, frame, fate);
        active := next;
      } else {
        Leave();
      }
    }

    /** `handle_websocket_event` on the next item of the active generation. */
    method HandleEvent() returns (go: bool)
      requires open && active.Some?
      modifies this
      ensures View() == OnEvent(peer, old(View()), old(active).value) && go == open
    {
      var a := active.value;
      if a.events == [] {
        go := SendFrame(ErrorFrame(Some(a.id), "upstream_protocol"), None, Served);
        return;
      }
      var item, rest := a.events[0], a.events[1..];
      if item.Err? {
        go := SendFrame(ErrorFrame(Some(a.id), EngineCode(item.error)), None, Served);
      } else if item.value.Delta? {
        go := SendFrame(DeltaFrame(a.id, item.value.text), Some(a.(events := rest)), Running);
      } else if item.value.Usage? {
        active := Some(a.(events := rest, usage := Some(item.value.usage)));
        go := true;
      } else if a.usage.Some? {
        go := SendFrame(Final(a.id, item.value.reason, a.usage.value), None, Served);
      } else {
        go := SendFrame(ErrorFrame(Some(a.id), "upstream_protocol"), None, Served);
      }
    }

    /** `start_websocket_generation`. */
    method HandleStart(id: string, ghost k: nat) returns (go: bool)
      requires open
      modifies this
      ensures View() == OnStart(peer, old(View()), k, id) && go == open
    {
      if id == "" || |id| > MAX_ID_BYTES {
        go := SendReply(ErrorFrame(None, "invalid_request"));
        return;
      }
      if active.Some? {
        go := SendReply(ErrorFrame(Some(id), "overloaded"));
        return;
      }
      var result := peer.starts(started);
      ghost var call := started;
      started := started + 1;
      if result.NoContext? {
        go := SendReply(ErrorFrame(Some(id), "internal"));
      } else if result.Refused? {
        go := SendReply(ErrorFrame(Some(id), EngineCode(result.error)));
      } else {
        generations := generations + [Generation(id, result.events, [], Running, k, call)];
        active := Some(Active(id, result.events, None));
        go := true;
      }
    }

    /** `handle_websocket_message`. */
    method HandleMessage(message: Message, ghost k: nat) returns (go: bool)
      requires open
      modifies this
      ensures View() == OnMessage(peer, old(View()), k, message) && go == open
    {
      match message {
        case Malformed => go := SendReply(ErrorFrame(None, "invalid_request"));
        case Start(id) => go := HandleStart(id, k);
        case Cancel(id) =>
          if active.Some? && active.value.id == id {
            go := SendFrame(ErrorFrame(Some(id), "cancelled"), None, Withdrawn);
          } else {
            go := SendReply(ErrorFrame(Some(id), "invalid_request"));
          }
        case Ping => go := SendReply(Pong);
        case Close =>
          Leave();
          var told := Send(SocketClose, None);
          go := false;
        case Binary => go := SendReply(ErrorFrame(None, "invalid_request"));
        case PingFrame => go := SendReply(SocketPong);
        case PongFrame => go := true;
        case CloseFrame =>
          Leave();
          go := false;
      }
    }

    /** `websocket_session` over any interleaving of inputs. */
    method Serve(inputs: seq<Input>)
      requires View() == FRESH
      modifies this
      ensures View() == Run(peer, inputs)
    {
      hide Run;
      RunFirst(peer);
      var go := SendReply(Frame.Ready);
      for k := 0 to |inputs|
        invariant View() == Run(peer, inputs[..k])
      {
        RunNext(peer, inputs, k);
        if open {
          match inputs[k] {
            case FromSocket(message) => go := HandleMessage(message, k);
            case SocketGone => Leave();
            case FromEngine => if active.Some? { go := HandleEvent(); }
          }
        }
      }
      assert inputs[..|inputs|] == inputs;
    }
  }

  lemma RunFirst(peer: Peer)
    ensures Run(peer, []) == SendForeign(peer, FRESH, Frame.Ready)
  {
  }

  lemma RunNext(peer: Peer, inputs: seq<Input>, k: nat)
    requires k < |inputs|
    ensures Run(peer, inputs[..k + 1]) == Step(peer, Run(peer, inputs[..k]), k, inputs[k])
  {
    assert inputs[..k + 1][..k] == inputs[..k];
  }
}
