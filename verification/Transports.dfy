/**
 The public transports over one engine event stream: the collecting calls (HTTP, gRPC, MCP),
 server-sent events, WebSocket frames and the gRPC stream, and what a client makes of each.
 */
module Transports {
  import opened Domain
  import opened GenerationTask
  import opened SseDecoder

  /** What a caller is told in the end. */
  datatype Told =
    | Reply(text: string, usage: TokenUsage, finish: FinishReason)
    | Failed(code: string)
    | Cut // the stream ended with no outcome

  /** The public code of an engine error. */
  function EngineCode(error: EngineError): string {
    match error
    case InvalidRequest(_) => "invalid_request"
    case Overloaded => "overloaded"
    case Cancelled => "cancelled"
    case DeadlineExceeded => "deadline_exceeded"
    case ArtifactsUnavailable => "not_ready"
    case RuntimeUnavailable => "not_ready"
    case RuntimeProtocol => "upstream_protocol"
    case ShuttingDown => "shutting_down"
    case Configuration => "internal"
  }

  function GrpcStatus(error: EngineError): string {
    match error
    case InvalidRequest(_) => "invalid_argument"
    case Overloaded => "resource_exhausted"
    case Cancelled => "cancelled"
    case DeadlineExceeded => "deadline_exceeded"
    case ArtifactsUnavailable => "unavailable"
    case RuntimeUnavailable => "unavailable"
    case ShuttingDown => "unavailable"
    case Configuration => "internal"
    case RuntimeProtocol => "internal"
  }

  // ---- The reference: what an event queue means, read off its end ----

  function TextOf(item: QueueItem): string {
    match item
    case Ok(Delta(text)) => text
    case _ => ""
  }

  function Texts(queue: seq<QueueItem>): string {
    if queue == [] then "" else TextOf(queue[0]) + Texts(queue[1..])
  }

  /** All delta text in order with the usage and finish at the end, or the error at the end. */
  function Meaning(queue: seq<QueueItem>): Result<Told, EngineError>
    ensures Meaning(queue).Ok? ==> Meaning(queue).value.Reply?
  {
    var n := |queue|;
    if n >= 2 && queue[n - 2].Ok? && queue[n - 2].value.Usage? && queue[n - 1].Ok? && queue[n - 1].value.Finished?
    then Ok(Reply(Texts(queue), queue[n - 2].value.usage, queue[n - 1].value.reason))
    else if n >= 1 && queue[n - 1].Err? then Err(queue[n - 1].error)
    else Err(RuntimeProtocol)
  }

  /** The outcome with some text in front of it. */
  function After(text: string, told: Told): Told {
    if told.Reply? then told.(text := text + told.text) else told
  }

  function Public(meaning: Result<Told, EngineError>): Told {
    match meaning
    case Ok(told) => told
    case Err(e) => Failed(EngineCode(e))
  }

  predicate Ends(queue: seq<QueueItem>) {
    queue != [] && IsTerminal(queue[|queue| - 1])
  }

  lemma MeaningAfterDelta(queue: seq<QueueItem>, budget: nat)
    requires Word(queue, budget) && queue != [] && queue[0].Ok? && queue[0].value.Delta?
    ensures Word(queue[1..], budget - 1)
    ensures Meaning(queue)
            == match Meaning(queue[1..])
               case Ok(told) => Ok(After(queue[0].value.text, told))
               case Err(e) => Err(e)
    ensures Ends(queue) <==> Ends(queue[1..])
  {
    var rest, n := queue[1..], |queue|;
    if n >= 2 { assert queue[n - 1] == rest[n - 2]; }
    if n >= 3 { assert queue[n - 2] == rest[n - 3]; }
  }

  /** A word without a leading delta is at most usage and a terminal. */
  lemma ShortWord(queue: seq<QueueItem>, budget: nat)
    requires Word(queue, budget) && (queue == [] || !queue[0].Ok? || !queue[0].value.Delta?)
    ensures queue == [] || (|queue| == 1 && queue[0].Err?)
            || (queue[0].Ok? && queue[0].value.Usage? && (|queue| == 1 || (|queue| == 2 && IsTerminal(queue[1]))))
    ensures Texts(queue) == ""
  {
    if |queue| == 2 { assert queue[1..] == [queue[1]] && Texts(queue[1..][1..]) == ""; }
  }

  // ---- Collecting: unary HTTP, unary gRPC and MCP ----

  /** What a reader of any stream has put together so far. */
  datatype Partial = Partial(text: string, usage: Option<TokenUsage>, finish: Option<FinishReason>)

  const NOTHING: Partial := Partial("", None, None)

  function Add(acc: Partial, event: GenerationEvent): Partial {
    match event
    case Delta(text) => acc.(text := acc.text + text)
    case Usage(usage) => acc.(usage := Some(usage))
    case Finished(reason) => acc.(finish := Some(reason))
  }

  function Completed(acc: Partial): Result<Told, EngineError> {
    if acc.usage.Some? && acc.finish.Some? then Ok(Reply(acc.text, acc.usage.value, acc.finish.value))
    else Err(RuntimeProtocol)
  }

  function Collected(acc: Partial, queue: seq<QueueItem>): Result<Told, EngineError>
    decreases |queue|
  {
    if queue == [] then Completed(acc)
    else match queue[0]
      case Err(e) => Err(e)
      case Ok(event) => Collected(Add(acc, event), queue[1..])
  }

  /** The receive loop of `collect_response` and of both `collect`s. */
  method Collect(queue: seq<QueueItem>) returns (r: Result<Told, EngineError>)
    ensures r == Collected(NOTHING, queue)
    ensures forall budget: nat :: Word(queue, budget) ==> r == Meaning(queue)
  {
    var acc, next := NOTHING, 0;
    forall budget: nat | Word(queue, budget)
      ensures Collected(NOTHING, queue) == Meaning(queue)
    {
      CollectedIsMeaning(queue, budget);
    }
    while next < |queue|
      invariant 0 <= next <= |queue|
      invariant Collected(acc, queue[next..]) == Collected(NOTHING, queue)
    {
      var item := queue[next];
      assert queue[next..][1..] == queue[next + 1..];
      if item.Err? { return Err(item.error); }
      acc := Add(acc, item.value);
      next := next + 1;
    }
    r := Completed(acc);
  }

  function Later(acc: Partial, meaning: Result<Told, EngineError>): Result<Told, EngineError> {
    match meaning
    case Ok(told) => Ok(After(acc.text, told))
    case Err(e) => Err(e)
  }

  lemma {:induction false} CollectedMeans(acc: Partial, queue: seq<QueueItem>, budget: nat)
    requires Word(queue, budget) && acc.usage.None? && acc.finish.None?
    ensures Collected(acc, queue) == Later(acc, Meaning(queue))
    decreases |queue|
  {
    if queue != [] && queue[0].Ok? && queue[0].value.Delta? {
      MeaningAfterDelta(queue, budget);
      CollectedMeans(Add(acc, queue[0].value), queue[1..], budget - 1);
      if Meaning(queue[1..]).Ok? { Associates(acc.text, queue[0].value.text, Meaning(queue[1..]).value.text); }
    } else {
      ShortWord(queue, budget);
      if |queue| == 1 { assert queue[1..] == []; }
      if |queue| == 2 {
        var mid := Add(acc, queue[0].value);
        assert queue[1..][1..] == [];
        assert Collected(mid, queue[1..])
               == if queue[1].Err? then Err(queue[1].error) else Completed(Add(mid, queue[1].value));
      }
      assert acc.text + "" == acc.text;
    }
  }

  /** For every word of the engine's grammar the collecting calls answer what the word means. */
  lemma CollectedIsMeaning(queue: seq<QueueItem>, budget: nat)
    requires Word(queue, budget)
    ensures Collected(NOTHING, queue) == Meaning(queue)
  {
    CollectedMeans(NOTHING, queue, budget);
    if Meaning(queue).Ok? { assert "" + Meaning(queue).value.text == Meaning(queue).value.text; }
  }

  // ---- Server-sent events ----

  /** One `stream_chunk`. */
  datatype StreamChunk = StreamChunk(delta: Option<string>, finish: Option<FinishReason>, usage: Option<TokenUsage>)

  datatype SseEvent = Data(chunk: StreamChunk) | DoneMark | ErrorEvent(code: string)

  function ChunkOf(event: GenerationEvent): StreamChunk {
    match event
    case Delta(text) => StreamChunk(Some(text), None, None)
    case Usage(usage) => StreamChunk(None, None, Some(usage))
    case Finished(reason) => StreamChunk(None, Some(reason), None)
  }

  function SseEvents(queue: seq<QueueItem>): seq<SseEvent> {
    if queue == [] then [ErrorEvent("upstream_protocol")]
    else match queue[0]
      case Err(e) => [ErrorEvent(EngineCode(e))]
      case Ok(event) =>
        [Data(ChunkOf(event))] + if event.Finished? then [DoneMark] else SseEvents(queue[1..])
  }

  /** The unfold that produces the response body. */
  class SseBody {
    var events: seq<QueueItem> // not received yet
    var sendDone: bool
    var finished: bool

    constructor (events: seq<QueueItem>)
      ensures Rest() == SseEvents(events)
    {
      this.events := events;
      sendDone, finished := false, false;
    }

    /** What is still to come. */
    ghost function Rest(): seq<SseEvent>
      reads this
    {
      if finished then [] else if sendDone then [DoneMark] else SseEvents(events)
    }

    method Next() returns (event: Option<SseEvent>)
      modifies this
      ensures old(Rest()) == (if event.Some? then [event.value] else []) + Rest()
      ensures event.None? ==> Rest() == []
    {
      if finished { return None; }
      if sendDone {
        finished := true;
        return Some(DoneMark);
      }
      if events == [] {
        finished := true;
        return Some(ErrorEvent("upstream_protocol"));
      }
      var item := events[0];
      events := events[1..];
      if item.Err? {
        finished := true;
        return Some(ErrorEvent(EngineCode(item.error)));
      }
      if item.value.Finished? { sendDone := true; }
      return Some(Data(ChunkOf(item.value)));
    }

    method Drain() returns (body: seq<SseEvent>)
      modifies this
      ensures body == old(Rest())
    {
      body := [];
      ghost var whole := Rest();
      var more := true;
      assert [] + Rest() == whole;
      while more
        invariant body + Rest() == whole
        invariant !more ==> Rest() == []
        decreases more, |Rest()|
      {
        ghost var rest := Rest();
        var event := Next();
        if event.None? {
          more := false;
          assert [] + Rest() == rest;
        } else {
          Associates(body, [event.value], Rest());
          body := body + [event.value];
        }
      }
      assert body + [] == body;
    }
  }

  function AddChunk(acc: Partial, chunk: StreamChunk): Partial {
    Partial(acc.text + if chunk.delta.Some? then chunk.delta.value else "",
            if chunk.usage.Some? then chunk.usage else acc.usage,
            if chunk.finish.Some? then chunk.finish else acc.finish)
  }

  /** A client of the event stream. */
  function ReadSse(acc: Partial, events: seq<SseEvent>): Told
    decreases |events|
  {
    if events == [] then Cut
    else match events[0]
      case Data(chunk) => ReadSse(AddChunk(acc, chunk), events[1..])
      case DoneMark => if Completed(acc).Ok? then Completed(acc).value else Cut
      case ErrorEvent(code) => Failed(code)
  }

  lemma {:induction false} SseMeans(acc: Partial, queue: seq<QueueItem>, budget: nat)
    requires Word(queue, budget) && acc.usage.None? && acc.finish.None?
    ensures ReadSse(acc, SseEvents(queue)) == Public(Later(acc, Meaning(queue)))
    decreases |queue|
  {
    var events := SseEvents(queue);
    if queue != [] && queue[0].Ok? && queue[0].value.Delta? {
      MeaningAfterDelta(queue, budget);
      SseMeans(Add(acc, queue[0].value), queue[1..], budget - 1);
      if Meaning(queue[1..]).Ok? { Associates(acc.text, queue[0].value.text, Meaning(queue[1..]).value.text); }
      assert events[1..] == SseEvents(queue[1..]);
    } else {
      ShortWord(queue, budget);
      assert acc.text + "" == acc.text;
      if queue != [] && queue[0].Ok? {
        var rest := SseEvents(queue[1..]);
        assert events[1..] == rest;
        if |queue| == 2 && queue[1].Ok? {
          var mid, last := AddChunk(acc, ChunkOf(queue[0].value)), ChunkOf(queue[1].value);
          assert rest == [Data(last), DoneMark] && rest[1..] == [DoneMark];
          assert ReadSse(mid, rest) == ReadSse(AddChunk(mid, last), [DoneMark]);
          assert acc.text + "" + "" == acc.text;
        }
      }
    }
  }

  /** `[DONE]` comes exactly once and last on success, and never otherwise. */
  lemma {:induction false} DoneOnlyOnSuccess(queue: seq<QueueItem>, budget: nat)
    requires Word(queue, budget)
    ensures var events := SseEvents(queue);
            && events != []
            && (forall i :: 0 <= i < |events| - 1 ==> events[i].Data?)
            && (events[|events| - 1].DoneMark? <==> Meaning(queue).Ok?)
            && (events[|events| - 1].ErrorEvent? <==> Meaning(queue).Err?)
    decreases |queue|
  {
    var events := SseEvents(queue);
    if queue != [] && queue[0].Ok? && queue[0].value.Delta? {
      MeaningAfterDelta(queue, budget);
      DoneOnlyOnSuccess(queue[1..], budget - 1);
      assert events == [Data(ChunkOf(queue[0].value))] + SseEvents(queue[1..]);
    } else {
      ShortWord(queue, budget);
      if |queue| == 1 { assert queue[1..] == []; }
      if |queue| == 2 {
        assert SseEvents(queue[1..]) == if queue[1].Err? then [ErrorEvent(EngineCode(queue[1].error))]
                                         else [Data(ChunkOf(queue[1].value)), DoneMark];
      }
    }
  }

  // ---- WebSocket frames of one generation ----

  datatype Frame =
    | Ready
    | DeltaFrame(id: string, delta: string)
    | Final(id: string, finish: FinishReason, usage: TokenUsage)
    | ErrorFrame(id_: Option<string>, code: string)
    | Pong
    | SocketPong
    | SocketClose

  /** The frames sent for one generation if nothing else intervenes. */
  function Frames(id: string, usage: Option<TokenUsage>, queue: seq<QueueItem>): seq<Frame>
    decreases |queue|
  {
    if queue == [] then [ErrorFrame(Some(id), "upstream_protocol")]
    else match queue[0]
      case Err(e) => [ErrorFrame(Some(id), EngineCode(e))]
      case Ok(Delta(text)) => [DeltaFrame(id, text)] + Frames(id, usage, queue[1..])
      case Ok(Usage(u)) => Frames(id, Some(u), queue[1..])
      case Ok(Finished(reason)) =>
        if usage.Some? then [Final(id, reason, usage.value)] else [ErrorFrame(Some(id), "upstream_protocol")]
  }

  /** A WebSocket client following its request id. */
  function ReadFrames(id: string, text: string, frames: seq<Frame>): Told
    decreases |frames|
  {
    if frames == [] then Cut
    else match frames[0]
      case DeltaFrame(other, delta) => ReadFrames(id, if other == id then text + delta else text, frames[1..])
      case Final(other, finish, usage) =>
        if other == id then Reply(text, usage, finish) else ReadFrames(id, text, frames[1..])
      case ErrorFrame(other, code) => if other == Some(id) then Failed(code) else ReadFrames(id, text, frames[1..])
      case _ => ReadFrames(id, text, frames[1..])
  }

  lemma {:induction false} FramesMean(id: string, text: string, queue: seq<QueueItem>, budget: nat)
    requires Word(queue, budget)
    ensures ReadFrames(id, text, Frames(id, None, queue)) == Public(Later(Partial(text, None, None), Meaning(queue)))
    decreases |queue|
  {
    var frames := Frames(id, None, queue);
    if queue != [] && queue[0].Ok? && queue[0].value.Delta? {
      MeaningAfterDelta(queue, budget);
      FramesMean(id, text + queue[0].value.text, queue[1..], budget - 1);
      if Meaning(queue[1..]).Ok? { Associates(text, queue[0].value.text, Meaning(queue[1..]).value.text); }
      assert frames[1..] == Frames(id, None, queue[1..]);
    } else {
      ShortWord(queue, budget);
      assert text + "" == text;
      if |queue| == 1 { assert queue[1..] == []; }
      if |queue| == 2 {
        assert frames == Frames(id, Some(queue[0].value.usage), queue[1..]);
        assert frames == [if queue[1].Err? then ErrorFrame(Some(id), EngineCode(queue[1].error))
                          else Final(id, queue[1].value.reason, queue[0].value.usage)];
      }
    }
  }

  // ---- The gRPC stream ----

  type GrpcItem = Result<GenerationEvent, string>

  function GrpcItems(queue: seq<QueueItem>): seq<GrpcItem> {
    if queue == [] then []
    else match queue[0]
      case Err(e) => [Err(GrpcStatus(e))]
      case Ok(event) => [Ok(event)] + if event.Finished? then [] else GrpcItems(queue[1..])
  }

  function GrpcOutput(item: QueueItem): GrpcItem {
    match item
    case Err(e) => Err(GrpcStatus(e))
    case Ok(event) => Ok(event)
  }

  lemma GrpcStep(queue: seq<QueueItem>)
    requires queue != []
    ensures var output := GrpcOutput(queue[0]);
            GrpcItems(queue) == [output] + if IsGrpcTerminal(output) then [] else GrpcItems(queue[1..])
  {
  }

  predicate IsGrpcTerminal(item: GrpcItem) {
    item.Err? || item.value.Finished?
  }

  /** Which branch of the forwarding `select!` fires, and whether the send that follows succeeds. */
  datatype GrpcPoll = ShutDown | ReceiverClosed | Received(sendFails: bool)

  /** No poll before the n-th is a shutdown, a closed receiver or a failed send. */
  ghost predicate Uncut(polls: nat -> GrpcPoll, n: nat) {
    forall k: nat :: k < n ==> polls(k) == Received(false)
  }

  function FirstCut(polls: nat -> GrpcPoll, n: nat, limit: nat): (cut: nat)
    requires n <= limit
    ensures n <= cut <= limit
    ensures forall k: nat :: n <= k < cut ==> polls(k) == Received(false)
    ensures cut < limit ==> polls(cut) != Received(false)
    decreases limit - n
  {
    if n == limit || polls(n) != Received(false) then n else FirstCut(polls, n + 1, limit)
  }

  /** What reaches the client: the specified items up to the first poll that cuts the stream. */
  function GrpcSent(queue: seq<QueueItem>, polls: nat -> GrpcPoll): seq<GrpcItem> {
    GrpcItems(queue)[..FirstCut(polls, 0, |GrpcItems(queue)|)]
  }

  lemma SentIs(items: seq<GrpcItem>, polls: nat -> GrpcPoll, sent: seq<GrpcItem>)
    requires sent <= items && Uncut(polls, |sent|)
    requires |sent| == |items| || polls(|sent|) != Received(false)
    ensures sent == items[..FirstCut(polls, 0, |items|)]
  {
    var cut := FirstCut(polls, 0, |items|);
    assert cut == |sent|;
  }

  /** The forwarding task: stops at the terminal, at the end of the events, at shutdown or with its receiver. */
  method Forward(queue: seq<QueueItem>, polls: nat -> GrpcPoll) returns (sent: seq<GrpcItem>, cancelled: bool)
    ensures sent == GrpcSent(queue, polls)
    ensures cancelled <==>
              || |sent| < |GrpcItems(queue)|
              || (!EndsGrpc(GrpcItems(queue)) && !polls(|sent|).Received?)
  {
    sent := [];
    var next := 0;
    assert GrpcItems(queue) == sent + GrpcItems(queue[0..]);
    while true
      invariant 0 <= next <= |queue| && next == |sent|
      invariant GrpcItems(queue) == sent + GrpcItems(queue[next..])
      invariant Uncut(polls, next)
      invariant !EndsGrpc(sent)
      decreases |queue| - next
    {
      var poll := polls(next);
      if next < |queue| { GrpcStep(queue[next..]); }
      hide GrpcItems;
      hide FirstCut;
      if poll.ShutDown? || poll.ReceiverClosed? {
        if next == |queue| { GrpcNothing(queue[next..]); }
        SentIs(GrpcItems(queue), polls, sent);
        return sent, true;
      }
      if next == |queue| {
        GrpcNothing(queue[next..]);
        SentIs(GrpcItems(queue), polls, sent);
        return sent, false;
      }
      var output := GrpcOutput(queue[next]);
      hide GrpcOutput;
      assert queue[next..][1..] == queue[next + 1..];
      if poll.sendFails {
        SentIs(GrpcItems(queue), polls, sent);
        return sent, true;
      }
      ghost var rest := if IsGrpcTerminal(output) then [] else GrpcItems(queue[next + 1..]);
      Associates(sent, [output], rest);
      sent := sent + [output];
      if IsGrpcTerminal(output) {
        assert GrpcItems(queue) == sent + [] == sent;
        SentIs(GrpcItems(queue), polls, sent);
        return sent, false;
      }
      next := next + 1;
    }
  }

  predicate EndsGrpc(items: seq<GrpcItem>) {
    items != [] && IsGrpcTerminal(items[|items| - 1])
  }

  lemma GrpcNothing(queue: seq<QueueItem>)
    requires queue == []
    ensures GrpcItems(queue) == []
  {
  }

  datatype GrpcTold = GrpcReply(reply: Told) | GrpcFailed(status: string) | GrpcCut

  /** A client of the gRPC stream. */
  function ReadGrpc(acc: Partial, items: seq<GrpcItem>): GrpcTold
    decreases |items|
  {
    if items == [] then GrpcCut
    else match items[0]
      case Err(status) => GrpcFailed(status)
      case Ok(event) =>
        var acc := Add(acc, event);
        if event.Finished? then (if Completed(acc).Ok? then GrpcReply(Completed(acc).value) else GrpcCut)
        else ReadGrpc(acc, items[1..])
  }

  function GrpcAnswer(meaning: Result<Told, EngineError>): GrpcTold {
    match meaning
    case Ok(told) => GrpcReply(told)
    case Err(e) => GrpcFailed(GrpcStatus(e))
  }

  lemma {:induction false} GrpcMeans(acc: Partial, queue: seq<QueueItem>, budget: nat)
    requires Word(queue, budget) && acc.usage.None? && acc.finish.None?
    ensures ReadGrpc(acc, GrpcItems(queue)) == if Ends(queue) then GrpcAnswer(Later(acc, Meaning(queue))) else GrpcCut
    decreases |queue|
  {
    var items := GrpcItems(queue);
    if queue != [] && queue[0].Ok? && queue[0].value.Delta? {
      MeaningAfterDelta(queue, budget);
      GrpcMeans(Add(acc, queue[0].value), queue[1..], budget - 1);
      if Meaning(queue[1..]).Ok? { Associates(acc.text, queue[0].value.text, Meaning(queue[1..]).value.text); }
      assert items[1..] == GrpcItems(queue[1..]);
    } else {
      ShortWord(queue, budget);
      assert acc.text + "" == acc.text;
      if |queue| == 1 { assert queue[1..] == []; }
      if |queue| == 2 {
        var last: GrpcItem := if queue[1].Err? then Err(GrpcStatus(queue[1].error)) else Ok(queue[1].value);
        assert queue[1..][1..] == [];
        assert GrpcItems(queue[1..]) == [last];
        assert items == [Ok(queue[0].value)] + [last] && items[1..] == [last];
      }
    }
  }

  /** Before its last item a gRPC stream has told nothing. */
  lemma {:induction false} GrpcPrefixIsCut(acc: Partial, queue: seq<QueueItem>, n: nat)
    requires n < |GrpcItems(queue)|
    ensures ReadGrpc(acc, GrpcItems(queue)[..n]) == GrpcCut
    decreases n
  {
    var items := GrpcItems(queue);
    GrpcStep(queue);
    if n > 0 {
      assert items[..n][0] == items[0] && items[..n][1..] == items[1..][..n - 1];
      assert items[1..] == GrpcItems(queue[1..]);
      GrpcPrefixIsCut(Add(acc, items[0].value), queue[1..], n - 1);
    }
  }

  // ---- Agreement ----

  /**
   Every transport tells its client the same about any word of the engine's grammar: the same
   text, usage and finish on success, the same code on failure, a cut stream being a failure.
   */
  lemma TransportsAgree(id: string, queue: seq<QueueItem>, budget: nat)
    requires Word(queue, budget)
    ensures var told := Public(Collected(NOTHING, queue));
            && told == Public(Meaning(queue))
            && ReadSse(NOTHING, SseEvents(queue)) == told
            && ReadFrames(id, "", Frames(id, None, queue)) == told
    ensures Ends(queue) ==> ReadGrpc(NOTHING, GrpcItems(queue)) == GrpcAnswer(Collected(NOTHING, queue))
  {
    CollectedIsMeaning(queue, budget);
    SseMeans(NOTHING, queue, budget);
    FramesMean(id, "", queue, budget);
    GrpcMeans(NOTHING, queue, budget);
    if Meaning(queue).Ok? { assert "" + Meaning(queue).value.text == Meaning(queue).value.text; }
  }

  /**
   What the client of the forwarded gRPC stream is told: the collected answer if and only if the
   word has a terminal and nothing cuts the stream up to it; otherwise a normal end without an outcome.
   All other transports report such a word as what it is.
   */
  lemma GrpcEndsSilently(queue: seq<QueueItem>, budget: nat, polls: nat -> GrpcPoll)
    requires Word(queue, budget)
    ensures var told := ReadGrpc(NOTHING, GrpcSent(queue, polls));
            var complete := Ends(queue) && Uncut(polls, |GrpcItems(queue)|);
            && (told == GrpcAnswer(Collected(NOTHING, queue)) <==> complete)
            && (told == GrpcCut <==> !complete)
    ensures ReadSse(NOTHING, SseEvents(queue)) == Public(Collected(NOTHING, queue)) != Cut
  {
    var items, cut := GrpcItems(queue), FirstCut(polls, 0, |GrpcItems(queue)|);
    TransportsAgree("", queue, budget);
    GrpcMeans(NOTHING, queue, budget);
    hide GrpcItems;
    hide Collected;
    hide SseEvents;
    if cut < |items| {
      assert !Uncut(polls, |items|);
      GrpcPrefixIsCut(NOTHING, queue, cut);
    } else {
      assert items[..cut] == items && Uncut(polls, |items|);
    }
  }

  /** A shutdown cuts the stream of a connected client before its terminal: a normal end, and no outcome. */
  lemma ShutdownCutsSilently() returns (queue: seq<QueueItem>, polls: nat -> GrpcPoll)
    ensures Word(queue, 1) && Ends(queue) && Collected(NOTHING, queue).Ok?
    ensures forall n :: polls(n) == ShutDown || polls(n) == Received(false)
    ensures ReadGrpc(NOTHING, GrpcSent(queue, polls)) == GrpcCut
  {
    var usage := TokenUsage(1, 1, 2);
    queue := [Ok(Delta("a")), Ok(Usage(usage)), Ok(Finished(Stop))];
    polls := (n: nat) => if n == 0 then Received(false) else ShutDown;
    assert queue[1..] == [Ok(Usage(usage)), Ok(Finished(Stop))];
    CollectedIsMeaning(queue, 1);
    GrpcEndsSilently(queue, 1, polls);
    GrpcStep(queue);
    GrpcStep(queue[1..]);
    assert polls(1) != Received(false) && |GrpcItems(queue)| >= 2;
  }

  lemma {:induction false} EndsInTerminal(queue: seq<QueueItem>, budget: nat)
    requires Word(queue, budget)
    ensures Terminals(queue) == if Ends(queue) then 1 else 0
    decreases |queue|
  {
    if queue != [] && queue[0].Ok? && queue[0].value.Delta? {
      MeaningAfterDelta(queue, budget);
      EndsInTerminal(queue[1..], budget - 1);
    } else {
      ShortWord(queue, budget);
      if |queue| == 1 { assert queue[1..] == []; }
      if |queue| == 2 {
        assert Terminals(queue[1..]) == (if IsTerminal(queue[1]) then 1 else 0) + Terminals(queue[1..][1..]);
      }
    }
  }

  /**
   Any run of the engine, interrupted anywhere, is told alike by every transport. A client whose
   stream nobody closes is told the same by gRPC exactly when no shutdown cuts the forwarding.
   */
  lemma RunsAreToldAlike(
    cfg: Config, world: World, script: Script, k: nat, r: Result<(), EngineError>, id: string, polls: nat -> GrpcPoll)
    requires Outcome(world, 0, TaskRun(cfg, script), k, r)
    ensures var queue := Queue(world, TaskRun(cfg, script), k, r);
            var told := Public(Collected(NOTHING, queue));
            && ReadSse(NOTHING, SseEvents(queue)) == told
            && ReadFrames(id, "", Frames(id, None, queue)) == told
            && ((forall n :: world.receiverOpen(n)) ==>
                  ReadGrpc(NOTHING, GrpcSent(queue, polls))
                  == if Uncut(polls, |GrpcItems(queue)|) then GrpcAnswer(Collected(NOTHING, queue)) else GrpcCut)
  {
    var queue := Queue(world, TaskRun(cfg, script), k, r);
    QueueIsAWord(cfg, world, script, k, r);
    EndsInTerminal(queue, cfg.maxTokens);
    TransportsAgree(id, queue, cfg.maxTokens);
    GrpcEndsSilently(queue, cfg.maxTokens, polls);
  }
}
