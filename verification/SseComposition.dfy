/**
 The public event stream read back by the engine's own decoder: what the server prints for a
 finished generation is what the decoder would have received the same generation from.
 */
module SseComposition {
  import opened Domain
  import opened SseDecoder
  import opened SseFraming
  import opened GenerationTask
  import opened Transports

  function FinishName(reason: FinishReason): string {
    match reason
    case Stop => "stop"
    case Length => "length"
    case Cancelled => "cancelled"
  }

  /** The members of a `stream_chunk` object that the decoder looks at. */
  function Seen(mode: Mode, chunk: StreamChunk): Json {
    if chunk.usage.Some? then
      var u := chunk.usage.value;
      Json(UsageMembers(Some(u.promptTokens), Some(u.completionTokens), Some(u.totalTokens)), NoText, NoText, NoText)
    else
      Json(NoUsage,
           if chunk.finish.Some? then Text(FinishName(chunk.finish.value)) else NullText,
           if mode.Completion? then Text(if chunk.delta.Some? then chunk.delta.value else "") else NoText,
           if mode.Chat? && chunk.delta.Some? then Text(chunk.delta.value) else NoText)
  }

  /** How the server prints a chunk's JSON and a whole error event. */
  datatype Printer = Printer(chunk: StreamChunk -> Bytes, error: string -> Bytes)

  /** JSON printing on one line, which the decoder's JSON reading undoes. */
  ghost predicate Faithful(cfg: Config, printer: Printer) {
    forall chunk :: Printable(printer.chunk(chunk)) && cfg.decode(printer.chunk(chunk)) == Some(Seen(cfg.mode, chunk))
  }

  function EventBytes(printer: Printer, event: SseEvent): Bytes {
    match event
    case Data(chunk) => PrintEvent(printer.chunk(chunk))
    case DoneMark => PrintEvent(DONE)
    case ErrorEvent(code) => printer.error(code)
  }

  /** The response body from its k-th event on; `idle` says how many keep-alive comments come before each event. */
  function BodyBytes(printer: Printer, events: seq<SseEvent>, idle: nat -> nat, k: nat): Bytes
    decreases |events|
  {
    if events == [] then []
    else KeepAlives(idle(k)) + (EventBytes(printer, events[0]) + BodyBytes(printer, events[1..], idle, k + 1))
  }

  function ChunkPayloads(printer: Printer, events: seq<GenerationEvent>): seq<Bytes> {
    seq(|events|, i requires 0 <= i < |events| => printer.chunk(ChunkOf(events[i])))
  }

  lemma BodyStep(printer: Printer, event: SseEvent, rest: seq<SseEvent>, idle: nat -> nat, k: nat)
    ensures var tail := BodyBytes(printer, rest, idle, k + 1);
            var body := BodyBytes(printer, [event] + rest, idle, k);
            && (event.Data? && Printable(printer.chunk(event.chunk)) ==>
                  && Payloads(body) == [printer.chunk(event.chunk)] + Payloads(tail)
                  && AfterDone(body) == AfterDone(tail))
            && (event.DoneMark? && rest == [] ==> Payloads(body) == [] && AfterDone(body) == Some([LF]))
  {
    var tail := BodyBytes(printer, rest, idle, k + 1);
    var printed := EventBytes(printer, event) + tail;
    assert ([event] + rest)[1..] == rest;
    assert BodyBytes(printer, [event] + rest, idle, k) == KeepAlives(idle(k)) + printed;
    KeepAlivesSkipped(idle(k), printed);
    hide KeepAlives;
    if event.Data? {
      PrintedHead(printer.chunk(event.chunk), tail);
    } else if event.DoneMark? && rest == [] {
      PrintedDone();
      assert PrintEvent(DONE) + [] == PrintEvent(DONE);
    }
  }

  /** Comments aside, the body of a finished generation carries exactly its chunks and then `[DONE]`. */
  lemma {:induction false} BodyPayloads(
    cfg: Config, printer: Printer, events: seq<GenerationEvent>, budget: nat, idle: nat -> nat, k: nat)
    requires Faithful(cfg, printer) && Body(events, budget) && EndsFinished(events)
    ensures var bytes := BodyBytes(printer, SseEvents(Items(events)), idle, k);
            Payloads(bytes) == ChunkPayloads(printer, events) && AfterDone(bytes) == Some([LF])
    decreases |events|
  {
    hide BodyBytes;
    hide Payloads;
    hide AfterDone;
    var queue := Items(events);
    assert queue[0] == Ok(events[0]) && queue[1..] == Items(events[1..]);
    var first, rest := Data(ChunkOf(events[0])), SseEvents(queue[1..]);
    assert SseEvents(queue) == [first] + rest;
    assert ChunkPayloads(printer, events) == [printer.chunk(ChunkOf(events[0]))] + ChunkPayloads(printer, events[1..]);
    BodyStep(printer, first, rest, idle, k);
    if events[0].Delta? {
      BodyPayloads(cfg, printer, events[1..], budget - 1, idle, k + 1);
    } else {
      LastPayload(cfg, printer, events[1], idle, k + 1);
      assert Items(events[1..]) == [Ok(events[1])] && events[1..] == [events[1]];
    }
  }

  lemma LastPayload(cfg: Config, printer: Printer, event: GenerationEvent, idle: nat -> nat, k: nat)
    requires Faithful(cfg, printer) && event.Finished?
    ensures var bytes := BodyBytes(printer, SseEvents([Ok(event)]), idle, k);
            Payloads(bytes) == ChunkPayloads(printer, [event]) && AfterDone(bytes) == Some([LF])
  {
    hide BodyBytes;
    hide Payloads;
    hide AfterDone;
    var last := Data(ChunkOf(event));
    assert SseEvents([Ok(event)]) == [last] + [DoneMark];
    BodyStep(printer, last, [DoneMark], idle, k);
    BodyStep(printer, DoneMark, [], idle, k + 1);
    assert [DoneMark] + [] == [DoneMark];
    assert ChunkPayloads(printer, [event]) == [printer.chunk(ChunkOf(event))] + [];
  }

  /** Usage the decoder accepts, and a reason it knows. */
  predicate Accountable(cfg: Config, events: seq<GenerationEvent>) {
    forall i :: 0 <= i < |events| ==>
      match events[i]
      case Delta(_) => true
      case Usage(u) =>
        && u.totalTokens == SaturatingAdd(u.promptTokens, u.completionTokens)
        && u.completionTokens <= cfg.maxTokens
      case Finished(reason) => reason.Stop? || reason.Length?
  }

  /** Folding the printed chunks puts the same events together again. */
  lemma {:induction false} FoldsBack(
    cfg: Config, printer: Printer, acc: Fold, events: seq<GenerationEvent>, budget: nat)
    requires Faithful(cfg, printer) && Accountable(cfg, events)
    requires Body(events, budget) && EndsFinished(events) && |acc.deltas| + budget <= cfg.maxTokens
    requires !acc.failed && acc.usage.None? && acc.finish.None?
    ensures var end := FoldPayloads(cfg, acc, ChunkPayloads(printer, events));
            && !end.failed && end.usage.Some? && end.finish.Some?
            && Deltas(end.deltas) + [Usage(end.usage.value), Finished(end.finish.value)] == Deltas(acc.deltas) + events
    decreases |events|
  {
    var payloads := ChunkPayloads(printer, events);
    assert payloads[1..] == ChunkPayloads(printer, events[1..]);
    var next := ConsumePayload(cfg, acc, payloads[0]);
    assert cfg.decode(payloads[0]) == Some(Seen(cfg.mode, ChunkOf(events[0])));
    if events[0].Delta? {
      assert next == acc.(deltas := acc.deltas + [events[0].text]);
      FoldsBack(cfg, printer, next, events[1..], budget - 1);
      assert Deltas(next.deltas) == Deltas(acc.deltas) + [events[0]];
      assert events == [events[0]] + events[1..];
      Associates(Deltas(acc.deltas), [events[0]], events[1..]);
    } else {
      assert next == acc.(usage := Some(events[0].usage));
      var last := ConsumePayload(cfg, next, payloads[1]);
      assert cfg.decode(payloads[1]) == Some(Seen(cfg.mode, ChunkOf(events[1])));
      assert last == next.(finish := Some(events[1].reason));
      var tail := payloads[1..];
      assert tail[1..] == [];
      assert FoldPayloads(cfg, next, tail) == last;
      assert events == [events[0], events[1]];
    }
  }

  /**
   A finished generation, printed as server-sent events with any number of keep-alive comments
   between them, cut into chunks in any admissible way and decoded, gives exactly the events
   that were printed.
   */
  lemma ServerStreamDecodes(
    cfg: Config, printer: Printer, events: seq<GenerationEvent>, idle: nat -> nat, parts: seq<Bytes>)
    requires Faithful(cfg, printer) && Accountable(cfg, events)
    requires Body(events, cfg.maxTokens) && EndsFinished(events)
    requires Concat(parts) == BodyBytes(printer, SseEvents(Items(events)), idle, 0) && Bounded([], parts)
    ensures Observed(DecodeRun(cfg, Chunks(parts))) == Answer(events, Ok(()))
  {
    BodyPayloads(cfg, printer, events, cfg.maxTokens, idle, 0);
    hide BodyBytes;
    hide Body;
    PayloadsDecide(cfg, Concat(parts), parts);
    FoldsBack(cfg, printer, EMPTY_FOLD, events, cfg.maxTokens);
    assert Deltas([]) + events == events;
  }
}
