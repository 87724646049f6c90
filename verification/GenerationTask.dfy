/**
 One generation task: from the execution permit to the last queued event, with a stop, a
 disconnect or a shutdown possible at every await point.
 */
module GenerationTask {
  import opened Domain
  import opened SseDecoder

  /**
   The stop flags as the n-th await point reads them, and whether a send there finds the receiver.
   Any timing is some world.
   */
  datatype World = World(
    stopped: nat -> Option<RequestStop>, disconnected: nat -> bool, shutdown: nat -> bool, receiverOpen: nat -> bool)

  /** What a biased `select!` does at the n-th await: the context first, the disconnect, the shutdown, the operation. */
  function Interruption(world: World, n: nat, await: Await): Option<EngineError> {
    if world.stopped(n).Some? then Some(MapStop(world.stopped(n).value))
    else if world.disconnected(n) then Some(EngineError.Cancelled)
    else if world.shutdown(n) then Some(ShuttingDown)
    else if await.Send? && !world.receiverOpen(n) then Some(EngineError.Cancelled)
    else None
  }

  datatype Response = SendFailed | Refused | Streaming(chunks: seq<ChunkRead>)

  /** What the steps before the stream return: the sidecar calls, the deadline and the HTTP response. */
  datatype Script = Script(
    ensured: Result<(), EngineError>, connected: Result<(), EngineError>, remaining: Option<nat>, response: Response)

  /** The run nobody interrupts: permit, sidecar, deadline, response, stream. */
  function TaskRun(cfg: Config, script: Script): Run {
    Prepend([Read], AfterPermit(cfg, script))
  }

  function AfterPermit(cfg: Config, script: Script): Run {
    if script.ensured.Err? then Run([], script.ensured)
    else if script.connected.Err? then Run([], script.connected)
    else if script.remaining.None? then Run([], Err(Configuration))
    else if script.remaining.value == 0 then Run([], Err(EngineError.DeadlineExceeded))
    else Prepend([Read], AfterResponse(cfg, script))
  }

  function AfterResponse(cfg: Config, script: Script): Run {
    if script.response.Streaming? then DecodeRun(cfg, script.response.chunks) else Run([], Err(RuntimeUnavailable))
  }

  /** The run stops at its first interrupted await, after `k` completed ones, or completes. */
  predicate Outcome(world: World, n: nat, run: Run, k: int, result: Result<(), EngineError>) {
    && 0 <= k <= |run.awaits|
    && (forall i: nat :: i < k ==> Interruption(world, n + i, run.awaits[i]).None?)
    && (if k == |run.awaits| then result == run.result
        else var e := Interruption(world, n + k, run.awaits[k]); e.Some? && result == Err(e.value))
  }

  function Items(events: seq<GenerationEvent>): seq<QueueItem> {
    seq(|events|, i requires 0 <= i < |events| => Ok(events[i]))
  }

  /** Everything one task puts on its event queue. */
  function Queue(world: World, run: Run, k: nat, result: Result<(), EngineError>): seq<QueueItem>
    requires k <= |run.awaits|
  {
    Items(Sent(run.awaits[..k])) + if result.Err? && world.receiverOpen(k + 1) then [Err(result.error)] else []
  }

  /** A task's observable progress: completed awaits and queued items. */
  datatype Point = Point(completed: nat, queued: seq<QueueItem>)

  /** From `from` the run went through the awaits `past`, queued just their events, and has `rest` left. */
  ghost predicate Progress(world: World, from: Point, to: Point, run: Run, past: seq<Await>, rest: Run) {
    && run == Prepend(past, rest)
    && to.completed == from.completed + |past|
    && (forall i: nat :: i < |past| ==> Interruption(world, from.completed + i, past[i]).None?)
    && to.queued == from.queued + Items(Sent(past))
  }

  /** The run ended between these two points, completed or at its first interruption. */
  ghost predicate Ended(world: World, from: Point, to: Point, run: Run, result: Result<(), EngineError>) {
    && Outcome(world, from.completed, run, to.completed - from.completed, result)
    && to.queued == from.queued + Items(Sent(run.awaits[..to.completed - from.completed]))
  }

  lemma Interrupted(world: World, from: Point, to: Point, run: Run, past: seq<Await>, rest: Run, e: EngineError)
    requires Progress(world, from, to, run, past, rest)
    requires rest.awaits != [] && Interruption(world, to.completed, rest.awaits[0]) == Some(e)
    ensures Ended(world, from, to, run, Err(e))
  {
    assert run.awaits[..|past|] == past;
    assert run.awaits[|past|] == rest.awaits[0];
  }

  lemma Exhausted(world: World, from: Point, to: Point, run: Run, past: seq<Await>, rest: Run)
    requires Progress(world, from, to, run, past, rest)
    requires rest.awaits == []
    ensures Ended(world, from, to, run, rest.result)
  {
    assert run.awaits == past && run.awaits[..|past|] == past;
  }

  /** One more await moves from what is left to what is past. */
  lemma Advanced(world: World, from: Point, mid: Point, run: Run, past: seq<Await>, await: Await, rest: Run)
    requires Progress(world, from, mid, run, past, Prepend([await], rest))
    requires Interruption(world, mid.completed, await).None?
    ensures var to := Point(mid.completed + 1, mid.queued + Items(EventOf(await)));
            Progress(world, from, to, run, past + [await], rest)
  {
    SentConcat(past, [await]);
    assert Sent([await]) == EventOf(await) + Sent([]);
    ItemsConcat(Sent(past), EventOf(await));
    Associates(past, [await], rest.awaits);
    Associates(from.queued, Items(Sent(past)), Items(EventOf(await)));
  }

  /** A generation's own state: its queue and the variables its stream loop keeps across awaits. */
  class Task {
    const cfg: Config
    const world: World
    var queued: seq<QueueItem>
    var completed: nat // await points passed without interruption

    var buffer: Bytes
    var finish: Option<FinishReason>
    var usage: Option<TokenUsage>
    var done: bool
    var generatedDeltas: nat

    ghost var acc: Fold // the fold that specifies the loop's variables
    ghost var past: seq<Await> // the awaits of the run so far

    constructor (cfg: Config, world: World)
      ensures this.cfg == cfg && this.world == world && queued == [] && completed == 0
    {
      this.cfg := cfg;
      this.world := world;
      queued, completed := [], 0;
      buffer, finish, usage, done, generatedDeltas := [], None, None, false, 0;
      acc, past := EMPTY_FOLD, [];
    }

    ghost function Here(): Point
      reads this
    {
      Point(completed, queued)
    }

    /** The loop's variables match their fold, and the run has `rest` left. */
    ghost predicate At(from: Point, run: Run, rest: Run)
      reads this
    {
      && acc == Fold(finish, usage, done, acc.deltas, false) && |acc.deltas| == generatedDeltas
      && Progress(world, from, Here(), run, past, rest)
    }

    /** One `select!` over the stop flags and an operation that queues nothing. */
    method Wait(ghost from: Point, ghost run: Run, ghost rest: Run) returns (stop: Option<EngineError>)
      requires Progress(world, from, Here(), run, past, Prepend([Read], rest))
      modifies this`completed, this`past
      ensures stop == Interruption(world, old(completed), Read)
      ensures stop.Some? ==> Ended(world, from, Here(), run, Err(stop.value))
      ensures stop.None? ==> Progress(world, from, Here(), run, past, rest)
    {
      stop := Interruption(world, completed, Read);
      if stop.None? {
        Advanced(world, from, Here(), run, past, Read, rest);
        completed, past := completed + 1, past + [Read];
      } else {
        Interrupted(world, from, Here(), run, past, Prepend([Read], rest), stop.value);
      }
    }

    /** One `select!` over the stop flags and a send. */
    method SendEvent(event: GenerationEvent, ghost from: Point, ghost run: Run, ghost rest: Run)
      returns (stop: Option<EngineError>)
      requires Progress(world, from, Here(), run, past, Prepend([Send(event)], rest))
      modifies this`completed, this`past, this`queued
      ensures stop == Interruption(world, old(completed), Send(event))
      ensures queued == old(queued) + if stop.None? then [Ok(event)] else []
      ensures stop.Some? ==> Ended(world, from, Here(), run, Err(stop.value))
      ensures stop.None? ==> Progress(world, from, Here(), run, past, rest)
    {
      stop := Interruption(world, completed, Send(event));
      if stop.None? {
        Advanced(world, from, Here(), run, past, Send(event), rest);
        assert Items([event]) == [Ok(event)];
        queued := queued + [Ok(event)];
        completed, past := completed + 1, past + [Send(event)];
      } else {
        Interrupted(world, from, Here(), run, past, Prepend([Send(event)], rest), stop.value);
      }
    }

    /** Folds one payload other than `[DONE]`, sending its delta if it has one. */
    method ConsumeData(data: Bytes, ghost from: Point, ghost run: Run, ghost rest: Run)
      returns (failure: Option<EngineError>)
      requires At(from, run, Prepend(DeltaSends(NewDeltas(acc, ConsumePayload(cfg, acc, data))), rest))
      requires ConsumePayload(cfg, acc, data).failed ==> rest == Run([], Err(RuntimeProtocol))
      modifies this
      ensures failure.Some? ==> Ended(world, from, Here(), run, Err(failure.value))
      ensures failure.None? ==>
                At(from, run, rest) && acc == ConsumePayload(cfg, old(acc), data) && buffer == old(buffer)
    {
      hide Ended;
      hide Progress;
      hide Prepend;
      failure := Some(RuntimeProtocol);
      ghost var here := Here();
      ghost var folded := ConsumePayload(cfg, acc, data);
      NothingSent(rest);
      if folded.failed {
        assert NewDeltas(acc, folded) == [];
        Exhausted(world, from, Here(), run, past, rest);
      }
      var json := cfg.decode(data);
      if json.None? { return; }
      var parsedUsage := ParseUsage(json.value);
      if parsedUsage.Err? { return; }
      if parsedUsage.value.Some? {
        if parsedUsage.value.value.completionTokens > cfg.maxTokens { return; }
        usage := parsedUsage.value;
      }
      var parsedFinish := ParseFinishReason(json.value);
      if parsedFinish.Err? { return; }
      if parsedFinish.value.Some? { finish := parsedFinish.value; }
      var delta := DeltaOf(cfg.mode, json.value);
      if delta.Err? { return; }
      if delta.value.None? || delta.value.value == "" {
        assert NewDeltas(acc, folded) == [];
        failure := None;
      } else {
        generatedDeltas := generatedDeltas + 1;
        if generatedDeltas > cfg.maxTokens { return; }
        assert NewDeltas(acc, folded) == [delta.value.value];
        assert DeltaSends([delta.value.value]) == [Send(Delta(delta.value.value))];
        failure := SendEvent(Delta(delta.value.value), from, run, rest);
      }
      acc := folded;
    }

    /** Takes every complete line out of the buffer. */
    method DrainBuffer(ghost from: Point, ghost run: Run, ghost stream: seq<ChunkRead>)
      returns (failure: Option<EngineError>)
      requires At(from, run, LineLoop(cfg, acc, buffer, stream))
      modifies this
      ensures failure.Some? ==> Ended(world, from, Here(), run, Err(failure.value))
      ensures failure.None? ==>
                At(from, run, if acc.done then FinishRun(acc, buffer) else ReadLoop(cfg, acc, buffer, stream))
    {
      hide FirstLf;
      hide ConsumePayload;
      hide ReadLoop;
      hide FinishRun;
      hide LineData;
      hide LineLoop;
      hide Prepend;
      hide Progress;
      var position := FirstLf(buffer);
      while position < |buffer|
        invariant position == FirstLf(buffer)
        invariant At(from, run, LineLoop(cfg, acc, buffer, stream))
        decreases |buffer|
      {
        var line := buffer[..position];
        ghost var folded := ConsumeLine(cfg, acc, line);
        ghost var rest := LineLoop(cfg, folded, buffer[position + 1..], stream);
        LinesThen(cfg, acc, buffer, stream);
        buffer := buffer[position + 1..];
        position := FirstLf(buffer);
        var data := LineData(line);
        if data.Some? && data.value != DONE {
          failure := ConsumeData(data.value, from, run, rest);
          if failure.Some? {
            return;
          }
        } else {
          assert NewDeltas(acc, folded) == [];
          NothingSent(rest);
          done := done || data.Some?;
          acc := folded;
        }
      }
      LinesThen(cfg, acc, buffer, stream);
      failure := None;
    }

    /** Usage, then finish, once the stream has ended properly. */
    method FinishStream(ghost from: Point, ghost run: Run) returns (r: Result<(), EngineError>)
      requires At(from, run, FinishRun(acc, buffer))
      modifies this
      ensures Ended(world, from, Here(), run, r)
    {
      if !done || buffer != [] || finish.None? || usage.None? {
        Exhausted(world, from, Here(), run, past, FinishRun(acc, buffer));
        return Err(RuntimeProtocol);
      }
      ghost var f := Send(Finished(finish.value));
      assert FinishRun(acc, buffer) == Prepend([Send(Usage(usage.value))], Run([f], Ok(())));
      var stop := SendEvent(Usage(usage.value), from, run, Run([f], Ok(())));
      if stop.Some? {
        return Err(stop.value);
      }
      assert Run([f], Ok(())) == Prepend([f], Run([], Ok(())));
      stop := SendEvent(Finished(finish.value), from, run, Run([], Ok(())));
      if stop.Some? {
        return Err(stop.value);
      }
      Exhausted(world, from, Here(), run, past, Run([], Ok(())));
      return Ok(());
    }

    method ConsumeSse(stream: seq<ChunkRead>) returns (r: Result<(), EngineError>)
      modifies this
      ensures Ended(world, old(Here()), Here(), DecodeRun(cfg, stream), r)
    {
      hide LineLoop;
      hide FinishRun;
      ghost var from, run := Here(), DecodeRun(cfg, stream);
      buffer, finish, usage, done, generatedDeltas := [], None, None, false, 0;
      acc, past := EMPTY_FOLD, [];
      var next := 0;
      assert Sent([]) == [] && Prepend([], run) == run;
      while true
        invariant 0 <= next <= |stream|
        invariant At(from, run, ReadLoop(cfg, acc, buffer, stream[next..]))
        decreases |stream| - next
      {
        ghost var tail := AfterRead(cfg, acc, buffer, stream[next..]);
        ReadsThen(cfg, acc, buffer, stream[next..]);
        hide ReadLoop;
        var stop := Wait(from, run, tail);
        if stop.Some? {
          return Err(stop.value);
        }
        if next == |stream| {
          break;
        }
        if stream[next].ReadFailure? {
          Exhausted(world, from, Here(), run, past, tail);
          return Err(RuntimeUnavailable);
        }
        var chunk := stream[next].bytes;
        if |buffer| + |chunk| > MAX_SSE_LINE_BYTES {
          Exhausted(world, from, Here(), run, past, tail);
          return Err(RuntimeProtocol);
        }
        buffer := buffer + chunk;
        next := next + 1;
        assert stream[next - 1..][1..] == stream[next..];
        stop := DrainBuffer(from, run, stream[next..]);
        if stop.Some? {
          return Err(stop.value);
        }
        if done {
          break;
        }
      }
      r := FinishStream(from, run);
    }

    /** Permit, sidecar, deadline, response, stream: the whole task up to its result. */
    method RunGeneration(script: Script) returns (r: Result<(), EngineError>)
      modifies this
      ensures Ended(world, old(Here()), Here(), TaskRun(cfg, script), r)
    {
      ghost var from, run := Here(), TaskRun(cfg, script);
      past := [];
      assert Sent([]) == [] && Prepend([], run) == run;
      hide Prepend;
      hide Progress;
      hide Ended;
      var stop := Wait(from, run, AfterPermit(cfg, script)); // the execution permit
      if stop.Some? {
        return Err(stop.value);
      }
      if script.ensured.Err? || script.connected.Err? || script.remaining.None? || script.remaining.value == 0 {
        Exhausted(world, from, Here(), run, past, AfterPermit(cfg, script));
        return if script.ensured.Err? then script.ensured
               else if script.connected.Err? then script.connected
               else if script.remaining.None? then Err(Configuration)
               else Err(EngineError.DeadlineExceeded);
      }
      stop := Wait(from, run, AfterResponse(cfg, script)); // the HTTP response
      if stop.Some? {
        return Err(stop.value);
      }
      if !script.response.Streaming? {
        Exhausted(world, from, Here(), run, past, AfterResponse(cfg, script));
        return Err(RuntimeUnavailable);
      }
      ghost var mid, before := Here(), past;
      r := ConsumeSse(script.response.chunks);
      Resumed(world, from, mid, Here(), run, before, AfterResponse(cfg, script), r);
    }

    /** The spawned task: run the generation and queue its error, if any, as the last item. */
    method Execute(script: Script) returns (r: Result<(), EngineError>)
      requires queued == [] && completed == 0
      modifies this
      ensures Outcome(world, 0, TaskRun(cfg, script), completed, r)
      ensures queued == Queue(world, TaskRun(cfg, script), completed, r)
      ensures Word(queued, cfg.maxTokens)
      ensures (forall n :: world.receiverOpen(n)) ==> Terminals(queued) == 1
    {
      r := RunGeneration(script);
      if r.Err? && world.receiverOpen(completed + 1) {
        queued := queued + [Err(r.error)];
      }
      QueueIsAWord(cfg, world, script, completed, r);
    }
  }

  /** What follows an uninterrupted beginning decides how the whole run ends. */
  lemma Resumed(world: World, from: Point, mid: Point, to: Point, run: Run, past: seq<Await>, rest: Run,
                result: Result<(), EngineError>)
    requires Progress(world, from, mid, run, past, rest)
    requires Ended(world, mid, to, rest, result)
    ensures Ended(world, from, to, run, result)
  {
    hide Interruption;
    hide Sent;
    var k := to.completed - mid.completed;
    ItemsOfCut(past, rest.awaits, k);
    Associates(from.queued, Items(Sent(past)), Items(Sent(rest.awaits[..k])));
    hide Items;
    forall i: nat | i < |past| + k
      ensures Interruption(world, from.completed + i, run.awaits[i]).None?
    {
      if i >= |past| {
        assert run.awaits[i] == rest.awaits[i - |past|];
        assert Interruption(world, mid.completed + (i - |past|), rest.awaits[i - |past|]).None?;
      }
    }
  }

  lemma ItemsOfCut(past: seq<Await>, rest: seq<Await>, k: nat)
    requires k <= |rest|
    ensures Items(Sent((past + rest)[..|past| + k])) == Items(Sent(past)) + Items(Sent(rest[..k]))
  {
    CutConcat(past, rest, k);
    SentConcat(past, rest[..k]);
    ItemsConcat(Sent(past), Sent(rest[..k]));
  }

  lemma ItemsConcat(a: seq<GenerationEvent>, b: seq<GenerationEvent>)
    ensures Items(a + b) == Items(a) + Items(b)
  {
  }

  // ---- The grammar of an event queue ----

  predicate IsTerminal(item: QueueItem) {
    item.Err? || item.value.Finished?
  }

  function Terminals(queue: seq<QueueItem>): nat {
    if queue == [] then 0 else (if IsTerminal(queue[0]) then 1 else 0) + Terminals(queue[1..])
  }

  /** At most `budget` non-empty deltas, an optional usage, and at most one terminal with nothing after it. */
  predicate Word(queue: seq<QueueItem>, budget: nat)
    decreases |queue|
  {
    queue == [] ||
    match queue[0]
    case Err(_) => |queue| == 1
    case Ok(Delta(text)) => text != "" && budget > 0 && Word(queue[1..], budget - 1)
    case Ok(Usage(_)) => |queue| == 1 || (|queue| == 2 && IsTerminal(queue[1]))
    case Ok(Finished(_)) => false
  }

  /** The same for the events alone: `Finished` can only come last, right after `Usage`. */
  predicate Body(events: seq<GenerationEvent>, budget: nat)
    decreases |events|
  {
    events == [] ||
    match events[0]
    case Delta(text) => text != "" && budget > 0 && Body(events[1..], budget - 1)
    case Usage(_) => |events| == 1 || (|events| == 2 && events[1].Finished?)
    case Finished(_) => false
  }

  predicate EndsFinished(events: seq<GenerationEvent>) {
    events != [] && events[|events| - 1].Finished?
  }

  /** The read loop after its read. */
  function AfterRead(cfg: Config, acc: Fold, buffer: Bytes, stream: seq<ChunkRead>): Run {
    if stream == [] then FinishRun(acc, buffer)
    else match stream[0]
      case ReadFailure => Run([], Err(RuntimeUnavailable))
      case Chunk(bytes) =>
        if |buffer| + |bytes| > MAX_SSE_LINE_BYTES then Run([], Err(RuntimeProtocol))
        else LineLoop(cfg, acc, buffer + bytes, stream[1..])
  }

  lemma ReadsThen(cfg: Config, acc: Fold, buffer: Bytes, stream: seq<ChunkRead>)
    ensures ReadLoop(cfg, acc, buffer, stream) == Prepend([Read], AfterRead(cfg, acc, buffer, stream))
  {
  }

  /** The line loop, one line unrolled. */
  lemma LinesThen(cfg: Config, acc: Fold, buffer: Bytes, stream: seq<ChunkRead>)
    requires !acc.failed
    ensures var p := FirstLf(buffer);
            if p == |buffer| then
              LineLoop(cfg, acc, buffer, stream)
              == if acc.done then FinishRun(acc, buffer) else ReadLoop(cfg, acc, buffer, stream)
            else
              var next := ConsumeLine(cfg, acc, buffer[..p]);
              var rest := LineLoop(cfg, next, buffer[p + 1..], stream);
              && LineLoop(cfg, acc, buffer, stream) == Prepend(DeltaSends(NewDeltas(acc, next)), rest)
              && (next.failed ==> rest == Run([], Err(RuntimeProtocol)))
  {
    hide FirstLf;
  }

  lemma NothingSent(rest: Run)
    ensures Prepend(DeltaSends([]), rest) == rest
  {
    assert [] + rest.awaits == rest.awaits;
  }

  /** An event body followed by at most one error is a word, and its only terminal is its last item. */
  lemma {:induction false} WordOfBody(events: seq<GenerationEvent>, error: Option<EngineError>, budget: nat)
    requires Body(events, budget)
    requires EndsFinished(events) ==> error.None?
    ensures var queue := Items(events) + match error case None => [] case Some(e) => [Err(e)];
            && Word(queue, budget)
            && Terminals(queue) == if EndsFinished(events) || error.Some? then 1 else 0
    decreases |events|
  {
    var queue: seq<QueueItem> := Items(events) + match error case None => [] case Some(e) => [Err(e)];
    if events == [] {
      if error.Some? { assert queue[1..] == []; }
    } else {
      var rest: seq<QueueItem> := Items(events[1..]) + match error case None => [] case Some(e) => [Err(e)];
      assert queue[0] == Ok(events[0]) && queue[1..] == rest;
      if events[0].Delta? {
        WordOfBody(events[1..], error, budget - 1);
      } else if |events| == 2 {
        assert rest == [Ok(events[1])] && rest[1..] == [];
      } else if error.Some? {
        assert rest == [Err(error.value)] && rest[1..] == [];
      }
    }
  }

  // ---- Every run of the decoder has a body ----

  /** The deltas a fold may still send. */
  predicate Within(cfg: Config, acc: Fold) {
    |acc.deltas| <= cfg.maxTokens && "" !in acc.deltas
  }

  lemma ConsumeLineWithin(cfg: Config, acc: Fold, line: Bytes)
    requires Within(cfg, acc)
    ensures Within(cfg, ConsumeLine(cfg, acc, line))
  {
  }

  /** The awaits send deltas only, or - when the run succeeds - deltas, usage and last of all finish. */
  predicate Shaped(awaits: seq<Await>, budget: nat, ok: bool)
    decreases |awaits|
  {
    if awaits == [] then !ok
    else match awaits[0]
      case Read => Shaped(awaits[1..], budget, ok)
      case Send(Delta(text)) => text != "" && budget > 0 && Shaped(awaits[1..], budget - 1, ok)
      case Send(Usage(_)) => ok && |awaits| == 2 && awaits[1].Send? && awaits[1].event.Finished?
      case Send(Finished(_)) => false
  }

  predicate RunShaped(run: Run, budget: nat) {
    Shaped(run.awaits, budget, run.result.Ok?)
  }

  lemma ShapedOne(await: Await, awaits: seq<Await>, budget: nat, ok: bool)
    requires Shaped(awaits, budget, ok)
    ensures Shaped([Read] + awaits, budget, ok)
    ensures await.Send? && await.event.Delta? && await.event.text != "" ==> Shaped([await] + awaits, budget + 1, ok)
  {
    assert ([Read] + awaits)[1..] == awaits;
    assert ([await] + awaits)[1..] == awaits;
  }

  lemma {:induction false} ShapedPrepend(texts: seq<string>, run: Run, budget: nat)
    requires RunShaped(run, budget) && "" !in texts
    ensures RunShaped(Prepend(DeltaSends(texts), run), |texts| + budget)
    ensures RunShaped(Prepend([Read], run), budget)
  {
    ShapedOne(Read, run.awaits, budget, run.result.Ok?);
    hide Shaped;
    if texts == [] {
      assert [] + run.awaits == run.awaits;
    } else {
      ShapedPrepend(texts[1..], run, budget);
      var first, rest := Send(Delta(texts[0])), DeltaSends(texts[1..]);
      ShapedOne(first, rest + run.awaits, |texts| - 1 + budget, run.result.Ok?);
      Associates([first], rest, run.awaits);
    }
  }

  lemma {:induction false} ReadLoopShaped(cfg: Config, acc: Fold, buffer: Bytes, stream: seq<ChunkRead>)
    requires Within(cfg, acc)
    ensures RunShaped(ReadLoop(cfg, acc, buffer, stream), cfg.maxTokens - |acc.deltas|)
    decreases |stream|, 0
  {
    hide LineLoop;
    var tail := AfterRead(cfg, acc, buffer, stream);
    ReadsThen(cfg, acc, buffer, stream);
    if stream != [] && stream[0].Chunk? && |buffer| + |stream[0].bytes| <= MAX_SSE_LINE_BYTES {
      LineLoopShaped(cfg, acc, buffer + stream[0].bytes, stream[1..]);
    }
    ShapedPrepend([], tail, cfg.maxTokens - |acc.deltas|);
  }

  lemma {:induction false} LineLoopShaped(cfg: Config, acc: Fold, buffer: Bytes, stream: seq<ChunkRead>)
    requires Within(cfg, acc)
    ensures RunShaped(LineLoop(cfg, acc, buffer, stream), cfg.maxTokens - |acc.deltas|)
    decreases |stream|, |buffer| + 1
  {
    hide FirstLf;
    hide ConsumeLine;
    hide ReadLoop;
    var p := FirstLf(buffer);
    if acc.failed {
    } else if p == |buffer| {
      if !acc.done { ReadLoopShaped(cfg, acc, buffer, stream); }
    } else {
      hide RunShaped;
      var next := ConsumeLine(cfg, acc, buffer[..p]);
      ConsumeLineWithin(cfg, acc, buffer[..p]);
      ConsumeLineEffect(cfg, acc, buffer[..p]);
      LineLoopShaped(cfg, next, buffer[p + 1..], stream);
      var tail := LineLoop(cfg, next, buffer[p + 1..], stream);
      assert "" !in NewDeltas(acc, next);
      ShapedPrepend(NewDeltas(acc, next), tail, cfg.maxTokens - |next.deltas|);
    }
  }

  lemma TaskRunShaped(cfg: Config, script: Script)
    ensures RunShaped(TaskRun(cfg, script), cfg.maxTokens)
  {
    hide ReadLoop;
    if script.response.Streaming? {
      ReadLoopShaped(cfg, EMPTY_FOLD, [], script.response.chunks);
    }
    ShapedPrepend([], AfterResponse(cfg, script), cfg.maxTokens);
    ShapedPrepend([], AfterPermit(cfg, script), cfg.maxTokens);
  }

  /** One event in front of a body. */
  lemma BodyStep(event: GenerationEvent, rest: seq<GenerationEvent>, budget: nat)
    requires event.Delta? && event.text != "" && Body(rest, budget)
    ensures Body([event] + rest, budget + 1)
    ensures EndsFinished([event] + rest) <==> EndsFinished(rest)
  {
    assert ([event] + rest)[1..] == rest;
    if rest != [] { assert ([event] + rest)[|rest|] == rest[|rest| - 1]; }
  }

  /** What the first `k` awaits of a shaped run send is a body, finished exactly when the run is. */
  lemma {:induction false} ShapedCut(awaits: seq<Await>, budget: nat, ok: bool, k: nat)
    requires Shaped(awaits, budget, ok) && k <= |awaits|
    ensures Body(Sent(awaits[..k]), budget)
    ensures EndsFinished(Sent(awaits[..k])) <==> ok && k == |awaits|
    decreases |awaits|
  {
    if k > 0 {
      var head := awaits[0];
      SentHead(awaits, k);
      hide Sent;
      if head.Read? {
        ShapedCut(awaits[1..], budget, ok, k - 1);
      } else if head.event.Delta? {
        ShapedCut(awaits[1..], budget - 1, ok, k - 1);
        hide Body;
        hide EndsFinished;
        BodyStep(head.event, Sent(awaits[1..][..k - 1]), budget - 1);
      } else if k == 2 {
        SentHead(awaits[1..], 1);
        SentHead(awaits[2..], 0);
      } else {
        SentHead(awaits[1..], 0);
      }
    }
  }

  lemma SentHead(awaits: seq<Await>, k: nat)
    requires k <= |awaits|
    ensures k == 0 ==> Sent(awaits[..k]) == []
    ensures k > 0 ==> Sent(awaits[..k])
                      == match awaits[0]
                         case Read => Sent(awaits[1..][..k - 1])
                         case Send(event) => [event] + Sent(awaits[1..][..k - 1])
  {
    if k > 0 { assert awaits[..k][1..] == awaits[1..][..k - 1]; }
  }

  /** For any timing of stops, disconnect and shutdown the queue is a word with at most one terminal. */
  lemma QueueIsAWord(cfg: Config, world: World, script: Script, k: nat, r: Result<(), EngineError>)
    requires Outcome(world, 0, TaskRun(cfg, script), k, r)
    ensures Word(Queue(world, TaskRun(cfg, script), k, r), cfg.maxTokens)
    ensures (forall n :: world.receiverOpen(n)) ==> Terminals(Queue(world, TaskRun(cfg, script), k, r)) == 1
  {
    var run := TaskRun(cfg, script);
    var sent := Sent(run.awaits[..k]);
    TaskRunShaped(cfg, script);
    ShapedCut(run.awaits, cfg.maxTokens, run.result.Ok?, k);
    var error := if r.Err? && world.receiverOpen(k + 1) then Some(r.error) else None;
    WordOfBody(sent, error, cfg.maxTokens);
  }

  /** The events queued under any interruption are a beginning of the uninterrupted run's events. */
  lemma InterruptionOnlyTruncates(cfg: Config, world: World, script: Script, k: nat, r: Result<(), EngineError>)
    requires Outcome(world, 0, TaskRun(cfg, script), k, r)
    ensures Items(Sent(TaskRun(cfg, script).awaits[..k])) <= Queue(world, TaskRun(cfg, script), k, r)
    ensures Sent(TaskRun(cfg, script).awaits[..k]) <= Sent(TaskRun(cfg, script).awaits)
    ensures r.Ok? <==> EndsFinished(Sent(TaskRun(cfg, script).awaits[..k]))
  {
    var run := TaskRun(cfg, script);
    TaskRunShaped(cfg, script);
    hide TaskRun;
    hide Shaped;
    hide Body;
    hide EndsFinished;
    ShapedCut(run.awaits, cfg.maxTokens, run.result.Ok?, k);
    hide Sent;
    SentConcat(run.awaits[..k], run.awaits[k..]);
    assert run.awaits == run.awaits[..k] + run.awaits[k..];
  }

  /** An interrupted run reports the flag that ended it, and the earlier branch wins when several are raised. */
  lemma StopNamesItsFlag(cfg: Config, world: World, script: Script, k: nat, r: Result<(), EngineError>)
    requires Outcome(world, 0, TaskRun(cfg, script), k, r) && k < |TaskRun(cfg, script).awaits|
    ensures r.Err?
    ensures world.stopped(k).Some? ==> r.error == MapStop(world.stopped(k).value)
    ensures world.stopped(k).None? && world.disconnected(k) ==> r.error == EngineError.Cancelled
    ensures r.error == ShuttingDown <==> world.stopped(k).None? && !world.disconnected(k) && world.shutdown(k)
    ensures r.error == EngineError.DeadlineExceeded <==> world.stopped(k) == Some(RequestStop.DeadlineExceeded)
    ensures world.stopped(k).None? && !world.disconnected(k) && !world.shutdown(k) ==>
              TaskRun(cfg, script).awaits[k].Send? && !world.receiverOpen(k) && r.error == EngineError.Cancelled
    ensures forall i: nat :: i < k ==> world.stopped(i).None? && !world.disconnected(i) && !world.shutdown(i)
    ensures forall i: nat :: i < k && TaskRun(cfg, script).awaits[i].Send? ==> world.receiverOpen(i)
  {
    var run := TaskRun(cfg, script);
    forall i: nat | i < k
      ensures world.stopped(i).None? && !world.disconnected(i) && !world.shutdown(i)
      ensures run.awaits[i].Send? ==> world.receiverOpen(i)
    {
      assert Interruption(world, 0 + i, run.awaits[i]).None?;
    }
  }

  /**
   What an uninterrupted task answers: the first step that fails names the error and nothing is
   sent; a stream that is reached is answered as it decodes. The task waits once for its permit
   and, if it gets as far as sending its request, once for the response.
   */
  lemma FirstFailureAnswers(cfg: Config, script: Script)
    ensures var answer := Observed(TaskRun(cfg, script));
            && (script.ensured.Err? ==> answer.result == script.ensured)
            && (script.ensured.Ok? && script.connected.Err? ==> answer.result == script.connected)
            && (Connected(script) && script.remaining.None? ==> answer.result == Err(Configuration))
            && (Connected(script) && script.remaining == Some(0) ==>
                  answer.result == Err(EngineError.DeadlineExceeded))
            && (Requested(script) && !script.response.Streaming? ==> answer.result == Err(RuntimeUnavailable))
            && (Requested(script) && script.response.Streaming? ==>
                  answer == Observed(DecodeRun(cfg, script.response.chunks)))
            && (!Requested(script) || !script.response.Streaming? ==> answer.events == [])
    ensures var awaits := TaskRun(cfg, script).awaits;
            && awaits != [] && awaits[0] == Read
            && (Requested(script) <==> |awaits| > 1)
            && (Requested(script) ==> awaits[1] == Read)
            && (|awaits| > 2 ==> Requested(script) && script.response.Streaming?)
  {
    hide DecodeRun;
    assert Sent([]) == [];
    ReadPrepended(AfterPermit(cfg, script));
    ReadPrepended(AfterResponse(cfg, script));
  }

  predicate Connected(script: Script) {
    script.ensured.Ok? && script.connected.Ok?
  }

  /** The request is sent: there is a sidecar and time left. */
  predicate Requested(script: Script) {
    Connected(script) && script.remaining.Some? && script.remaining.value > 0
  }
}
