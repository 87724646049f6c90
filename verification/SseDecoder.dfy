/**
 The token-stream decoder: bytes are cut into lines, `data:` payloads are folded into
 deltas, usage and finish, and `[DONE]` ends the stream.

 This module is the specification that GenerationTask.ConsumeSse is proved against, and
 the theorems about it: the answer does not depend on how the bytes were chunked.
 */
module SseDecoder {
  import opened Domain

  const LF: Byte := 10
  const CR: Byte := 13
  const SPACE: Byte := 32
  const DATA_PREFIX: Bytes := [100, 97, 116, 97, 58] // "data:"
  const DONE: Bytes := [91, 68, 79, 78, 69, 93] // "[DONE]"
  const MAX_SSE_LINE_BYTES: nat := 1_048_576

  /** The members of one JSON payload that the decoder looks at. */
  datatype UsageField =
    | NoUsage
    | NullUsage
    | UsageMembers(prompt: Option<nat>, completion: Option<nat>, total: Option<nat>)

  datatype TextField = NoText | NullText | NotAString | Text(text: string)

  datatype Json = Json(usage: UsageField, finish: TextField, text: TextField, content: TextField)

  datatype Mode = Completion | Chat

  /** The JSON decoder and the parts of the request that bound the stream. */
  datatype Config = Config(decode: Bytes -> Option<Json>, mode: Mode, maxTokens: U32)

  function ReadU32(member: Option<nat>): Option<U32> {
    match member
    case Some(n) => if n <= U32_MAX then Some(n) else None
    case None => None
  }

  function SaturatingAdd(a: U32, b: U32): U32 {
    if a + b <= U32_MAX then a + b else U32_MAX
  }

  function ParseUsage(json: Json): Result<Option<TokenUsage>, EngineError> {
    match json.usage
    case NoUsage => Ok(None)
    case NullUsage => Ok(None)
    case UsageMembers(p, c, t) =>
      match (ReadU32(p), ReadU32(c), ReadU32(t))
      case (Some(prompt), Some(completion), Some(total)) =>
        if SaturatingAdd(prompt, completion) != total then Err(RuntimeProtocol)
        else Ok(Some(TokenUsage(prompt, completion, total)))
      case _ => Err(RuntimeProtocol)
  }

  function ParseFinishReason(json: Json): Result<Option<FinishReason>, EngineError> {
    match json.finish
    case NoText => Ok(None)
    case NullText => Ok(None)
    case NotAString => Err(RuntimeProtocol)
    case Text(reason) =>
      if reason == "stop" then Ok(Some(Stop))
      else if reason == "length" then Ok(Some(Length))
      else Err(RuntimeProtocol)
  }

  function DeltaOf(mode: Mode, json: Json): Result<Option<string>, EngineError> {
    match if mode.Completion? then json.text else json.content
    case NoText => Ok(None)
    case Text(text) => Ok(Some(text))
    case _ => Err(RuntimeProtocol)
  }

  /**
   Usage is accepted exactly when all three counts are 32-bit and the total is the sum
   capped at the largest 32-bit value.
   */
  lemma UsageAccepted(json: Json, usage: TokenUsage)
    ensures ParseUsage(json) == Ok(Some(usage))
            <==> && json.usage
                    == UsageMembers(Some(usage.promptTokens), Some(usage.completionTokens), Some(usage.totalTokens))
                 && (usage.promptTokens + usage.completionTokens == usage.totalTokens
                     || (usage.totalTokens == U32_MAX && usage.promptTokens + usage.completionTokens > U32_MAX))
  {
  }

  /** What the decoder has accumulated between two lines. */
  datatype Fold = Fold(
    finish: Option<FinishReason>, usage: Option<TokenUsage>, done: bool, deltas: seq<string>, failed: bool)

  const EMPTY_FOLD: Fold := Fold(None, None, false, [], false)

  function ConsumePayload(cfg: Config, acc: Fold, data: Bytes): Fold {
    match cfg.decode(data)
    case None => acc.(failed := true)
    case Some(json) =>
      var usage := ParseUsage(json);
      var finish := ParseFinishReason(json);
      var delta := DeltaOf(cfg.mode, json);
      if usage.Err? || finish.Err? || delta.Err? then acc.(failed := true)
      else if usage.value.Some? && usage.value.value.completionTokens > cfg.maxTokens then acc.(failed := true)
      else
        var acc := acc.(usage := if usage.value.Some? then usage.value else acc.usage,
                        finish := if finish.value.Some? then finish.value else acc.finish);
        if delta.value.None? || delta.value.value == "" then acc
        else if |acc.deltas| + 1 > cfg.maxTokens then acc.(failed := true)
        else acc.(deltas := acc.deltas + [delta.value.value])
  }

  /** The payload of a line (given without its LF), if the line is a `data:` line. */
  function LineData(line: Bytes): Option<Bytes> {
    var line := if line != [] && line[|line| - 1] == CR then line[..|line| - 1] else line;
    if DATA_PREFIX <= line then
      var data := line[|DATA_PREFIX|..];
      Some(if data != [] && data[0] == SPACE then data[1..] else data)
    else
      None
  }

  function ConsumeLine(cfg: Config, acc: Fold, line: Bytes): Fold {
    match LineData(line)
    case None => acc
    case Some(data) => if data == DONE then acc.(done := true) else ConsumePayload(cfg, acc, data)
  }

  function FirstLf(bytes: Bytes): (p: nat)
    ensures p <= |bytes|
    ensures forall i :: 0 <= i < p ==> bytes[i] != LF
    ensures p < |bytes| ==> bytes[p] == LF
  {
    if bytes == [] || bytes[0] == LF then 0 else 1 + FirstLf(bytes[1..])
  }

  /** Folds every complete line of the buffer; the second component is what stays buffered. */
  function DrainLines(cfg: Config, acc: Fold, buffer: Bytes): (Fold, Bytes)
    decreases |buffer|
  {
    var p := FirstLf(buffer);
    if acc.failed || p == |buffer| then (acc, buffer)
    else DrainLines(cfg, ConsumeLine(cfg, acc, buffer[..p]), buffer[p + 1..])
  }

  // ---- One run over a chunked response body, as the awaits it performs and how it ends ----

  datatype ChunkRead = Chunk(bytes: Bytes) | ReadFailure

  datatype Await = Read | Send(event: GenerationEvent)

  datatype Run = Run(awaits: seq<Await>, result: Result<(), EngineError>)

  function Prepend(awaits: seq<Await>, run: Run): Run {
    Run(awaits + run.awaits, run.result)
  }

  function DeltaSends(deltas: seq<string>): seq<Await> {
    if deltas == [] then [] else [Send(Delta(deltas[0]))] + DeltaSends(deltas[1..])
  }

  /** The end of the stream: usage and finish are sent only after `[DONE]` with nothing left buffered. */
  function FinishRun(acc: Fold, buffer: Bytes): Run {
    if !acc.done || buffer != [] || acc.finish.None? || acc.usage.None? then Run([], Err(RuntimeProtocol))
    else Run([Send(Usage(acc.usage.value)), Send(Finished(acc.finish.value))], Ok(()))
  }

  /** The outer loop: read a chunk, enforce the buffer bound, drain its lines. */
  function ReadLoop(cfg: Config, acc: Fold, buffer: Bytes, stream: seq<ChunkRead>): Run
    decreases |stream|, 0
  {
    if stream == [] then Prepend([Read], FinishRun(acc, buffer))
    else match stream[0]
      case ReadFailure => Run([Read], Err(RuntimeUnavailable))
      case Chunk(bytes) =>
        if |buffer| + |bytes| > MAX_SSE_LINE_BYTES then Run([Read], Err(RuntimeProtocol))
        else Prepend([Read], LineLoop(cfg, acc, buffer + bytes, stream[1..]))
  }

  /** The inner loop: one buffered line at a time, sending its delta before looking at the next. */
  function LineLoop(cfg: Config, acc: Fold, buffer: Bytes, stream: seq<ChunkRead>): Run
    decreases |stream|, |buffer| + 1
  {
    var p := FirstLf(buffer);
    if acc.failed then Run([], Err(RuntimeProtocol))
    else if p == |buffer| then
      if acc.done then FinishRun(acc, buffer) else ReadLoop(cfg, acc, buffer, stream)
    else
      var next := ConsumeLine(cfg, acc, buffer[..p]);
      Prepend(DeltaSends(NewDeltas(acc, next)), LineLoop(cfg, next, buffer[p + 1..], stream))
  }

  function NewDeltas(before: Fold, after: Fold): seq<string> {
    if before.deltas <= after.deltas then after.deltas[|before.deltas|..] else []
  }

  function DecodeRun(cfg: Config, stream: seq<ChunkRead>): Run {
    ReadLoop(cfg, EMPTY_FOLD, [], stream)
  }

  // ---- What a consumer observes of a run that nothing interrupts ----

  datatype Answer = Answer(events: seq<GenerationEvent>, result: Result<(), EngineError>)

  function Sent(awaits: seq<Await>): seq<GenerationEvent> {
    if awaits == [] then [] else EventOf(awaits[0]) + Sent(awaits[1..])
  }

  function EventOf(await: Await): seq<GenerationEvent> {
    match await
    case Read => []
    case Send(event) => [event]
  }

  function Observed(run: Run): Answer {
    Answer(Sent(run.awaits), run.result)
  }

  function Deltas(texts: seq<string>): seq<GenerationEvent> {
    seq(|texts|, i requires 0 <= i < |texts| => Delta(texts[i]))
  }

  /** The answer after folding all lines of a byte stream at once. */
  function Conclude(acc: Fold, residue: Bytes): Answer {
    if acc.failed || !acc.done || residue != [] || acc.finish.None? || acc.usage.None? then
      Answer(Deltas(acc.deltas), Err(RuntimeProtocol))
    else
      Answer(Deltas(acc.deltas) + [Usage(acc.usage.value), Finished(acc.finish.value)], Ok(()))
  }

  /** The reference reading: one pass over the whole byte stream, no chunks. */
  function OnePass(cfg: Config, bytes: Bytes): Answer {
    var (acc, residue) := DrainLines(cfg, EMPTY_FOLD, bytes);
    Conclude(acc, residue)
  }

  // ---- Conditions a caller can check on a stream and its chunking ----

  function Chunks(parts: seq<Bytes>): seq<ChunkRead> {
    seq(|parts|, i requires 0 <= i < |parts| => Chunk(parts[i]))
  }

  /** The bytes after the last LF. */
  function Residue(bytes: Bytes): Bytes
    decreases |bytes|
  {
    var p := FirstLf(bytes);
    if p == |bytes| then bytes else Residue(bytes[p + 1..])
  }

  /** Every chunk fits the buffer together with what was left unfinished before it. */
  predicate Bounded(buffer: Bytes, parts: seq<Bytes>)
    decreases |parts|
  {
    parts == [] || (|buffer| + |parts[0]| <= MAX_SSE_LINE_BYTES && Bounded(Residue(buffer + parts[0]), parts[1..]))
  }

  predicate OnlyLf(bytes: Bytes) {
    forall i :: 0 <= i < |bytes| ==> bytes[i] == LF
  }

  /** What follows the first `[DONE]` line. */
  function AfterDone(bytes: Bytes): Option<Bytes>
    decreases |bytes|
  {
    var p := FirstLf(bytes);
    if p == |bytes| then None
    else if LineData(bytes[..p]) == Some(DONE) then Some(bytes[p + 1..])
    else AfterDone(bytes[p + 1..])
  }

  predicate QuietTail(bytes: Bytes) {
    AfterDone(bytes).Some? ==> OnlyLf(AfterDone(bytes).value)
  }

  // ---- Lines of a concatenation ----

  lemma {:induction false} FirstLfOfConcat(x: Bytes, y: Bytes)
    ensures FirstLf(x) < |x| ==> FirstLf(x + y) == FirstLf(x)
    ensures FirstLf(x) == |x| ==> FirstLf(x + y) == |x| + FirstLf(y)
  {
    if x == [] {
      assert x + y == y;
    } else {
      FirstLfOfConcat(x[1..], y);
      assert (x + y)[1..] == x[1..] + y;
    }
  }

  /** What one line can do to the fold. */
  lemma ConsumeLineEffect(cfg: Config, acc: Fold, line: Bytes)
    ensures var next := ConsumeLine(cfg, acc, line);
            && acc.deltas <= next.deltas
            && (acc.done ==> next.done)
            && (!acc.done ==> (next.done <==> LineData(line) == Some(DONE)))
            && (LineData(line) == None ==> next == acc)
  {
  }

  lemma {:induction false} DrainStep(cfg: Config, acc: Fold, x: Bytes)
    ensures var p := FirstLf(x);
            DrainLines(cfg, acc, x) == if acc.failed || p == |x| then (acc, x)
                                       else DrainLines(cfg, ConsumeLine(cfg, acc, x[..p]), x[p + 1..])
  {
    hide FirstLf;
    hide ConsumeLine;
  }

  /** Draining a concatenation is draining the first part and then the residue with the second. */
  lemma {:induction false} DrainConcat(cfg: Config, acc: Fold, x: Bytes, y: Bytes)
    ensures var (mid, rest) := DrainLines(cfg, acc, x);
            DrainLines(cfg, acc, x + y) == DrainLines(cfg, mid, rest + y)
    decreases |x|
  {
    hide FirstLf;
    hide ConsumeLine;
    hide DrainLines;
    var p := FirstLf(x);
    FirstLfOfConcat(x, y);
    DrainStep(cfg, acc, x);
    if !acc.failed && p < |x| {
      DrainStep(cfg, acc, x + y);
      CutConcat(x, y, p);
      CutConcat(x, y, p + 1);
      DrainConcat(cfg, ConsumeLine(cfg, acc, x[..p]), x[p + 1..], y);
    }
  }

  lemma {:induction false} DrainLeavesResidue(cfg: Config, acc: Fold, x: Bytes)
    ensures !DrainLines(cfg, acc, x).0.failed ==> DrainLines(cfg, acc, x).1 == Residue(x)
    decreases |x|
  {
    hide FirstLf;
    hide ConsumeLine;
    var p := FirstLf(x);
    if !acc.failed && p < |x| {
      DrainLeavesResidue(cfg, ConsumeLine(cfg, acc, x[..p]), x[p + 1..]);
    }
  }

  lemma {:induction false} DrainExtendsDeltas(cfg: Config, acc: Fold, x: Bytes)
    ensures acc.deltas <= DrainLines(cfg, acc, x).0.deltas
    ensures acc.done ==> DrainLines(cfg, acc, x).0.done
    decreases |x|
  {
    hide FirstLf;
    hide ConsumeLine;
    ConsumeLineEffect(cfg, acc, x[..FirstLf(x)]);
    var p := FirstLf(x);
    if !acc.failed && p < |x| {
      DrainExtendsDeltas(cfg, ConsumeLine(cfg, acc, x[..p]), x[p + 1..]);
    }
  }

  /** LF bytes alone are empty lines and change nothing. */
  lemma {:induction false} DrainOnlyLf(cfg: Config, acc: Fold, x: Bytes)
    requires OnlyLf(x) && !acc.failed
    ensures DrainLines(cfg, acc, x) == (acc, [])
    decreases |x|
  {
    if x != [] {
      assert x[0] == LF;
      assert FirstLf(x) == 0;
      assert LineData(x[..0]) == None;
      DrainOnlyLf(cfg, acc, x[1..]);
    }
  }

  lemma {:induction false} AfterDoneStep(x: Bytes)
    ensures var p := FirstLf(x);
            AfterDone(x) == if p == |x| then None
                            else if LineData(x[..p]) == Some(DONE) then Some(x[p + 1..])
                            else AfterDone(x[p + 1..])
  {
    hide LineData;
    hide FirstLf;
  }

  lemma {:induction false} ResidueStep(x: Bytes)
    ensures var p := FirstLf(x);
            Residue(x) == if p == |x| then x else Residue(x[p + 1..])
  {
    hide FirstLf;
  }

  lemma {:induction false} AfterDoneConcat(x: Bytes, y: Bytes)
    ensures AfterDone(x).Some? ==> AfterDone(x + y) == Some(AfterDone(x).value + y)
    ensures AfterDone(x).None? ==> AfterDone(x + y) == AfterDone(Residue(x) + y)
    decreases |x|
  {
    hide FirstLf;
    hide LineData;
    hide AfterDone;
    hide Residue;
    var p := FirstLf(x);
    FirstLfOfConcat(x, y);
    AfterDoneStep(x);
    ResidueStep(x);
    if p < |x| {
      AfterDoneStep(x + y);
      CutConcat(x, y, p);
      CutConcat(x, y, p + 1);
      AfterDoneConcat(x[p + 1..], y);
    }
  }

  /** The fold is done exactly when a `[DONE]` line has gone by, and LF bytes after it leave no residue. */
  lemma {:induction false} DoneMeansAfterDone(cfg: Config, acc: Fold, x: Bytes)
    requires !acc.done
    ensures var (end, rest) := DrainLines(cfg, acc, x);
            !end.failed ==>
              && (end.done <==> AfterDone(x).Some?)
              && (end.done && QuietTail(x) ==> rest == [])
    decreases |x|
  {
    hide FirstLf;
    hide ConsumeLine;
    hide LineData;
    ConsumeLineEffect(cfg, acc, x[..FirstLf(x)]);
    var p := FirstLf(x);
    if !acc.failed && p < |x| {
      var next := ConsumeLine(cfg, acc, x[..p]);
      if next.done {
        DrainExtendsDeltas(cfg, next, x[p + 1..]);
        if !next.failed && OnlyLf(x[p + 1..]) { DrainOnlyLf(cfg, next, x[p + 1..]); }
      } else {
        DoneMeansAfterDone(cfg, next, x[p + 1..]);
      }
    }
  }

  // ---- The line loop sends exactly the deltas it folds ----

  lemma {:induction false} SentConcat(a: seq<Await>, b: seq<Await>)
    ensures Sent(a + b) == Sent(a) + Sent(b)
  {
    hide EventOf;
    if a == [] {
      assert a + b == b;
      assert Sent(a) == [];
    } else {
      SentConcat(a[1..], b);
      CutConcat(a, b, 1);
      Associates(EventOf(a[0]), Sent(a[1..]), Sent(b));
    }
  }

  lemma {:induction false} SentDeltas(texts: seq<string>)
    ensures Sent(DeltaSends(texts)) == Deltas(texts)
  {
    if texts != [] {
      SentDeltas(texts[1..]);
      assert Sent(DeltaSends(texts)) == [Delta(texts[0])] + Sent(DeltaSends(texts[1..])) by {
        assert DeltaSends(texts)[1..] == DeltaSends(texts[1..]);
      }
      assert Deltas(texts) == [Delta(texts[0])] + Deltas(texts[1..]);
    }
  }

  lemma SentPrepended(texts: seq<string>, run: Run)
    ensures Observed(Prepend(DeltaSends(texts), run)) == Answer(Deltas(texts) + Observed(run).events, run.result)
  {
    SentConcat(DeltaSends(texts), run.awaits);
    SentDeltas(texts);
  }

  lemma ReadPrepended(run: Run)
    ensures Observed(Prepend([Read], run)) == Observed(run)
  {
    SentConcat([Read], run.awaits);
    assert Sent([Read]) == [];
  }

  lemma NewDeltasChain(a: Fold, b: Fold, c: Fold)
    requires a.deltas <= b.deltas <= c.deltas
    ensures Deltas(NewDeltas(a, c)) == Deltas(NewDeltas(a, b)) + Deltas(NewDeltas(b, c))
    ensures Deltas(c.deltas) == Deltas(a.deltas) + Deltas(NewDeltas(a, c))
  {
    assert NewDeltas(a, c) == NewDeltas(a, b) + NewDeltas(b, c);
    assert c.deltas == a.deltas + NewDeltas(a, c);
    DeltasConcat(NewDeltas(a, b), NewDeltas(b, c));
    DeltasConcat(a.deltas, NewDeltas(a, c));
  }

  lemma DeltasConcat(a: seq<string>, b: seq<string>)
    ensures Deltas(a + b) == Deltas(a) + Deltas(b)
  {
  }

  /** What the line loop goes on to once the buffer holds no complete line. */
  function AfterLines(cfg: Config, end: Fold, rest: Bytes, stream: seq<ChunkRead>): Run {
    if end.failed then Run([], Err(RuntimeProtocol))
    else if end.done then FinishRun(end, rest)
    else ReadLoop(cfg, end, rest, stream)
  }

  /** The line loop's run: the deltas of all its lines, then what comes after the buffer is drained. */
  lemma {:induction false} LineLoopDrains(cfg: Config, acc: Fold, buffer: Bytes, stream: seq<ChunkRead>)
    ensures var (end, rest) := DrainLines(cfg, acc, buffer);
            var after := AfterLines(cfg, end, rest, stream);
            Observed(LineLoop(cfg, acc, buffer, stream))
            == Answer(Deltas(NewDeltas(acc, end)) + Observed(after).events, after.result)
    decreases |buffer|
  {
    hide FirstLf;
    hide ConsumeLine;
    hide Sent;
    hide DeltaSends;
    hide ReadLoop;
    hide FinishRun;
    var p := FirstLf(buffer);
    var (end, rest) := DrainLines(cfg, acc, buffer);
    if acc.failed || p == |buffer| {
      assert Deltas(NewDeltas(acc, end)) == [];
    } else {
      var next := ConsumeLine(cfg, acc, buffer[..p]);
      ConsumeLineEffect(cfg, acc, buffer[..p]);
      var tail := LineLoop(cfg, next, buffer[p + 1..], stream);
      LineLoopDrains(cfg, next, buffer[p + 1..], stream);
      DrainExtendsDeltas(cfg, next, buffer[p + 1..]);
      SentPrepended(NewDeltas(acc, next), tail);
      NewDeltasChain(acc, next, end);
      var after := Observed(AfterLines(cfg, end, rest, stream));
      Associates(Deltas(NewDeltas(acc, next)), Deltas(NewDeltas(next, end)), after.events);
      hide NewDeltas;
      hide Deltas;
    }
  }

  // ---- Chunk invariance ----

  /** No `[DONE]` line is complete before the last chunk. */
  predicate DoneOnlyLast(buffer: Bytes, parts: seq<Bytes>) {
    parts != [] && AfterDone(buffer + Concat(parts[..|parts| - 1])).None?
  }

  /** The first chunk of a stream leaves the fold mid-way, done or failed; the rest of the stream agrees. */
  lemma SplitAtFirstChunk(cfg: Config, acc: Fold, x: Bytes, y: Bytes)
    requires !acc.done && !acc.failed && (QuietTail(x + y) || y == [] || AfterDone(x).None?)
    ensures var (mid, rest) := DrainLines(cfg, acc, x);
            var (end, residue) := DrainLines(cfg, acc, x + y);
            && (mid.failed ==> end == mid)
            && (!mid.failed && mid.done ==> end == mid && residue == rest && AfterDone(x).Some?)
            && (!mid.failed && !mid.done ==>
                  && rest == Residue(x)
                  && DrainLines(cfg, mid, rest + y) == (end, residue)
                  && AfterDone(x).None?
                  && AfterDone(rest + y) == AfterDone(x + y))
  {
    hide DrainLines;
    hide AfterDone;
    hide Residue;
    var (mid, rest) := DrainLines(cfg, acc, x);
    DrainConcat(cfg, acc, x, y);
    DrainLeavesResidue(cfg, acc, x);
    DoneMeansAfterDone(cfg, acc, x);
    AfterDoneConcat(x, y);
    if mid.failed {
      DrainFailed(cfg, mid, rest + y);
    } else if mid.done {
      var tail := AfterDone(x).value;
      if y == [] {
        assert x + y == x;
      } else {
        assert forall i :: 0 <= i < |tail| ==> tail[i] == (tail + y)[i];
        assert forall i :: 0 <= i < |y| ==> y[i] == (tail + y)[|tail| + i];
        assert rest + y == y;
        DrainOnlyLf(cfg, mid, y);
      }
    }
  }

  lemma DrainFailed(cfg: Config, acc: Fold, buffer: Bytes)
    requires acc.failed
    ensures DrainLines(cfg, acc, buffer) == (acc, buffer)
  {
  }

  lemma DoneOnlyLastStep(buffer: Bytes, parts: seq<Bytes>)
    requires DoneOnlyLast(buffer, parts) && |parts| > 1
    ensures AfterDone(buffer + parts[0]).None?
    ensures DoneOnlyLast(Residue(buffer + parts[0]), parts[1..])
  {
    hide AfterDone;
    hide Residue;
    var before := parts[..|parts| - 1];
    var x, z := buffer + parts[0], Concat(before[1..]);
    assert before[0] == parts[0] && before[1..] == parts[1..][..|parts| - 2];
    assert buffer + Concat(before) == x + z;
    AfterDoneConcat(x, z);
  }

  /** One chunk of the read loop: its lines' deltas, then whatever follows them. */
  lemma ReadLoopHead(cfg: Config, acc: Fold, buffer: Bytes, stream: seq<ChunkRead>)
    requires stream != [] && stream[0].Chunk? && |buffer| + |stream[0].bytes| <= MAX_SSE_LINE_BYTES
    ensures var (mid, rest) := DrainLines(cfg, acc, buffer + stream[0].bytes);
            var after := AfterLines(cfg, mid, rest, stream[1..]);
            Observed(ReadLoop(cfg, acc, buffer, stream))
            == Answer(Deltas(NewDeltas(acc, mid)) + Observed(after).events, after.result)
  {
    hide LineLoop;
    hide DrainLines;
    LineLoopDrains(cfg, acc, buffer + stream[0].bytes, stream[1..]);
    ReadPrepended(LineLoop(cfg, acc, buffer + stream[0].bytes, stream[1..]));
  }

  lemma ReadLoopChunk(cfg: Config, acc: Fold, buffer: Bytes, parts: seq<Bytes>)
    requires parts != [] && |buffer| + |parts[0]| <= MAX_SSE_LINE_BYTES
    ensures var (mid, rest) := DrainLines(cfg, acc, buffer + parts[0]);
            var after := AfterLines(cfg, mid, rest, Chunks(parts[1..]));
            Observed(ReadLoop(cfg, acc, buffer, Chunks(parts)))
            == Answer(Deltas(NewDeltas(acc, mid)) + Observed(after).events, after.result)
  {
    hide DrainLines;
    hide ReadLoop;
    assert Chunks(parts)[1..] == Chunks(parts[1..]);
    ReadLoopHead(cfg, acc, buffer, Chunks(parts));
  }

  lemma {:induction false} ReadLoopIsOnePass(cfg: Config, acc: Fold, buffer: Bytes, parts: seq<Bytes>)
    requires !acc.done && !acc.failed
    requires FirstLf(buffer) == |buffer|
    requires Bounded(buffer, parts)
    requires QuietTail(buffer + Concat(parts)) || DoneOnlyLast(buffer, parts)
    ensures var (end, rest) := DrainLines(cfg, acc, buffer + Concat(parts));
            var run := Observed(ReadLoop(cfg, acc, buffer, Chunks(parts)));
            Answer(Deltas(acc.deltas) + run.events, run.result) == Conclude(end, rest)
    decreases |parts|
  {
    hide DrainLines;
    hide AfterDone;
    hide FirstLf;
    hide Sent;
    hide Residue;
    if parts == [] {
      assert buffer + Concat(parts) == buffer;
      DrainNothing(cfg, acc, buffer);
      ReadPrepended(FinishRun(acc, buffer));
      FinishObserved(acc, buffer);
    } else {
      var x, y := buffer + parts[0], Concat(parts[1..]);
      assert buffer + Concat(parts) == x + y;
      hide ReadLoop;
      hide FinishRun;
      var (mid, rest) := DrainLines(cfg, acc, x);
      if |parts| > 1 && DoneOnlyLast(buffer, parts) { DoneOnlyLastStep(buffer, parts); }
      SplitAtFirstChunk(cfg, acc, x, y);
      DrainExtendsDeltas(cfg, acc, x);
      ReadLoopChunk(cfg, acc, buffer, parts);
      NewDeltasChain(acc, acc, mid);
      var after := Observed(AfterLines(cfg, mid, rest, Chunks(parts[1..])));
      Associates(Deltas(acc.deltas), Deltas(NewDeltas(acc, mid)), after.events);
      hide NewDeltas;
      hide Deltas;
      if !mid.failed && !mid.done {
        ResidueHasNoLf(x);
        if |parts| == 1 { assert x + y == x; }
        ReadLoopIsOnePass(cfg, mid, rest, parts[1..]);
      } else {
        FinishObserved(mid, rest);
      }
    }
  }

  lemma DrainNothing(cfg: Config, acc: Fold, buffer: Bytes)
    requires FirstLf(buffer) == |buffer|
    ensures DrainLines(cfg, acc, buffer) == (acc, buffer)
  {
  }

  lemma FinishObserved(acc: Fold, rest: Bytes)
    ensures !acc.failed ==>
              Conclude(acc, rest)
              == Answer(Deltas(acc.deltas) + Observed(FinishRun(acc, rest)).events, FinishRun(acc, rest).result)
    ensures Observed(Run([], Err(RuntimeProtocol))) == Answer([], Err(RuntimeProtocol))
  {
    if acc.finish.Some? && acc.usage.Some? {
      var u, f := Usage(acc.usage.value), Finished(acc.finish.value);
      assert Sent([Send(u), Send(f)]) == [u] + Sent([Send(f)]);
    }
  }

  lemma {:induction false} ResidueHasNoLf(x: Bytes)
    ensures FirstLf(Residue(x)) == |Residue(x)|
    decreases |x|
  {
    hide FirstLf;
    var p := FirstLf(x);
    if p < |x| { ResidueHasNoLf(x[p + 1..]); }
  }

  /**
   With nothing interrupting it, the decoder's answer is the one-pass reading of the byte
   stream, for every chunking that respects the buffer bound.
   */
  lemma ChunkedIsOnePass(cfg: Config, parts: seq<Bytes>)
    requires Bounded([], parts)
    requires QuietTail(Concat(parts)) || DoneOnlyLast([], parts)
    ensures Observed(DecodeRun(cfg, Chunks(parts))) == OnePass(cfg, Concat(parts))
  {
    assert [] + Concat(parts) == Concat(parts);
    ReadLoopIsOnePass(cfg, EMPTY_FOLD, [], parts);
    assert Deltas([]) == [];
  }

  /** Two admissible chunkings of the same bytes give the same deltas and the same result. */
  lemma ChunkInvariance(cfg: Config, a: seq<Bytes>, b: seq<Bytes>)
    requires Concat(a) == Concat(b)
    requires Bounded([], a) && Bounded([], b)
    requires QuietTail(Concat(a))
    ensures Observed(DecodeRun(cfg, Chunks(a))) == Observed(DecodeRun(cfg, Chunks(b)))
  {
    ChunkedIsOnePass(cfg, a);
    ChunkedIsOnePass(cfg, b);
  }

  // ---- The condition on the tail is exact ----

  lemma {:induction false} FirstOther(bytes: Bytes) returns (k: nat)
    requires !OnlyLf(bytes)
    ensures k < |bytes| && bytes[k] != LF && OnlyLf(bytes[..k])
  {
    if bytes[0] != LF {
      k := 0;
    } else {
      assert !OnlyLf(bytes[1..]) by {
        var i :| 0 <= i < |bytes| && bytes[i] != LF;
        assert bytes[1..][i - 1] != LF;
      }
      var j := FirstOther(bytes[1..]);
      k := j + 1;
      assert bytes[..k] == [bytes[0]] + bytes[1..][..j];
    }
  }

  /** LF bytes after `[DONE]` change nothing; the first other byte spoils the answer. */
  lemma TailEffect(cfg: Config, head: Bytes, lfs: Bytes)
    requires OnePass(cfg, head).result.Ok? && OnlyLf(lfs)
    ensures OnePass(cfg, head + lfs) == OnePass(cfg, head)
    ensures forall b: Byte :: b != LF ==> OnePass(cfg, head + (lfs + [b])).result.Err?
  {
    hide ConsumeLine;
    var (end, rest) := DrainLines(cfg, EMPTY_FOLD, head);
    DrainConcat(cfg, EMPTY_FOLD, head, lfs);
    assert rest + lfs == lfs;
    DrainOnlyLf(cfg, end, lfs);
    forall b: Byte | b != LF
      ensures OnePass(cfg, head + (lfs + [b])).result.Err?
    {
      assert head + (lfs + [b]) == (head + lfs) + [b];
      DrainConcat(cfg, EMPTY_FOLD, head + lfs, [b]);
      assert [] + [b] == [b] && FirstLf([b]) == 1;
      DrainNothing(cfg, end, [b]);
    }
  }

  function WithTail(before: seq<Bytes>, last: Bytes, tail: Bytes): seq<Bytes> {
    before + [last + tail]
  }

  lemma WithTailFlat(before: seq<Bytes>, last: Bytes, tail: Bytes)
    ensures Concat(WithTail(before, last, tail)) == Concat(before + [last]) + tail
    ensures WithTail(before, last, []) == before + [last]
  {
    ConcatAppend(before, [last + tail]);
    ConcatAppend(before, [last]);
    assert Concat([last + tail]) == last + tail && Concat([last]) == last;
    Associates(Concat(before), last, tail);
    assert last + [] == last;
  }

  lemma {:induction false} BoundedPrefix(buffer: Bytes, before: seq<Bytes>, last: Bytes, tail: Bytes, k: nat)
    requires k <= |tail| && Bounded(buffer, WithTail(before, last, tail))
    ensures Bounded(buffer, WithTail(before, last, tail[..k]))
    decreases |before|
  {
    var big, small := WithTail(before, last, tail), WithTail(before, last, tail[..k]);
    if before != [] {
      assert big[1..] == WithTail(before[1..], last, tail) && small[1..] == WithTail(before[1..], last, tail[..k]);
      BoundedPrefix(Residue(buffer + before[0]), before[1..], last, tail, k);
    }
  }

  /** Chunks after the one that carries `[DONE]` are never read. */
  lemma {:induction false} UnreadAfterDone(
    cfg: Config, acc: Fold, buffer: Bytes, before: seq<Bytes>, last: Bytes, later: seq<Bytes>)
    requires !acc.done && !acc.failed
    requires AfterDone(buffer + Concat(before + [last])).Some?
    ensures Observed(ReadLoop(cfg, acc, buffer, Chunks(before + [last] + later)))
            == Observed(ReadLoop(cfg, acc, buffer, Chunks(before + [last])))
    decreases |before|
  {
    hide DrainLines;
    hide AfterDone;
    hide Residue;
    hide Sent;
    hide NewDeltas;
    hide Deltas;
    hide FinishRun;
    var short, long := before + [last], before + [last] + later;
    var first, rest := short[0], short[1..];
    assert long[0] == first && long[1..] == rest + later;
    if |buffer| + |first| <= MAX_SSE_LINE_BYTES {
      var x := buffer + first;
      if before == [] { assert x + Concat(rest) == x; }
      ReadLoopChunk(cfg, acc, buffer, short);
      ReadLoopChunk(cfg, acc, buffer, long);
      hide ReadLoop;
      DoneMeansAfterDone(cfg, acc, x);
      AfterDoneConcat(x, Concat(rest));
      assert buffer + Concat(short) == x + Concat(rest);
      var (mid, left) := DrainLines(cfg, acc, x);
      DrainLeavesResidue(cfg, acc, x);
      if !mid.failed && !mid.done && before != [] {
        assert rest == before[1..] + [last];
        UnreadAfterDone(cfg, mid, left, before[1..], last, later);
      }
    }
  }

  /** One byte string: the chunk with `[DONE]` takes `k` bytes of the tail, the rest comes as a chunk of its own. */
  function SplitTail(before: seq<Bytes>, last: Bytes, tail: Bytes, k: nat): seq<Bytes>
    requires k <= |tail|
  {
    before + [last + tail[..k], tail[k..]]
  }

  lemma SplitTailFlat(before: seq<Bytes>, last: Bytes, tail: Bytes, k: nat)
    requires k <= |tail|
    ensures Concat(SplitTail(before, last, tail, k)) == Concat(before + [last]) + tail
    ensures SplitTail(before, last, tail, k) == WithTail(before, last, tail[..k]) + [tail[k..]]
  {
    var parts, rest := WithTail(before, last, tail[..k]), tail[k..];
    assert SplitTail(before, last, tail, k) == parts + [rest];
    ConcatAppend(parts, [rest]);
    assert Concat([rest]) == rest + Concat([]);
    WithTailFlat(before, last, tail[..k]);
    Associates(Concat(before + [last]), tail[..k], rest);
    assert tail[..k] + rest == tail;
  }

  /** Wherever the tail is cut, the decoder answers as if the stream ended with the chunk that carries `[DONE]`. */
  lemma SplitTailAnswer(cfg: Config, before: seq<Bytes>, last: Bytes, tail: Bytes, k: nat)
    requires k <= |tail| && Bounded([], WithTail(before, last, tail)) && DoneOnlyLast([], before + [last])
    requires Observed(DecodeRun(cfg, Chunks(before + [last]))).result.Ok?
    ensures Observed(DecodeRun(cfg, Chunks(SplitTail(before, last, tail, k))))
            == OnePass(cfg, Concat(before + [last]) + tail[..k])
    ensures OnePass(cfg, Concat(before + [last])).result.Ok?
  {
    hide Bounded;
    hide Observed;
    hide ReadLoop;
    hide AfterDone;
    hide DrainLines;
    var head, cut := Concat(before + [last]), tail[..k];
    var parts := WithTail(before, last, cut);
    assert parts[..|parts| - 1] == before == (before + [last])[..|before|];
    BoundedPrefix([], before, last, tail, k);
    ChunkedIsOnePass(cfg, parts);
    WithTailFlat(before, last, cut);
    BoundedPrefix([], before, last, tail, 0);
    WithTailFlat(before, last, []);
    assert tail[..0] == [];
    ChunkedIsOnePass(cfg, before + [last]);
    DoneMeansAfterDone(cfg, EMPTY_FOLD, head);
    AfterDoneConcat(head, cut);
    assert [] + Concat(parts) == Concat(parts);
    UnreadAfterDone(cfg, EMPTY_FOLD, [], before, last + cut, [tail[k..]]);
    SplitTailFlat(before, last, tail, k);
  }

  lemma QuietCut(cfg: Config, before: seq<Bytes>, last: Bytes, tail: Bytes, k: nat)
    requires Bounded([], WithTail(before, last, tail)) && DoneOnlyLast([], before + [last])
    requires Observed(DecodeRun(cfg, Chunks(before + [last]))).result.Ok?
    requires OnlyLf(tail) && k <= |tail|
    ensures Observed(DecodeRun(cfg, Chunks(SplitTail(before, last, tail, k))))
            == Observed(DecodeRun(cfg, Chunks(SplitTail(before, last, tail, 0))))
  {
    hide DecodeRun;
    hide Bounded;
    hide Observed;
    hide OnePass;
    SplitTailAnswer(cfg, before, last, tail, k);
    SplitTailAnswer(cfg, before, last, tail, 0);
    TailEffect(cfg, Concat(before + [last]), tail[..k]);
    TailEffect(cfg, Concat(before + [last]), tail[..0]);
  }

  /** Cutting right behind the first byte that is not LF leaves it as a residue. */
  lemma SpoilingCut(cfg: Config, before: seq<Bytes>, last: Bytes, tail: Bytes) returns (k: nat)
    requires Bounded([], WithTail(before, last, tail)) && DoneOnlyLast([], before + [last])
    requires Observed(DecodeRun(cfg, Chunks(before + [last]))).result.Ok?
    requires !OnlyLf(tail)
    ensures k <= |tail|
    ensures Observed(DecodeRun(cfg, Chunks(SplitTail(before, last, tail, k)))).result.Err?
    ensures Observed(DecodeRun(cfg, Chunks(SplitTail(before, last, tail, 0)))).result.Ok?
  {
    hide DecodeRun;
    hide Bounded;
    hide Observed;
    hide OnePass;
    var other := FirstOther(tail);
    k := other + 1;
    SplitTailAnswer(cfg, before, last, tail, k);
    SplitTailAnswer(cfg, before, last, tail, 0);
    TailEffect(cfg, Concat(before + [last]), tail[..0]);
    TailEffect(cfg, Concat(before + [last]), tail[..other]);
    assert tail[..k] == tail[..other] + [tail[other]];
  }

  /**
   Two chunkings of one byte string: a successful stream answers alike wherever the bytes after
   `[DONE]` are cut off its chunk if and only if those bytes are all LF.
   */
  lemma TailConditionIsExact(cfg: Config, before: seq<Bytes>, last: Bytes, tail: Bytes)
    requires Bounded([], WithTail(before, last, tail)) && DoneOnlyLast([], before + [last])
    requires Observed(DecodeRun(cfg, Chunks(before + [last]))).result.Ok?
    ensures forall k :: 0 <= k <= |tail| ==> Concat(SplitTail(before, last, tail, k)) == Concat(before + [last]) + tail
    ensures (forall k :: 0 <= k <= |tail| ==>
               Observed(DecodeRun(cfg, Chunks(SplitTail(before, last, tail, k))))
               == Observed(DecodeRun(cfg, Chunks(SplitTail(before, last, tail, 0)))))
            <==> OnlyLf(tail)
  {
    hide DecodeRun;
    hide Bounded;
    hide Observed;
    hide SplitTail;
    forall k | 0 <= k <= |tail|
      ensures Concat(SplitTail(before, last, tail, k)) == Concat(before + [last]) + tail
      ensures OnlyLf(tail) ==> Observed(DecodeRun(cfg, Chunks(SplitTail(before, last, tail, k))))
                               == Observed(DecodeRun(cfg, Chunks(SplitTail(before, last, tail, 0))))
    {
      SplitTailFlat(before, last, tail, k);
      if OnlyLf(tail) { QuietCut(cfg, before, last, tail, k); }
    }
    if !OnlyLf(tail) {
      var k := SpoilingCut(cfg, before, last, tail);
    }
  }

  /** A blank line in CRLF form after `[DONE]` is harmless in one piece and an error when cut between CR and LF. */
  lemma CrlfCutMatters(cfg: Config, before: seq<Bytes>, last: Bytes)
    requires Bounded([], WithTail(before, last, [CR, LF])) && DoneOnlyLast([], before + [last])
    requires Observed(DecodeRun(cfg, Chunks(before + [last]))).result.Ok?
    ensures var whole, cut := SplitTail(before, last, [CR, LF], 2), SplitTail(before, last, [CR, LF], 1);
            && Concat(whole) == Concat(cut)
            && Observed(DecodeRun(cfg, Chunks(whole))).result.Ok?
            && Observed(DecodeRun(cfg, Chunks(cut))).result.Err?
  {
    hide Bounded;
    hide DecodeRun;
    hide Observed;
    var head, crlf := Concat(before + [last]), [CR, LF];
    SplitTailFlat(before, last, crlf, 1);
    SplitTailFlat(before, last, crlf, 2);
    SplitTailAnswer(cfg, before, last, crlf, 1);
    SplitTailAnswer(cfg, before, last, crlf, 2);
    assert crlf[..2] == crlf && crlf[..1] == [] + [CR];
    TailEffect(cfg, head, []);
    var (end, rest) := DrainLines(cfg, EMPTY_FOLD, head);
    DrainConcat(cfg, EMPTY_FOLD, head, crlf);
    assert rest + crlf == crlf && FirstLf(crlf) == 1 && crlf[..1] == [CR] && crlf[2..] == [];
    assert ConsumeLine(cfg, end, [CR]) == end;
    DrainStep(cfg, end, crlf);
  }
}
