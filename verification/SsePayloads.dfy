/**
 What a list of payloads says, read off their members: the texts in order, the last usage and
 the last reason, and whether the list is acceptable at all. The decoder answers exactly that.
 */
module SsePayloads {
  import opened Domain
  import opened SseDecoder
  import opened SseFraming

  // ---- One payload ----

  function TextMember(mode: Mode, json: Json): TextField {
    match mode
    case Completion => json.text
    case Chat => json.content
  }

  /** An absent usage or a null one says nothing. */
  function UsageSaid(cfg: Config, payload: Bytes): Option<TokenUsage> {
    match cfg.decode(payload)
    case Some(Json(UsageMembers(Some(p), Some(c), Some(t)), _, _, _)) =>
      if p <= U32_MAX && c <= U32_MAX && t <= U32_MAX then Some(TokenUsage(p, c, t)) else None
    case _ => None
  }

  /** An absent reason or a null one says nothing. */
  function ReasonSaid(cfg: Config, payload: Bytes): Option<FinishReason> {
    match cfg.decode(payload)
    case Some(Json(_, Text(reason), _, _)) =>
      if reason == "stop" then Some(Stop) else if reason == "length" then Some(Length) else None
    case _ => None
  }

  /** An absent text or an empty one says nothing. */
  function TextSaid(cfg: Config, payload: Bytes): seq<string> {
    match cfg.decode(payload)
    case None => []
    case Some(json) =>
      match TextMember(cfg.mode, json)
      case Text(text) => if text == "" then [] else [text]
      case _ => []
  }

  /**
   JSON; a usage that is absent, null or a sum of 32-bit counts within the requested length; a
   reason that is absent, null, `stop` or `length`; a text that is absent or a string.
   */
  predicate Acceptable(cfg: Config, payload: Bytes) {
    var json := cfg.decode(payload);
    && json.Some?
    && (json.value.usage in {NoUsage, NullUsage}
        || (UsageSaid(cfg, payload).Some? && SumsUp(UsageSaid(cfg, payload).value)
            && UsageSaid(cfg, payload).value.completionTokens <= cfg.maxTokens))
    && json.value.finish in {NoText, NullText, Text("stop"), Text("length")}
    && (TextMember(cfg.mode, json.value).NoText? || TextMember(cfg.mode, json.value).Text?)
  }

  /** The total is the sum, or the largest 32-bit value when the sum is larger. */
  predicate SumsUp(usage: TokenUsage) {
    || usage.promptTokens + usage.completionTokens == usage.totalTokens
    || (usage.totalTokens == U32_MAX && usage.promptTokens + usage.completionTokens > U32_MAX)
  }

  /** The three parsers fail on exactly the payloads that are not acceptable, and read what an acceptable one says. */
  lemma ParsersReadWhatIsSaid(cfg: Config, payload: Bytes)
    requires cfg.decode(payload).Some?
    ensures var json := cfg.decode(payload).value;
            var usage, reason, text := ParseUsage(json), ParseFinishReason(json), DeltaOf(cfg.mode, json);
            && (Acceptable(cfg, payload)
                <==> && usage.Ok? && reason.Ok? && text.Ok?
                     && (usage.value.Some? ==> usage.value.value.completionTokens <= cfg.maxTokens))
            && (usage.Ok? ==> usage.value == UsageSaid(cfg, payload))
            && (reason.Ok? ==> reason.value == ReasonSaid(cfg, payload))
            && (text.Ok? ==> TextSaid(cfg, payload)
                             == if text.value.Some? && text.value.value != "" then [text.value.value] else [])
  {
  }

  // ---- A list of payloads ----

  function Texts(cfg: Config, payloads: seq<Bytes>): seq<string> {
    if payloads == [] then [] else TextSaid(cfg, payloads[0]) + Texts(cfg, payloads[1..])
  }

  function LastUsage(cfg: Config, payloads: seq<Bytes>): Option<TokenUsage> {
    if payloads == [] then None
    else
      var last := UsageSaid(cfg, payloads[|payloads| - 1]);
      if last.Some? then last else LastUsage(cfg, payloads[..|payloads| - 1])
  }

  function LastReason(cfg: Config, payloads: seq<Bytes>): Option<FinishReason> {
    if payloads == [] then None
    else
      var last := ReasonSaid(cfg, payloads[|payloads| - 1]);
      if last.Some? then last else LastReason(cfg, payloads[..|payloads| - 1])
  }

  /** Every payload is acceptable, and there are no more texts than tokens were asked for. */
  predicate AllAcceptable(cfg: Config, payloads: seq<Bytes>) {
    && (forall p :: p in payloads ==> Acceptable(cfg, p))
    && |Texts(cfg, payloads)| <= cfg.maxTokens
  }

  /** How many payloads are taken before the first that makes the list unacceptable. */
  function AcceptedCount(cfg: Config, payloads: seq<Bytes>): (n: nat)
    ensures n <= |payloads|
  {
    if AllAcceptable(cfg, payloads) || payloads == [] then |payloads|
    else AcceptedCount(cfg, payloads[..|payloads| - 1])
  }

  lemma {:induction false} AcceptedCountExact(cfg: Config, payloads: seq<Bytes>)
    ensures var n := AcceptedCount(cfg, payloads);
            && AllAcceptable(cfg, payloads[..n])
            && (n < |payloads| ==> !AllAcceptable(cfg, payloads[..n + 1]))
    decreases |payloads|
  {
    assert payloads[..|payloads|] == payloads;
    if !AllAcceptable(cfg, payloads) && payloads != [] {
      var init := payloads[..|payloads| - 1];
      AcceptedCountExact(cfg, init);
      var n := AcceptedCount(cfg, init);
      assert init[..n] == payloads[..n];
      if n < |init| { assert init[..n + 1] == payloads[..n + 1]; }
    }
  }

  // ---- The decoder's fold is what the list says ----

  lemma TextsAppend(cfg: Config, payloads: seq<Bytes>, payload: Bytes)
    ensures Texts(cfg, payloads + [payload]) == Texts(cfg, payloads) + TextSaid(cfg, payload)
  {
    TextsConcat(cfg, payloads, [payload]);
    assert Texts(cfg, [payload]) == TextSaid(cfg, payload) + Texts(cfg, []);
  }

  lemma {:induction false} TextsConcat(cfg: Config, a: seq<Bytes>, b: seq<Bytes>)
    ensures Texts(cfg, a + b) == Texts(cfg, a) + Texts(cfg, b)
  {
    hide TextSaid;
    if a == [] {
      assert a + b == b;
    } else {
      TextsConcat(cfg, a[1..], b);
      CutConcat(a, b, 1);
      Associates(TextSaid(cfg, a[0]), Texts(cfg, a[1..]), Texts(cfg, b));
    }
  }

  /** The fold of a list that has been acceptable so far. */
  function Reading(cfg: Config, payloads: seq<Bytes>): Fold {
    Fold(LastReason(cfg, payloads), LastUsage(cfg, payloads), false, Texts(cfg, payloads), false)
  }

  /** One payload is refused, or says what it says and leaves the rest as it was. */
  lemma ConsumedAsSaid(cfg: Config, acc: Fold, payload: Bytes)
    ensures var next := ConsumePayload(cfg, acc, payload);
            var usage, reason, text := UsageSaid(cfg, payload), ReasonSaid(cfg, payload), TextSaid(cfg, payload);
            if Acceptable(cfg, payload) && (text == [] || |acc.deltas| < cfg.maxTokens)
            then next == acc.(usage := if usage.Some? then usage else acc.usage,
                              finish := if reason.Some? then reason else acc.finish,
                              deltas := acc.deltas + text)
            else next.failed && next.deltas == acc.deltas
  {
    if cfg.decode(payload).Some? { ParsersReadWhatIsSaid(cfg, payload); }
    assert cfg.decode(payload).None? ==> !Acceptable(cfg, payload);
    assert acc.deltas + [] == acc.deltas;
    hide Acceptable;
    hide UsageSaid;
    hide ReasonSaid;
    hide TextSaid;
    hide ParseUsage;
    hide ParseFinishReason;
    hide DeltaOf;
  }

  lemma ReadsOneMore(cfg: Config, payloads: seq<Bytes>, payload: Bytes)
    requires AllAcceptable(cfg, payloads)
    ensures var next := ConsumePayload(cfg, Reading(cfg, payloads), payload);
            if AllAcceptable(cfg, payloads + [payload]) then next == Reading(cfg, payloads + [payload])
            else next.failed && next.deltas == Texts(cfg, payloads)
  {
    var more := payloads + [payload];
    TextsAppend(cfg, payloads, payload);
    ConsumedAsSaid(cfg, Reading(cfg, payloads), payload);
    assert more[..|more| - 1] == payloads && more[|more| - 1] == payload;
    assert forall p :: p in more <==> p in payloads || p == payload;
    hide ConsumePayload;
    hide Texts;
    hide Acceptable;
    hide UsageSaid;
    hide ReasonSaid;
    hide TextSaid;
  }

  lemma {:induction false} FoldAppend(cfg: Config, acc: Fold, payloads: seq<Bytes>, payload: Bytes)
    ensures FoldPayloads(cfg, acc, payloads + [payload])
            == var mid := FoldPayloads(cfg, acc, payloads);
               if mid.failed then mid else ConsumePayload(cfg, mid, payload)
    decreases |payloads|
  {
    hide ConsumePayload;
    if payloads == [] {
      var one := [payload];
      assert payloads + [payload] == one && one[1..] == [];
    } else if !acc.failed {
      CutConcat(payloads, [payload], 1);
      FoldAppend(cfg, ConsumePayload(cfg, acc, payloads[0]), payloads[1..], payload);
    }
  }

  /**
   The decoder refuses a payload list exactly when it is not acceptable, keeping the texts in
   front of the payload that made it so; otherwise it has all texts, the last usage and the
   last reason, wherever in the list these stood.
   */
  lemma {:induction false} FoldedExactly(cfg: Config, payloads: seq<Bytes>)
    ensures var fold := FoldPayloads(cfg, EMPTY_FOLD, payloads);
            if AllAcceptable(cfg, payloads) then fold == Reading(cfg, payloads)
            else fold.failed && fold.deltas == Texts(cfg, payloads[..AcceptedCount(cfg, payloads)])
    decreases |payloads|
  {
    hide AllAcceptable;
    hide FoldPayloads;
    hide ConsumePayload;
    assert payloads[..|payloads|] == payloads;
    if payloads == [] {
      NothingRead(cfg);
    } else {
      var init, last := payloads[..|payloads| - 1], payloads[|payloads| - 1];
      assert init + [last] == payloads;
      FoldedExactly(cfg, init);
      FoldAppend(cfg, EMPTY_FOLD, init, last);
      AcceptedPrefix(cfg, init, last);
      assert init[..|init|] == init;
      if AllAcceptable(cfg, init) {
        ReadsOneMore(cfg, init, last);
      } else {
        var n := AcceptedCount(cfg, init);
        assert init[..n] == payloads[..n];
      }
    }
  }

  lemma NothingRead(cfg: Config)
    ensures FoldPayloads(cfg, EMPTY_FOLD, []) == Reading(cfg, []) && AllAcceptable(cfg, [])
  {
  }

  lemma AcceptedPrefix(cfg: Config, payloads: seq<Bytes>, payload: Bytes)
    ensures AllAcceptable(cfg, payloads + [payload]) ==> AllAcceptable(cfg, payloads)
    ensures AllAcceptable(cfg, payloads) ==> AcceptedCount(cfg, payloads) == |payloads|
    ensures AcceptedCount(cfg, payloads + [payload])
            == if AllAcceptable(cfg, payloads + [payload]) then |payloads| + 1 else AcceptedCount(cfg, payloads)
  {
    TextsAppend(cfg, payloads, payload);
    var more := payloads + [payload];
    assert more[..|more| - 1] == payloads;
    assert forall p :: p in payloads ==> p in more;
    hide Texts;
    hide Acceptable;
  }

  // ---- The answer to a whole stream ----

  /** What the consumer is told of a finished payload list. */
  function Told(cfg: Config, payloads: seq<Bytes>): Answer {
    var usage, reason := LastUsage(cfg, payloads), LastReason(cfg, payloads);
    var texts := Deltas(Texts(cfg, payloads[..AcceptedCount(cfg, payloads)]));
    if AllAcceptable(cfg, payloads) && usage.Some? && reason.Some?
    then Answer(texts + [Usage(usage.value), Finished(reason.value)], Ok(()))
    else Answer(texts, Err(RuntimeProtocol))
  }

  lemma ConcludedIsTold(cfg: Config, payloads: seq<Bytes>)
    ensures Conclude(FoldPayloads(cfg, EMPTY_FOLD, payloads).(done := true), []) == Told(cfg, payloads)
  {
    FoldedExactly(cfg, payloads);
    assert payloads[..|payloads|] == payloads;
    hide Texts;
    hide LastUsage;
    hide LastReason;
    hide AllAcceptable;
    hide FoldPayloads;
    assert AllAcceptable(cfg, payloads) ==> AcceptedCount(cfg, payloads) == |payloads|;
  }

  /** A stream that reaches `[DONE]` is answered by what its payloads say, in whatever order and chunks they come. */
  lemma DecodesWhatIsSaid(cfg: Config, bytes: Bytes, parts: seq<Bytes>)
    requires QuietTail(bytes) && AfterDone(bytes).Some?
    requires Concat(parts) == bytes && Bounded([], parts)
    ensures Observed(DecodeRun(cfg, Chunks(parts))) == Told(cfg, Payloads(bytes))
  {
    PayloadsDecide(cfg, bytes, parts);
    ConcludedIsTold(cfg, Payloads(bytes));
  }

  // ---- Streams that break off ----

  /** Nothing more comes, or the read fails, or the next chunk does not fit behind what is left over. */
  predicate BreaksOff(left: Bytes, later: seq<ChunkRead>) {
    later == [] || later[0].ReadFailure? || |left| + |later[0].bytes| > MAX_SSE_LINE_BYTES
  }

  function BreakError(later: seq<ChunkRead>): EngineError {
    if later != [] && later[0].ReadFailure? then RuntimeUnavailable else RuntimeProtocol
  }

  lemma BreaksAtOnce(cfg: Config, acc: Fold, buffer: Bytes, later: seq<ChunkRead>)
    requires !acc.done && BreaksOff(buffer, later)
    ensures Observed(ReadLoop(cfg, acc, buffer, later)) == Answer([], Err(BreakError(later)))
  {
    assert Prepend([Read], Run([], Err(RuntimeProtocol))) == Run([Read], Err(RuntimeProtocol));
    assert Sent([Read]) == [];
  }

  lemma {:induction false} BreaksLater(
    cfg: Config, acc: Fold, buffer: Bytes, parts: seq<Bytes>, later: seq<ChunkRead>)
    requires !acc.done && !acc.failed && FirstLf(buffer) == |buffer| && Bounded(buffer, parts)
    requires AfterDone(buffer + Concat(parts)).None?
    requires var (end, rest) := DrainLines(cfg, acc, buffer + Concat(parts));
             end.failed || BreaksOff(rest, later)
    ensures var end := DrainLines(cfg, acc, buffer + Concat(parts)).0;
            Observed(ReadLoop(cfg, acc, buffer, Chunks(parts) + later))
            == Answer(Deltas(NewDeltas(acc, end)), Err(if end.failed then RuntimeProtocol else BreakError(later)))
    decreases |parts|
  {
    hide DrainLines;
    hide AfterDone;
    hide FirstLf;
    hide Sent;
    hide Residue;
    hide ReadLoop;
    hide BreaksOff;
    hide BreakError;
    if parts == [] {
      assert buffer + Concat(parts) == buffer && Chunks(parts) + later == later;
      DrainNothing(cfg, acc, buffer);
      BreaksAtOnce(cfg, acc, buffer, later);
    } else {
      var x, y := buffer + parts[0], Concat(parts[1..]);
      assert buffer + Concat(parts) == x + y;
      assert (Chunks(parts) + later)[1..] == Chunks(parts[1..]) + later;
      var (mid, rest) := DrainLines(cfg, acc, x);
      AfterDoneConcat(x, y);
      SplitAtFirstChunk(cfg, acc, x, y);
      DrainExtendsDeltas(cfg, acc, x);
      ReadLoopHead(cfg, acc, buffer, Chunks(parts) + later);
      if !mid.failed {
        ResidueHasNoLf(x);
        DrainExtendsDeltas(cfg, mid, rest + y);
        BreaksLater(cfg, mid, rest, parts[1..], later);
        NewDeltasChain(acc, mid, DrainLines(cfg, mid, rest + y).0);
      } else {
        FinishObserved(mid, rest);
      }
    }
  }

  /**
   A stream that breaks off before `[DONE]` is told as far as it was acceptable, and ends as
   unavailable exactly when a read failed after nothing but acceptable payloads.
   */
  lemma BrokenOffWhatIsSaid(cfg: Config, parts: seq<Bytes>, later: seq<ChunkRead>)
    requires Bounded([], parts) && AfterDone(Concat(parts)).None?
    requires BreaksOff(Residue(Concat(parts)), later)
    ensures var payloads := Payloads(Concat(parts));
            Observed(DecodeRun(cfg, Chunks(parts) + later))
            == Answer(Deltas(Texts(cfg, payloads[..AcceptedCount(cfg, payloads)])),
                      Err(if AllAcceptable(cfg, payloads) then BreakError(later) else RuntimeProtocol))
  {
    var bytes, payloads := Concat(parts), Payloads(Concat(parts));
    assert [] + bytes == bytes && payloads[..|payloads|] == payloads;
    DrainSeesPayloads(cfg, EMPTY_FOLD, bytes);
    FoldedExactly(cfg, payloads);
    DrainLeavesResidue(cfg, EMPTY_FOLD, bytes);
    hide FoldPayloads;
    hide Texts;
    hide AllAcceptable;
    hide BreaksOff;
    hide DrainLines;
    hide Payloads;
    hide Concat;
    var (end, rest) := DrainLines(cfg, EMPTY_FOLD, bytes);
    assert AllAcceptable(cfg, payloads) ==> AcceptedCount(cfg, payloads) == |payloads|;
    BreaksLater(cfg, EMPTY_FOLD, [], parts, later);
    assert NewDeltas(EMPTY_FOLD, end) == end.deltas;
  }

  /** Only the texts, with no reason and no usage among them. */
  predicate TextsOnly(cfg: Config, payloads: seq<Bytes>) {
    forall p :: p in payloads ==> UsageSaid(cfg, p).None? && ReasonSaid(cfg, p).None?
  }

  lemma {:induction false} NothingElseSaid(cfg: Config, payloads: seq<Bytes>)
    requires TextsOnly(cfg, payloads)
    ensures LastUsage(cfg, payloads).None? && LastReason(cfg, payloads).None?
    decreases |payloads|
  {
    hide UsageSaid;
    hide ReasonSaid;
    if payloads != [] {
      NothingElseSaid(cfg, payloads[..|payloads| - 1]);
    }
  }

  /** The order of the sidecar's streams: texts, then the reason, then the usage. */
  lemma ReasonThenUsage(cfg: Config, texts: seq<Bytes>, reason: Bytes, usage: Bytes, parts: seq<Bytes>)
    requires TextsOnly(cfg, texts)
    requires ReasonSaid(cfg, reason).Some? && UsageSaid(cfg, reason).None? && TextSaid(cfg, reason) == []
    requires UsageSaid(cfg, usage).Some? && ReasonSaid(cfg, usage).None? && TextSaid(cfg, usage) == []
    requires AllAcceptable(cfg, texts + [reason, usage])
    requires forall p :: p in texts + [reason, usage] ==> Printable(p)
    requires Concat(parts) == PrintStream(texts + [reason, usage]) && Bounded([], parts)
    ensures Observed(DecodeRun(cfg, Chunks(parts)))
            == Answer(Deltas(Texts(cfg, texts))
                      + [Usage(UsageSaid(cfg, usage).value), Finished(ReasonSaid(cfg, reason).value)], Ok(()))
  {
    RoundTrip(cfg, texts + [reason, usage], parts);
    ConcludedIsTold(cfg, texts + [reason, usage]);
    SaidInOrder(cfg, texts, reason, usage);
  }

  lemma SaidInOrder(cfg: Config, texts: seq<Bytes>, reason: Bytes, usage: Bytes)
    requires TextsOnly(cfg, texts)
    requires ReasonSaid(cfg, reason).Some? && UsageSaid(cfg, reason).None? && TextSaid(cfg, reason) == []
    requires UsageSaid(cfg, usage).Some? && ReasonSaid(cfg, usage).None? && TextSaid(cfg, usage) == []
    ensures var payloads := texts + [reason, usage];
            && Texts(cfg, payloads) == Texts(cfg, texts)
            && LastUsage(cfg, payloads) == UsageSaid(cfg, usage)
            && LastReason(cfg, payloads) == ReasonSaid(cfg, reason)
            && (AllAcceptable(cfg, payloads) ==> payloads[..AcceptedCount(cfg, payloads)] == payloads)
  {
    var payloads, mid := texts + [reason, usage], texts + [reason];
    NothingElseSaid(cfg, texts);
    TextsAppend(cfg, texts, reason);
    TextsAppend(cfg, mid, usage);
    assert mid + [usage] == payloads;
    assert mid[..|mid| - 1] == texts && payloads[..|payloads| - 1] == mid && payloads[..|payloads|] == payloads;
    hide UsageSaid;
    hide ReasonSaid;
    hide TextSaid;
    hide AllAcceptable;
    assert LastReason(cfg, mid) == ReasonSaid(cfg, reason) && LastUsage(cfg, mid).None?;
  }
}
