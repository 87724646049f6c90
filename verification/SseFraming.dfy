/**
 Server-sent events as the public server prints them and the decoder reads them back: the
 one-data-line-per-event subset of section 9.2.6 of the WHATWG HTML Living Standard.
 */
module SseFraming {
  import opened Domain
  import opened SseDecoder

  /** One event with one data line, as the response body carries it. */
  function PrintEvent(payload: Bytes): Bytes {
    DATA_PREFIX + [SPACE] + payload + [LF, LF]
  }

  function PrintStream(payloads: seq<Bytes>): Bytes {
    if payloads == [] then PrintEvent(DONE) else PrintEvent(payloads[0]) + PrintStream(payloads[1..])
  }

  /** The `data:` payloads in front of the first `[DONE]` line. */
  function Payloads(bytes: Bytes): seq<Bytes>
    decreases |bytes|
  {
    var p := FirstLf(bytes);
    if p == |bytes| then []
    else match LineData(bytes[..p])
      case None => Payloads(bytes[p + 1..])
      case Some(data) => if data == DONE then [] else [data] + Payloads(bytes[p + 1..])
  }

  function FoldPayloads(cfg: Config, acc: Fold, payloads: seq<Bytes>): Fold
    decreases |payloads|
  {
    if acc.failed || payloads == [] then acc
    else FoldPayloads(cfg, ConsumePayload(cfg, acc, payloads[0]), payloads[1..])
  }

  /** The decoder's fold sees nothing of a quiet byte stream but its payload list and whether `[DONE]` came. */
  lemma {:induction false} DrainSeesPayloads(cfg: Config, acc: Fold, bytes: Bytes)
    requires QuietTail(bytes) && !acc.done
    ensures var (end, rest) := DrainLines(cfg, acc, bytes);
            var fold := FoldPayloads(cfg, acc, Payloads(bytes));
            end == if fold.failed then fold else fold.(done := AfterDone(bytes).Some?)
    decreases |bytes|
  {
    hide FirstLf;
    var p := FirstLf(bytes);
    if !acc.failed && p < |bytes| {
      ConsumeLineEffect(cfg, acc, bytes[..p]);
      var next := ConsumeLine(cfg, acc, bytes[..p]);
      if next.done {
        DrainOnlyLf(cfg, next, bytes[p + 1..]);
      } else {
        DrainSeesPayloads(cfg, next, bytes[p + 1..]);
        if LineData(bytes[..p]).Some? {
          var ps := Payloads(bytes);
          assert ps[0] == LineData(bytes[..p]).value && ps[1..] == Payloads(bytes[p + 1..]);
        }
        hide ConsumePayload;
      }
    }
  }

  // ---- Printing and parsing are inverse ----

  predicate Printable(payload: Bytes) {
    && FirstLf(payload) == |payload|
    && (payload != [] ==> payload[|payload| - 1] != CR)
    && payload != DONE
  }

  function Line(payload: Bytes): Bytes {
    DATA_PREFIX + [SPACE] + payload
  }

  lemma FirstLfBefore(head: Bytes, rest: Bytes)
    requires forall i :: 0 <= i < |head| ==> head[i] != LF
    ensures FirstLf(head + [LF] + rest) == |head|
  {
    var p := FirstLf(head + [LF] + rest);
    assert (head + [LF] + rest)[|head|] == LF;
    assert forall i :: 0 <= i < |head| ==> (head + [LF] + rest)[i] == head[i];
  }

  lemma LineDataOfLine(payload: Bytes)
    ensures (payload == [] || payload[|payload| - 1] != CR) ==> LineData(Line(payload)) == Some(payload)
    ensures payload != [] && payload[|payload| - 1] == CR ==> LineData(Line(payload)) == Some(payload[..|payload| - 1])
  {
    var line := Line(payload);
    if payload == [] {
      assert line[|DATA_PREFIX|..][1..] == payload;
    } else if payload[|payload| - 1] == CR {
      var cut := line[..|line| - 1];
      assert cut == Line(payload[..|payload| - 1]);
      assert cut[|DATA_PREFIX|..][1..] == payload[..|payload| - 1];
    } else {
      assert line[|DATA_PREFIX|..][1..] == payload;
    }
  }

  /** One CR at the end of a line and one space behind the field name are not part of the payload. */
  lemma LineDataExactly(line: Bytes, data: Bytes)
    requires line == [] || line[|line| - 1] != CR
    ensures LineData(line + [CR]) == LineData(line)
    ensures LineData(line) == Some(data)
            <==> || line == DATA_PREFIX + [SPACE] + data
                 || (line == DATA_PREFIX + data && (data == [] || data[0] != SPACE))
  {
    assert (line + [CR])[..|line|] == line;
    if DATA_PREFIX <= line {
      var value := line[|DATA_PREFIX|..];
      assert line == DATA_PREFIX + value;
      if value != [] && value[0] == SPACE { assert value == [SPACE] + value[1..]; }
      if line == DATA_PREFIX + [SPACE] + data { assert value == [SPACE] + data; }
      if line == DATA_PREFIX + data { assert value == data; }
    }
  }

  /** The first line of a stream that starts with a printed payload. */
  lemma FirstLineOfPrinted(payload: Bytes, rest: Bytes) returns (after: Bytes)
    ensures var bytes := PrintEvent(payload) + rest;
            var p := FirstLf(bytes);
            && p < |bytes| && after == bytes[p + 1..]
            && bytes[..p] == Line(payload[..FirstLf(payload)])
            && (FirstLf(payload) == |payload| ==> after == [LF] + rest)
  {
    var bytes, k := PrintEvent(payload) + rest, FirstLf(payload);
    var head := Line(payload[..k]);
    var tail := if k == |payload| then [LF] + rest else payload[k + 1..] + [LF, LF] + rest;
    assert bytes == head + [LF] + tail;
    FirstLfBefore(head, tail);
    after := bytes[FirstLf(bytes) + 1..];
  }

  lemma BlankLine(rest: Bytes)
    ensures Payloads([LF] + rest) == Payloads(rest)
    ensures AfterDone([LF] + rest) == AfterDone(rest)
  {
    var bytes := [LF] + rest;
    assert FirstLf(bytes) == 0 && bytes[..0] == [] && bytes[1..] == rest;
  }

  lemma PrintedHead(payload: Bytes, rest: Bytes)
    ensures Printable(payload) ==>
              && Payloads(PrintEvent(payload) + rest) == [payload] + Payloads(rest)
              && AfterDone(PrintEvent(payload) + rest) == AfterDone(rest)
    ensures !Printable(payload) ==>
              var ps := Payloads(PrintEvent(payload) + rest);
              ps == [] || ps[0] != payload
  {
    var after := FirstLineOfPrinted(payload, rest);
    var k := FirstLf(payload);
    LineDataOfLine(payload[..k]);
    if k == |payload| {
      assert payload[..k] == payload;
      BlankLine(rest);
    }
  }

  lemma PrintedDone()
    ensures Payloads(PrintEvent(DONE)) == [] && AfterDone(PrintEvent(DONE)) == Some([LF])
  {
    var after := FirstLineOfPrinted(DONE, []);
    assert PrintEvent(DONE) + [] == PrintEvent(DONE) && [LF] + [] == [LF];
    assert FirstLf(DONE) == |DONE| by {
      var p := FirstLf(DONE);
      assert forall i :: 0 <= i < |DONE| ==> DONE[i] != LF;
    }
    LineDataOfLine(DONE);
    assert DONE[..|DONE|] == DONE;
  }

  /** Parsing what was printed gives the payload list back if and only if every payload is printable. */
  lemma {:induction false} PrintParse(payloads: seq<Bytes>)
    ensures Payloads(PrintStream(payloads)) == payloads <==> forall p :: p in payloads ==> Printable(p)
    ensures (forall p :: p in payloads ==> Printable(p)) ==> AfterDone(PrintStream(payloads)) == Some([LF])
  {
    if payloads == [] {
      PrintedDone();
    } else {
      var head, rest := payloads[0], payloads[1..];
      PrintParse(rest);
      PrintedHead(head, PrintStream(rest));
      assert payloads == [head] + rest;
      if Printable(head) {
        assert (forall p :: p in payloads ==> Printable(p)) <==> forall p :: p in rest ==> Printable(p);
      }
    }
  }

  /** Any admissible chunking makes the decoder consume exactly a quiet byte stream's payloads, up to `[DONE]`. */
  lemma PayloadsDecide(cfg: Config, bytes: Bytes, parts: seq<Bytes>)
    requires QuietTail(bytes) && AfterDone(bytes).Some?
    requires Concat(parts) == bytes && Bounded([], parts)
    ensures Observed(DecodeRun(cfg, Chunks(parts)))
            == Conclude(FoldPayloads(cfg, EMPTY_FOLD, Payloads(bytes)).(done := true), [])
  {
    ChunkedIsOnePass(cfg, parts);
    DrainSeesPayloads(cfg, EMPTY_FOLD, bytes);
    DoneMeansAfterDone(cfg, EMPTY_FOLD, bytes);
    var (end, rest) := DrainLines(cfg, EMPTY_FOLD, bytes);
    assert !end.failed ==> end.done && rest == [];
  }

  /**
   A printed stream, cut into chunks in any way the buffer admits, makes the decoder consume
   exactly the printed payloads in order and stop at `[DONE]`.
   */
  lemma RoundTrip(cfg: Config, payloads: seq<Bytes>, parts: seq<Bytes>)
    requires forall p :: p in payloads ==> Printable(p)
    requires Concat(parts) == PrintStream(payloads) && Bounded([], parts)
    ensures Observed(DecodeRun(cfg, Chunks(parts)))
            == Conclude(FoldPayloads(cfg, EMPTY_FOLD, payloads).(done := true), [])
  {
    PrintParse(payloads);
    PayloadsDecide(cfg, PrintStream(payloads), parts);
  }

  // ---- Comments ----

  /** The comment the server sends while it has nothing else to send: `: keepalive` and a blank line. */
  const KEEP_ALIVE: Bytes := [58, 32, 107, 101, 101, 112, 97, 108, 105, 118, 101, 10, 10]

  function KeepAlives(count: nat): Bytes {
    if count == 0 then [] else KEEP_ALIVE + KeepAlives(count - 1)
  }

  lemma {:induction false} KeepAlivesSkipped(count: nat, rest: Bytes)
    ensures Payloads(KeepAlives(count) + rest) == Payloads(rest)
    ensures AfterDone(KeepAlives(count) + rest) == AfterDone(rest)
  {
    hide Payloads;
    hide AfterDone;
    if count == 0 {
      assert [] + rest == rest;
    } else {
      var more := KeepAlives(count - 1) + rest;
      KeepAlivesSkipped(count - 1, rest);
      Associates(KEEP_ALIVE, KeepAlives(count - 1), rest);
      KeepAliveSkipped(more);
    }
  }

  lemma KeepAliveSkipped(rest: Bytes)
    ensures Payloads(KEEP_ALIVE + rest) == Payloads(rest)
    ensures AfterDone(KEEP_ALIVE + rest) == AfterDone(rest)
  {
    var comment, bytes := KEEP_ALIVE[..11], KEEP_ALIVE + rest;
    assert bytes == comment + [LF] + ([LF] + rest);
    FirstLfBefore(comment, [LF] + rest);
    assert bytes[..11] == comment && bytes[12..] == [LF] + rest;
    hide FirstLf;
    assert comment[0] != DATA_PREFIX[0] && LineData(comment).None?;
    BlankLine(rest);
  }

  // ---- A byte string whose answer depends on the chunking ----

  lemma {:induction false} ResidueIsNotLonger(x: Bytes)
    ensures |Residue(x)| <= |x|
    decreases |x|
  {
    hide FirstLf;
    ResidueStep(x);
    hide Residue;
    var p := FirstLf(x);
    if p < |x| { ResidueIsNotLonger(x[p + 1..]); }
  }

  lemma BoundedPair(x: Bytes, y: Bytes)
    requires |x| + |y| <= MAX_SSE_LINE_BYTES
    ensures Bounded([], [x]) && Bounded([], [x, y])
  {
    ResidueIsNotLonger(x);
    assert [] + x == x;
    assert [x, y][1..] == [y] && [y][1..] == [] && [x][1..] == [];
  }

  /** One payload, `[DONE]`, and a blank line in CRLF form: two bounded chunkings, two answers. */
  lemma CrlfWitness() returns (cfg: Config, whole: seq<Bytes>, cut: seq<Bytes>)
    ensures Concat(whole) == Concat(cut) && Bounded([], whole) && Bounded([], cut)
    ensures Observed(DecodeRun(cfg, Chunks(whole))).result.Ok?
    ensures Observed(DecodeRun(cfg, Chunks(cut))).result.Err?
  {
    var payload: Bytes := [123];
    var json := Json(UsageMembers(Some(1), Some(1), Some(2)), Text("stop"), NoText, NoText);
    cfg := Config(_ => Some(json), Completion, 1);
    var last, crlf := PrintStream([payload]), [CR, LF];
    whole, cut := SplitTail([], last, crlf, 2), SplitTail([], last, crlf, 1);
    assert FirstLf(payload) == 1;
    var folded := ConsumePayload(cfg, EMPTY_FOLD, payload);
    assert folded == Fold(Some(Stop), Some(TokenUsage(1, 1, 2)), false, [], false);
    assert FoldPayloads(cfg, EMPTY_FOLD, [payload]) == FoldPayloads(cfg, folded, []) == folded;
    hide FirstLf;
    var one := [payload];
    assert PrintStream(one[1..]) == PrintEvent(DONE) && last == PrintEvent(payload) + PrintStream(one[1..]);
    BoundedPair(last, []);
    assert Concat([last]) == last + [] == last;
    RoundTrip(cfg, [payload], [last]);
    BoundedPair(last + crlf, []);
    BoundedPair(last + [CR], [LF]);
    assert [] + [last] == [last] && WithTail([], last, crlf) == [last + crlf];
    assert crlf[..2] == crlf && crlf[2..] == [] && crlf[..1] == [CR] && crlf[1..] == [LF];
    assert whole == [last + crlf, []] && cut == [last + [CR], [LF]];
    var alone := [last];
    assert Concat(alone[..0]) == [] && AfterDone([]).None?;
    CrlfCutMatters(cfg, [], last);
  }
}
