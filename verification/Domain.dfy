/** Values shared by the engine, the installer and the public transports. */
module Domain {

  datatype Option<+T> = None | Some(value: T)

  datatype Result<+T, +E> = Ok(value: T) | Err(error: E)

  type Byte = n: nat | n < 256

  type Bytes = seq<Byte>

  const U32_MAX: nat := 0xFFFF_FFFF

  type U32 = n: nat | n <= 0xFFFF_FFFF

  datatype FinishReason = Stop | Length | Cancelled

  datatype TokenUsage = TokenUsage(promptTokens: U32, completionTokens: U32, totalTokens: U32)

  datatype GenerationEvent =
    | Delta(text: string)
    | Usage(usage: TokenUsage)
    | Finished(reason: FinishReason)

  datatype EngineError =
    | Configuration
    | InvalidRequest(message: string)
    | Overloaded
    | ArtifactsUnavailable
    | RuntimeUnavailable
    | RuntimeProtocol
    | Cancelled
    | DeadlineExceeded
    | ShuttingDown

  /** What the bounded event queue of one generation carries. */
  type QueueItem = Result<GenerationEvent, EngineError>

  /** How a caller's context can end a request. */
  datatype RequestStop = Cancelled | DeadlineExceeded

  function MapStop(stop: RequestStop): EngineError {
    match stop
    case Cancelled => EngineError.Cancelled
    case DeadlineExceeded => EngineError.DeadlineExceeded
  }

  function Concat<T>(parts: seq<seq<T>>): seq<T> {
    if parts == [] then [] else parts[0] + Concat(parts[1..])
  }

  lemma Associates<T>(a: seq<T>, b: seq<T>, c: seq<T>)
    ensures a + (b + c) == (a + b) + c
  {
  }

  lemma CutConcat<T>(a: seq<T>, b: seq<T>, k: nat)
    ensures k <= |a| ==> (a + b)[..k] == a[..k] && (a + b)[k..] == a[k..] + b
    ensures k <= |b| ==> (a + b)[..|a| + k] == a + b[..k] && (a + b)[|a| + k..] == b[k..]
  {
  }

  lemma {:induction false} ConcatAppend<T>(a: seq<seq<T>>, b: seq<seq<T>>)
    ensures Concat(a + b) == Concat(a) + Concat(b)
  {
    if a == [] {
      assert a + b == b;
    } else {
      ConcatAppend(a[1..], b);
      CutConcat(a, b, 1);
      Associates(a[0], Concat(a[1..]), Concat(b));
    }
  }
}
