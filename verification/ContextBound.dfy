/**
 Request validation and the conservative context bound: a request is accepted only if its
 rendered prompt, at one token a byte, and the requested output fit the model context.

 One character stands for one UTF-8 byte.
 */
module ContextBound {
  import opened Domain

  const USIZE_MAX: nat := 0xFFFF_FFFF_FFFF_FFFF
  const MODEL_CONTEXT_TOKENS: nat := 4096
  const MESSAGE_PREFIX: string := "<|im_start|>"
  const MESSAGE_SUFFIX: string := "<|im_end|>\n"
  const ASSISTANT_PREFIX: string := "<|im_start|>assistant\n"

  datatype Role = System | User | Assistant

  datatype Message = Message(role: Role, content: string)

  datatype Input = Completion(prompt: string) | Chat(messages: seq<Message>)

  datatype Float = Finite(value: real) | NotFinite

  datatype Request = Request(
    model: string, input: Input, maxTokens: U32, temperature: Float, topP: Float, seed: Option<U32>, stop: seq<string>)

  datatype Normalized = Normalized(
    input: Input, maxTokens: U32, temperature: real, topP: real, seed: Option<U32>, stop: seq<string>)

  datatype Policy = Policy(model: string, maxPromptBytes: nat, maxMessages: nat, maxOutputTokens: U32)

  function RoleName(role: Role): string {
    match role
    case System => "system"
    case User => "user"
    case Assistant => "assistant"
  }

  /** What the sidecar's ChatML template makes of one message. */
  function RenderMessage(message: Message): string {
    MESSAGE_PREFIX + RoleName(message.role) + "\n" + message.content + MESSAGE_SUFFIX
  }

  function RenderMessages(messages: seq<Message>): string {
    if messages == [] then "" else RenderMessage(messages[0]) + RenderMessages(messages[1..])
  }

  /** The text the model is given. */
  function Rendered(input: Input): string {
    match input
    case Completion(prompt) => prompt
    case Chat(messages) => RenderMessages(messages) + ASSISTANT_PREFIX
  }

  /** A conversation as the template writes it out, message by message. */
  lemma RenderedConversation(question: string)
    ensures RenderMessage(Message(System, question)) == "<|im_start|>system\n" + question + "<|im_end|>\n"
    ensures RenderMessage(Message(User, question)) == "<|im_start|>user\n" + question + "<|im_end|>\n"
    ensures RenderMessage(Message(Assistant, question)) == "<|im_start|>assistant\n" + question + "<|im_end|>\n"
    ensures Rendered(Chat([Message(User, question)]))
            == "<|im_start|>user\n" + question + "<|im_end|>\n" + "<|im_start|>assistant\n"
  {
    assert "<|im_start|>" + "system" + "\n" == "<|im_start|>system\n";
    assert "<|im_start|>" + "user" + "\n" == "<|im_start|>user\n";
    assert "<|im_start|>" + "assistant" + "\n" == "<|im_start|>assistant\n";
    var messages := [Message(User, question)];
    assert RenderMessages(messages) == RenderMessage(messages[0]) + RenderMessages(messages[1..]);
    assert RenderMessages(messages[1..]) == "";
  }

  lemma {:induction false} RenderedInOrder(first: seq<Message>, second: seq<Message>)
    ensures RenderMessages(first + second) == RenderMessages(first) + RenderMessages(second)
  {
    if first == [] {
      assert first + second == second;
    } else {
      RenderedInOrder(first[1..], second);
      CutConcat(first, second, 1);
      Associates(RenderMessage(first[0]), RenderMessages(first[1..]), RenderMessages(second));
    }
  }

  function CheckedAdd(a: Option<nat>, b: nat): Option<nat> {
    if a.Some? && a.value + b <= USIZE_MAX then Some(a.value + b) else None
  }

  // ---- conservative_prompt_tokens ----

  function AddMessage(total: Option<nat>, message: Message): Option<nat> {
    CheckedAdd(CheckedAdd(CheckedAdd(CheckedAdd(CheckedAdd(
      total, |MESSAGE_PREFIX|), |RoleName(message.role)|), 1), |message.content|), |MESSAGE_SUFFIX|)
  }

  function AddMessages(total: Option<nat>, messages: seq<Message>): Option<nat>
    decreases |messages|
  {
    if messages == [] then total else AddMessages(AddMessage(total, messages[0]), messages[1..])
  }

  function ConservativePromptTokens(input: Input): Option<nat> {
    match input
    case Completion(prompt) => Some(|prompt|)
    case Chat(messages) => AddMessages(Some(|ASSISTANT_PREFIX|), messages)
  }

  lemma {:induction false} AddMessagesExact(total: Option<nat>, messages: seq<Message>)
    requires total.Some? ==> total.value <= USIZE_MAX
    ensures AddMessages(total, messages) == CheckedAdd(total, |RenderMessages(messages)|)
    decreases |messages|
  {
    if messages != [] {
      assert AddMessage(total, messages[0]) == CheckedAdd(total, |RenderMessage(messages[0])|);
      AddMessagesExact(AddMessage(total, messages[0]), messages[1..]);
    }
  }

  /** The estimate is the byte length of the rendered text, or an error when that exceeds `usize`. */
  lemma EstimateIsRenderedLength(input: Input)
    requires input.Completion? ==> |input.prompt| <= USIZE_MAX // the length of a string that exists
    ensures ConservativePromptTokens(input) == if |Rendered(input)| <= USIZE_MAX then Some(|Rendered(input)|) else None
  {
    if input.Chat? { AddMessagesExact(Some(|ASSISTANT_PREFIX|), input.messages); }
  }

  // ---- normalize_request ----

  function Reject<T>(message: string): Result<T, EngineError> {
    Err(InvalidRequest(message))
  }

  function ContentBytes(total: Option<nat>, messages: seq<Message>): Option<nat>
    decreases |messages|
  {
    if messages == [] then total else ContentBytes(CheckedAdd(total, |messages[0].content|), messages[1..])
  }

  predicate StopsAccepted(stop: seq<string>) {
    |stop| <= 8 && forall i :: 0 <= i < |stop| ==> 0 < |stop[i]| <= 128
  }

  function InputBytes(policy: Policy, input: Input): Result<nat, EngineError> {
    match input
    case Completion(prompt) =>
      if prompt == "" then Reject<nat>("prompt must not be empty") else Ok(|prompt|)
    case Chat(messages) =>
      if || messages == [] || |messages| > policy.maxMessages
         || exists i :: 0 <= i < |messages| && messages[i].content == ""
      then Reject<nat>("chat messages are outside the supported bound")
      else match ContentBytes(Some(0), messages)
        case None => Reject<nat>("chat messages are outside the supported bound")
        case Some(total) => Ok(total)
  }

  function NormalizeRequest(policy: Policy, request: Request): Result<Normalized, EngineError> {
    if request.model != policy.model then Reject("the requested model is not available")
    else if request.maxTokens == 0 || request.maxTokens > policy.maxOutputTokens
    then Reject("max_tokens is outside the supported bound")
    else if request.temperature.NotFinite? || !(0.0 <= request.temperature.value <= 2.0)
    then Reject("temperature must be between 0 and 2")
    else if request.topP.NotFinite? || !(0.0 < request.topP.value <= 1.0)
    then Reject("top_p must be greater than 0 and at most 1")
    else if !StopsAccepted(request.stop) then Reject("stop sequences exceed the supported bound")
    else match InputBytes(policy, request.input)
      case Err(e) => Err(e)
      case Ok(bytes) =>
        if bytes > policy.maxPromptBytes then Reject("prompt exceeds the supported bound")
        else match ConservativePromptTokens(request.input)
          case None => Reject("chat messages are outside the supported bound")
          case Some(tokens) =>
            var total := CheckedAdd(Some(tokens), request.maxTokens);
            if total.None? || total.value > MODEL_CONTEXT_TOKENS
            then Reject("prompt and requested output exceed the model context")
            else Ok(Normalized(request.input, request.maxTokens, request.temperature.value,
                               if request.temperature.value == 0.0 then 1.0 else request.topP.value,
                               request.seed, request.stop))
  }

  // ---- What acceptance means ----

  /** A way to cut a text into non-empty pieces, as every tokenizer does. */
  ghost predicate Splits(tokens: seq<string>, text: string) {
    Concat(tokens) == text && forall i :: 0 <= i < |tokens| ==> tokens[i] != ""
  }

  lemma {:induction false} PiecesAreBytes(tokens: seq<string>)
    requires forall i :: 0 <= i < |tokens| ==> tokens[i] != ""
    ensures |tokens| <= |Concat(tokens)|
  {
    if tokens != [] { PiecesAreBytes(tokens[1..]); }
  }

  function Bytewise(text: string): seq<string> {
    seq(|text|, i requires 0 <= i < |text| => [text[i]])
  }

  lemma {:induction false} BytewiseSplits(text: string)
    ensures Splits(Bytewise(text), text)
  {
    if text != "" {
      BytewiseSplits(text[1..]);
      assert Bytewise(text)[1..] == Bytewise(text[1..]);
      assert text == [text[0]] + text[1..];
    }
  }

  function Contents(messages: seq<Message>): seq<string> {
    seq(|messages|, i requires 0 <= i < |messages| => messages[i].content)
  }

  predicate ValidInput(policy: Policy, input: Input) {
    match input
    case Completion(prompt) => 0 < |prompt| <= policy.maxPromptBytes
    case Chat(messages) =>
      && 0 < |messages| <= policy.maxMessages
      && (forall i :: 0 <= i < |messages| ==> messages[i].content != "")
      && |Concat(Contents(messages))| <= policy.maxPromptBytes
  }

  /** Everything a valid request needs besides room in the model's context. */
  predicate OtherwiseValid(policy: Policy, request: Request) {
    && request.model == policy.model && 0 < request.maxTokens <= policy.maxOutputTokens
    && request.temperature.Finite? && 0.0 <= request.temperature.value <= 2.0
    && request.topP.Finite? && 0.0 < request.topP.value <= 1.0
    && |request.stop| <= 8 && (forall i :: 0 <= i < |request.stop| ==> 0 < |request.stop[i]| <= 128)
    && ValidInput(policy, request.input)
  }

  lemma {:induction false} ContentBytesExact(total: Option<nat>, messages: seq<Message>)
    requires total.Some? ==> total.value <= USIZE_MAX
    ensures ContentBytes(total, messages) == CheckedAdd(total, |Concat(Contents(messages))|)
    ensures |Concat(Contents(messages))| <= |RenderMessages(messages)|
    decreases |messages|
  {
    if messages != [] {
      ContentBytesExact(CheckedAdd(total, |messages[0].content|), messages[1..]);
      assert Contents(messages)[1..] == Contents(messages[1..]);
    }
  }

  /** The checks on the input alone; more content than `usize` can count does not fit the context either. */
  lemma InputBytesExact(policy: Policy, input: Input)
    requires |Rendered(input)| <= USIZE_MAX
    ensures InputBytes(policy, input).Ok? && InputBytes(policy, input).value <= policy.maxPromptBytes
            <==> ValidInput(policy, input)
  {
    if input.Chat? { ContentBytesExact(Some(0), input.messages); }
  }

  lemma RoomDecides(policy: Policy, request: Request)
    requires request.input.Completion? ==> |request.input.prompt| <= USIZE_MAX
    ensures NormalizeRequest(policy, request).Ok? <==>
              && request.model == policy.model && 0 < request.maxTokens <= policy.maxOutputTokens
              && request.temperature.Finite? && 0.0 <= request.temperature.value <= 2.0
              && request.topP.Finite? && 0.0 < request.topP.value <= 1.0
              && StopsAccepted(request.stop)
              && InputBytes(policy, request.input).Ok?
              && InputBytes(policy, request.input).value <= policy.maxPromptBytes
              && |Rendered(request.input)| + request.maxTokens <= 4096
    ensures NormalizeRequest(policy, request).Err? ==> NormalizeRequest(policy, request).error.InvalidRequest?
  {
    RejectedInput(policy, request.input);
    EstimateIsRenderedLength(request.input);
    hide StopsAccepted;
    hide Rendered;
    hide InputBytes;
    hide ConservativePromptTokens;
  }

  lemma AcceptedByLength(policy: Policy, request: Request)
    requires request.input.Completion? ==> |request.input.prompt| <= USIZE_MAX
    ensures NormalizeRequest(policy, request).Ok? <==>
              OtherwiseValid(policy, request) && |Rendered(request.input)| + request.maxTokens <= 4096
    ensures NormalizeRequest(policy, request).Err? ==> NormalizeRequest(policy, request).error.InvalidRequest?
  {
    RoomDecides(policy, request);
    if |Rendered(request.input)| <= USIZE_MAX { InputBytesExact(policy, request.input); }
    hide NormalizeRequest;
    hide Rendered;
    hide ValidInput;
    hide InputBytes;
  }

  lemma RejectedInput(policy: Policy, input: Input)
    ensures InputBytes(policy, input).Err? ==> InputBytes(policy, input).error.InvalidRequest?
  {
  }

  /** No tokenizer can make an accepted request overrun the context. */
  lemma AcceptedFitsContext(policy: Policy, request: Request, tokens: seq<string>)
    requires NormalizeRequest(policy, request).Ok? && Splits(tokens, Rendered(request.input))
    ensures |tokens| + request.maxTokens <= 4096
  {
    hide StopsAccepted;
    hide InputBytes;
    PiecesAreBytes(tokens);
    if request.input.Chat? { AddMessagesExact(Some(|ASSISTANT_PREFIX|), request.input.messages); }
  }

  /** The bound is exact: a valid request is accepted exactly when no way of cutting its text overruns the context. */
  lemma AcceptedExactly(policy: Policy, request: Request)
    requires request.input.Completion? ==> |request.input.prompt| <= USIZE_MAX
    ensures NormalizeRequest(policy, request).Ok? <==>
              && OtherwiseValid(policy, request)
              && (forall tokens :: Splits(tokens, Rendered(request.input)) ==>
                    |tokens| + request.maxTokens <= 4096)
  {
    hide NormalizeRequest;
    hide OtherwiseValid;
    var text := Rendered(request.input);
    AcceptedByLength(policy, request);
    BytewiseSplits(text);
    forall tokens | Splits(tokens, text)
      ensures |tokens| <= |text|
    {
      PiecesAreBytes(tokens);
    }
    assert |Bytewise(text)| == |text|;
  }

  /** Submitting what was made of an accepted request is accepted and changes nothing more. */
  lemma NormalizedAgain(policy: Policy, request: Request)
    requires NormalizeRequest(policy, request).Ok?
    ensures var n := NormalizeRequest(policy, request).value;
            var again := Request(
              policy.model, n.input, n.maxTokens, Finite(n.temperature), Finite(n.topP), n.seed, n.stop);
            && NormalizeRequest(policy, again) == Ok(n)
            && n.input == request.input && n.maxTokens == request.maxTokens
            && n.seed == request.seed && n.stop == request.stop
            && request.temperature == Finite(n.temperature)
            && (n.temperature == 0.0 ==> n.topP == 1.0)
            && (n.temperature != 0.0 ==> request.topP == Finite(n.topP))
  {
    hide StopsAccepted;
    hide InputBytes;
    hide ConservativePromptTokens;
    hide CheckedAdd;
    if request.temperature.value == 0.0 {
      assert NormalizeRequest(policy, request.(topP := Finite(1.0))) == NormalizeRequest(policy, request);
    }
  }
}
