# Verification of Impossible Inferences

A Dafny model of the local inference service: the token-stream engine, the verified installer
and the public transports, with proofs about every run of each.

- **Token stream.** The engine reads the private runtime's server-sent events in arbitrary
  chunks. The decoder is a loop over a bounded buffer (`GenerationTask.Task`), specified by
  `SseDecoder`: the answer is a function of the bytes, not of the chunking, and `SsePayloads`
  reads it off the payloads' members without the decoder. A stop, a disconnect
  or a shutdown at any await cuts the event queue short, but the queue stays a word of a small
  grammar with at most one terminal, its last item.
- **Sidecar.** Any number of generations, the first start, status and shutdown calls share one
  child process under one lock. `SidecarLifecycle` interleaves them step by step, one read of a
  flag per step; `SidecarBudget` bounds what one call launches and waits there,
  `SidecarAnswers` says what a call comes to and `SidecarFailures` why it fails, and
  `SidecarStartup` is the launch loop with its clock.
- **Admission.** Two pairs of semaphores: the engine's queue and lane (`EngineAdmission`), and
  the HTTP middleware's, whose permits live inside the response body (`HttpAdmission`).
- **Installer.** `ArchivePaths` is the path calculus and the link resolver, `ArchiveTree` the two
  readings of one archive, `Installation` and `Installer` the staged installation on a disk that
  records every state its steps pass through, so that a statement about all recorded states is a
  statement about whatever a crash leaves.
- **Transports.** Collecting calls, server-sent events, WebSocket frames and the gRPC stream over
  one event queue (`Transports`), a whole WebSocket session (`WebSocketSession`, with the answer
  to each input in `SessionAnswers`), and the public stream read back by the engine's own decoder
  (`SseComposition`).

JSON, SHA-256, archive containers, process control and the network are function-valued
parameters or outcomes that every statement ranges over. One character of a `string` stands for
one UTF-8 byte. `dafny verify dfyconfig.toml` checks the project.

## What the proofs found

- After `[DONE]` the rest of the same chunk is still processed and later chunks are never read
  (`UnreadAfterDone`). A stream whose answer is a success gives the same answer wherever the
  bytes after `[DONE]` are cut off its chunk if and only if they are all LF
  (`TailConditionIsExact`). A blank line in CRLF form, cut between CR and LF, already changes the
  answer (`CrlfCutMatters`, with a concrete stream in `CrlfWitness`).
- The gRPC stream can end like a finished one with no outcome. The client is told the collected
  answer if and only if the events have a terminal and no shutdown, closed receiver or failed send
  cuts the forwarding up to it (`GrpcEndsSilently`). A shutdown does this to a client that stays
  connected (`ShutdownCutsSilently`). The other transports report an end without a terminal as
  `upstream_protocol`.
- `setup` refuses an unmarked scratch directory on every later run (`BlockedForever`). A crash
  between creating it and writing the marker leaves one, and so does a crash during its removal,
  since the marker is one of the entries removed and nothing makes it the last
  (`RemovalCanBlock`).
- An interrupted promotion is not resumed. With `current` moved aside, an offline run cannot get
  ready and an online run only by downloading everything again (`MovedAsideNeedsDownloads`); with
  the server unreachable it throws the verified successor away (`PromotionIsNotResumed`). What one
  run promises about the old installation holds of several as long as `current` is present between
  them (`PromiseChains`); the loss shows that this condition cannot be dropped.
- Extraction overwrites what a repeated path wrote before (`Extract`, `ExpectedExactly`), while the
  digest reading refuses every archive that gives a path twice (`TreeDigests`). So such an archive
  unpacks and is then rejected by verification.
- A dangling link named `previous` does not stop a first installation but stops every upgrade;
  `Promotable` is the exact condition.

## Model

| member | source | states |
|---|---|---|
| SseDecoder.UsageAccepted | crates/impossible-inferences-engine/src/lib.rs:1038-1063 | usage is accepted exactly when all counts are 32-bit and the total is their sum saturated at 2^32 - 1 |
| SseDecoder.ChunkedIsOnePass | crates/impossible-inferences-engine/src/lib.rs:584-687 | under the buffer bound, with only LF after the first `[DONE]` line or `[DONE]` only in the last chunk, the chunked decoder answers what one pass over the lines answers |
| SseDecoder.ChunkInvariance | crates/impossible-inferences-engine/src/lib.rs:592-670 | two admissible chunkings of the same bytes give the same deltas and the same result |
| SseDecoder.TailEffect | crates/impossible-inferences-engine/src/lib.rs:632-670 | LF bytes after `[DONE]` change nothing; the first other byte turns success into an error |
| SseDecoder.UnreadAfterDone | crates/impossible-inferences-engine/src/lib.rs:600-666 | chunks after the one that carries `[DONE]` are never read, whatever they hold |
| SseDecoder.TailConditionIsExact | crates/impossible-inferences-engine/src/lib.rs:632-670 | for one byte string with a successful head, cutting the bytes after `[DONE]` off its chunk at any place gives the same answer if and only if they are all LF |
| SseDecoder.CrlfCutMatters | crates/impossible-inferences-engine/src/lib.rs:614-620 | a CRLF blank line after `[DONE]` succeeds in one piece and fails cut between CR and LF, for every successful stream |
| SseFraming.DrainSeesPayloads | crates/impossible-inferences-engine/src/lib.rs:613-662 | the decoder's fold depends on a quiet byte stream only through its payload list and whether `[DONE]` came |
| SseFraming.PrintParse | crates/impossible-inferences-engine/src/lib.rs:1264-1288 | parsing a printed stream returns the payload list if and only if no payload holds LF, ends in CR or equals `[DONE]` |
| SseFraming.RoundTrip | crates/impossible-inferences-engine/src/lib.rs:613-635 | under any admissible chunking of a printed stream the decoder folds exactly the printed payloads and stops at `[DONE]` |
| SseFraming.PayloadsDecide | crates/impossible-inferences-engine/src/lib.rs:592-670 | under any admissible chunking of a quiet byte stream the answer is the fold of its payload list |
| SseFraming.CrlfWitness | crates/impossible-inferences-engine/src/lib.rs:614-620 | a concrete byte string with two bounded chunkings that succeed and fail |
| SseFraming.LineDataExactly | crates/impossible-inferences-engine/src/lib.rs:617-630 | one CR at the end of a line is no part of it, and its payload is what follows `data:` less one space |
| SsePayloads.ParsersReadWhatIsSaid | crates/impossible-inferences-engine/src/lib.rs:1038-1082 | the three parsers fail exactly on unacceptable payloads; an absent or null usage or reason and an absent or empty text say nothing |
| SsePayloads.ConsumedAsSaid | crates/impossible-inferences-engine/src/lib.rs:636-662 | one payload is refused exactly if it is unacceptable or its text exceeds `max_tokens` deltas; otherwise it replaces only what it says and leaves the rest |
| SsePayloads.FoldedExactly | crates/impossible-inferences-engine/src/lib.rs:636-662 | over every payload list: refused exactly when a payload is unacceptable or the texts are too many, keeping the texts before; otherwise the last usage, the last reason and all texts in order |
| SsePayloads.DecodesWhatIsSaid | crates/impossible-inferences-engine/src/lib.rs:592-687 | under any admissible chunking of a stream that reaches `[DONE]` the consumer is told the texts, then the last usage and last reason, or an error after the texts in front of the first bad payload |
| SsePayloads.ReasonThenUsage | crates/impossible-inferences-engine/src/lib.rs:1264-1288 | the sidecar's order, texts, then reason, then usage, decodes to the texts, that usage and that reason |
| SsePayloads.BrokenOffWhatIsSaid | crates/impossible-inferences-engine/src/lib.rs:592-670 | a stream that ends, fails or outgrows the buffer before `[DONE]` is told as far as it was acceptable, and is unavailable exactly when a read failed after acceptable payloads |
| GenerationTask.Task.SendEvent | crates/impossible-inferences-engine/src/lib.rs:1084-1098 | an event is queued exactly when no stop flag and no closed receiver comes first, in the order of the biased select |
| GenerationTask.Task.ConsumeData | crates/impossible-inferences-engine/src/lib.rs:635-662 | one payload updates finish, usage and delta count as the fold says (the fold is characterised by `ConsumedAsSaid`), sending at most its own delta |
| GenerationTask.Task.DrainBuffer | crates/impossible-inferences-engine/src/lib.rs:614-663 | draining all complete lines equals the specified line loop, up to the first interrupted send |
| GenerationTask.Task.ConsumeSse | crates/impossible-inferences-engine/src/lib.rs:584-687 | the imperative loop is the specified run, stopped at its first interrupted await |
| GenerationTask.Task.RunGeneration | crates/impossible-inferences-engine/src/lib.rs:535-582 | permit, sidecar, connection, deadline, response and stream compose to one run with the source's error at each step |
| GenerationTask.Task.Execute | crates/impossible-inferences-engine/src/lib.rs:499-512 | the queue is a word of the grammar, and a consumer that stays connected gets exactly one terminal |
| GenerationTask.QueueIsAWord | crates/impossible-inferences-engine/src/lib.rs:499-512 | for every timing of stop, disconnect and shutdown: at most `max_tokens` non-empty deltas, then usage, then at most one terminal with nothing after it |
| GenerationTask.InterruptionOnlyTruncates | crates/impossible-inferences-engine/src/lib.rs:584-687 | an interrupted run's events are a beginning of the uninterrupted run's, and a run succeeds exactly when its events end in Finished |
| GenerationTask.StopNamesItsFlag | crates/impossible-inferences-engine/src/lib.rs:543-551 | an interrupted run reports the flag raised at its await, the earlier branch winning, or `Cancelled` at a send to a closed receiver; none was raised and no receiver closed before |
| GenerationTask.FirstFailureAnswers | crates/impossible-inferences-engine/src/lib.rs:535-582 | an uninterrupted task answers with the error of its first failing step and sends nothing, or answers as its stream decodes; it waits once for the permit and once for the response |
| ContextBound.EstimateIsRenderedLength | crates/impossible-inferences-engine/src/lib.rs:1012-1036 | the estimate is the byte length of the rendered ChatML text with assistant prefix, or an error when that overflows `usize` |
| ContextBound.RenderedConversation | crates/impossible-inferences-engine/src/lib.rs:1012-1036 | the text of one message of each role, and of a conversation with the assistant prefix, written out |
| ContextBound.RenderedInOrder | crates/impossible-inferences-engine/src/lib.rs:1012-1036 | rendering is message by message, in order |
| ContextBound.AcceptedFitsContext | crates/impossible-inferences-engine/src/lib.rs:923-1010 | for every split of an accepted request's text into non-empty tokens, tokens and requested output are at most 4096 |
| ContextBound.AcceptedExactly | crates/impossible-inferences-engine/src/lib.rs:923-1010 | a request within the documented limits, written out without the checks' own functions, is accepted if and only if no split of its text overruns 4096 tokens |
| ContextBound.NormalizedAgain | crates/impossible-inferences-engine/src/lib.rs:998-1010 | normalizing is idempotent and changes nothing but `top_p`, to 1 exactly at temperature 0; input, length, seed, stops and temperature are always the request's own |
| SidecarLifecycle.ShutdownFence | crates/impossible-inferences-engine/src/lib.rs:523-533 | in every interleaving, once a shutdown has returned nothing runs, nothing is launched and every child ever launched is gone, for ever |
| SidecarLifecycle.LateLock | crates/impossible-inferences-engine/src/lib.rs:714-730 | a run in which a generation that read the flag as unset gets the lock only after shutdown returned |
| SidecarLifecycle.ReturnFences | crates/impossible-inferences-engine/src/lib.rs:523-533 | the step in which a shutdown returns establishes the fence, whoever is waiting for the lock |
| SidecarLifecycle.InvNext | crates/impossible-inferences-engine/src/lib.rs:689-844 | every step of every task keeps lock ownership, the account of children and the soundness of the running sidecar |
| SidecarLifecycle.SingleOwner | crates/impossible-inferences-engine/src/lib.rs:731-796 | at every step at most one launched child is neither terminated, dropped nor seen exited, and at most one task has the lock |
| SidecarLifecycle.LaunchFindsNone | crates/impossible-inferences-engine/src/lib.rs:737-796 | whenever a child is launched, every child launched before it is already gone and none is installed |
| SidecarLifecycle.ConnectionIsOneChild | crates/impossible-inferences-engine/src/lib.rs:689-712 | endpoint and bearer handed to a generation belong to one launched child that answered its health probe |
| SidecarLifecycle.StopErrorsAreTrue | crates/impossible-inferences-engine/src/lib.rs:689-844 | in every interleaving a call that ends in a stop error has the flag of that very error raised |
| SidecarLifecycle.StatusTells | crates/impossible-inferences-engine/src/lib.rs:458-474 | a report of not ready leaves no live child; a report of ready leaves the running one, not seen exited |
| SidecarAnswers.InspectAnswers | crates/impossible-inferences-engine/src/lib.rs:731-736 | in every run a generation that finds a live sidecar keeps it, frees the lock and goes on to connect (or the first start ends well); an absent or exited one is dropped and a launch follows |
| SidecarAnswers.LiveSidecarServes | crates/impossible-inferences-engine/src/lib.rs:689-736 | with the lock free, a live sidecar and no flag raised, a call from its first step on reaches the connection to just that sidecar and changes nothing else |
| SidecarAnswers.LaunchServes | crates/impossible-inferences-engine/src/lib.rs:689-776 | with no sidecar and no flag, a call whose launch and probe succeed launches exactly one child, installs it and connects to it |
| SidecarAnswers.AttemptInstalls | crates/impossible-inferences-engine/src/lib.rs:747-776 | any attempt whose launch and first probe succeed installs the child it launched and frees the lock |
| SidecarAnswers.RefusalIsRetried | crates/impossible-inferences-engine/src/lib.rs:809-842 | a probe refused before the deadline is repeated after its sleep and leaves the state as it was |
| SidecarAnswers.FailedLaunchIsRetried | crates/impossible-inferences-engine/src/lib.rs:737-766 | a failed launch is followed by the next attempt after its backoff, and after the third by `RuntimeUnavailable` |
| SidecarAnswers.TerminatedIsRetried | crates/impossible-inferences-engine/src/lib.rs:777-797 | a child that did not become ready is gone before the next attempt, and after the third the call is unavailable |
| SidecarAnswers.FlagEndsCall | crates/impossible-inferences-engine/src/lib.rs:714-844 | a raised flag ends a call at every `select!` with the first flag's own error, without the lock and without its child, and changes nothing else |
| SidecarAnswers.ConnectAnswers | crates/impossible-inferences-engine/src/lib.rs:701-712 | a connection is made exactly to a running sidecar that is alive; an exited one is dropped, one that cannot be asked stays |
| SidecarAnswers.StatusAnswers | crates/impossible-inferences-engine/src/lib.rs:458-474 | status reports ready exactly when a sidecar runs, is alive and can be asked, and drops any other |
| SidecarAnswers.ShutdownCompletes | crates/impossible-inferences-engine/src/lib.rs:523-533 | a shutdown that finds the lock free raises the flag, takes the running child and returns when it is gone |
| SidecarFailures.UnavailableExactly | crates/impossible-inferences-engine/src/lib.rs:689-844 | a step makes its call unavailable if and only if an exit query or a preparation failed, a third attempt failed, or there is no live sidecar to connect to |
| SidecarFailures.UnavailableHasCause | crates/impossible-inferences-engine/src/lib.rs:689-844 | in every run an unavailable call became so by a step of its own with one of these four causes, giving up after exactly three failed attempts |
| SidecarFailures.CountAlways | crates/impossible-inferences-engine/src/lib.rs:737-797 | in every run a call in its n-th attempt has failed exactly n times before |
| SidecarFailures.GivenUpExactly | crates/impossible-inferences-engine/src/lib.rs:800-844 | an attempt is given up exactly when its child has exited, cannot be asked or is refused past the deadline, and installs its child exactly when the probe succeeds |
| SidecarBudget.CallIsBounded | crates/impossible-inferences-engine/src/lib.rs:737-797 | in every interleaving one call launches at most 3 children and requests at most 750 ms of backoff |
| SidecarBudget.AdvancePays | crates/impossible-inferences-engine/src/lib.rs:737-797 | each step of a call pays for its launches and backoff out of what the call had left and touches no other task |
| SidecarStartup.Supervisor.WaitUntilReady | crates/impossible-inferences-engine/src/lib.rs:800-844 | at most ceil(timeout / 50 ms) + 1 probes, success only on an answered probe, failure only for an exit, the deadline or a fired flag |
| SidecarStartup.Supervisor.Attempt | crates/impossible-inferences-engine/src/lib.rs:737-795 | one launch attempt: backoff, preparation, launch, readiness; a failed child is dropped before the loop goes on |
| SidecarStartup.Supervisor.EnsureRunning | crates/impossible-inferences-engine/src/lib.rs:714-798 | at most 3 launches and 750 ms of requested backoff; a sidecar that still runs is kept with no attempt made; success only with a live or newly probed child installed, failure only for a named cause |
| EngineAdmission.InvNext | crates/impossible-inferences-engine/src/lib.rs:480-582 | every step of every generation keeps both pools conserved |
| EngineAdmission.PermitsConserved | crates/impossible-inferences-engine/src/lib.rs:424-441 | in every run free and held permits add up to `1 + queue_capacity` and to 1, and lane holders are admitted |
| EngineAdmission.OverloadedExactly | crates/impossible-inferences-engine/src/lib.rs:489-495 | Overloaded is returned exactly when `1 + queue_capacity` generations are admitted |
| EngineAdmission.ErrorsFollowPermits | crates/impossible-inferences-engine/src/lib.rs:499-512 | a generation whose error event is queued holds neither permit |
| EngineAdmission.PlaceIsTaken | crates/impossible-inferences-engine/src/lib.rs:489-495 | a call that finds a place is admitted and takes just that place |
| EngineAdmission.FinishedLetsGo | crates/impossible-inferences-engine/src/lib.rs:535-582 | work that has returned gives back the lane first and then its place, keeping its result |
| EngineAdmission.StoppedWaitingLetsGo | crates/impossible-inferences-engine/src/lib.rs:543-551 | a call stopped while it waits never takes the lane and gives its place back, keeping the stop as its result |
| HttpAdmission.InvNext | crates/impossible-inferences-server/src/lib.rs:505-607 | every step of every request keeps both pools conserved and each request's holdings consistent with its stage |
| HttpAdmission.PermitsConserved | crates/impossible-inferences-server/src/lib.rs:382-392 | in every run free and held permits add up; requests executing or with an open body never exceed the concurrency limit, admitted ones never that plus the queue |
| HttpAdmission.OverloadedExactly | crates/impossible-inferences-server/src/lib.rs:534-542 | the overload answer is given exactly when every admission permit is held |
| HttpAdmission.PermitOutlivesBody | crates/impossible-inferences-server/src/lib.rs:735-768 | an execution permit is held through handler and body and returned only after the body ended or was dropped, or the handler's future was |
| HttpAdmission.TokenFollowsBody | crates/impossible-inferences-server/src/lib.rs:609-631 | the request's token is live while its handler works and its body is open, and already cancelled when the answer is a stop or a timeout |
| HttpAdmission.ReturnedIsCancelled | crates/impossible-inferences-server/src/lib.rs:314-320 | a request that has returned its admission permit has its token cancelled; a finished one holds nothing |
| HttpAdmission.StopCancelsAtOnce | crates/impossible-inferences-server/src/lib.rs:609-631 | a shutdown or a timeout, while waiting or in the handler, cancels the request's token with its answer; other answers leave it live |
| HttpAdmission.AnsweredExactly | crates/impossible-inferences-server/src/lib.rs:505-607 | a request gets an answer if and only if the gate, the queue, the context, a stop while waiting or the handler decides on it; it is kept and lost only with the client |
| HttpAdmission.AnswerHasCause | crates/impossible-inferences-server/src/lib.rs:505-607 | in every run an answered request got its answer by one step of its own that decides on just that answer |
| HttpAdmission.UncontendedIsServed | crates/impossible-inferences-server/src/lib.rs:526-606 | an open gate and a free permit of each kind take a request through to its handler's answer, holding gate, both permits and a live token |
| HttpAdmission.BodyEndReturnsAll | crates/impossible-inferences-server/src/lib.rs:735-768 | when the body ends everything the request held is given back and its token is cancelled |
| ArchivePaths.CheckSafeRelative | crates/impossible-inferences-artifacts/src/lib.rs:1086-1098 | the component loop computes the normal components of a path that has only those, and nothing otherwise |
| ArchivePaths.SafeRelativeExact | crates/impossible-inferences-artifacts/src/lib.rs:1086-1098 | a path is safe as `rel` exactly when `rel` is not empty and the path is just its components |
| ArchivePaths.StripPrefixExact | crates/impossible-inferences-artifacts/src/lib.rs:1072-1084 | an entry lands at `rel` exactly when its path is the prefix followed by `rel`, and is skipped exactly when it is the prefix |
| ArchivePaths.JoinNormalized | crates/impossible-inferences-artifacts/src/lib.rs:1116-1142 | the loop computes the specified walk over components |
| ArchivePaths.JoinFailsExactly | crates/impossible-inferences-artifacts/src/lib.rs:1116-1142 | a join fails exactly when its target is rooted, the running depth dips below the root, or the result is empty |
| ArchivePaths.JoinIsContained | crates/impossible-inferences-artifacts/src/lib.rs:1116-1142 | a successful join is a non-empty path of normal components that both checks leave unchanged |
| ArchivePaths.JoinComposes | crates/impossible-inferences-artifacts/src/lib.rs:1116-1142 | after a successful join, joining again equals one join with the concatenated target |
| ArchivePaths.JoinUpAndDown | crates/impossible-inferences-artifacts/src/lib.rs:1116-1142 | `k` times `..` and then `rest` drops the base's last `k` names and appends `rest`; beyond the root, or with nothing left, the join fails |
| ArchivePaths.JoinCancels | crates/impossible-inferences-artifacts/src/lib.rs:1128-1136 | `.` and a name followed by `..` change nothing, wherever they stand |
| ArchivePaths.ResolveLinkSource | crates/impossible-inferences-artifacts/src/lib.rs:1100-1114 | the bounded loop computes the specified resolution, which the next rows characterise |
| ArchivePaths.ResolveExact | crates/impossible-inferences-artifacts/src/lib.rs:1100-1114 | with one round more than there are links: cycle if and only if the chain never leaves the links, escape if and only if a join of the chain fails, otherwise the unique end of the chain |
| ArchivePaths.HopsFromItsDirectory | crates/impossible-inferences-artifacts/src/lib.rs:1109-1111 | a link's target is read from the directory that holds the link: `k` levels up and down `rest`, failing exactly beyond the root |
| ArchivePaths.ResolveFollows | crates/impossible-inferences-artifacts/src/lib.rs:1100-1114 | following one link first does not change what a link resolves to |
| ArchivePaths.LinkResolvesFromItsDirectory | crates/impossible-inferences-artifacts/src/lib.rs:1100-1114 | a link to a path that is no link, in its own directory or `k` levels up, resolves to that path |
| ArchivePaths.FewerRoundsMisreport | crates/impossible-inferences-artifacts/src/lib.rs:1105 | with one round fewer a chain through all the links is called a cycle though it has an end |
| ArchiveTree.TreeDigests | crates/impossible-inferences-artifacts/src/lib.rs:769-847 | the digest reading succeeds exactly on archives that can be unpacked and give no path twice, and maps every file and link path to the digest of the file it stands for |
| ArchiveTree.DigestLinks | crates/impossible-inferences-artifacts/src/lib.rs:836-845 | links get their source's digest in any order, and fail exactly when one is no usable link or has a file's path |
| ArchiveTree.Extract | crates/impossible-inferences-artifacts/src/lib.rs:987-1070 | extraction of any archive, repeated paths included, leaves exactly the expected files and directories; without faults it succeeds if and only if every entry can be taken, every link leads to a file and nothing conflicts |
| ArchiveTree.ListedExactly | crates/impossible-inferences-artifacts/src/lib.rs:987-1056 | both readings take exactly archives whose every entry is the prefix or lies below it and is a directory, a file or, in a tar archive, a relative link; the listing holds the last file and link at each path and the directories needed |
| ArchiveTree.ExpectedExactly | crates/impossible-inferences-artifacts/src/lib.rs:1057-1068 | the expected files, by the entries alone: the last file at a path that is no link, and at a link the last file where its chain ends; the directories are those named and those above an entry |
| ArchiveTree.CopyLinks | crates/impossible-inferences-artifacts/src/lib.rs:1057-1068 | links are materialised as copies of their sources with the same result in any order |
| ArchiveTree.CollectTreeDigests | crates/impossible-inferences-artifacts/src/lib.rs:849-883 | reading a tree succeeds exactly when it holds only directories and regular files, and yields exactly its files |
| ArchiveTree.VerifyRuntimeTree | crates/impossible-inferences-artifacts/src/lib.rs:742-757 | verification passes exactly when both readings agree and the executable is expected; with collision-free digests this is equality of the files |
| ArchiveTree.ExtractedTreeVerifies | crates/impossible-inferences-artifacts/src/lib.rs:742-1070 | what extraction leaves of a conflict-free readable archive passes verification against that archive |
| Installation.UnpackedMatches | crates/impossible-inferences-artifacts/src/lib.rs:677-712 | the runtime extracted from a conflict-free archive holds the executable exactly when the archive does, and passes full verification if the archive also gives no path twice |
| Installation.VerifiedIsPinned | crates/impossible-inferences-artifacts/src/lib.rs:677-757 | two installations verified against one manifest hold the same archive, model and runtime files, if digests do not collide |
| Installation.MarkerKept | crates/impossible-inferences-artifacts/src/lib.rs:558-584 | no series of runs, each stopped anywhere, leaves `current` present without its marker |
| Installation.OnlineRunsRecover | crates/impossible-inferences-artifacts/src/lib.rs:293-379 | after any series of interrupted runs, if the scratch directories are absent or marked, an online run with good downloads meets the condition under which `Setup` succeeds |
| Installation.OfflineRunsRepeat | crates/impossible-inferences-artifacts/src/lib.rs:898-946 | an interrupted offline reconstruction never changes marker, state, archive or model and can be repeated any number of times |
| Installation.MovedAsideNeedsDownloads | crates/impossible-inferences-artifacts/src/lib.rs:959-974 | with `current` moved aside next to its verified successor an offline run cannot get ready, and an online one exactly by obtaining both downloads again |
| Installation.PromiseChains | crates/impossible-inferences-artifacts/src/lib.rs:293-379 | over any number of interrupted online runs with `current` present between them the old installation is in place, aside next to a verified successor, or succeeded |
| Installation.BlockedForever | crates/impossible-inferences-artifacts/src/lib.rs:577-584 | an unmarked staging directory is never touched again and stops every online run |
| Installation.RemovalCanBlock | crates/impossible-inferences-artifacts/src/lib.rs:577-584 | the marker is a leaf of a managed directory, and removing it first leaves a blocked one |
| Installer.Disk.AssertManaged | crates/impossible-inferences-artifacts/src/lib.rs:563-575 | succeeds exactly on a real directory whose marker, links followed, reads as the marker value |
| Installer.Disk.RemoveManagedIfPresent | crates/impossible-inferences-artifacts/src/lib.rs:577-584 | refuses and leaves untouched whatever exists without the marker, else removes it in any order |
| Installer.Disk.CreateScratch | crates/impossible-inferences-artifacts/src/lib.rs:326-327 | creates a marked directory, passing through an unmarked one |
| Installer.Disk.DownloadVerified | crates/impossible-inferences-artifacts/src/lib.rs:601-646 | puts a file in place only if it is the pinned artifact by size and digest, does so whenever the server delivers it and nothing fails, and leaves nothing behind when a complete body turns out wrong |
| Installer.Disk.VerifyIntact | crates/impossible-inferences-artifacts/src/lib.rs:714-740 | marker, recorded state, archive and model are checked as opening them reads, links followed, and nothing else |
| Installer.Disk.VerifyCurrent | crates/impossible-inferences-artifacts/src/lib.rs:677-712 | full verification passes exactly on a verified installation |
| Installer.Disk.BuildStaging | crates/impossible-inferences-artifacts/src/lib.rs:324-372 | touches only `staging`, and ends in exactly the delivered installation, verified, if and only if it was removable and the downloads are good, faults aside |
| Installer.Disk.TakePlace | crates/impossible-inferences-artifacts/src/lib.rs:966-971 | the staged installation becomes `current`, or nothing changes, or what was moved aside is back; `current` stays missing only if both renames failed |
| Installer.Disk.SetupOnline | crates/impossible-inferences-artifacts/src/lib.rs:324-379 | an online run that gets ready leaves exactly the delivered installation as `current`, no staging and no previous one, and touches nothing else |
| Installer.Disk.SetupOffline | crates/impossible-inferences-artifacts/src/lib.rs:309-322 | an offline run that gets ready has the retained archive unpacked as its runtime, no recovery directory and everything else as before |
| Installer.RebuiltVerifies | crates/impossible-inferences-artifacts/src/lib.rs:898-946 | what a recovery leaves verifies exactly when the installation could be recovered |
| Installer.Disk.Promote | crates/impossible-inferences-artifacts/src/lib.rs:959-974 | every state on the way is crash safe; on success `current` is the staged installation and neither staging nor previous is left; a failure leaves `current` in place, promoted, or missing only after two failed renames |
| Installer.Disk.RecoverRuntime | crates/impossible-inferences-artifacts/src/lib.rs:898-946 | every state on the way differs only in the runtime and the recovery directory; on success the runtime is exactly the retained archive unpacked and no recovery directory is left; succeeds for any content of a real or missing runtime directory when the rest is intact |
| Installer.Disk.Setup | crates/impossible-inferences-artifacts/src/lib.rs:293-379 | every state on the way is crash safe; ready means fully verified by the very last operation, implies the success condition and without faults follows from it, and leaves no scratch directory behind; a verified installation is left alone; `current` goes missing only after two failed renames |
| Installer.PromotionIsNotResumed | crates/impossible-inferences-artifacts/src/lib.rs:324-372 | from an interrupted promotion a fault-free online run without a server discards the verified successor, and no earlier installation is kept in the promised sense |
| Transports.Collect | crates/impossible-inferences-server/src/lib.rs:1002-1020 | the receive loop answers what the queue means: all text, usage and finish, or the error |
| Transports.CollectedIsMeaning | crates/impossible-inferences-server/src/mcp.rs:330-346 | for every word of the grammar the collected answer is the one read off the word's end |
| Transports.SseBody.Next | crates/impossible-inferences-server/src/lib.rs:1056-1129 | each call of the unfold emits the next event of the specified stream, then none |
| Transports.SseBody.Drain | crates/impossible-inferences-server/src/lib.rs:1056-1129 | the body as a client receives it is exactly the specified stream |
| Transports.DoneOnlyOnSuccess | crates/impossible-inferences-server/src/lib.rs:1065-1125 | `[DONE]` comes exactly once and last if and only if the word is a success; otherwise one error event comes last |
| Transports.FramesMean | crates/impossible-inferences-server/src/lib.rs:1485-1556 | the frames of one generation read back to what its word means |
| Transports.Forward | crates/impossible-inferences-server/src/grpc.rs:119-155 | what reaches the client is exactly the specified items up to the first poll that is a shutdown, a closed receiver or a failed send |
| Transports.TransportsAgree | crates/impossible-inferences-server/src/grpc.rs:203-219 | for every word, server-sent events and WebSocket frames tell the text, usage, finish or error code the unary call answers, and the gRPC stream does if the word has a terminal |
| Transports.GrpcEndsSilently | crates/impossible-inferences-server/src/grpc.rs:119-155 | the client of the forwarded stream is told the collected answer if and only if the word has a terminal and nothing cuts the stream up to it, and otherwise sees an end without an outcome |
| Transports.ShutdownCutsSilently | crates/impossible-inferences-server/src/grpc.rs:123-128 | a connected client whose word has a terminal and a collected success sees an end without an outcome when shutdown comes first |
| Transports.RunsAreToldAlike | crates/impossible-inferences-server/src/lib.rs:987-1000 | every run of the engine, interrupted anywhere, is told alike by all transports, by the gRPC stream as long as nothing cuts its forwarding |
| SseComposition.ServerStreamDecodes | crates/impossible-inferences-server/src/lib.rs:1121-1173 | a finished generation printed as server-sent events, with keep-alive comments anywhere between them, chunked in any admissible way and decoded by the engine's decoder, gives exactly its own events |
| WebSocketSession.Session.HandleMessage | crates/impossible-inferences-server/src/lib.rs:1346-1418 | every message has exactly the specified effect: busy starts, unmatched cancels and malformed messages are answered and change no generation, a matching cancel withdraws the active one, and the session goes on exactly unless a send failed or the message closes it |
| WebSocketSession.Session.HandleStart | crates/impossible-inferences-server/src/lib.rs:1420-1483 | a start is passed on exactly when its id is in bounds and nothing is active, and becomes the one active generation exactly if the engine accepts it; otherwise its refusal is sent |
| WebSocketSession.Session.HandleEvent | crates/impossible-inferences-server/src/lib.rs:1485-1556 | one event of the active generation is consumed and its frame sent under the generation's id, the generation ending exactly on a terminal or a failed send |
| WebSocketSession.Session.Serve | crates/impossible-inferences-server/src/lib.rs:1287-1344 | the session loop computes `Run` of its inputs, the function the following rows are about |
| SessionAnswers.CancelEndsIt | crates/impossible-inferences-server/src/lib.rs:1370-1379 | in every session a cancel of the active id leaves nothing active, and `cancelled` under that id as the last frame of the newest generation, which is withdrawn |
| SessionAnswers.AnsweredAside | crates/impossible-inferences-server/src/lib.rs:1346-1418 | in every session malformed, binary and unmatched messages, pings, busy, malformed and refused starts get just their own frame, outside any generation, and change nothing else; the engine is asked only for a well-formed start with nothing active |
| SessionAnswers.StartAccepted | crates/impossible-inferences-server/src/lib.rs:1467-1477 | an accepted start sends nothing and becomes the active generation with the engine's whole queue to come |
| SessionAnswers.EventAnswered | crates/impossible-inferences-server/src/lib.rs:1485-1556 | in every session a delta is passed on under its id, a usage is kept, and any other event, or none, is the generation's last frame |
| SessionAnswers.FailedSendEnds | crates/impossible-inferences-server/src/lib.rs:1287-1418 | exactly the answering inputs try one frame, and if it cannot be sent the session ends with its generation dropped |
| SessionAnswers.ClosingEnds | crates/impossible-inferences-server/src/lib.rs:1395-1417 | a close is answered after the active generation is dropped; a close frame and the loss of the socket end the session without a frame |
| SessionAnswers.OverForGood | crates/impossible-inferences-server/src/lib.rs:1287-1344 | a session that has ended stays as it is, whatever comes |
| SessionAnswers.TranscriptGrows | crates/impossible-inferences-server/src/lib.rs:1287-1344 | nothing that was sent is taken back |
| SessionAnswers.GreetingFirst | crates/impossible-inferences-server/src/lib.rs:1292-1302 | the greeting is the first frame, and without it there is no session |
| WebSocketSession.RunSound | crates/impossible-inferences-server/src/lib.rs:1287-1344 | over any interleaving of inputs and failing sends the transcript is accounted for by the accepted generations, at most the newest of which runs |
| WebSocketSession.GenerationsAreStarts | crates/impossible-inferences-server/src/lib.rs:1420-1483 | the generations of a session are exactly the starts it passed on and the engine accepted, with their ids and queues, in input order |
| WebSocketSession.AcceptedInOrder | crates/impossible-inferences-server/src/lib.rs:1420-1483 | accepted starts have increasing inputs and engine calls, each accepted where it stands |
| WebSocketSession.OpenExactly | crates/impossible-inferences-server/src/lib.rs:1287-1344 | a session is open exactly as long as no frame has failed and no closing input has come |
| WebSocketSession.RunKeepsUp | crates/impossible-inferences-server/src/lib.rs:1312-1344 | the active generation has consumed exactly one event for every engine input since its start |
| WebSocketSession.OnlyClientsWithdraw | crates/impossible-inferences-server/src/lib.rs:1372-1394 | a generation is withdrawn only by a later cancel of its own id from the client |
| WebSocketSession.EachStartOneTerminal | crates/impossible-inferences-server/src/lib.rs:1287-1556 | every accepted start is one generation under the client's id with exactly one terminal frame, unless it is the one still running or the session closed on it |
| WebSocketSession.OneTerminal | crates/impossible-inferences-server/src/lib.rs:1485-1556 | a served or withdrawn generation has exactly one terminal frame, its last; a running or dropped one has none; all bear its id |
| WebSocketSession.NothingAfterTerminal | crates/impossible-inferences-server/src/lib.rs:1485-1556 | in every session, after a generation's terminal frame the transcript holds no further frame of it |
| WebSocketSession.FramesBelong | crates/impossible-inferences-server/src/lib.rs:1485-1556 | every delta and final frame bears the id the client sent in the accepted start it answers, and generations do not mix |
| WebSocketSession.ServedTellsMeaning | crates/impossible-inferences-server/src/lib.rs:1485-1556 | the frames of a served generation tell what its event queue means |

## Left out

- JSON, SHA-256, zip, tar, gzip, HTTP and process spawning: parameters or outcomes; collision-freedom of digests is a hypothesis only where `VerifyRuntimeTree` and `VerifiedIsPinned` say so.
- The vendored server core: only its monotone cancellation, deadline and gate flags appear; drain timing in the server is not modelled.
- Semaphore fairness and scheduler progress: the admission and lifecycle models state safety and conservation, not that a waiter is served.
- Installer.Disk.Setup: platform, manifest, root and lock checks before it, and reads by `exists`, do not fail in the model; a fault can hit any verification, marker check, write, rename or removal.
- Installer.Disk.VerifyCurrent: what a symbolic link leads to lies outside the managed root and does not change during a run.
- Installer.Disk.ExtractRuntime: writing one extracted file is one step, so a crash leaves whole files.
- ArchiveTree.Extract: permissions and modification times are not modelled, and directories are created with all their parents in one step.
- SidecarLifecycle.InvNext: launching is one step, because the real launch has no await inside it; a dropped child counts as gone, which relies on kill-on-drop.
- SidecarBudget.CallIsBounded: the interleaved machine has no clock, so the bound on health probes is stated by `SidecarStartup` alone.
- SidecarStartup.Supervisor.EnsureRunning: time spent waiting for the lock is part of the first await; rounding of the clock to milliseconds is the model's.
- ContextBound.AcceptedExactly: temperature and `top_p` are reals or not finite; no rounding is involved in the comparisons.
- SseComposition.ServerStreamDecodes: JSON printing and reading are assumed to be inverse on one line.
- Transports.Collect: the HTTP middleware's stop or deadline, and the gRPC server's shutdown, can answer a unary call in its place; `HttpAdmission` has the former.
- WebSocketSession.Session.Serve: the session semaphore, frame size limits and the JSON of frames are not modelled; receiving and sending are one step each.
- Transports.Forward: the bounded channel between the forwarding loop and the client is only visible as a send that may fail.
- `grpc_timeout`, MCP routing and schemas, health, metrics and capabilities endpoints, CLI and configuration resolution, error-message tables: each is settled by reading one branch.
- Log capture and redaction, bearer generation, port reservation, packaging and scripts: shallow or dependent on the operating system.
