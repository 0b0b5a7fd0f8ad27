# A verified model of an LLM inference engine and server

This Dafny project models the exactness claims of a CPU inference engine: three
ways to decode a request that must agree, streaming text automata, a prompt
cache, a 1-bit matrix product, a job queue, an HTTP reader and a sampler.
`dafny verify dfyconfig.toml` checks all of it.

## What is modelled

**Decode engines.** The model is an arbitrary function from the tokens a state
holds to logits; the sampler, the detokenizer and the drafter are arbitrary
functions too. `Decoding` defines a request's answer alone: a fresh state, no
cache, one token per forward. `Speculative` (greedy draft-and-verify decoding),
`Generator` (state reuse, prompt cache, chunked prefill, checkpoints) and
`BatchSession` with `BatchStep` (sessions stepped together by a scheduler) are
proved to give that answer. A forward may fail where `Env.sure` is false, and
only there; `NeverFails` says that logits have the right size and neither
sampler nor detokenizer fails. Under both, every request is answered. The
session has its own copy of the output bookkeeping, as in the source; both
copies are proved against one reference.
`Batcher` is the engine thread that admits, steps, streams and retires, with
arbitrary clients that react to the events they were sent; `BatchClient` is the
worker that waits for a reply. `Replies` says what a reply's text is: the text
of its tokens cut by the stop strings and split into text and reasoning, each
as one whole. `SoloRuns` says of which tokens an answer consists and why it
ended, without the loop that computes it.

**Text automata.** `StopMatcher` and `ReasoningSplitter` hold back what may
still become a stop string or a tag. Both are characterised on the whole text,
independently of how it was chunked; `ThinkBlocks` says what the splitter makes of
a completion written tag by tag.

**Prompt cache.** `PromptCache` is the LRU of snapshots with its block-hash
index and byte budget, for every hash function.

**1-bit GEMM.** Integers and bits are exact; a float is the term that computes
it (`fma`, conversion), so bit-identical results are equal terms. `Q1Reference`
is the scalar loop, `Q1Tile` and `Q1Gemm` the tiled kernel with its work split,
`Q1Multi` the small-batch kernel; `Q1Product` chooses among them.

**Job queue.** Every method is one critical section or one action of the
condition variable, and `Run` takes any sequence of them and returns every
moment and outcome on the way. The affinity answers come with each call and need
not agree with each other.

**HTTP.** `Http` reads requests from a segmented stream; `HttpWire` writes them
in every framing and shows that they are read back (RFC 9112, sections 6.3 and
7.1); `HttpNumbers` has the numbers and names in them, `HttpGrammar` what each
part must look like to be accepted.

**Sampler.** `Nucleus`, `TopK`, `Sampler` and `Penalties` work on exact sums;
weights are bit patterns, ordered like the floats they stand for.

## Where the code and its documentation differ

- A stop string is documented to cut the text at its first occurrence. When one
  stop string lies inside another, the cut depends on how the text was chunked;
  `StopStrings.ChunkingInvisible` gives the exact condition and
  `StopStrings.InnerStopDependsOnChunking` an input.
- Greedy speculation is documented to be lossless. It can fail where the plain
  loop would not, on a row past the end of the plain run: the acceptance loop
  samples after an accepted draft even if that draft ends generation, and all
  rows of a verification must have the right size. Detokenizer and stop strings
  never look further than the plain loop. `DecodeLoops.SpecDecode` has the exact
  condition, `DecodeLoops.FailsBeyondTheRun` says where such a row is and
  `DecodeLoops.SpeculationMayErr` gives a request.

## Model

| member | source | states |
|---|---|---|
| `Decoding.Emit` | src/generation.rs:1672-1699 | every sampled token counts once in `completion`; when generation goes on, the token has joined the output and `completion` is below `max_tokens`; which tokens end a run is `SoloRuns.AnswerMeans` |
| `Emitters.Emitter.Token` | src/generation.rs:1672-1699 | the emitter with its fields updated in place does what the reference bookkeeping does to the whole output state, and never takes back what was delivered |
| `Emitters.Emitter.Complete` | src/generation.rs:1625-1655 | the end of a request releases the detokenizer, the held stop text and the splitter in that order, skipping what a stop string or an abort cuts; it fails exactly when the reference does |
| `DecodeLoops.DecodePlain` | src/generation.rs:1615-1624 | the one-token-per-forward loop ends with the output, finish reason and fed tokens of the reference run, its state holding exactly those tokens; it errs only if the reference run fails, and is stopped by a forward only if one of this request's own is not sure |
| `DecodeLoops.Accept` | src/generation.rs:1842-1880 | the accepted drafts are a prefix on which the target's own choice is the draft, and the next token is the target's choice after them |
| `DecodeLoops.DraftsMean` | src/generation.rs:1767-1800 | a round asks the drafter for as many tokens as the adaptive length, the token budget and the length limit all allow, and verifies what it proposes up to the first proposal that is not a token of the model or comes with a distribution of the wrong size |
| `DecodeLoops.EmitAccepted` | src/generation.rs:1886-1895 | emitting the accepted drafts takes the output to where the plain loop is after as many tokens; a draft that ends generation cuts the batch there |
| `DecodeLoops.SpecRound` | src/generation.rs:1799-1908 | one verify-and-commit round, within `max_seq_len` and the token budget, leaves the state holding exactly the kept tokens and the run where the plain loop is; it errs only if the plain run fails or a verified row cannot be used |
| `DecodeLoops.SpecDecode` | src/generation.rs:1749-1909 | greedy speculative decoding is lossless for every drafter and every draft length: output, finish reason, completion count, fed tokens and state are those of the plain loop; it errs if and only if the plain run fails or `SpecOverreaches` (a verified row has the wrong size or nothing to pick), a failed forward aside; with forwards sure and rows always usable it errs only when the plain run does |
| `DecodeLoops.FailsBeyondTheRun` | src/generation.rs:1842-1880 | where speculation errs and the plain run ends, it is on a verified row that cannot be used and whose context the plain run never holds |
| `DecodeLoops.NoOverreach` | src/generation.rs:1842-1880 | so there is no such failure when logits have the right size and greedy sampling always picks, whatever the detokenizer does |
| `DecodeLoops.SpeculationMayErr` | src/generation.rs:1842-1880 | a concrete request where the plain run ends and speculation errs: the draft that ends generation is accepted and the row after it has nothing to pick |
| `DecodeLoops.ResumeEnds` | src/generation.rs:1615-1624 | if neither the sampler nor the detokenizer fails, the reference run ends: the token budget bounds it |
| `DecodeLoops.SoloAnswers` | src/generation.rs:1464-1656 | and the request is then answered |
| `SoloRuns.AnswerMeans` | src/generation.rs:1464-1700 | what an answer is, without the loop: every output token is the sampler's pick from the logits of the prompt and the tokens before it (greedy, or drawn from a stream that starts at the seed and moves once per token); none is a stop id, nor an end-of-sequence id unless those are ignored; the run went on after every token but perhaps the last; finish `stop` counts one token more, the pick that is such an id; finish `length` has exactly `max_tokens` tokens; the ending token was never fed |
| `SoloRuns.BreakAborts` | src/generation.rs:1681-1699 | the run is aborted exactly when the callback asks to stop, which then gets nothing more |
| `Replies.ReplyTells` | src/generation.rs:1464-1656 | the reply's text and reasoning are the one-shot split of the visible text, which is the text of all its tokens as the stop matcher cuts it; the stop reported is the one that cut; finish is `stop string` exactly then; what a callback that never breaks received adds up to the same |
| `Replies.ReplyIsCutAndSplit` | src/generation.rs:615-651 | for a shadow-free stop list the visible text is the whole text cut at its first stop string, however the detokenizer chunked it |
| `States.ModelState.Truncate` | src/models/q1/qwen35.rs:322-343 | success leaves exactly the prefix, failure what was held before any provisional forward; it succeeds exactly for a state that rolls back anywhere, or for the kept length, zero or the checkpoint |
| `States.ModelState.Commit` | src/models/q1/qwen35.rs:436-464 | after a provisional forward the state holds the first n positions |
| `States.ModelState.TakeSnapshot` | src/models/q1/qwen35.rs:367-399 | a snapshot of n positions exists exactly when the state can represent that prefix, is the state after it and is charged for exactly those positions |
| `States.ModelState.Restore` | src/models/q1/qwen35.rs:401-434 | succeeds exactly for a snapshot of the same kind and shape, and then holds its tokens; otherwise nothing changes |
| `States.ModelState.Forward` | src/models/traits.rs:193-230 | row i is the logits of the held tokens and the first i+1 new ones; it fails only where a forward may fail, and then nothing is promised of the state |
| `Generators.CommonPrefix` | src/generation.rs:1933-1935 | the longest common prefix: equal up to it, different right after |
| `Generators.ReusablePrefix` | src/generation.rs:1917-1930 | keeps as much of the held prefix as the state can roll back to, leaving at least one prompt token, and the state then holds exactly that |
| `Generators.StartUp` | src/generation.rs:1355-1410 | start-up leaves the state holding a proper prefix of the prompt, of exactly the length of the better of the cached prefix (if it fits) and the state's own |
| `Generators.MakePlan` | src/generation.rs:1504-1542 | the checkpoint is at the largest boundary before the end of the prompt, else there, exactly for a caching generator whose state cannot roll back; such a state pauses exactly at the snapshot points, the checkpoint and the end, any other at the end alone; the snapshot points are wanted boundaries, and all those not cached yet when nobody else uses the cache meanwhile |
| `Generators.PromptMeans` | src/generation.rs:1298-1338 | an empty prompt is refused exactly without a BOS token and otherwise answered as the prompt of that token alone; overflow is reported exactly when prompt and budget together exceed the length limit; a request for no tokens gets an empty answer that ends by length |
| `Generators.AtPause` | src/generation.rs:1565-1577 | on reaching a pause the checkpoint is taken exactly where planned, and every snapshot due there is given to the cache |
| `Generators.Prefill` | src/generation.rs:1543-1577 | the logits after prefill are those of the whole prompt whatever the chunks, pauses, snapshots and other slots' cache use; every planned snapshot was given to the cache and the checkpoint is where planned; every forward takes `prefill_chunk` tokens (at least one) or fewer up to a pause; it fails only with a forward of this prompt |
| `Generators.InsertPrefix` | src/generation.rs:1528-1532 | a prefix the state can represent is given to the cache, with other slots using it in between, and is cached afterwards if it is long enough and fits the budget; the cached snapshot is the state after exactly those tokens |
| `Generators.Meanwhile` | src/generation.rs:997-1006 | any operations of other slots keep the cache consistent and every snapshot sound |
| `Generators.SoundAfterInsert` | src/prompt_cache.rs:293-345 | insertion and eviction keep every cached snapshot the state after its own tokens |
| `Generators.Generator.Generate` | src/generation.rs:1291-1460 | a reply is that of the request alone, whatever the generator's state, the shared cache, other slots' interleaved cache use, the prefill pauses and the drafter; it differs only if a forward of this request is not sure, or exactly when speculation verifies a row it cannot use; the generator then still knows what its state holds |
| `Generators.ReplyToIsAlone` | src/generation.rs:1291-1460 | without speculation, or when rows are always usable, that reply is the one of the request alone |
| `Generators.DecodeRequest` | src/generation.rs:1581-1655 | decoding from the prompt's logits completes the reference run; it fails when that does, when speculation overreaches, or with a forward of this request |
| `Generators.Serve` | src/generation.rs:1291-1460 | over any history of requests on slots sharing one cache, under interference, each reply is that of the request alone, up to the two exceptions above; with forwards sure and rows always usable there is none, whatever fails in the detokenizer |
| `BatchSessions.ChunkEnd` | src/batch_session.rs:290-306 | a prefill chunk is not empty, never passes a pause point, and ends at one or has exactly the chunk size (at least one) |
| `BatchSessions.Start` | src/batch_session.rs:110-264 | a session starts exactly when the prompt is not empty, fits, asks for tokens and can be decoded for reasoning; it then serves exactly that request, on the state it was given, with as much of the prompt as a generator would start with and a generator's plan |
| `BatchSessions.DecodeSession.Input` | src/batch_session.rs:290-306 | the next input is the last sampled token, or the next prompt tokens: exactly the chunk size of them, or up to a pause; within `max_seq_len` |
| `BatchSessions.DecodeSession.Feed` | src/batch_session.rs:312-341 | accounting for a forward keeps the session on its reference run; it fails only if the request alone fails, or if a chunk ends inside the prompt where the logits have the wrong size, which the request alone never looks at |
| `BatchSessions.DecodeSession.Prefilled` | src/batch_session.rs:344-364 | reaching a pause keeps the state holding exactly the fed prefix, takes the checkpoint exactly where planned and gives the cache every snapshot due there |
| `BatchSessions.DecodeSession.Sample` | src/batch_session.rs:366-394 | the session's own sampling step is one step of the reference run; an ended session's result is that of the request alone and its state holds the fed tokens |
| `BatchSessions.DecodeSession.Count` | src/batch_session.rs:366-389 | the session's own bookkeeping of a sampled token (stop ids, detokenizer, stop strings, token budget, buffered pieces) does what the reference bookkeeping does to the whole output state, and fails with it |
| `BatchSessions.DecodeSession.EmitText` | src/batch_session.rs:396-404 | text is split and buffered as the reference shows it, nothing that was streamed is taken back |
| `BatchSessions.DecodeSession.Drain` | src/batch_session.rs:407-421 | the end of a session releases the detokenizer and the held stop text as the reference does, with the same finish reason, failing with it |
| `BatchSessions.DecodeSession.End` | src/batch_session.rs:407-430 | an ended session's tokens, text, reasoning, pieces, finish reason, stop string and count are those of the request alone |
| `BatchSessions.AllStreamed` | src/batch_session.rs:396-404 | with nobody to refuse them, the reference delivers all pieces: a session without a callback streams what a callback that never breaks would get |
| `BatchSessions.DecodeSession.Cancel` | src/batch_session.rs:444-452 | cancelling ends a running session as aborted and changes nothing of a finished one |
| `BatchSessions.DecodeSession.Fail` | src/batch_session.rs:454-461 | a failed session is finished and its state is never handed on |
| `BatchSessions.DecodeSession.TakeEvents` | src/batch_session.rs:468-471 | returns exactly the pieces streamed since the last call, in order |
| `BatchSteps.PrefillBounded` | src/batch_session.rs:523-551 | the prefill tokens of a step are at most max(1, budget) |
| `BatchSteps.TakesFit` | src/batch_session.rs:523-551 | a finished session gets nothing, a decoding one exactly one token, a prefilling one at most its chunk |
| `BatchSteps.BudgetSpent` | src/batch_session.rs:523-551 | a prefilling session gets less than its chunk and its remaining prompt only if the prefill tokens granted up to and including it are all of the budget (at least one) |
| `BatchSteps.FirstPrefillAdvances` | src/batch_session.rs:523-551 | the first prefilling session advances whatever the budget |
| `BatchSteps.GrantsBounded` | src/batch_session.rs:523-551 | all a step grants is a token per decoding session and the bounded prefill |
| `BatchSteps.SomeoneAdvances` | src/batch_session.rs:523-551 | a step moves some session while any has work left |
| `BatchSteps.Choose` | src/batch_session.rs:523-551 | the selection loop with its running budget is the grant function, which the neighbouring rows bound from above and below |
| `BatchSteps.ForwardAll` | src/batch_session.rs:556-597 | every chosen session's row is the logits of its own tokens; a failed forward is one that some session taking part was not sure of |
| `BatchSteps.Step` | src/batch_session.rs:523-599 | after a step each session is untouched, or fed exactly its input with less left to do, or ended; a decoding session was fed one token, a prefilling one its chunk or up to a pause unless the budget is spent; one session's own error leaves the others' results unchanged; tokens forwarded are counted and bounded |
| `BatchSteps.RunAll` | src/batch_session.rs:523-599 | any schedule of chunk sizes and budgets finishes every session; its outcome is that of the request alone, unless a forward may fail, logits inside its prompt have the wrong size or the request alone fails; without failures every session has its outcome |
| `BatchSteps.NothingMayFail` | src/batch_session.rs:523-599 | when forwards are sure and nothing else fails, no session may fail |
| `Batchers.Engine.constructor` | server/batcher.rs:232-246 | the engine starts with at least one slot, nothing active and nothing held |
| `Batchers.Engine.Admit` | server/batcher.rs:198-228 | a submission is started exactly when its slot exists, is free and the request is acceptable, on the state the slot held; otherwise it gets its one reply, `unavailable` exactly when the slot is busy or unknown, and only a refusal costs the slot its state |
| `Batchers.Engine.TakeIdle` | server/batcher.rs:212-217 | the slot's state leaves the slot and its tokens are no longer published |
| `Batchers.Engine.CancelAll` | server/batcher.rs:257-261 | after it exactly the running sessions asked to stop have become aborted, every other session is as finished as before, and the invariant, with every request's promise, is kept |
| `Batchers.Engine.StepAll` | server/batcher.rs:262-274 | a step keeps the invariant and moves some session unless all are finished; it grants by the configured chunk and by the budget, or the larger of the two while nobody decodes |
| `Batchers.Engine.Retire` | server/batcher.rs:290-303 | a finished session leaves; its slot gets exactly its state with the tokens it holds, nothing after a failure; its one `Done` event, an error first, follows all its pieces |
| `Batchers.Engine.StreamAll` | server/batcher.rs:275-303 | exactly the finished sessions, and those with pieces for a client that hung up, leave, in order, each with its state and its `Done` event; all others stay in order, running, with everything streamed sent |
| `Batchers.Engine.Round` | server/batcher.rs:257-303 | a round keeps the invariant and the remaining work is a termination measure |
| `Batchers.Engine.SettledIsFree` | server/batcher.rs:198-212 | a slot with no unanswered submission is free |
| `Batchers.Engine.Serve` | server/batcher.rs:232-304 | whatever the clients send, cancel or drop, everything sent is received once in order and answered exactly once; every slot has a state at the end unless it was never used or its last use was refused or failed; if each client waits for its reply, no reply is `unavailable`; and without failures every acceptable submission whose client stayed gets the reply and the stream of the request alone |
| `Batchers.Served` | server/batcher.rs:232-304 | without failures, a client that stays and asks for something acceptable gets the reply of the request alone, all its text streamed before it |
| `Batchers.Leaves` | server/batcher.rs:290-303 | when a session leaves, each state is in one place only and the published tokens are those of the idle states |
| `Batchers.AccountedEnded` | server/batcher.rs:290-303 | no state is lost: a free slot has none exactly if it was never used or its last use was refused or failed; kept when a session ends |
| `Batchers.AccountedStarted` | server/batcher.rs:198-228 | the same when one starts |
| `Batchers.JoinsAll` | server/batcher.rs:212-222 | when a session joins, each slot still has at most one and nothing is shared but the cache |
| `BatchClients.Relay` | server/batcher.rs:120-181 | the worker calls the callback with every piece in order until it breaks, then never again, and still returns the engine's reply |
| `BatchClients.AllRelayed` | server/batcher.rs:120-181 | a callback that never breaks has got every piece when the reply arrives |
| `StopStrings.StopMatcher.Push` | src/generation.rs:615-647 | one push releases text up to the leftmost stop string, or all but the longest suffix that could still become one |
| `StopStrings.StopMatcher.Flush` | src/generation.rs:649-652 | the held text is released |
| `StopStrings.LongestPartial` | src/generation.rs:630-645 | the held suffix is the longest that is a proper prefix of a stop string |
| `StopStrings.Leftmost` | src/generation.rs:618-629 | the leftmost occurrence of any stop string, lowest index first |
| `StopStrings.RunMeaning` | src/generation.rs:615-651 | before a hit released plus held text is the input and the held part is the longest suffix that is a proper prefix of a stop string; a hit cuts at the leftmost stop of the first chunk that completes one |
| `StopStrings.EmittedIsClean` | src/generation.rs:615-651 | emitted text is always a prefix of the input and contains no stop string |
| `StopStrings.ChunkingInvisible` | src/generation.rs:615-651 | exactly which stop lists give the same text and reported stop for every chunking, by a condition on the list alone |
| `StopStrings.CutChunkingInvisible` | src/generation.rs:615-651 | the same for the cut position alone |
| `StopStrings.UnrelatedStopsAreShadowFree` | src/generation.rs:615-651 | lists in which no stop string contains another meet that condition |
| `StopStrings.InnerStopDependsOnChunking` | src/generation.rs:615-651 | the list `abcd`, `bc` does not: two chunkings of one text are cut differently |
| `StopStrings.NonEmptyKeepsOrder` | src/generation.rs:596-613 | empty stop strings are dropped and the others keep their order, so the reported index is that of the list given |
| `Reasoning.ReasoningSplitter.Push` | src/generation.rs:708-782 | the loop over the pending text is the automaton's step function |
| `Reasoning.ReasoningSplitter.Flush` | src/generation.rs:784-795 | a partial tag stays text of the current kind |
| `Reasoning.PushTwice` | src/generation.rs:708-782 | after any text fed so far, pushing two pieces reaches the same state and shows the same text and reasoning as pushing their concatenation |
| `Reasoning.FedReaches` | src/generation.rs:708-782 | the state and everything shown are a function of the whole text fed |
| `Reasoning.AnyChunkingSplitsWhole` | src/generation.rs:708-795 | however a completion is chunked, after the flush its text and reasoning are the one-shot split of the whole with the tag and newline rules |
| `ThinkBlocks.WrittenIsSplit` | src/generation.rs:690-795 | text, `<think>`, reasoning, `</think>` and more text, as a model writes them, split into the two texts joined and the reasoning alone: the tags and the newlines next to them go; an unclosed block is reasoning to the end; without a tag all is text |
| `ThinkBlocks.ContinuedIsSplit` | src/generation.rs:690-795 | the same when the prompt opened the block, whether or not the model repeats the tag |
| `PromptCaches.PromptCache.MatchedKeys` | src/prompt_cache.rs:208-225 | the leading block keys the index knows, and no more |
| `PromptCaches.PromptCache.FindLongest` | src/prompt_cache.rs:208-246 | the walk from the deepest matched key through colliding entries to the short list finds what a linear scan for the longest usable entry of the model finds, for every hash function |
| `PromptCaches.ScanMeans` | src/prompt_cache.rs:208-246 | what that scan finds: an entry of the model that is a prefix of the prompt within the limit, and no such entry is longer; it finds none only when there is none |
| `PromptCaches.DeepestIsLongest` | src/prompt_cache.rs:208-246 | the longest entry under the deepest key that lists any usable one is the longest of all, even when it got there by a collision |
| `PromptCaches.FoundShort` | src/prompt_cache.rs:208-246 | when no key lists a usable entry the short list does, if anything does |
| `PromptCaches.PromptCache.Lookup` | src/prompt_cache.rs:208-246 | returns the linear scan's entry within the limit and makes it the most recently used |
| `PromptCaches.PromptCache.FindExact` | src/prompt_cache.rs:257-269 | finds an entry exactly when one for these tokens is live |
| `PromptCaches.PromptCache.Contains` | src/prompt_cache.rs:271-282 | tells whether an entry exists and refreshes it |
| `PromptCaches.PromptCache.Insert` | src/prompt_cache.rs:293-345 | inserts exactly when long enough, of the right length, within the budget and not yet cached; evicts exactly the fewest least recently used entries needed; index, short list, byte count, distinct tokens and use stamps stay consistent |
| `PromptCaches.EvictFewest` | src/prompt_cache.rs:318-330 | evicting the oldest until it fits drops no entry that any fitting most-recent part keeps |
| `PromptCaches.PromptCache.Remove` | src/prompt_cache.rs:347-364 | removal unlists the entry under exactly its keys, repeated ones included, and frees its bytes |
| `PromptCaches.PromptCache.Clear` | src/prompt_cache.rs:366-372 | clearing leaves no entry, no index key and no bytes |
| `PromptCaches.PromptCache.HeldFits` | src/prompt_cache.rs:293-345 | the snapshots held, four bytes a token and 256 bytes an entry, fit the budget |
| `JobQueues.BestOf` | server/serve.rs:133-153 | the first of the best scores in the window |
| `JobQueues.PickedMeans` | server/serve.rs:133-153 | with matches to go by and a head not yet skipped four times the job taken is the first of the best among the first four, otherwise the head |
| `JobQueues.BestSlot` | server/serve.rs:112-118 | the idle slot without mail that has the best positive match, the lowest of equals; none exactly if no match is positive |
| `JobQueues.TakeIsFair` | server/serve.rs:133-153 | skip counts stay within the limit and do not increase front to back |
| `JobQueues.TakeBringsNearer` | server/serve.rs:133-180 | every removal takes a given job or brings it one nearer |
| `JobQueues.TakenWithin` | server/serve.rs:133-180 | a queued job with p jobs ahead is one of the next p + 1 + `AFFINITY_MAX_SKIPS` minus its skips removed, the affinity answers differing from removal to removal in any way |
| `JobQueues.EnteredIsTakenWithin` | server/serve.rs:133-180 | so a job entering with p ahead is one of the next p + 1 + `AFFINITY_MAX_SKIPS` removed |
| `JobQueues.BoundIsSharp` | server/serve.rs:133-180 | for every p some run leaves the job waiting through p + `AFFINITY_MAX_SKIPS` removals, already with one fixed affinity |
| `JobQueues.JobQueue.TryPush` | server/serve.rs:106-130 | refused exactly after shutdown or at the cap, nothing changing; handed to the best idle slot if the queue is empty and one matches, else queued at the back; a notification is owed accordingly |
| `JobQueues.JobQueue.Pick` | server/serve.rs:133-153 | the fold over the window returns the picked index and skips exactly the jobs before it |
| `JobQueues.JobQueue.Attempt` | server/serve.rs:157-180 | a worker with the lock stops exactly after shutdown, takes its mailbox first, else the picked job, else blocks; the whole new state is given and the invariant kept |
| `JobQueues.JobQueue.Finish` | server/serve.rs:182-185 | `busy` stays jobs delivered minus jobs finished |
| `JobQueues.JobQueue.Shutdown` | server/serve.rs:187-191 | shutdown owes every worker a notification |
| `JobQueues.JobQueue.NotifyOne` | server/serve.rs:127-128 | `notify_one` wakes one waiting worker if there is one and keeps enough workers awake |
| `JobQueues.JobQueue.NotifyAll` | server/serve.rs:121-122 | `notify_all` wakes every waiting worker |
| `JobQueues.JobQueue.WakeSpuriously` | server/serve.rs:178-178 | a wake-up nobody asked for does no harm |
| `JobQueues.JobQueue.NoLostWakeup` | server/serve.rs:157-180 | while a job is queued or in a mailbox some worker is awake or busy, or a notification is owed |
| `JobQueues.JobQueue.Run` | server/serve.rs:106-191 | for any sequence of actions of any threads: each is done, refused or not possible exactly as the source has it at that moment (`StepOk` fixes outcome and whole next state, but for which waiting worker `notify_one` wakes), and the invariant holds at every moment: every accepted job queued, mailed or delivered once, pending within the cap, enough workers awake |
| `JobQueues.RunCounts` | server/serve.rs:106-185 | in any run the jobs accepted, delivered and finished are those the outcomes name |
| `JobQueues.RunIsOps` | server/serve.rs:106-180 | in any run the queue changes, and jobs leave it, as the entering and taking actions alone say |
| `JobQueues.QueuedIsTaken` | server/serve.rs:106-180 | in any run a job queued with p jobs ahead of it is one of the next p + 1 + `AFFINITY_MAX_SKIPS` that the remaining actions take from the queue |
| `JobQueues.HandedIsNext` | server/serve.rs:106-180 | in any run a job handed to a slot stays in its mailbox until that slot's worker takes it, and the worker takes nothing else before |
| `Http.ReadLine` | server/http.rs:157-186 | a line is read by the bytes of the stream alone, capped with its terminator, over any segmentation |
| `Http.ReadFields` | server/http.rs:202-240 | header fields are read as the bytes of the stream say, whatever the segments |
| `Http.ReadSize` | server/http.rs:259-281 | the chunk size is the hexadecimal value before the extension, refused when empty, too long or not hexadecimal |
| `Http.ReadChunked` | server/http.rs:254-298 | a chunked body is decoded, capped and its trailers skipped, as the bytes say |
| `Http.ReadFraming` | server/http.rs:355-405 | the header scan with its running values is the framing function, characterised by `HttpWire.FramingMeans` and `HttpGrammar.RefusalMeans` |
| `Http.ReadRequest` | server/http.rs:309-427 | what is read depends only on the bytes, not on how the stream is segmented, and exactly that request is consumed |
| `HttpNumbers.DecimalIsRead` | server/http.rs:355-370 | for every number: written in decimal, most significant digit first, with any leading zeros, it is read back as a Content-Length, and refused exactly beyond 20 digits or 64 bits |
| `HttpNumbers.HexadecimalIsRead` | server/http.rs:259-275 | the same for a chunk size in hexadecimal, in either case, refused exactly beyond 16 digits |
| `HttpNumbers.FramingNames` | server/http.rs:355-385 | `Content-Length`, `Transfer-Encoding` and `chunked` are recognised in every spelling, and no other name is taken for one of them |
| `HttpWire.ChunksReadBack` | server/http.rs:254-298 | any split of a body into chunks within the limits, with extensions and trailers, decodes to the body and leaves what follows |
| `HttpWire.FramedIsRead` | server/http.rs:355-405 | a body announced by its length in decimal, by one chunked coding or by nothing is framed as announced |
| `HttpWire.RoundTrip` | server/http.rs:309-427 | a request within the limits, its length written in decimal or its chunk sizes in hexadecimal, is read back whole and nothing after it is touched |
| `HttpWire.Pipelined` | server/http.rs:309-427 | pipelined requests are read in turn, then the connection is closed |
| `HttpWire.FramingMeans` | server/http.rs:355-405 | section 6.3 of RFC 9112 exactly: no body, a length all Content-Length fields agree on within the cap, or chunked in HTTP/1.1 with one coding and no length; anything else is refused |
| `HttpWire.CapsHold` | server/http.rs:254-298 | an accepted body and header count are within their caps |
| `HttpGrammar.LineMeans` | server/http.rs:157-186 | a line is read exactly if the bytes are it, its terminator and the rest, within the cap |
| `HttpGrammar.NoLineMeans` | server/http.rs:157-186 | otherwise it is too long exactly if more bytes than the cap came |
| `HttpGrammar.StartMeans` | server/http.rs:330-350 | a request line is accepted exactly if it is a token, a target without control characters and one of the two versions, with single spaces |
| `HttpGrammar.UnknownVersion` | server/http.rs:345-350 | any other version is refused as such |
| `HttpGrammar.FieldMeans` | server/http.rs:209-240 | a header line is accepted exactly if it is a token, a colon and printable text, whose value is that text without surrounding blanks |
| `HttpGrammar.SizeMeans` | server/http.rs:259-275 | a chunk line is accepted exactly if it is 1 to 16 hexadecimal digits, blanks and possibly an extension |
| `HttpGrammar.RefusalMeans` | server/http.rs:355-405 | which framings are refused as too large and which as an unknown coding, exactly; all others are bad requests |
| `Q1Bits.PermutedByPerm32` | src/bit1/q1_0.rs:389-391 | the gathered copy holds element e where `perm32` says |
| `Q1Bits.SameExpansion` | src/bit1/q1_0.rs:1641-1700 | shifting and masking a sign word is the same by either instruction order |
| `Q1Bits.ExpandedByte` | src/bit1/q1_0.rs:1641-1700 | byte p of group j of an expanded word is sign bit 8p + j |
| `Q1Bits.SubBlockIs` | src/bit1/q1_0.rs:713-741 | doubling the set signs' sum from an accumulator started at minus the element sum gives the signed sum, with no partial sum beyond 16 or 32 bits for bytes of magnitude at most 127 |
| `Q1Bits.HalfIs` | src/bit1/q1_0.rs:1641-1805 | the same when a sub-block is taken in two halves |
| `Q1Reference.DotRowsScalar` | src/bit1/q1_0.rs:713-741 | the scalar loops write exactly the reference dot of each row and leave the rest |
| `Q1Reference.LegalShapes` | src/bit1/q1_0.rs:161-165 | which operands can be multiplied, spelled out: the three pairs of block sizes, whole blocks, values within 127, copies holding every element where `perm32` puts it, and negated sums; nothing else is asked |
| `Q1Reference.BlockDot` | src/bit1/q1_0.rs:713-741 | a block's signed sum is that of its sub-blocks |
| `Q1Buffers.DeriveRow` | src/bit1/q1_0.rs:520-547 | the permuted copy and the negated sums of a quantized row |
| `Q1Buffers.Derive` | src/bit1/q1_0.rs:418-470 | rows quantized to values within 127 in whole blocks of 32 or 128 become operands every kernel accepts, values and scales unchanged |
| `Q1Buffers.FillPacked` | src/bit1/q1_0.rs:2123-2177 | every token of every tile is packed where the kernels read it; padding tokens are zero |
| `Q1Buffers.FillSlab` | src/bit1/q1_0.rs:1935-1985 | every lane of a slab holds its row's expanded words and scales; padding lanes are zero |
| `Q1Lanes.SubBlock` | src/bit1/q1_0.rs:2325-2420 | every lane and token of a tile gets its sub-block's contribution, by either instruction sequence |
| `Q1Lanes.SubBlockAddsDot` | src/bit1/q1_0.rs:2325-2420 | that contribution is the sub-block's signed sum, exactly |
| `Q1Tile.Block` | src/bit1/q1_0.rs:2534-2633 | the integer block dots of a tile are exact for every lane and token |
| `Q1Tile.AddWeightBlocks` | src/bit1/q1_0.rs:2534-2633 | the `fma` chain over weight blocks is the reference's, term for term and in order |
| `Q1Gemm.SplitIsOk` | src/bit1/q1_0.rs:2204-2259 | the repeated ceiling divisions give a well-formed split for all n, rows and thread counts |
| `Q1Gemm.SplitIsExact` | src/bit1/q1_0.rs:2204-2259 | every pair of token tile and row slab belongs to exactly one work item |
| `Q1Gemm.NoEmptyItem` | src/bit1/q1_0.rs:2204-2259 | no item has an empty tile or slab range |
| `Q1Gemm.StoreToken` | src/bit1/q1_0.rs:2297-2307 | the clipped store writes exactly the token's rows of this slab, each once |
| `Q1Gemm.RunJob` | src/bit1/q1_0.rs:2325-2420 | 512-column chunks with spilled row sums give the reference dot for every token and row of the job, nothing else changing |
| `Q1Gemm.Covered` | src/bit1/q1_0.rs:2204-2259 | every output belongs to some item |
| `Q1Gemm.GemmTiled` | src/bit1/q1_0.rs:2204-2259 | for all legal shapes, chunk lengths, thread counts and orders of the work items the tiled GEMM equals the scalar reference term for term in every output |
| `Q1Multi.FoldedIsExpanded` | src/bit1/q1_0.rs:1641-1700 | expanding a row's word on the fly is what the slab would hold |
| `Q1Multi.MultiKernel` | src/bit1/q1_0.rs:1641-1805 | the small-batch kernel stores the reference dot for its rows and tokens, padded lanes clipped, nothing else changing |
| `Q1Multi.GemmMulti` | src/bit1/q1_0.rs:1409-1470 | the small-batch GEMM equals the scalar reference term for term in every output, for every lane count and row chunk |
| `Q1Product.GemmRows` | src/bit1/q1_0.rs:1897-1916 | the row kernel once per token over row chunks writes the reference dot everywhere |
| `Q1Product.GemmWith` | src/bit1/q1_0.rs:1382-1401 | every kernel, of any legal shape and on freshly prepared buffers, equals the scalar reference in every output |
| `Q1Product.Gemm` | src/bit1/q1_0.rs:1210-1222 | so the product does not depend on the kernel chosen for the number of tokens |
| `Nucleus.MaskedSum` | src/sampler.rs:313-333 | the mass and number of the weights at or above a threshold |
| `Nucleus.OnlyThreshold` | src/sampler.rs:388-441 | the largest threshold whose mass reaches the target is unique |
| `Nucleus.TopPThreshold` | src/sampler.rs:388-441 | bisection with hint, early exit and sorted band walk returns that threshold, so the kept set is the smallest descending prefix reaching the target with boundary ties all kept |
| `Nucleus.ScanDense` | src/sampler.rs:335-355 | the block-skipping scan returns the weight whose share contains the draw, or the last kept one if the draw is past the mass |
| `TopK.SelectTopK` | src/sampler.rs:792-817 | the bounded buffer with block skipping holds exactly the k best by value descending, index ascending |
| `TopK.KeptIffRanked` | src/sampler.rs:792-817 | a token is kept exactly if fewer than k tokens are better |
| `TopK.KBestSelects` | src/sampler.rs:792-827 | so the buffer is one of the selections that leave out nothing larger |
| `Sampling.KeptIsSelected` | src/sampler.rs:792-827 | by buffer or by partition, the candidates are k distinct tokens none below one left out |
| `Sampling.Shortlist` | src/sampler.rs:606-640 | the candidate loop with its cut-offs is the reference list |
| `Sampling.DenseThreshold` | src/sampler.rs:653-672 | the dense threshold is the larger of the top-p threshold and min-p |
| `Sampling.ListKeepsShare` | src/sampler.rs:620-640 | of the top-k list, without min-p, top-p keeps the shortest part whose mass is the share `top_p` of the list's: without its last candidate it falls short of that or of the smallest target |
| `Sampling.DenseKeepsShare` | src/sampler.rs:653-672 | of all weights it keeps those at or above one of them: they have that share of the mass, and without the lightest of them they do not |
| `Sampling.MinPCuts` | src/sampler.rs:634-672 | min-p then drops exactly what is lighter than the cut-off and than one, from a list only at its end and never its first |
| `Sampling.CandsProper` | src/sampler.rs:596-680 | whatever the parameters, something survives truncation, each token once |
| `Sampling.Sample` | src/sampler.rs:596-680 | for a uniform draw u the sampler returns the token whose share of the candidates contains u; it fails exactly when no logit is above minus infinity |
| `Sampling.SampleWeights` | src/sampler.rs:777-785 | the same for given weights; it fails exactly when they sum to nothing |
| `Sampling.Distribution` | src/sampler.rs:684-774 | every reported probability is the token's share of the same candidates |
| `Sampling.ReportTopK` | src/sampler.rs:718-752 | the second copy of the candidate loop, with its own cut-offs, reports the shares of the same candidates as the first draws from |
| `Sampling.ReportDense` | src/sampler.rs:754-773 | so does the second copy of the dense path |
| `Sampling.DrawFollowsReport` | src/sampler.rs:596-680 | the draws that return a token form an interval as long as its share |
| `Sampling.SampleFollowsDistribution` | src/sampler.rs:596-774 | for every parameter setting the draws that return a token, and no other, form an interval as long as its reported probability |
| `Penalties.Tables.Apply` | src/sampler.rs:547-594 | each token of the window is penalized once, by its number of occurrences in the output part, and no other: what frequency and presence took aside, a positive logit was divided by the repetition penalty and any other multiplied; the result does not depend on earlier calls, also when call numbers wrap around |
| `Penalties.Discourages` | src/sampler.rs:580-592 | with repetition at least one and the others not negative no logit rises, and with more than one every non-zero logit in the window falls |
| `Penalties.OneOccurrenceMore` | src/sampler.rs:588-592 | the first occurrence in the output costs frequency and presence, every further one frequency |
| `Penalties.RecentParts` | src/sampler.rs:557-563 | the two slices are the last tokens of prompt and output |
| `Penalties.WindowMeans` | src/sampler.rs:557-563 | the window is the last `penalty_last_n` tokens of prompt and output, or all of them |

## Left out

- DecodeLoops.SpecDecode: greedy only; stochastic acceptance, `AdaptiveK` and the drafters are arbitrary functions, since `src/speculative.rs` is not part of this model.
- States.ModelState.Forward: forwards are an uninterpreted function of the held tokens; a batched forward that returns the wrong number of results is not modelled.
- BatchSessions.Start: the session refuses `max_tokens` 0, the generator answers it with an empty reply; the model keeps both, so the two agree on positive `max_tokens`. The start-up and planning code, which the session repeats line for line, is one method each (`Generators.StartUp`, `Generators.MakePlan`), used twice.
- StopStrings.StopMatcher.Push: text is a sequence of characters; the code cuts UTF-8 bytes only at character boundaries.
- Replies.ReplyTells: the text pieces of the tokens are whatever the detokenizer completes; that they concatenate to the decoding of all tokens is a property of the tokenizer.
- Batchers.Engine.Serve: submissions carry an identifier for their cancel flag; wall-clock time, thread start-up and join are not modelled.
- Q1Gemm.GemmTiled: work items run one after another in any order, each writing only its own outputs; simultaneous execution is not modelled.
- Q1Buffers.FillPacked: buffers are indexed by tile, sub-block and token, not by flat offset; SIMD registers are sequences of lanes.
- Sampling.Sample: sums, products and quotients are exact reals; the fallbacks for rounding at the end of a scan are unreachable here.
- Penalties.Tables.Apply: arithmetic is exact; occurrence counts are unbounded, not 32-bit.
- HttpWire.RoundTrip: header values are those that are valid UTF-8 (others are read with replacements) and the body cap is below 2^64.
- HttpWire.CapsHold: with a body cap of 2^64 - 1 the saturating size check never refuses, so the cap is taken to be smaller.
- JobQueues.JobQueue.Run: mutex poisoning and more than one worker per slot are not modelled.
- Q1Product.GemmRows: the row kernel is the scalar one; its vector forms (`dot_rows_avx2` and the AVX-512 row kernels) are not modelled, nor is the intermediate buffer.
- The rounding of `quantize_block`, GGUF packing and dequantization.
- The random generators, `fast_exp_neg`, NaN handling and temperature: weights and logits enter after them.
- The `100-continue` callback, timeouts, responses, routing, JSON validation and sockets.
- Timings, statistics counters, chat templates, the tokenizer and the stream decoder.
