# Orchicon control plane: a Dafny model of its protocols, parsers and allocators

Orchicon is a Go control plane for AI agents. Most of it moves rows and messages about; what is hard in it sits in a
few small stateful protocols and parsers. This project models those and proves what they keep, over every input, every
interleaving or every run. `dafny verify dfyconfig.toml` checks all of it.

How it is written:

- A Go object that is updated in place is a class, one method per critical section or operation. Its `Value()` is the
  object as a value, and each method's contract equates the new value with a function of the old one. What the source
  promises is then proved about those functions.
- A protocol of goroutines is a step system. A world holds the shared value and, per goroutine, the section it is about
  to enter; a run is a sequence of worlds and events; theorems speak about every run.
- A loop of the source is a loop here, proved against a function or against its promise directly.
- Clocks, probes, the JSON decoder, the stall monitor's verdicts, the operator's answers and every failure of the
  database, the serve or a subprocess are parameters or labels of the events they decide.

The modules, hardest first:

| module | what it models |
|---|---|
| TurnRegistry, TurnProtocol, TurnAdmission, TurnHubs, TurnWitnesses | the registry of ask turns and their broadcast hubs, and dispatchers, interjections, Stop, deletion, sweepers and collectors interleaving over it |
| TurnHistory | what the registry says about a turn, told from what was registered and reported |
| TurnAlone | one dispatch, interjection or sweep that nobody interrupts, as operations of the registry |
| HubRegistry | the two lock sections in which a conversation's hub is replaced |
| Attempt, Reasoning | the drain loop of one attempt: what it takes in, what it hands over however it ends |
| Collector, TurnEnds | the attempts of a whole turn, with their re-attach, recycle and recreate budgets, run on module Attempt; how a turn ends |
| ThinkSegmenter, ShownThinking | the streaming demultiplexer that separates answers from folded thinking, and how thinking looks while it grows |
| ModelCache, ModelCacheProtocol | the stale-while-revalidate model list with its single-flight probe |
| PartialMirror | the flusher and finalizer behind the partial reply of a running turn |
| ToolLedger, LedgerContent, LedgerRepair | the live tool ledger, what it says and of whom, and the repair that makes any ledger acceptable to a provider |
| ModelParser | the line and brace-depth machine that reads the model listing |
| McpClients, McpLifetime, McpOverlap | the MCP clients of conversations: none leaked, none closed twice, how long each lives; and calls that overlap, lock section by lock section |
| PortPlan, PortChoice, Attachments | host-port planning, and attachment names |
| ModelRef | the four readers of the model reference grammar |
| CostSplit | usage cost, its authority and its split over token classes |
| Text, Bytes, Common | the string operations the others share, on code points and on bytes; an option type and a lemma on sets |

## What the proofs found

The model follows the code. Where the code does not keep a promise of its own comments, a lemma gives the inputs and
another says when it does keep it.

- Two dispatchers that interleave exceed the turn cap by one (`TurnWitnesses.CapExceededByTwoDispatchers`); the bound
  that does hold is `TurnAdmission.AdmissionBound`, and it is reached for every number of dispatchers
  (`TurnWitnesses.AdmissionBoundIsReached`).
- The hub registry is keyed by conversation alone, so a live turn can lose its hub to the collector it superseded
  (`TurnWitnesses.SupersededCollectorDropsNewerHub`) or to a dispatcher that gave up its own turn
  (`ReleasedDispatchDropsNewerHub`). A turn keeps its hub exactly as long as nobody takes the conversation's
  (`TurnHubs.HubKeptIff`), and whether anybody still can is decided when it is created (`HubCanBeLostIff`).
- A hub is replaced in two lock sections, so of two overlapping creates the later can overwrite the hub of the other
  without closing it (`HubRegistry.OverlappingCreatesAbandon`, exactly when: `OverwritesOpenIff`).
- A sweep does not look at a turn's activity again before it evicts it (`TurnWitnesses.ProgressDoesNotStopEviction`,
  exactly when it is still quiet: `TurnProtocol.EvictedStillQuietIff`).
- Thinking is shown byte by byte, each byte converted to a string of its own, so a character that is not ASCII grows as
  two or more others; what is shown is what is thought exactly if no such byte was shown alone
  (`ThinkSegmenter.GrownIsThinkingIff`, for texts exactly if the thinking is ASCII: `GrownIsThinkingForText`).
- Therefore a thought that is open when an attempt ends is kept twice, once garbled, if it is not ASCII
  (`Attempt.NonAsciiThoughtIsKeptTwice`); and so is one that a completed reasoning part tore
  (`TornThoughtIsKeptTwice`). Exactly when it is kept once: `Reasoning.OpenThoughtIsKeptOnceIff`.
- A thinking tag that follows the beginning of another tag is missed and leaks into the answer
  (`ThinkSegmenter.TagAfterFragmentIff`), and a stream that ends in the beginning of a tag loses it
  (`StreamSurvivesIff`).
- The decision on a raised card is recorded under the id of the ask, which is recorded already, so the repair at the end
  of the turn drops the decision's call (`ToolLedger.RaisedCardKeepsOnlyTheAsk`, `SecondDecisionIsLost`; exactly when
  every call is kept: `TerminalWriteKeepsCallsIff`, over the attempts of a turn: `Collector.TurnKeepsCallsIff`).
- An interjection checks the cap after it has removed the running turn, so where the cap was exceeded the turn is lost and
  the interjection refused (`TurnAlone.InterjectionRefusedIff`).
- An interjection looks at the turn before it cancels it, so it can dispatch onto a session that wedged in between
  (`TurnHistory.WedgeIsMissedIff`).
- With no recycle allowed, a wedge does not tell the turn that the serve was up, so the short grace for a serve that was
  never up can end it (`TurnEnds.WedgedTurnIsTakenForDown`).
- Every attempt of a turn sends the user's message. After a lost bus, and after a wedge past the recycle budget, where a
  comment says the collector goes on listening, it goes to the same session once more
  (`Collector.MessageIsSentAgainIff`).
- A turn ends with the text of its last attempt alone (`Collector.TextIsTheLastAttempts`), so a reply that was complete
  when the bus was lost is dropped (`CompletedPartIsLost`).
- An invalidation of the model list during a probe is lost (`ModelCache.InvalidateDuringProbeIsLost`). Exactly when one
  takes effect: at once, `InvalidateRefreshesIff`; over every run, `ModelCacheProtocol.InvalidationTakesEffectIff`.
- A metadata block without a reference, which the parser's comment expects at the head of a listing, keeps the listing
  from being read back whenever it has items (`ModelParser.LeadingBlockIff`). A block is read back exactly if its brace
  depth, counted as 1 after its first line, closes (`BlockReadBackIff`); one on a single line is not, and swallows what
  follows (`OneLineBlockSwallows`).
- A superseded turn that wrote no text can lose its newest snapshot (`PartialMirror.NewestCanBeLost`, exactly when:
  `NewestSurvivesIff`).
- A refresh of a conversation's MCP servers that overlaps any other call on the conversation can leak a client or close
  one twice, and so can two uses that overlap; uses, closings and shutdowns that overlap otherwise never do. Which pairs
  do is `McpOverlap.CanBreakIff`, the runs are `OverlappingFirstUsesLeak` and the four after it, and what stays true in
  all other runs is `ConservedWhileApart`. A client is lost exactly when `StoreLosesIff` says.
- `a/b/` routes to one adapter and parses under another (`ModelRef.TrailingSlashDisagrees`), and normalization without
  kinds is not idempotent (`NormalizeNilNotIdempotent`, exactly when it is: `NormalizeNilIdempotentIff`).

## Model

| member | source | states |
|---|---|---|
| TurnRegistry.Turns.Register | internal/askorchicon/chat.go:349-359 | a conversation gets a turn, under a token never used before, only if it has none |
| TurnRegistry.Turns.Get | internal/askorchicon/chat.go:366-371 | says whether a turn is in flight, and which |
| TurnRegistry.Turns.Len | internal/askorchicon/chat.go:376-380 | how many conversations have a turn in flight |
| TurnRegistry.Turns.MarkWedged | internal/askorchicon/chat.go:385-392 | marks the caller's own generation, and nothing else |
| TurnRegistry.Turns.MarkActivity | internal/askorchicon/chat.go:399-406 | stamps the caller's own generation, and nothing else |
| TurnRegistry.Turns.Cancel | internal/askorchicon/chat.go:412-420 | cancels the turn of a conversation with a cause, the first of which stays, leaves it registered, and returns the token it is registered under |
| TurnRegistry.Turns.Remove | internal/askorchicon/chat.go:426-432 | takes the caller's own generation out, and nothing else |
| TurnRegistry.Turns.Scan | internal/askorchicon/chat.go:470-477 | lists exactly the entries quiet for longer than the limit, each once |
| TurnRegistry.Turns.EvictIfCurrent | internal/askorchicon/chat.go:484-493 | cancels and removes a candidate only if it is still the scanned generation |
| TurnRegistry.Turns.Sweep | internal/askorchicon/chat.go:464-496 | a whole sweep is the scan followed by the evictions of the unparked candidates, in order |
| TurnRegistry.StaleCallsAreNoOps | internal/askorchicon/chat.go:385-432 | remove, markWedged, markActivity and eviction on behalf of a generation the registry no longer holds change nothing |
| TurnRegistry.SweepIsExact | internal/askorchicon/chat.go:434-463 | an undisturbed sweep removes exactly the quiet unparked turns, expires those and no other, and reports exactly those |
| TurnRegistry.OperationsKeepIssued | internal/askorchicon/chat.go:385-495 | no operation brings a token into the registry that was not issued, or for two conversations |
| TurnRegistry.SupersedeTakesOver | internal/askorchicon/chat.go:808-880 | in every registry that holds the conversation, cancelling, removing under the returned token and registering succeeds under a larger token and leaves every other entry alone |
| TurnHistory.EntryIsReported | internal/askorchicon/chat.go:349-406 | over every run, each field of an entry is what was registered for that generation or last reported for it: the wedged mark and the activity stamp show exactly its own reports |
| TurnHistory.WedgeIsMissedIff | internal/askorchicon/chat.go:809-831 | an interjection dispatches onto the session that the superseded turn had wedged on exactly if the wedge was reported between its look at the turn and the cancellation |
| TurnAlone.DispatchAlone | internal/askorchicon/chat.go:808-880 | the sections of a dispatch that nobody interrupts amount to: supersede if asked to, then refuse a busy conversation whatever the cap, refuse at the cap, or register |
| TurnAlone.InterjectionRefusedIff | internal/askorchicon/chat.go:808-866 | an uninterrupted interjection over a running turn is refused exactly if the registry holds more turns than the cap, and then the running turn is gone all the same |
| TurnAlone.SweepAlone | internal/askorchicon/chat.go:479-496 | the sections of a sweep that nobody interrupts evict and report what the registry's sweep does, parked turns spared |
| TurnProtocol.AtMostOneLiveTurn | internal/askorchicon/chat.go:311-331 | in every interleaving a conversation has at most one turn that is neither cancelled nor finished, and it is the one the registry holds |
| TurnProtocol.NoOrphanedEntry | internal/askorchicon/chat.go:318-326 | every registered turn has a dispatcher or a collector that will still take it out |
| TurnProtocol.CollectorTouchesOnlyItsOwn | internal/askorchicon/chat.go:1611 | what a stale collector does never changes a newer generation's entry |
| TurnProtocol.FirstCauseWins | internal/askorchicon/chat.go:262-279 | the first cause a turn is cancelled with is the one it is finalized with, in every run |
| TurnProtocol.CancelReachesTheRunningTurn | internal/askorchicon/chat.go:408-420 | Stop, deletion and interjection cancel the running turn for good, with their cause, and leave it registered |
| TurnProtocol.EvictionsAreExact | internal/askorchicon/chat.go:434-463 | over every run with concurrent sweepers, whatever was evicted was quiet at its scan, is cancelled and gone, and no generation is evicted twice |
| TurnProtocol.EvictionStepExact | internal/askorchicon/chat.go:479-495 | an eviction removes the scanned generation or nothing, and no turn registered after the scan |
| TurnProtocol.EvictedStillQuietIff | internal/askorchicon/chat.go:484-493 | at its eviction a turn is still quiet exactly if nothing was reported for it since the scan |
| TurnAdmission.AdmissionBound | internal/askorchicon/chat.go:863-875 | with at most k dispatchers between check and registration the registry never holds more than cap - 1 + k turns, the dispatchers that skipped the check included |
| TurnAdmission.SerializedDispatchKeepsCap | internal/askorchicon/chat.go:236-252 | serialized dispatch never exceeds the cap |
| TurnAdmission.LoadGrowsOnlyAtCapCheck | internal/askorchicon/chat.go:853-866 | registered and admitted conversations together grow only through a passed cap check |
| TurnWitnesses.CapExceededByTwoDispatchers | internal/askorchicon/chat.go:863-875 | from any state with a slot left, two dispatchers can interleave so that both register |
| TurnWitnesses.AdmissionBoundIsReached | internal/askorchicon/chat.go:863-875 | for every cap and every k there is a run, with at most k dispatchers in between throughout, that ends with cap - 1 + k turns |
| TurnWitnesses.SupersededCollectorDropsNewerHub | internal/askorchicon/chat.go:1612 | a run from the initial state that leaves a live, running, registered turn without a hub |
| TurnWitnesses.ReleasedDispatchDropsNewerHub | internal/askorchicon/chat.go:1029-1036 | so it can without any collector: a dispatcher that gave its turn up removes the hub of the turn dispatched since |
| TurnHubs.HubKeptIff | internal/askorchicon/turn_hub.go:45-94 | over every run, the hub created for a turn is still that turn's exactly if since then no collector and no dispatcher removed the conversation's hub and none created another |
| TurnHubs.HubCanBeLostIff | internal/askorchicon/chat.go:1012-1036 | when its hub is created, a turn can lose it in some continuation, uncancelled and still collecting, exactly if an older collector of the conversation runs or another dispatcher of it has a hub to create or to remove |
| TurnHubs.TakerIsStale | internal/askorchicon/chat.go:1611-1612 | whoever takes the hub of such a turn acts for a turn that was cancelled before, or for one it gave up |
| HubRegistry.OverwritesOpenIff | internal/askorchicon/turn_hub.go:45-60 | over every run, a create that found a hub overwrites one that nobody closes exactly if, since its first section, another hub was stored for the conversation and not taken out to be closed |
| HubRegistry.OverlappingCreatesAbandon | internal/askorchicon/turn_hub.go:45-60 | a run of two overlapping creates after which one hub is neither registered nor closed |
| TurnWitnesses.ProgressDoesNotStopEviction | internal/askorchicon/chat.go:484-493 | a run from the initial state in which a turn is evicted right after it reported progress, however recent |
| Attempt.DrainLoop.Drain | internal/askorchicon/chat.go:2047-2531 | the drain loop ends at the first input that ends it, with the state and result the inputs before it determine |
| Attempt.DrainLoop.Handle | internal/askorchicon/chat.go:2048-2290 | the effect of each kind of input on the attempt, and which of them end it |
| Attempt.DrainLoop.OnContent | internal/askorchicon/chat.go:2295-2528 | what each kind of content does to text, reasoning, ledger and monitor |
| Attempt.DrainLoop.OnTextPart | internal/askorchicon/chat.go:2446-2491 | a completed text part is demultiplexed afresh and subsumes the deltas that built it |
| Attempt.DrainLoop.FeedDelta | internal/askorchicon/chat.go:2329-2350 | the callbacks a delta triggers, in order |
| Attempt.DrainLoop.CommitThink | internal/askorchicon/chat.go:1936-1951 | a folded body becomes reasoning once |
| Attempt.DrainLoop.SettleAttempt | internal/askorchicon/chat.go:1979-1996 | the one exit folds in what streamed and was not superseded |
| Attempt.ForeignEventsDoNotMatter | internal/askorchicon/chat.go:2201-2209 | non-interference: deleting all events of other sessions and all output before acceptance changes nothing at all, for every trace |
| Attempt.CollectedIff | internal/askorchicon/chat.go:2205-2212 | a turn completes exactly at its own session's first idle after acceptance; a stale idle never completes it |
| Attempt.SentIffAccepted | internal/askorchicon/chat.go:2161 | the guard is up exactly if the message was accepted |
| Attempt.StateAgrees | internal/askorchicon/chat.go:1867-1872 | durable text is that of the completed parts alone, live text that of the deltas since, and the monitor saw exactly this turn's content |
| Attempt.LedgerAgrees | internal/askorchicon/chat.go:2162-2285 | at every moment and every exit the tool ledger is what it was before with exactly the calls and resolutions of this turn's content and the consent records of its asks and replies, in order |
| Attempt.AsksAgree | internal/askorchicon/chat.go:2213-2290 | every ask of the own session, and no other, is put before the consent layer, once and in order, before and after acceptance |
| Attempt.EndsIff | internal/askorchicon/chat.go:2047-2290 | which inputs end an attempt, and with which result or error; the handshake timer after acceptance and the reply window while the operator is waited for change nothing |
| Reasoning.ReasoningAgrees | internal/askorchicon/chat.go:1924-1951 | at every moment the reasoning is what arrived, in order: completed reasoning parts, and each thought folded into the stream or a completed part once, at its first arrival |
| Reasoning.ReasoningIsComplete | internal/askorchicon/chat.go:1958-1996 | at every exit it is that, with the thought still open, and then what else the live tail holds unless blank |
| Attempt.TextIsComplete | internal/askorchicon/chat.go:1958-1974 | however an attempt ends, it hands over all its text: the completed parts and what streamed since |
| Attempt.RecreatedOnce | internal/askorchicon/chat.go:2146-2157 | an attempt on a recreated session never asks for another |
| Attempt.TailAgrees | internal/askorchicon/chat.go:1976-1990 | at every moment the live reasoning is the native reasoning since the last reset followed by the open thought as shown, from where a completed reasoning part last tore it |
| Reasoning.OpenThoughtIsKeptOnceIff | internal/askorchicon/chat.go:1953-1996 | the reasoning handed over has the open thought and the native reasoning once each exactly if the thought is empty, or ASCII and not torn, or what came since it was torn is blank or shows as the whole of it |
| Attempt.NonAsciiThoughtIsKeptTwice | internal/askorchicon/thinksegmenter.go:122-124 | a thought of one character that is not ASCII, cut off by the loss of the bus, is kept twice, once garbled |
| Attempt.TornThoughtIsKeptTwice | internal/askorchicon/chat.go:2492-2508 | an ASCII thought that a completed reasoning part tore is kept whole, and its rest a second time |
| Collector.ReplyCollector.Collect | internal/askorchicon/chat.go:1610-1679 | a turn is its first session followed by rounds until one ends it |
| Collector.ReplyCollector.TakeRound | internal/askorchicon/chat.go:1674-1803 | what one attempt does to session, prompt, budgets and log, and whether the turn goes on |
| Collector.ReplyCollector.TakeResult | internal/askorchicon/chat.go:1690-1778 | the same for an attempt that connected |
| Collector.SessionsAreBounded | internal/askorchicon/chat.go:1634-1642 | over a whole turn: at most one recreation for a 404 and none after a recycle, at most the budget of recycles, at most 2 plus that budget of sessions, at most the re-attach budget plus one lost connections |
| Collector.SendsGoToThePersistedSession | internal/askorchicon/chat.go:1639-1651 | every attempt uses the session id last persisted, with the seed prompt exactly if a session was created in this turn; only that session is aborted, once marked wedged |
| Collector.RunKeeps | internal/askorchicon/chat.go:1663-1679 | reasoning collected across attempts is never lost, and a serve once live stays known as such |
| Collector.NextKeeps | internal/askorchicon/chat.go:1656-1668 | the short grace ends a turn only if the serve was never up |
| Collector.MessageIsSentAgainIff | internal/askorchicon/chat.go:1713-1733 | over every turn, of two consecutive sends the second goes to the session of the first, with nothing done in between, exactly if the attempt between them lost the bus or met a wedge past the recycle budget; else to a session created for it |
| Collector.TextIsTheLastAttempts | internal/askorchicon/chat.go:1673-1692 | over every turn, the text it ends with is that of its last attempt, none if the serve was out of reach, whatever earlier attempts handed over |
| Collector.CompletedPartIsLost | internal/askorchicon/chat.go:1747-1778 | a turn whose first attempt handed over a completed part and lost the bus can end with no text and no error |
| TurnEnds.TurnEndsIff | internal/askorchicon/chat.go:1690-1803 | over every turn, which round ends it and with which error, told from the results of its attempts: no error exactly if the last one collected, its own error if it failed, and the exact condition of each other error |
| TurnEnds.TurnReasoning | internal/askorchicon/chat.go:1676-1679 | over every turn, its reasoning is that of all its attempts, in order |
| TurnEnds.WedgedTurnIsTakenForDown | internal/askorchicon/chat.go:1663-1668 | with a recycle budget of 0, a turn that wedged and then finds no connection ends as if the serve had never been up |
| Collector.TurnLedger | internal/askorchicon/chat.go:1617-1622 | the one ledger of a turn is what all its attempts recorded, one after the other |
| Collector.TurnKeepsCallsIff | internal/askorchicon/chat.go:1617-1622 | its repair keeps every call of every attempt exactly if no ask was recorded twice in the turn and none has an id the ledger made |
| ThinkSegmenter.Segmenter.Feed | internal/askorchicon/thinksegmenter.go:77-145 | feeding a delta is running the machine over its bytes, from whatever state it is in |
| ThinkSegmenter.Segmenter.FeedByte | internal/askorchicon/thinksegmenter.go:95-142 | one byte in each of the four states |
| ThinkSegmenter.Segmenter.Commit | internal/askorchicon/thinksegmenter.go:149-156 | a body is reported when it ends, an empty one is not |
| ThinkSegmenter.Segmenter.FlushBody | internal/askorchicon/thinksegmenter.go:163-168 | an unterminated body is committed, a buffered fragment dropped, the state reset |
| ThinkSegmenter.ChunkingIndependent | internal/askorchicon/thinksegmenter.go:31-41 | however the stream is cut into deltas, state and outputs are those of the whole |
| ThinkSegmenter.NothingLost | internal/askorchicon/thinksegmenter.go:43-54 | every byte is text, thinking, part of a recognized tag or still buffered, in order, and the bodies committed or open are exactly the thinking |
| ThinkSegmenter.GrownIsThinkingIff | internal/askorchicon/thinksegmenter.go:115-126 | the thinking shown while it grew is the thinking itself exactly if no byte from 0x80 on was shown alone |
| ThinkSegmenter.GrownIsThinkingForText | internal/askorchicon/thinksegmenter.go:115-126 | for a stream of text, exactly if all thinking is ASCII |
| ThinkSegmenter.PrintSplits | internal/askorchicon/thinksegmenter.go:31-36 | any list of texts and thoughts that hold no tag of their side and do not end in the beginning of one, with any spellings of the tags, is split into exactly them |
| ThinkSegmenter.TagAfterFragmentIff | internal/askorchicon/thinksegmenter.go:106-120 | a tag behind a fragment is recognized exactly in two cases; otherwise both are passed on as text |
| ThinkSegmenter.StreamSurvivesIff | internal/askorchicon/thinksegmenter.go:158-168 | for every stream, the end of a turn loses nothing exactly if no suffix, from where nothing is buffered, is the beginning of a tag, and else exactly that suffix |
| ThinkSegmenter.CleanEndSurvives | internal/askorchicon/thinksegmenter.go:158-168 | nothing is lost of a stream no end of which begins a tag |
| ThinkSegmenter.TagNames | internal/opencode/think_tags.go:19-45 | four names in angle brackets are opening tags, and two spellings behind a bar, six in all |
| ThinkSegmenter.TagTable | internal/opencode/think_tags.go:19-53 | each opening tag has the closing tag of its spelling |
| ThinkSegmenter.PrefixFree | internal/opencode/think_tags.go:33-53 | no tag of the table is the beginning of another |
| ModelCache.ModelDiscoverer.BeginRead | internal/aigateway/models.go:185-232 | fresh, stale, in flight, backing off or cold: what a read does in its critical section |
| ModelCache.ModelDiscoverer.EndProbe | internal/aigateway/models.go:274-303 | what a finished probe leaves in the cache, which channel it closes and what its caller gets |
| ModelCache.ModelDiscoverer.ReadAfterWait | internal/aigateway/models.go:237-252 | what a released cold reader gets |
| ModelCache.ModelDiscoverer.Invalidate | internal/aigateway/models.go:175-179 | forgets the time of the list, not the list |
| ModelCache.InvalidateRefreshesIff | internal/aigateway/models.go:169-179 | the read after an invalidation starts a probe exactly if none is in flight and no cold cache is backing off |
| ModelCache.InvalidateDuringProbeIsLost | internal/aigateway/models.go:284-301 | an invalidation during a probe leaves no trace once the probe succeeds, or fails with a list in the cache |
| ModelCacheProtocol.SingleFlight | internal/aigateway/models.go:254-273 | in every run, refreshing holds exactly if the channel is set exactly if one goroutine, and only one, is probing |
| ModelCacheProtocol.CloseNeverPanics | internal/aigateway/models.go:290-302 | no nil and no closed channel is ever closed, so each is closed at most once |
| ModelCacheProtocol.NobodyStranded | internal/aigateway/models.go:192-212 | the channel of every waiter is closed, or exactly one goroutine is going to close it |
| ModelCacheProtocol.ReadsReturnLastList | internal/aigateway/models.go:181-184 | once a probe succeeded every read gets the last successful list and never an error; before that, the last probe's error |
| ModelCacheProtocol.CacheIsLastList | internal/aigateway/models.go:280-301 | the cache always holds the list of the last successful probe |
| ModelCacheProtocol.ReadGoes | internal/aigateway/models.go:185-252 | over every run, a read with a list is answered at once; one without joins the probe in flight, else gets the last failure within its backoff, else probes itself |
| ModelCacheProtocol.ProbeSpacing | internal/aigateway/models.go:222-232 | without an invalidation the next probe starts a lifetime after the last ended if there is a list, a backoff after it if there is none, success or not |
| ModelCacheProtocol.NextProbeStartsIff | internal/aigateway/models.go:185-232 | a read after the last probe starts the next exactly if none is in flight and that time has passed |
| ModelCacheProtocol.InvalidationTakesEffectIff | internal/aigateway/models.go:175-232 | over every run, a read after an invalidation starts a probe exactly if none is in flight, none that ended since stamped a list still within its lifetime, and no cold cache is backing off |
| ModelCacheProtocol.InvalidationBreaksSpacing | internal/aigateway/models.go:175-179 | after an invalidation it may start at once |
| PartialMirror.Mirror.OnPartial | internal/askorchicon/chat.go:1114-1120 | the newest snapshot replaces the one that waits |
| PartialMirror.Mirror.TakeDirty | internal/askorchicon/chat.go:1095-1102 | the flusher takes the snapshot and the flag in one section |
| PartialMirror.WritesNeverGoBack | internal/askorchicon/chat.go:1072-1081 | in every interleaving no snapshot is written after a newer one, nor twice, and each write carries its snapshot |
| PartialMirror.TerminalWriteIsLast | internal/askorchicon/chat.go:1140-1176 | the flusher has exited before the finalizer writes, a terminal row is last, and all turns but a superseded one that brought nothing end in one |
| PartialMirror.TickWritesNewest | internal/askorchicon/chat.go:1094-1135 | while the turn runs, a tick writes the newest snapshot and leaves nothing unwritten |
| PartialMirror.NewestSurvivesIff | internal/askorchicon/chat.go:1152-1176 | without a terminal row the newest snapshot is in the row exactly if its write was not cut off |
| PartialMirror.NewestCanBeLost | internal/askorchicon/chat.go:1094-1112 | such a cut is reachable |
| LedgerRepair.SanitizeAssistantToolLedger | internal/askorchicon/chathistory.go:78-129 | keeps the first call of each usable id and the results that answer a kept call, in order, and adds an aborted result per unanswered call |
| LedgerRepair.KeptCalls | internal/askorchicon/chathistory.go:89-101 | exactly the calls with a usable id that is new, in order |
| LedgerRepair.KeptResults | internal/askorchicon/chathistory.go:103-111 | exactly the results that answer a kept call, in order |
| LedgerRepair.RepairWellFormed | internal/askorchicon/chathistory.go:12-27 | whatever it is given, the repaired ledger has unique usable ids, a type per call, a call per result and a result per call |
| LedgerRepair.RepairIsIdentityIff | internal/askorchicon/chathistory.go:131-134 | the repair changes nothing exactly if the ledger was well-formed, so it is idempotent |
| LedgerRepair.RepairInventsOnlyErrors | internal/askorchicon/chathistory.go:78-130 | every repaired call was there and says what it said; every result was there as it is, or says that an unanswered call was aborted |
| LedgerRepair.SanitizeHistoryRows | internal/askorchicon/chathistory.go:135-151 | history keeps its length and all rows that are not assistant rows with calls; afterwards every row is safe to replay |
| ToolLedger.LiveLedger.RecordStart | internal/askorchicon/tool_ledger.go:109-122 | a call is recorded when it is issued, under a new id |
| ToolLedger.LiveLedger.RecordResolve | internal/askorchicon/tool_ledger.go:128-174 | a completed part resolves the last open call of its tool, or one made up for it |
| ToolLedger.LiveLedger.RecordToolResolution | internal/askorchicon/tool_ledger.go:187-238 | a typed resolution resolves the first open call of its tool, or one made up for it |
| ToolLedger.LiveLedger.RecordPermission | internal/askorchicon/tool_ledger.go:76-103 | a decision is recorded as a call with its result |
| ToolLedger.RunOk | internal/askorchicon/tool_ledger.go:11-25 | in every ledger each call has its number or the id of its ask, no number is given twice, what was resolved or decided has a result, and every result answers such a call |
| ToolLedger.TerminalWriteKeepsResults | internal/askorchicon/tool_ledger.go:261-274 | however a turn was cut off, the terminal write keeps every result in order and adds one aborted result for exactly the ids under which nothing was resolved or decided |
| ToolLedger.TerminalWriteKeepsCallsIff | internal/askorchicon/tool_ledger.go:261-274 | it keeps every call exactly if no ask was decided upon twice and none has an id of the ledger's own |
| ToolLedger.TerminalWriteOnlyAppends | internal/askorchicon/tool_ledger.go:261-274 | then it only appends, an aborted result for exactly the calls that were neither resolved nor decided |
| ToolLedger.TerminalWriteKeepsCallsOfAdapter | internal/askorchicon/tool_ledger.go:64-75 | for asks whose ids do not begin like the ledger's, exactly if no ask was decided upon twice |
| ToolLedger.SecondDecisionIsLost | internal/askorchicon/consent.go:1665-1672 | a decision upon an ask that is on record leaves no call behind, only one more result of the earlier call |
| ToolLedger.RaisedCardKeepsOnlyTheAsk | internal/askorchicon/consent.go:1869-1875 | of an ask and the answer to it the repair keeps the call of the ask alone, with the results of both |
| ToolLedger.ResolutionsPairInOrder | internal/askorchicon/tool_ledger.go:195-209 | in every run, the n-th typed resolution of a tool is paired with the n-th call of that tool, consent records and the parts of other tools in between included |
| ToolLedger.PartsPairBackwards | internal/askorchicon/tool_ledger.go:144-154 | completed parts answer the later of two open calls first |
| LedgerContent.TruncatedIs | internal/askorchicon/tool_ledger.go:316-321 | identity up to the limit, else that many characters and the mark |
| LedgerContent.RecordsExactly | internal/askorchicon/tool_ledger.go:76-240 | on any ledger, which call an operation resolves or adds, with its own arguments, and which result it appends, with its own output and flag; all else stays |
| LedgerContent.ResultsAreReported | internal/askorchicon/tool_ledger.go:76-240 | over every run the results say what the operations reported, each its own output and flag, in order |
| LedgerContent.CallsTellTheirStory | internal/askorchicon/tool_ledger.go:76-240 | over every run a call has the name and time of the operation that added it and the arguments of the one that resolved it, whose result is recorded under its id |
| ModelParser.ParseModelOutput | internal/aigateway/models.go:449-577 | the models of a listing in order; an empty listing is told from an unreadable one exactly by whether anything was printed |
| ModelParser.FlushEntry | internal/aigateway/models.go:458-492 | a bare reference is a model, a decoded block is one, an undecodable block is none |
| ModelParser.PrintParses | internal/aigateway/models.go:438-449 | printing any list of references and blocks, with noise between and in them, reads back as exactly those in order |
| ModelParser.DecodedIs | internal/aigateway/models.go:458-492 | each entry is a model in its place, a bare one by its reference alone, if all blocks can be decoded |
| ModelParser.UndecodableIsDropped | internal/aigateway/models.go:477-484 | an undecodable block changes nothing about its neighbours |
| ModelParser.OutsideIsOneOfThree | internal/aigateway/models.go:494-518 | outside a block a line opens one, is a reference, or is noise, by its first character and its slash |
| ModelParser.DeltaCounts | internal/aigateway/models.go:519-535 | the brace depth counts every brace of a line, those in strings included |
| ModelParser.LinesOfCarriageReturns | internal/aigateway/models.go:451-466 | lines read the same with a carriage return before each newline |
| ModelParser.RefRejoins | internal/aigateway/models.go:630-646 | provider and id of a bare reference rejoin to it exactly if it does not start with the slash |
| ModelParser.BlockReadBackIff | internal/aigateway/models.go:508-563 | after a reference, a block comes out as exactly its metadata, with the machine outside again, exactly if its depth counted from 1 closes on its last line that is not blank |
| ModelParser.LeadingBlockIff | internal/aigateway/models.go:508-535 | a listing that may open with a block without a reference is read back exactly if it does not or has no items |
| ModelParser.LeadingBlockSwallowsAll | internal/aigateway/models.go:508-535 | if the depth of the items never falls below 0 no entry at all is found after such a block |
| ModelParser.OneLineBlockSwallows | internal/aigateway/models.go:508-535 | after a block on one line all that follows becomes part of it |
| McpClients.AskMcp.AskMCPFor | internal/askorchicon/ask_mcp.go:219-258 | keeps the entry of an unmoved conversation, else closes it and starts anew |
| McpClients.AskMcp.RefreshAskMCP | internal/askorchicon/ask_mcp.go:276-310 | swaps the client only if what is resolved changed and the new one starts |
| McpClients.AskMcp.StartEntry | internal/askorchicon/ask_mcp.go:147-189 | an entry with a client, with none, or no entry |
| McpClients.AskMcp.CloseAskMCP | internal/askorchicon/ask_mcp.go:364-377 | closes a conversation's client, and is idempotent |
| McpClients.AskMcp.CloseAll | internal/askorchicon/ask_mcp.go:381-393 | closes the client of every entry and forgets them |
| McpClients.ClientsAreConserved | internal/askorchicon/ask_mcp.go:15-31 | over any sequence of operations for named conversations every client ever started is the one client of one conversation or was closed, once |
| McpClients.RefreshSettles | internal/askorchicon/ask_mcp.go:260-275 | an unchanged set starts and closes nothing; a changed one that starts leaves an entry for exactly it; a second refresh does nothing; other conversations are untouched |
| McpClients.LookUpServesCurrentProject | internal/askorchicon/ask_mcp.go:209-218 | every call is served by a running client resolved for the current project |
| McpLifetime.LookUpIs | internal/askorchicon/ask_mcp.go:219-258 | an unmoved conversation is served by the entry that is there, whatever resolves, and nothing changes; any other call closes the old client and starts anew |
| McpLifetime.UnnamedIs | internal/askorchicon/ask_mcp.go:222-226 | a call without a conversation is served by a client of its own and changes no entry |
| McpLifetime.ClientLastsIff | internal/askorchicon/ask_mcp.go:219-393 | over every run an entry, and its running client, lasts exactly as long as no call comes from another project, no refresh finds another fingerprint that starts, and nothing closes it |
| McpClients.FingerprintInjective | internal/askorchicon/ask_mcp.go:87-97 | fingerprints agree exactly if project and servers do, for ids without the separators |
| McpClients.FingerprintsCollide | internal/askorchicon/ask_mcp.go:91-97 | ids with the separators can collide, and no servers with one server without an id |
| McpClients.FingerprintsAgreeIff | internal/askorchicon/ask_mcp.go:87-97 | for all ids, fingerprints agree exactly if the projects are equal and so is what joining leaves of the server lists, or one project's id runs on, behind a separator, into the servers of the other |
| McpOverlap.ConservedWhileApart | internal/askorchicon/ask_mcp.go:219-393 | over every run in which no refresh overlaps another call on its conversation and no use another use, each client started runs with exactly one owner, an entry or a call, or was closed once; with no call in progress the running clients are those of the entries |
| McpLifetime.UseAlone | internal/askorchicon/ask_mcp.go:219-258 | the lock sections of a use that nobody interrupts amount to the look-up of McpClients |
| McpLifetime.RefreshAlone | internal/askorchicon/ask_mcp.go:276-310 | those of a refresh to its refresh |
| McpLifetime.CloseAlone | internal/askorchicon/ask_mcp.go:364-377 | those of a closing to its closing |
| McpOverlap.CanBreakIff | internal/askorchicon/ask_mcp.go:219-393 | a run in which only calls of two given kinds overlap on a conversation can leak a client or close one twice exactly if one of the kinds is a refresh or both are uses |
| McpOverlap.StoreLosesIff | internal/askorchicon/ask_mcp.go:247-257 | over every run, a step leaves a running client that nobody is left to close exactly if it stores over the entry that holds it and no refresh has it still to close |
| McpOverlap.OverlappingFirstUsesLeak | internal/askorchicon/ask_mcp.go:228-257 | a run of two overlapping first uses that leaves a running client no entry holds |
| McpOverlap.OverlappingRefreshesCloseTwice | internal/askorchicon/ask_mcp.go:276-310 | a run of two overlapping refreshes that closes one client twice and loses another |
| McpOverlap.OverlappingUseAndRefreshLeak | internal/askorchicon/ask_mcp.go:228-310 | a run of a first use and a refresh that leaves a running client no entry holds |
| McpOverlap.OverlappingRefreshAndCloseCloseTwice | internal/askorchicon/ask_mcp.go:276-377 | a run of a refresh and a closing of the conversation that closes one client twice |
| McpOverlap.OverlappingRefreshAndShutdownCloseTwice | internal/askorchicon/ask_mcp.go:276-393 | a run of a refresh and a shutdown that closes one client twice |
| PortPlan.NextFreePortFor | cmd/orchicon/install_ports.go:498-509 | the least free unclaimed port of the window, or none if the window has none |
| PortPlan.AskInstallPort | cmd/orchicon/install_ports.go:375-396 | the default or a port in range, after at most three lines |
| PortPlan.AskedIsPort | cmd/orchicon/install_ports.go:368-374 | the prompt reads a bounded number of lines and yields a port |
| PortPlan.PlanInstallPorts | cmd/orchicon/install_ports.go:418-489 | pins first, then the pending ports in order, until one cannot be decided |
| PortPlan.PlanIsComplete | cmd/orchicon/install_ports.go:400-417 | a plan covers exactly the given ports, pairwise distinct and in range, and honours every pin |
| PortPlan.PlanMovesOnlyWhatItMust | cmd/orchicon/install_ports.go:404-417 | an unpinned port is its default if that is free and unclaimed, else the least such port above it, never moved in strict mode; a port other than the one so offered was typed, by an operator who was asked, within three tries |
| PortPlan.NotOfferedIsTyped | cmd/orchicon/install_ports.go:375-396 | the prompt yields another port than the offered one only if a line, after refused ones, holds it |
| PortChoice.AskedIs | cmd/orchicon/install_ports.go:375-396 | the first line within the tries that is a port or empty decides; the port is taken, and one line is read per try |
| PortChoice.AtoiReadsDecimals | cmd/orchicon/install_ports.go:387-390 | a number is read as written, with a sign or without |
| PortChoice.AtoiReadsNumerals | cmd/orchicon/install_ports.go:387-390 | and nothing else is a number |
| PortChoice.TypedIsTaken | cmd/orchicon/install_ports.go:375-396 | a port typed within the tries after nothing but refused lines is taken |
| PortChoice.OfferedFailsIff | cmd/orchicon/install_ports.go:445-465 | when no port can be offered, and the error |
| PortChoice.PlanFailsIff | cmd/orchicon/install_ports.go:418-489 | there is no plan exactly if two pins collide, and the first that does is named, or for the first other spec for which no port can be offered, with that error |
| PortChoice.PlanGivesWhatWasTyped | cmd/orchicon/install_ports.go:466-480 | a spec gets the port its operator typed, if asked, unless it is taken in this plan, and else the offered one; lines are read by those asked, in order |
| Attachments.ValidateAttachments | internal/approval/service.go:533-571 | refused exactly if too long or some file has a problem, with the first problem; accepted files keep order, type and content |
| Attachments.UnusedName | internal/approval/service.go:557-563 | the renaming loop ends within as many renamings as names in use, with the first free form of the name, still safe |
| Attachments.NamesAreDistinct | internal/approval/service.go:557-564 | no two accepted files have the same name |
| Attachments.RenamedIff | internal/approval/service.go:557-564 | a file keeps its name exactly if no earlier one took it; else it gets the first numbered form that none did |
| Attachments.ProblemIff | internal/approval/service.go:538-556 | exactly what is wrong with a file: its characters, emptiness, or more than two mebibytes, three for an image however its type is written |
| Attachments.CandidatesDiffer | internal/approval/service.go:559-563 | numbered forms of a name are all different |
| Attachments.CandidateIsSafe | internal/approval/service.go:526-528 | numbering a safe name keeps it safe: no separator, no two dots in a row |
| ModelRef.ParseSucceedsIffRoutable | internal/adapter/modelref.go:74-139 | a reference parses without a registry exactly if routing knows a kind for it |
| ModelRef.AdaptersAgreeExceptTrailingSlash | internal/adapter/modelref.go:74-139 | the two readers name the same adapter except on the x/y/ shape, and what each says there |
| ModelRef.TrailingSlashDisagrees | internal/adapter/modelref.go:122-139 | they do differ there |
| ModelRef.ServePairIsParsedPair | internal/adapter/modelref.go:173-192 | the serve pair exists exactly if the parse has a provider, and is that pair |
| ModelRef.RegistryOnlyRejects | internal/adapter/modelref.go:74-113 | a registry never changes a parse, and exactly what it rejects |
| ModelRef.ReadsWord | internal/adapter/modelref.go:74-86 | a reference without a slash is a bare model, or empty |
| ModelRef.ReadsPair | internal/adapter/modelref.go:87-106 | two words are provider and model of the default adapter, or which error they are |
| ModelRef.ReadsTriple | internal/adapter/modelref.go:87-113 | two words and a rest are adapter, provider and model, or which error they are |
| ModelRef.PrintParses | internal/adapter/modelref.go:58-113 | printing adapter, provider and model parses back, slashes in the model kept |
| ModelRef.NormalizeIs | internal/adapter/modelref.go:230-250 | normalization keeps a reference exactly if it is blank, has a blank or registered head or, without kinds, two slashes; else it puts the default adapter in front |
| ModelRef.NormalizeIdempotent | internal/adapter/modelref.go:206-250 | normalization with a kind set that has the default is idempotent |
| ModelRef.NormalizeRoutesLegacy | internal/adapter/modelref.go:206-250 | an unregistered head with a tail routes to the default adapter, with the whole tail as the model |
| ModelRef.NormalizeKeepsLegacyPair | internal/adapter/modelref.go:206-250 | a two-segment reference keeps its serve pair exactly if no space follows the slash |
| ModelRef.NormalizeNilNotIdempotent | internal/adapter/modelref.go:230-250 | without kinds a bare id grows at every pass |
| ModelRef.NormalizeNilIdempotentIff | internal/adapter/modelref.go:230-250 | without kinds normalization is idempotent exactly for the empty reference and those with a slash |
| ModelRef.MigrationSettles | internal/adapter/modelref.go:252-262 | the migration reports a change exactly if there is one, and a second one changes nothing |
| CostSplit.SplitCostByWeight | internal/aigateway/usage_metrics_split.go:74-119 | for any number of buckets the shares sum to the total and stand in the ratio of the weights; without weight the first takes it all |
| CostSplit.SplitIsUnique | internal/aigateway/usage_metrics_split.go:74-83 | those promises leave no choice |
| CostSplit.SharesNonNegative | internal/aigateway/usage_metrics_split.go:74-83 | no share is negative, a bucket without weight gets none |
| CostSplit.CatalogCostIsWeight | internal/aigateway/cost.go:10-25 | the catalog cost is the sum of the buckets' tokens at their prices |
| CostSplit.CatalogCostIs | internal/aigateway/cost.go:10-25 | the cost times a million is the sum of tokens times price over the four fields |
| CostSplit.CatalogSplitIsDirectPricing | internal/aigateway/usage_metrics_split.go:58-72 | when the total is the catalog's, each share is its bucket's own tokens at its own price |
| CostSplit.SharesAtFallbackWeights | internal/aigateway/usage_metrics_split.go:37-43 | without a catalog the shares stand as 1 : 0.1 : 1.25 : 4 per token, and the prompt takes all when there are no tokens |
| CostSplit.TotalIsFour | internal/aigateway/usage_metrics_split.go:45-56 | the bucket tokens sum to the total, reasoning not counted twice |
| CostSplit.UsageRecorder.Emit | internal/aigateway/service.go:591-614 | counters grow by the positive tokens and shares of each class |
| CostSplit.UsageRecorder.Record | internal/aigateway/recorder.go:92-145 | the catalog is the authority on cost, zero included; the counters grow by exactly the row's totals, each class by its own tokens and its own share |

## Left out

- Strings: ThinkSegmenter, ShownThinking, Attempt, Reasoning, Collector and TurnEnds work on bytes; the other modules on code points, where byte lengths, invalid UTF-8 and byte-wise truncation (of ledger arguments and outputs, for one) are not modelled.
- Integers are unbounded: the wrap-around of the 64-bit token counter and of token counts is not modelled.
- CostSplit.SplitCostByWeight: over exact reals, so the rounding that the largest bucket absorbs is always zero here.
- JSON: documents are modelled decoded; ModelParser takes the decoder as a parameter.
- ModelParser.ParseModelOutput: the scanner's buffer limit, which depends on the capacity of the slice it is given, and its error are not modelled; nor that this buffer is the slice itself, which the test for blankness reads after scanning, so that an output of text and blanks that fills its slice can be reported as empty; nor is the retry of an empty listing around the parser.
- ModelCacheProtocol: the filter by provider of ListModels, and the choice and downgrade of the command's arguments.
- Attempt.DrainLoop.Drain: whether and when timers fire, the verdicts of the stall monitor and the decisions of the consent layer are labels of the inputs; mirroring, stream events, usage recording and file edits are not part of the state.
- Attempt.StateAgrees: says nothing about native reasoning deltas, which a completed text part discards by design; TailAgrees does; nor about the tool ledger, for which LedgerAgrees is there.
- Reasoning.OpenThoughtIsKeptOnceIff: for deltas that are UTF-8, each on its own, as strings decoded from JSON are; TailAgrees has no such condition.
- Collector.TurnLedger: the consent records that are written when a turn ends with asks unanswered, after its last attempt, are not part of it.
- Collector.ReplyCollector.Collect: the serve-down grace and the reply window are labels; the consent handle and file-edit reconciliation are not modelled.
- ToolLedger.RunOk: the clock's readings and the ids of asks are parameters; that a call kept in the ledger is shown to a client under its ask is not modelled.
- PartialMirror.TerminalWriteIsLast: failures of the database other than those of the cancelled context are not modelled; nor is the ledger snapshot that travels with each write.
- TurnProtocol: the creation of a hub is one step, its storing section; HubRegistry has both sections, without the turns. The watchers of a hub, the session an interjection goes on with (but for TurnHistory.WedgeIsMissedIff) and the serve-session aborts are not modelled; clock readings in events need not be monotone.
- McpClients.ClientsAreConserved: for operations that do not overlap; module McpOverlap has the others. Lookups without a conversation are not tracked, since the code does not keep their client.
- PortPlan.PlanInstallPorts: what is printed, the table of defaults and the read-back of a running instance.
- CostSplit.UsageRecorder.Record: the database write and its failures.
- The container supervisor, personas and prompts, the frontend, the launcher and the request handlers: no property of this kind to prove, or none that would be hard.
