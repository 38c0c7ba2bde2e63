# RemoteCodex: verified model of the terminal data plane and its smaller protocols

RemoteCodex runs terminals in an agent on a Windows host and shows them in browsers. This project models the parts of
it whose correctness depends on many steps taken together, and proves what they guarantee, for every input, every run
and every interleaving.

**Output, from the PTY to the browser.** `Fence` lets only whole UTF-8 scalars (section 4 of RFC 3629, in `Utf8`) and
whole escape sequences through; `FenceLanguage` tells for every input what becomes of each piece of it. `OutputSource`
batches its tokens into numbered events (`OutputBatches`: as large as they can be). `Ring` keeps a bounded suffix of them. `Connection` serves one viewer: the
snapshot, then events under byte credit. `Guard` and `Browser` are the receiving side. `OutputPath` puts them together
as one transition system with two FIFO wires and a lossy broadcast queue. `OutputTheorems` proves what all its runs
keep, `OutputSizes` how large events get, `OutputProgress` what the runs get done, `OutputStalls` for which rings they
do not, and `EngineTheorems` that both ends show the same screen. `RestartingParser` and `RestartingScreen` show for one
kind of parser exactly when that last result's hypothesis fails. `GuardLaws`, `BrowserLaws` and `ConnectionLaws` say
exactly which streams a browser accepts from any agent, and what any browser can do to an agent. `Codec` and `CodecTs`
are the two implementations of the frame format.

**Input, from the browser to the PTY.** `Lease` and `Ledger` decide what is accepted, `InputPath` is `enqueue`,
`writer_loop` and `write_job` as a state machine, `InputTheorems` proves the order and shape of what reaches the PTY,
and `InputSession` is the same code as statements, proved to do nothing but runs of that state machine. `LeaseLaws`
tells every lease operation by who may write, and when; `InputRequests` which requests are accepted; `PasteText` what a
paste becomes; `InputInterrupts` that a Ctrl+C cuts a paste short; `InputProgress` what the writer gets done;
`InputOutcomes` that the ledger tells the truth about it.

**The Tailscale Serve journal.** `Journal` has the three commands that change the external rule, the receipt, the
configured origin and the journal file, with a failure or a crash possible at every effect.

**Smaller protocols.** `GuiSafety` is arming, revoking and the lease of GUI control as two threads that interleave
between any two accesses to the shared atomics (`GuiTheory` is its invariant, `GuiTheorems` and `GuiProgress` the
results), `Trace` and `TraceProgress` the admission of performance records, `TraceWriter` and `Histogram` what is made
of them, `WidthTable` the generated width table and its binary search.

How it is written: what the code updates in place is a class whose methods are proved equal to functions on values;
what runs concurrently is a state machine whose actions touch shared state at most once; and the results about runs are
lemmas over all lists of actions. History that the program does not keep (the full log, what was processed, what was
admitted) is part of the states, so that the results can speak about it.

Some obvious claims are false. Each is replaced by what holds, with an input that shows the failure:

- An event's payload can exceed 32768 bytes (`OutputSizes.OversizedEvent`; exact condition in
  `OutputSource.BatchExactly`): up to 98305 (`OutputSizes.EventBound`, reached in `OutputSizes.LargestLogged`).
- The smallest configurable ring loses a full frame and then reports nothing new (`Ring.SmallestRingLosesFullFrames`;
  exact condition in `Ring.AfterExactly`).
- A control sequence may exceed 1025 bytes when intermediate bytes precede its bracket
  (`FenceTheorems.CsiBoundNeedsPlainForm`; exact grammar in `FenceTheorems.ReleasedExactly`).
- A journal whose command never ran is never cleared (`JournalTheorems.StuckReachable`; exact condition in
  `JournalTheorems.ClearableExactly`). A refused uninstall leaves such a journal
  (`JournalTheorems.RefusedUninstallSticks`; exact condition in `JournalTheorems.RefusedLeavesNoTrace`).
- A public origin that was configured by hand is overwritten and later removed, so enabling and disabling need not
  restore the world (exact condition in `JournalTheorems.OnAndOff`).
- A snapshot between two tokens can lose partial parser state: what is one whole token for the fence (ESC ESC) can leave
  a parser that restarts at ESC inside a sequence (`RestartingScreen.TokenStateLost`; exact conditions in
  `RestartingParser.TokenExactly` for the tokens and `RestartingScreen.RestartExactly` for the screens).
- A viewer can be left waiting with credit and everything unsent (`OutputStalls.StallReachable`): if and only if the ring
  is smaller than the largest event, 98345 bytes with its header (`OutputStalls.StallsExactly`). The shipped ring of
  8388608 bytes is not; the smallest configurable one of 32768 is.
- `armed` can be true for a moment after a revocation is complete (`GuiTheorems.ArmedCanLag`; exact conditions in
  `GuiTheorems.ArmedExactly` for `armed`, and in `GuiTheorems.CheckExactly` and `GuiTheorems.LeaseExactly` for the
  revision that is checked beside it).

## Model

| member | source | states |
|---|---|---|
| Utf8.FromUtf8Exact | crates/rc-core/src/vt_fence.rs:61-84 | the byte scanner accepts exactly the strings of the RFC 3629 grammar |
| Utf8.VerdictMeaning | crates/rc-core/src/vt_fence.rs:61-84 | the three verdicts the fence branches on mean: in the language, extensible to a string of the language, beyond repair by any continuation |
| Fence.VtFence.PushByte | crates/rc-core/src/vt_fence.rs:36-42 | at 16384 held bytes a further byte is dropped and the sequence marked for discarding |
| Fence.VtFence.CompleteSequence | crates/rc-core/src/vt_fence.rs:43-54 | a finished sequence is released whole or withheld and counted, never in part |
| Fence.VtFence.PushBytes | crates/rc-core/src/vt_fence.rs:55-158 | the byte loop leaves the fence and returns the tokens of the specification automaton |
| Fence.VtFence.PendingLen | crates/rc-core/src/vt_fence.rs:160-162 | what is held back is the unfinished sequence plus the unfinished scalar |
| FenceTheorems.ChunkInvariance | crates/rc-core/src/vt_fence.rs:55-158 | however the input is cut into reads, the final state, the omitted count, the released bytes and the merged token list are those of one read |
| FenceTheorems.FixedPoints | crates/rc-core/src/vt_fence.rs:43-158 | a fresh fence passes a string unchanged if and only if it is a concatenation of safe tokens |
| FenceTheorems.Idempotence | crates/rc-core/src/vt_fence.rs:43-158 | the output of any run passes a fresh fence unchanged, with nothing omitted and nothing pending |
| FenceTheorems.ReleasedExactly | crates/rc-core/src/vt_fence.rs:43-158 | a string starting with ESC is released as one token if and only if it is in the grammar of safe sequences |
| FenceTheorems.TokenShape | crates/rc-core/src/vt_fence.rs:36-158 | every token of every run is non-empty and either ESC-free valid UTF-8 or one complete sequence of at most 16384 bytes, a plain CSI at most 1025, never DCS, APC, PM, SOS, OSC 52 or OSC 8 |
| FenceTheorems.CsiBoundNeedsPlainForm | crates/rc-core/src/vt_fence.rs:99-122 | the 1025-byte bound fails for ESC, n spaces, `[m`: released at every length up to 16384 |
| FenceTheorems.OutputBound | crates/rc-core/src/vt_fence.rs:36-162 | at most 16384 bytes are pending, and output plus pending is at most three times the input plus what was pending |
| FenceTheorems.TripledText | crates/rc-core/src/vt_fence.rs:60-98 | the factor three is reached, in a single token |
| FenceTheorems.Reachable | crates/rc-core/src/vt_fence.rs:24-34 | the invariant assumed by these results holds of every state any run of a fresh fence reaches |
| FenceLanguage.ReadsExactly | crates/rc-core/src/vt_fence.rs:43-158 | an input that is a list of scalars, garbled bytes, sequences and strings, with something left over or not: each piece is released as it is, replaced or withheld by itself, in order; the count is the number of pieces withheld; the fence is at rest if and only if nothing is left over |
| FenceLanguage.EveryInput | crates/rc-core/src/vt_fence.rs:43-158 | every byte string is such a list |
| FenceLanguage.InputExactly | crates/rc-core/src/vt_fence.rs:43-158 | so for every input what a fresh fence releases, counts and holds back is told by the grammar alone: a DCS, APC, PM or SOS string ends at its ESC \, and what follows is released again |
| Ring.EventRing.Push | crates/rc-core/src/ring.rs:17-29 | the byte counter stays exact and the oldest events go until both limits hold |
| Ring.EventRing.After | crates/rc-core/src/ring.rs:30-44 | the scan answers a resync request or the newer events of the contents |
| Ring.LongestSuffix | crates/rc-core/src/ring.rs:17-29 | after any pushes the ring is exactly the longest suffix of the full log within the byte limit and 4096 events |
| Ring.AfterExactly | crates/rc-core/src/ring.rs:30-44 | the answer is every later event if and only if none was evicted or the whole ring was lost at its very end; a resync otherwise, unless the last event alone exceeds the limit |
| Ring.LostAllExactly | crates/rc-core/src/ring.rs:17-29 | the ring shows nothing although events were logged if and only if the last event alone exceeds the limit |
| Ring.SmallestRingLosesFullFrames | crates/rc-agent/src/config.rs:64-66 | with the smallest configurable ring a full frame is lost and reported as nothing new |
| Codec.Encode | crates/rc-core/src/frame.rs:23-38 | the buffer is filled with the wire layout, or the frame is rejected as too large |
| Codec.DecodeAll | crates/rc-core/src/frame.rs:39-74 | the position loop returns what parsing the message from the front returns |
| Codec.DecodeExactly | crates/rc-core/src/frame.rs:23-74 | decoding yields a frame list if and only if the message is the concatenation of its encodings and at most 256 KiB: both round trips |
| CodecTs.UuidRoundTrip | packages/core/src/frame.ts:7-16 | sixteen bytes survive conversion to UUID text and back |
| CodecTs.DecodeFrames | packages/core/src/frame.ts:17-36 | the offset loop returns what parsing the message from the front returns |
| CodecTs.EncodeFrame | packages/core/src/frame.ts:37-45 | the array is filled with the agent's header layout and the payload, or the frame or its UUID is rejected |
| CodecTs.SameRejected | packages/core/src/frame.ts:37-45 | of the frames the agent's types can hold the browser rejects exactly those the agent rejects |
| CodecTs.DecodersAgree | packages/core/src/frame.ts:17-36 | on every non-empty message the browser and the agent both reject, or give equal frames |
| CodecTs.BrowserReadsAgent | packages/core/src/frame.ts:17-36 | whatever non-empty frame list the agent encodes within the size limit, the browser decodes to the same frames |
| CodecTs.BrowserReadsFrame | packages/core/src/frame.ts:17-36 | every frame the agent can encode, sent alone as the agent sends it, is read back by the browser |
| CodecTs.EmptyMessageDiffers | packages/core/src/frame.ts:19-19 | the empty message is the one input where they differ |
| CodecTs.EncodersAgree | packages/core/src/frame.ts:37-45 | what the browser encodes the agent decodes to the same frame |
| Guard.StreamGuard.Accept | packages/core/src/snapshot.ts:9-11 | any rejected frame fails the stream for good |
| Guard.StreamGuard.Validate | packages/core/src/snapshot.ts:12-40 | the phases awaiting, snapshot, live: which frame is accepted in each, and the new phase, sequence and byte count |
| Guard.RenderBudget.Reserve | packages/core/src/snapshot.ts:46-49 | bytes are taken in full or, beyond the limit, refused without effect |
| Guard.RenderBudget.Applied | packages/core/src/snapshot.ts:50-52 | bytes are given back, or refused without effect if never taken |
| GuardLaws.AcceptsExactly | packages/core/src/snapshot.ts:9-40 | a list of frames is accepted as a whole if and only if it is metadata that fits, chunks of its sequence adding up to its bytes, the end, and then consecutive valid events, all of this terminal, or the beginning of such a list; and where the guard then is |
| GuardLaws.RejectedForever | packages/core/src/snapshot.ts:9-14 | after one rejected frame every later one is rejected |
| OutputSource.OutputState.Read | crates/rc-agent/src/session.rs:571-601 | one turn of the reader loop emits the batched tokens of what it read, in order |
| OutputSource.OutputState.EmitEvent | crates/rc-agent/src/session.rs:602-616 | an event gets the next number and goes to the ring and the log |
| OutputSource.OutputState.Resize | crates/rc-agent/src/session.rs:513-532 | a resize is one event of the same log |
| OutputSource.OutputState.RingAfter | crates/rc-agent/src/session.rs:556-558 | replay is answered from the ring |
| OutputSource.BatchExactly | crates/rc-agent/src/session.rs:589-600 | the events of a read carry its tokens exactly, none empty, and all keep within 32768 bytes if and only if every single token does |
| OutputBatches.BatchesGreedy | crates/rc-agent/src/session.rs:589-600 | the payloads are the tokens in groups, each as long as it can be: one more token would have taken it over 32768 bytes |
| Connection.Terminal.constructor | crates/rc-agent/src/ws.rs:253-314 | a viewer starts at the snapshot's sequence with all its frames to send, or is refused above 4 MiB |
| Connection.Terminal.Start | crates/rc-agent/src/ws.rs:262-309 | the snapshot goes out frame by frame: meta, chunks, end |
| Connection.Terminal.Fill | crates/rc-agent/src/ws.rs:323-328 | an empty pending queue is refilled from the ring, or the viewer is dropped |
| Connection.Terminal.Send | crates/rc-agent/src/ws.rs:329-346 | below the credit limit the next frame is sent and recorded; a gap in it ends the connection |
| Connection.Terminal.Ack | crates/rc-agent/src/ws.rs:361-367 | an acknowledgement outside applied to sent ends the connection; one inside removes exactly the records up to it |
| Connection.Terminal.Event | crates/rc-agent/src/ws.rs:370-382 | a broadcast event is queued, skipped, or its gap filled from the ring |
| Connection.Terminal.CheckBacklog | crates/rc-agent/src/ws.rs:374-382 | over 1 MiB pending ends the connection |
| ConnectionLaws.ForgedCredit | crates/rc-agent/src/ws.rs:310-383 | whatever numbers a browser acknowledges and whenever: it was sent the snapshot and then the log, in order, and what is not acknowledged is counted exactly and stays under 262144 + 32808 bytes |
| ConnectionLaws.AnyAck | crates/rc-agent/src/ws.rs:361-382 | an acknowledgement outside applied to sent ends the connection and changes nothing else; one inside leaves exactly the bytes sent after it, and ends the connection if and only if over 1 MiB are pending |
| ConnectionLaws.EndsExactly | crates/rc-agent/src/ws.rs:310-383 | after any run the next turn ends a viewer if and only if it is told to, the socket fails, the frame due cannot be encoded, an event it was not sent was evicted, or over 1 MiB are pending |
| Browser.Handler.OnMessage | packages/terminal-client/src/terminal.ts:81-86 | a message's bytes are reserved before anything else, or the socket is closed |
| Browser.Handler.ApplyOldest | packages/terminal-client/src/terminal.ts:87-110 | the oldest message is checked, shown, acknowledged once live, and its bytes given back |
| BrowserLaws.AnyAgent | packages/terminal-client/src/terminal.ts:81-110 | whatever frames arrive, a browser never keeps more than 5 MiB of them and tells its terminal only of a valid stream or the beginning of one |
| BrowserLaws.OverflowExactly | packages/terminal-client/src/terminal.ts:81-86 | a frame is taken in if and only if it fits beside those that wait; otherwise the socket is closed |
| OutputTheory.SettleExactly | crates/rc-agent/src/ws.rs:361-367 | acknowledging up to q leaves exactly the records after q and the sum of their bytes |
| OutputTheory.DeliverGood | crates/rc-agent/src/ws.rs:329-346 | what is sent next is always the next frame of the log, so the gap exit is not reached |
| OutputTheorems.NextAccepted | packages/core/src/snapshot.ts:12-40 | the guard accepts the next frame of an honest stream, whatever it is |
| OutputTheorems.OwedFits | packages/core/src/snapshot.ts:42-54 | everything a browser has not applied fits its 5 MiB budget, with a 4 MiB snapshot in front |
| OutputTheorems.StepGood | crates/rc-agent/src/ws.rs:310-383 | every action of any party, turns for pings and renewed authorisation included, keeps the end-to-end invariant: nothing lost, duplicated or reordered between log and browser |
| OutputTheorems.RunGood | crates/rc-agent/src/ws.rs:310-383 | that invariant holds of every run, for any ring size |
| OutputTheorems.NothingFails | crates/rc-agent/src/ws.rs:323-346 | in every interleaving the guard never fails, the budget never overflows, and the break on a gap is unreachable |
| OutputTheorems.CreditComposition | crates/rc-agent/src/ws.rs:310-372 | unacknowledged bytes are exactly those of the log between applied and sent, at most 262143 + 32808; every acknowledgement on its way, not only the next, lies in that range; the next message always fits the budget |
| OutputTheorems.ExactReplay | crates/rc-agent/src/session.rs:533-555 | a live browser at sequence k told its terminal exactly the snapshot at S and the events S+1 to k, each once, in order |
| EngineTheorems.ReadShows | crates/rc-agent/src/session.rs:586-600 | feeding a read's tokens to the engine shows what its logged events show |
| EngineTheorems.SnapTold | packages/terminal-client/src/terminal.ts:89-95 | the snapshot's frames reset the screen and feed it exactly the snapshot |
| EngineTheorems.BrowserShows | packages/terminal-client/src/terminal.ts:87-110 | whatever the engine and the snapshot are, a live browser at k shows the snapshot followed by the events S+1 to k |
| EngineTheorems.SnapshotDecides | crates/rc-agent/src/session.rs:533-555 | a snapshot that restores the screen at S is enough for every k; at k = S it is also necessary |
| EngineTheorems.SameScreen | crates/rc-agent/src/session.rs:513-616 | a live browser at k shows the fold of the whole log up to k, and the agent's own screen when k is its end, for every engine that keeps the size it is set to, provided the snapshot handed out restored the agent's screen of that moment |
| EngineTheorems.QuietScreen | crates/rc-agent/src/ws.rs:323-383 | under the same hypothesis, when everything is quiet the browser shows the agent's screen, for every ring of at least 98345 bytes, and for a smaller one unless the last event alone exceeds it |
| EngineTheorems.AgentRests | crates/rc-core/src/vt_fence.rs:1-4 | for engines that every token of the fence leaves in the middle of nothing (not all are): so is the agent's screen after any run, however the reads are cut |
| EngineTheorems.SameScreenAtRest | crates/rc-core/src/vt_fence.rs:1-4 | for engines of that kind whose snapshots restore screens in the middle of nothing, the conclusion of SameScreen needs no more than that the engine's own snapshot is handed out |
| EngineTheorems.RecorderFaithful | crates/rc-core/src/vt_fence.rs:1-4 | engines of that kind exist: one that takes the fence's own automaton for its parser |
| RestartingParser.AtRestExactly | crates/rc-core/src/vt_fence.rs:1-4 | a parser that restarts at ESC is in the middle of nothing after a string if and only if it has no ESC or its last ESC begins a whole sequence |
| RestartingParser.TokenExactly | crates/rc-core/src/vt_fence.rs:99-158 | which released tokens leave that parser in the middle of nothing: text; a sequence with one ESC unless it ends in a control, DEL or 8-bit byte right after its intermediates; one with more if and only if its last ESC begins a whole sequence |
| RestartingParser.TokensInTheMiddle | crates/rc-core/src/vt_fence.rs:99-122 | ESC ESC, ESC BEL and ESC [ ESC [ are released and leave it inside a sequence |
| RestartingScreen.TokensDoNotRest | crates/rc-core/src/vt_fence.rs:1-4 | an engine with a parser that restarts at ESC is not of that kind |
| RestartingScreen.RestartExactly | crates/rc-core/src/vt_fence.rs:1-4 | with that parser and a snapshot of the text on screen, a live browser shows the log at every k if the output before S closes all it opens; if it does not, it shows another screen at S |
| RestartingScreen.TokenStateLost | crates/rc-core/src/vt_fence.rs:1-4 | a run for every session, size and snapshot metadata: ESC ESC is read, a viewer subscribes and goes live, and both ends differ in mode and then in text |
| OutputSizes.EventBound | crates/rc-agent/src/session.rs:571-616 | no event of any run takes more than 98345 bytes with its header |
| OutputSizes.LargestLogged | crates/rc-agent/src/session.rs:571-616 | two reads, the first ending inside a scalar, log an event of exactly that size |
| OutputSizes.RingKept | crates/rc-core/src/ring.rs:17-29 | a ring of at least that size never loses all it holds, in any run |
| OutputProgress.NeverStalls | crates/rc-agent/src/ws.rs:323-383 | no lost wake-up: for a ring of at least 98345 bytes a viewer waiting with credit was sent everything or has an event queued; for a smaller one too, unless the last event alone exceeds it |
| OutputProgress.QuietIsComplete | crates/rc-agent/src/ws.rs:310-383 | with nothing in any queue or on any wire the browser is live, and at the end of the log, for the same rings |
| OutputStalls.StallReachable | crates/rc-agent/src/ws.rs:370-373 | for every smaller ring and every snapshot a run leaves a viewer waiting with an empty queue and everything unsent: 65 events are logged, the last too large for the ring |
| OutputStalls.StallsExactly | crates/rc-agent/src/ws.rs:323-383 | some run ends quiet with the browser behind if and only if the ring has fewer than 98345 bytes |
| OutputProgress.BrowserCatchesUp | packages/terminal-client/src/terminal.ts:81-110 | after any run the browser's own steps suffice to apply all that was sent, ending live at the last sequence sent |
| OutputSizes.OversizedEvent | crates/rc-agent/src/session.rs:589-600 | one read of n stray continuation bytes, n at most 32768, is one event of 3n bytes, which no frame may carry for n above 10922 |
| Lease.Lease.Acquire | crates/rc-core/src/lease.rs:17-40 | who gets the lease, at which epoch, and when it is busy or exhausted |
| Lease.Lease.Verify | crates/rc-core/src/lease.rs:41-54 | the two errors, or success |
| Lease.Lease.Renew | crates/rc-core/src/lease.rs:55-65 | only a verified holder extends the lease |
| Lease.Lease.Release | crates/rc-core/src/lease.rs:66-76 | only a verified holder gives it up |
| Lease.Lease.RevokeConnection | crates/rc-core/src/lease.rs:77-81 | a connection's lease ends and no other |
| Lease.Lease.RevokeClient | crates/rc-core/src/lease.rs:82-86 | a client's lease ends and no other |
| Lease.Lease.RevokeAll | crates/rc-core/src/lease.rs:87-89 | any lease ends, the epoch stays |
| Lease.Lease.CurrentView | crates/rc-core/src/lease.rs:90-101 | an expired lease is not shown |
| Lease.VerifiedExactly | crates/rc-core/src/lease.rs:41-54 | verification succeeds if and only if the caller is the holder of the live epoch |
| Lease.SingleWriter | crates/rc-core/src/lease.rs:17-89 | whoever is verified for an epoch, at any two points of any run, is the same connection of the same client |
| Lease.DeadForever | crates/rc-core/src/lease.rs:17-89 | an epoch passed, revoked or expired is never live again |
| Lease.ExpiredNeedsNewEpoch | crates/rc-core/src/lease.rs:17-76 | an expired lease is neither renewed nor released; taking it again moves the epoch on |
| LeaseLaws.AcquireExactly | crates/rc-core/src/lease.rs:17-40 | busy if and only if another connection may write and there is no takeover, an internal error if and only if a new epoch is due and there is none, and then nothing changes; otherwise the holder keeps its epoch, anybody else gets the next one, and exactly that connection may write until 15000 ms later |
| LeaseLaws.TakenOver | crates/rc-core/src/lease.rs:17-40 | whoever could write before and is not the one that acquired can write no more |
| LeaseLaws.RenewExactly | crates/rc-core/src/lease.rs:55-65 | whoever may write may write for 15000 ms more under the same epoch, and nobody else; anybody else changes nothing |
| LeaseLaws.ReleaseExactly | crates/rc-core/src/lease.rs:66-76 | after whoever may write releases nobody may; anybody else changes nothing |
| LeaseLaws.RevokeExactly | crates/rc-core/src/lease.rs:77-89 | a revocation takes the lease from the connection or client it names, and from nobody else; the epoch stays |
| LeaseLaws.ViewExactly | crates/rc-core/src/lease.rs:90-101 | what is shown is who may write now and for how long yet |
| LeaseLaws.WriterExactly | crates/rc-core/src/lease.rs:17-89 | after any run of operations at any instants a connection may write if and only if one of them gave it the lease less than 15000 ms ago and none since took it |
| Ledger.InputLedger.AcceptLimit | crates/rc-core/src/input.rs:47-79 | sizes and duplicates are refused without effect; otherwise the window slides and the last pair is remembered |
| Ledger.InputLedger.Finish | crates/rc-core/src/input.rs:80-84 | an outcome is recorded unless it was evicted |
| Ledger.AcceptKeepsValid | crates/rc-core/src/input.rs:47-79 | ids and outcomes stay in step, distinct and at most 1024; only the oldest id is dropped |
| InputTheory.AcceptedIsLater | crates/rc-agent/src/session.rs:394-397 | what lease and ledger let through together is later than every input before |
| InputTheorems.AcceptanceIsLexicographic | crates/rc-agent/src/session.rs:384-468 | over every run the accepted (epoch, sequence) pairs strictly increase, and every epoch has one client and connection |
| InputTheorems.WriteOrder | crates/rc-agent/src/session.rs:617-725 | data reaches the PTY in strictly increasing (epoch, sequence, chunk) order: nothing twice, nothing after a later input or the Ctrl+C that overtook it |
| InputTheorems.JobShape | crates/rc-agent/src/session.rs:641-725 | each job's bytes are contiguous, a prefix of bracket, chunks, bracket, return; an Ok outcome means the full form; an open bracket is closed unless that write failed; `write_job` nests at most once |
| InputTheorems.FullBytes | crates/rc-agent/src/session.rs:662-709 | the full form is the input's bytes, bracketed and followed by a return exactly if asked for |
| InputTheorems.OnePlace | crates/rc-agent/src/session.rs:617-725 | every accepted input is in exactly one of seven places, once |
| InputTheorems.Accounting | crates/rc-agent/src/session.rs:617-725 | an input refused, queued, cancelled or left over contributed nothing to the PTY |
| InputTheorems.EpochCutoff | crates/rc-agent/src/session.rs:652-703 | once an epoch is passed, revoked or expired no run adds another byte of its jobs but a closing bracket |
| InputInterrupts.CtrlCCutsPaste | crates/rc-agent/src/session.rs:675-724 | if a Ctrl+C is queued while a paste is before or at a chunk, then in every continuation at most the chunk under way is still written, the paste is recorded as cancelled unless that chunk was its last or failed, and next is recorded the oldest Ctrl+C, with everything queued as ordinary input cancelled |
| InputProgress.WriteExactly | crates/rc-agent/src/session.rs:649-708 | an opening bracket, a chunk or a return is written if and only if the scope, the session, the lease and the write allow it; otherwise the outcome is the first reason not to |
| InputProgress.UndisturbedJob | crates/rc-agent/src/session.rs:641-717 | a permitted job that nothing disturbs is written in full and recorded as written |
| InputProgress.CtrlCServed | crates/rc-agent/src/session.rs:675-724 | a permitted Ctrl+C that finds a paste before a chunk: the bracket is closed, 0x03 follows at once, the queue is cancelled, and the ledger says so |
| InputProgress.NextServed | crates/rc-agent/src/session.rs:617-640 | an idle writer serves the oldest Ctrl+C first, then a query, then the oldest ordinary input |
| InputProgress.QueuesSeparate | crates/rc-agent/src/session.rs:415-424 | the Ctrl+C queue holds typed Ctrl+Cs and nothing else, and the ordinary queue none |
| InputProgress.NothingAfterStop | crates/rc-agent/src/session.rs:617-640 | a writer told to stop never writes or records anything again |
| InputProgress.NoLeaseAfterEnd | crates/rc-agent/src/session.rs:342-354 | a session that has ended never grants a lease again |
| PasteText.NewlinesExactly | crates/rc-agent/src/session.rs:446-446 | of a text made of lines and breaks, each CR LF, CR or LF, the lines remain, joined by single CRs |
| PasteText.EveryText | crates/rc-agent/src/session.rs:446-446 | every text is made of lines and breaks in this way |
| PasteText.WithoutLf | crates/rc-agent/src/session.rs:446-446 | no LF remains, and a text without LF is unchanged |
| PasteText.WrittenWasAsked | crates/rc-agent/src/session.rs:384-725 | whatever any run reports as written is, byte for byte, what some request asked for: the bytes typed, or the lines pasted joined by CRs, bracketed and followed by a return as asked |
| InputRequests.RequestExactly | crates/rc-agent/src/session.rs:384-468 | after any run a request is accepted if and only if it is sound, its sender holds the lease, its id is not among the last 1024 accepted, and it is not late for the last one accepted; what happens to it then, and that nothing else changes anything |
| InputOutcomes.StatusExactly | crates/rc-agent/src/session.rs:384-725 | while the ledger remembers an input whose id is its own: `written` if and only if it was written in full, `rejected` if and only if it was refused or cancelled, `delivery_unknown` only after an error, `accepted` only while it waits or is left over |
| InputSession.Session.Enqueue | crates/rc-agent/src/session.rs:384-424 | one `Input` action of the state machine, with its answer |
| InputSession.Session.EnqueuePaste | crates/rc-agent/src/session.rs:425-468 | one `Paste` action of the state machine, with its answer |
| InputSession.Session.LeaseRequest | crates/rc-agent/src/session.rs:342-372 | a change of the lease by any other thread is one action |
| InputSession.Session.WriteChunks | crates/rc-agent/src/session.rs:676-689 | the chunk loop, with other threads between any check and the next, is a run of the state machine |
| InputSession.Session.DrainNormal | crates/rc-agent/src/session.rs:719-722 | cancelling the queue is a run of the state machine |
| InputSession.Session.WriteJob | crates/rc-agent/src/session.rs:641-725 | the whole function, with its one recursive call, is a run of the state machine that records this job's outcome next and leaves the writer idle |
| InputSession.Session.Turn | crates/rc-agent/src/session.rs:626-636 | one turn of the biased selection is a run of the state machine |
| InputSession.Session.WriterLoop | crates/rc-agent/src/session.rs:617-640 | after any number of turns next to any other threads, the PTY has received data in strictly increasing order |
| Journal.Machine.SetServe | apps/desktop/src-tauri/src/main.rs:222-350 | enabling and disabling perform their effects in the planned order and stop at the first that is not done, unwinding a refused command |
| Journal.Machine.Record | apps/desktop/src-tauri/src/main.rs:278-290 | after the command the verified rule is journalled, recorded and published, in this order |
| Journal.Machine.UninstallCleanup | apps/desktop/src-tauri/src/main.rs:673-729 | the uninstaller removes an owned rule under the journal and refuses to act beside an unresolved one |
| Journal.Machine.Status | apps/desktop/src-tauri/src/main.rs:142-192 | recovery performs its effects only after the rule was verified |
| JournalTheorems.CrashConsistency | apps/desktop/src-tauri/src/main.rs:142-350 | from any rule and any configured origin, after any commands, failures and crashes: whenever no journal exists, either rule, receipt and origin all agree, or there is no receipt, the rule is as it was found and the origin as it was found or none |
| JournalTheorems.ForeignRuleKept | apps/desktop/src-tauri/src/main.rs:252-254 | a rule found on port 443 is never touched and nothing is written beside it |
| JournalTheorems.ReceiptMeansOwned | apps/desktop/src-tauri/src/tailscale.rs:330-382 | with no journal, a receipt is on file if and only if inspection finds the rule owned |
| JournalTheorems.RecoveryExactly | apps/desktop/src-tauri/src/main.rs:161-192 | one uninterrupted recovery restores the settled state if and only if the journal's command took effect, and otherwise changes nothing |
| JournalTheorems.ClearableExactly | apps/desktop/src-tauri/src/main.rs:161-253 | a journal can be cleared by any sequence of commands if and only if its command took effect |
| JournalTheorems.StuckReachable | apps/desktop/src-tauri/src/main.rs:261-271 | dying between journal and command leaves a state no later command changes |
| JournalTheorems.OnAndOff | apps/desktop/src-tauri/src/main.rs:267-350 | enabling then disabling restores everything but the origin, which ends as none: so the whole world if and only if none was configured before |
| JournalTheorems.SuccessExactly | apps/desktop/src-tauri/src/main.rs:222-729 | in any world a run leads to without a journal: a command that reports success has changed the world exactly as it should, one that is not interrupted does, and it then reports success if and only if there was something to do or it does not mind; uninstalling leaves neither rule, receipt, origin nor journal |
| JournalTheorems.RefusedBeside | apps/desktop/src-tauri/src/main.rs:660-695 | beside a journal, or after a holder of the lock died without one, no change is made or reported |
| JournalTheorems.OnlyOwnRule | apps/desktop/src-tauri/src/main.rs:222-729 | in any world whatever, a command changes what is on port 443 only to set our rule where there was none or to remove the very rule the receipt on file describes |
| JournalTheorems.RecordsOnlyOwned | apps/desktop/src-tauri/src/main.rs:142-729 | in any world whatever, a receipt is recorded only if it describes the rule that is there, and forgotten only once no rule is there |
| JournalTheorems.RefusedUninstallSticks | apps/desktop/src-tauri/src/main.rs:702-712 | an uninstall whose command refuses leaves a journal that no later command clears |
| JournalTheorems.RefusedLeavesNoTrace | apps/desktop/src-tauri/src/main.rs:272-275 | a change whose command refuses leaves the world as it was if and only if it is no uninstall, or there is no receipt, or it never starts |
| GuiTheorems.PassesOnlyUnrevoked | crates/rc-platform-windows/src/gui_session.rs:299-354 | an input passes the safety thread only if the revision was not bumped since its arm's compare-exchange, or was bumped a multiple of 2^64 times |
| GuiTheorems.DeadForever | crates/rc-platform-windows/src/gui_session.rs:29-34 | once the revision has moved past a grant nothing of it passes in any later run before 2^64 bumps |
| GuiTheorems.InputsIncrease | crates/rc-agent/src/media.rs:570-581 | accepted inputs, and those reaching the backend, strictly increase by grant and sequence number; what reaches it was accepted |
| GuiTheorems.EpochsIncrease | crates/rc-agent/src/media.rs:570-581 | while fewer than 2^64 bumps happened the accepted (epoch, seq) pairs themselves strictly increase |
| GuiTheorems.CheckExactly | crates/rc-platform-windows/src/gui_session.rs:332-335 | an input about to be decided passes if and only if the revision was not bumped since its grant, or a multiple of 2^64 times |
| GuiTheorems.LeaseExactly | crates/rc-platform-windows/src/gui_session.rs:102-105 | the epoch of the held lease is the revision if and only if nothing was revoked since its grant, up to 2^64 bumps |
| GuiTheorems.ArmedExactly | crates/rc-platform-windows/src/gui_session.rs:299-331 | whenever no arm, revocation or acquisition is half-way, `armed` is true if and only if a lease is held and nothing was revoked since its grant |
| GuiTheorems.ArmedCanLag | crates/rc-platform-windows/src/gui_session.rs:76-101 | half-way it can be true without a lease after a complete revocation: an arm whose wake-up failed, carried out meanwhile |
| GuiProgress.ReceiveExactly | crates/rc-agent/src/media.rs:579-581 | between changes an input is accepted if and only if every other check is met, it names the held lease, nothing was revoked since its grant, and it is newer than all accepted under it; any other costs the lease |
| GuiProgress.UndisturbedAcquire | crates/rc-platform-windows/src/gui_session.rs:75-101 | an acquisition that nothing disturbs grants a lease of the next revision and arms |
| GuiProgress.UndisturbedInput | crates/rc-platform-windows/src/gui_session.rs:102-107 | a newer input under an armed lease that nothing disturbs passes the safety thread |
| GuiProgress.LocalInputDisarms | crates/rc-platform-windows/src/gui_session.rs:29-34 | local input, wherever the safety thread can notice it, disarms and bumps the revision |
| GuiProgress.LocalInputRevokes | crates/rc-platform-windows/src/gui_session.rs:29-34 | whatever passes the safety thread after local input was granted after it, or 2^64 bumps later |
| GuiProgress.FailureRevokes | crates/rc-platform-windows/src/gui_session.rs:299-354 | an arm that fails and an input the backend cannot apply revoke |
| GuiProgress.ArmFails | crates/rc-platform-windows/src/gui_session.rs:299-318 | an arm fails if and only if the revision moved on, the backend fails, or no revision is left |
| GuiProgress.ThreadDecides | crates/rc-platform-windows/src/gui_session.rs:311-345 | an arm is answered with its lease if and only if it is unrevoked since its exchange, and undone otherwise; an input goes on if and only if it finds `armed` set |
| GuiProgress.FailedWakeRevokes | crates/rc-platform-windows/src/gui_session.rs:75-87 | so do a command whose wake-up fails and the end of the stream |
| GuiProgress.DropRevokes | crates/rc-platform-windows/src/gui_session.rs:108-111 | giving the lease up disarms, bumps the revision and leaves no lease |
| GuiProgress.QuitCloses | crates/rc-platform-windows/src/gui_session.rs:60-69 | the safety thread revokes before it closes |
| GuiProgress.ActionExactly | crates/rc-platform-windows/src/gui_session.rs:75-107 | an accepted input is handed to the safety thread if and only if it finds `armed` set, its lease unrevoked and room in the queue |
| TraceWriting.TraceWriter.Observe | crates/rc-agent/src/perf.rs:210-220 | the global histogram holds every sample, the first 64 sessions their own, `other` the rest |
| TraceWriting.RawTrace.Write | crates/rc-agent/src/perf.rs:222-238 | a raw line is written and counted unless it would pass the limit; from the first that would, none is |
| TraceWriting.RawIsPrefix | crates/rc-agent/src/perf.rs:222-238 | the raw trace is exactly the longest run of first lines within the limit, and is marked truncated if and only if a line was left out |
| TraceWriting.CountsAgree | crates/rc-agent/src/perf.rs:210-239 | global count = session counts + other = sum of buckets, for any events |
| TraceWriting.KeysExactly | crates/rc-agent/src/perf.rs:210-220 | a session has its own histogram if and only if it first appeared when fewer than 64 others had |
| Trace.FooterAccountsForAll | crates/rc-agent/src/perf.rs:308-399 | if closing succeeds, samples + dropped is the number of records ever admitted, for any number of concurrent recorders |
| Trace.FooterNeverExceeds | crates/rc-agent/src/perf.rs:352-389 | even when closing times out the footer never accounts for more than was admitted |
| Trace.NoCarry | crates/rc-agent/src/perf.rs:330-365 | the recorder count never carries into the closed bit, which is set exactly once closing began |
| Trace.SamplesAgree | crates/rc-agent/src/perf.rs:241-253 | the footer's samples are the sum of the session counts and `other` |
| TraceProgress.RecordExactly | crates/rc-agent/src/perf.rs:308-350 | a record nothing disturbs is let in if and only if closing has not begun and the word has room, and is then queued if the queue has room and a reader, else counted as dropped; otherwise it leaves no trace |
| TraceProgress.WritesOldest | crates/rc-agent/src/perf.rs:373-387 | until it is told to stop the writer takes the oldest record each time round |
| TraceProgress.CompleteTrace | crates/rc-agent/src/perf.rs:352-400 | a trace closed when nobody is recording ends with a footer that accounts for every record, everything queued as a sample |
| Histogram.Histogram.Record | crates/rc-agent/src/perf_histogram.rs:24-32 | count, sum, maximum and every bucket stay those of the recorded samples |
| Histogram.Histogram.Quantile | crates/rc-agent/src/perf_histogram.rs:34-53 | the cumulative loop finds the bucket of the exact order statistic; the return after the loop is unreachable |
| Histogram.FirstBucket | crates/rc-agent/src/perf_histogram.rs:41-45 | the first bucket whose running count reaches the rank is that of the rank-th smallest sample |
| Histogram.RankExactly | crates/rc-agent/src/perf_histogram.rs:36-40 | the rank is the least one that covers the fraction asked for, or the last |
| Histogram.QuantileBound | crates/rc-agent/src/perf_histogram.rs:34-53 | the quantile is at least the exact value, at most the largest sample, and under 100 above any exact value below 100000 |
| Histogram.OverflowReportsMaximum | crates/rc-agent/src/perf_histogram.rs:45-50 | from 100000 on the quantile is the maximum |
| WidthTable.Write | crates/rc-agent/examples/unicode-width-profile.rs:20-73 | for every width function the ranges are its maximal runs of width 0 or 2, sorted and disjoint, and all of them |
| WidthTable.TableIsMaximalRuns | crates/rc-agent/examples/unicode-width-profile.rs:31-73 | a range is in the table if and only if it is a maximal run |
| WidthTable.ScalarWidth | packages/terminal-client/src/unicode.ts:6-19 | the binary search returns that width for every scalar and 0 for surrogates, fractions and numbers out of range |

## Left out

- The VT engine (crates/rc-agent/src/terminal.rs) is abstract: a fold over bytes with a size. Whether its snapshot
  restores the screen it was taken of is a hypothesis of the results that need it; the grid and modes that the snapshot
  writes out are not modelled, and the parser crate is not part of this model. The agent ends a synchronized update at
  the end of the token that begins it; in a fold over bytes such updates have no effect of their own.
- RestartingParser.Next: one small parser, not that of any engine; it keeps no parameters and decodes no UTF-8.
- JSON: what `JSON.parse` makes of the snapshot metadata is a parameter that the honest agent's bytes fix, at most
  16384 of them; the JSON of the Serve status is replaced by the three cases `parse_status` distinguishes.
- Host names and origins are taken as validated; `valid_dns_name` and the configuration parser are not modelled.
- `write_all`, file writes with their rename, and the Tailscale command succeed or fail as a whole; a command that exits
  with an error has no effect, one that times out may have. Nobody else edits rules or configuration meanwhile.
- `select_biased`, and each permission check with the write it guards, are one step; other threads act between steps.
- Wall-clock deadlines, keepalives and rate windows appear as arbitrary choices; only the lease has a clock.
- One viewer stands for all: viewers share the log, the ring and the fence and do not affect each other.
- The agent never emits exit frames, so the output path has none; the guard's case for them is modelled.
- Memory orderings: atomics are sequentially consistent. u64 counters other than the GUI revision and the trace's
  admission word do not wrap.
- GuiSafety.ThreadStep: concurrent by nature, so modelled as a state machine on values; the backend is one answer per
  access, and the text injection's own pacing is not modelled. `revoke` is two accesses, so a thread can be half-way.
- GuiSafety.MediaStep: the thread that runs `arm` and the media loop that awaits it are one, as they never act at once.
- Trace.Step: the recorders, the closing thread and the writer are a state machine on values for the same reason.
- TraceWriting.RawTrace.Write: takes the length of the serialised line; the serialisation and its errors are not modelled.
- Histogram.Histogram.Quantile: `p` is a real number, so rounding of the f64 product is not modelled.
- InputSession.Session.WriterLoop: cut off after a given number of turns, since the loop itself need not end.
- InputOutcomes.StatusExactly: of inputs whose id no other accepted input has; ids are UUIDs that clients choose.
- InputPath.Permitted: the scope check of a principal is an arbitrary answer at every use.
- WidthTable.Write: the width function is arbitrary; the unicode-width crate is not part of this model, nor is
  `charProperties`.
- Uninstallation: only its Serve part; autostart is not modelled.
- Sockets, HTTP, SQLite, ConPTY, Win32, WebRTC and GStreamer, authentication, previews, adaptive rate policy, geometry,
  pane layout and the user interface: foreign calls, or easy single-map invariants.
- Resize requests: their lease check and the roll-back of a failed resize add only further resize events to the log;
  the model allows any valid resize event at any time.
