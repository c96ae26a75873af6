# A model of lapin's core

lapin is a client for AMQP 0-9-1. This project models the parts of it that carry
state across calls and threads, and proves what they promise over every input and
every run:

- **The byte buffers** (`Bytes`, `Parsing`, `RingBuffer`, `Generator`). A ring of
  bytes refines a plain byte queue over every sequence of operations, parsing does
  not see where the ring wraps, and a frame generator with back-patched lengths
  leaves exactly its encoding or nothing.
- **The outgoing scheduler** (`Scheduler`, `Publishing`, `FrameRuns`,
  `FramePromises`, `FrameOutcomes`). Whatever threads push, drop, poison or retry, a
  header or body is only sent right after its predecessor. A publish leaves as one
  uninterrupted run of frames unless a drop cuts it, and on channels that are not
  dropped nothing is lost or reordered. Who is turned away, what each call settles and
  with which outcome, is exact.
- **The I/O loop** (`OutgoingBytes`, `IoLoop`, `IoPromises`, `Receiving`). End to
  end, on every connection: the bytes on the socket are the encodings of the frames
  sent, and a frame is resolved exactly when its last byte is written, and rejected
  when it is cut off. Which of the promises given are left open when the loop ends is
  stated exactly. In the other direction, each frame is delivered once however the
  network cuts the stream.
- **Message reassembly** (`Reassembly`). Method, header and bodies come back as the
  message that was published.
- **Confirms and returned messages** (`Confirms`). Each tag is settled at most
  once, with what the broker first said of it or the channel's error, and a returned
  message is lost or duplicated on its way to the user by nothing but such an error.
- **Channel ids** (`ChannelIds`), **wake-ups** (`Wakeup`), **recovery**
  (`Recovery`, `Registry`) and **heartbeats** (`HeartbeatClock`).

Objects that the code updates in place are classes, proved method by method against
functions on values; the theorems are about those functions, over whole runs
(`Legal`, `Exec`). Concurrency is modelled as interleaved steps, one per locked
section.

Where a promise turned out not to hold of the code as it is, the code was kept and
the exact condition is proved:

- `grow` panics when the data reach the end of the memory and the part that wrapped
  around is shorter than the growth (`RingBuffer.Buffer.Grow`, `RingBuffer.Replay`, `RingBuffer.ShortTailPanics`).
  Its comment says that this is the case with room enough.
- `rollback` to a checkpoint taken on an empty buffer does nothing once the buffer
  is full, so a frame as large as the buffer is not undone
  (`Generator.RollbackRestores`, `Generator.OversizedFrameStays`).
- `offset` reports a whole turn for a context that was not advanced
  (`RingBuffer.OffsetExact`).
- The sizes of the frames in flight drift from the bytes when a single write takes,
  or a single frame has, 2^32 bytes or more (`OutgoingBytes.WriteInStepIff`,
  `OutgoingBytes.SuccessInStepIff`).
- A promise given to the scheduler can be left open when the loop ends: exactly when
  a queue, an awaited reply or a frame refused by its generator is all that holds it
  (`IoPromises.PromisesKept`). If everything was dropped before, and the poison not
  lifted since, it is exactly what a refused frame held, or the frame in hand at the
  drop if it was put back (`IoPromises.PromisesAfterDrop`). The runs that get there:
  an orderly close overtakes a publish that waits (`IoPromises.CloseForgets`), a frame
  is put back after the drop (`IoPromises.PutBackForgotten`), a generator fails for a
  reason of its own (`IoPromises.RefusedForgotten`). When a generator is refused is
  computed from lengths (`Generator.EndsExact`, `Generator.RefusedIff`).
- A command of an acker that is handled while its channel is not up is skipped, and
  whoever awaits it waits for ever: exactly those (`Recovery.CommandsAnswered`).
- Dropping a channel, or everything, while a publish is under way cuts it short, and
  exactly then is a publish not finished (`FrameRuns.WholeStep`,
  `FrameRuns.WholePublishes`, `FrameRuns.CutPublish`).
- A new connection can start with a header or a body: exactly when one is in line
  next, which happens when the I/O loop puts one back after its channel was dropped
  (`FrameRuns.RestartIff`, `FrameRuns.DirtyStart`, `FrameRuns.DirtyRestart`).
- A zero-length body after the last announced byte is refused as unexpected: the
  frames of a content are all accepted if and only if no empty body trails
  (`Reassembly.ContentDelivers`, `Reassembly.StreamDelivers`,
  `Reassembly.TrailingEmptyBody`).
- A frame larger than the receive buffer is never reported as too large: the loop
  stalls, and only then (`Receiving.Pump`, `Receiving.StallIff`).
- A channel error loses the returned messages inside confirms that were dropped
  before they were settled and not yet drained (`Confirms.LosesIff`,
  `Confirms.ErrorLosesMessage`).
- With flow off, a pop can still start a publish: one that had been put back
  (`FrameRuns.FlowGate`, `FrameRuns.RetriedStartIgnoresFlow`).
- Body frames respect `frame_max` only from 9 bytes on (`Publishing.BodiesFit`).
- Replaying the topology after a reconnection declares the same topology, but
  doubles every stored list of bindings (`Registry.ReplayIdempotent`,
  `Registry.ListsGrow`).
- Ids stay within a new maximum only if the next one already is
  (`ChannelIds.RangeIff`).

## Model

| member | source | states |
|---|---|---|
| Parsing.ParsingContext.Take | src/parsing.rs:53-60 | panics exactly when asked for more than there is, else the first bytes of the two slices read as one |
| Parsing.ParsingContext.TakeFrom | src/parsing.rs:63-70 | likewise for the bytes after an index |
| Parsing.ParsingContext.TakeSplit | src/parsing.rs:73-86 | both halves at once, the rest first |
| Parsing.ParsingContext.Position | src/parsing.rs:89-94 | the first byte that satisfies a predicate, over both slices; none only if no byte does |
| Parsing.ParsingContext.SliceIndex | src/parsing.rs:107-113 | nothing missing exactly when `take` would succeed, otherwise how much |
| Parsing.ParsingContext.CompareWith | src/parsing.rs:118-141 | equal on the whole pattern, or input too short but equal so far, in both directions |
| Parsing.ParsingContext.Compare | src/parsing.rs:118-126 | the pattern is a prefix of the input; or the input a proper prefix of the pattern |
| Parsing.ViewIndependence | src/parsing.rs:42-142 | any chain of parser steps panics on both or neither of two contexts with the same bytes, and every observation afterwards agrees: parsing cannot see the wrap-around |
| RingBuffer.Buffer.constructor | src/buffer.rs:26-34 | an empty queue of the given capacity, usable unless that is 0 |
| RingBuffer.Buffer.Reset | src/buffer.rs:36-40 | the queue becomes empty |
| RingBuffer.Buffer.Rollback | src/buffer.rs:49-65 | the end is the checkpoint's, and the data shrink or grow by the circular distance |
| RingBuffer.Buffer.Consume | src/buffer.rs:108-114 | drops as many bytes from the front as there are, up to `count` |
| RingBuffer.Buffer.Fill | src/buffer.rs:116-122 | claims as many free cells as there are, up to `count`, and touches no byte |
| RingBuffer.Buffer.WriteSlices | src/buffer.rs:124-142 | the slices offered to the socket are together the queue, in order |
| RingBuffer.Buffer.ReadFrom | src/buffer.rs:144-163 | data read land in the free cells after the queue, in order, wrap-around included, and nowhere else |
| RingBuffer.ReadThenFill | src/io_loop.rs:509-550 | reading and then filling appends to the queue what was read |
| RingBuffer.Buffer.Write | src/buffer.rs:189-207 | appends as much of the data as fits |
| RingBuffer.Buffer.ConsumeParsed | src/io_loop.rs:616-635 | consuming the offset of an advanced context drops exactly the bytes the parser went over |
| RingBuffer.OffsetExact | src/buffer.rs:165-186 | the parsing context reads as the queue, and the offset of what any chain of steps leaves is the bytes gone over if and only if there are any |
| RingBuffer.ChainRest | src/buffer.rs:165-186 | after any chain of steps the context still lies in the ring at the place those bytes say |
| RingBuffer.Buffer.Resize | src/buffer.rs:75-76 | the memory is longer and begins with what it held |
| RingBuffer.Buffer.MoveTail | src/buffer.rs:86-94 | the two copies, overlap included, move the wrapped tail up by the growth |
| RingBuffer.TailMovedContents | src/buffer.rs:78-95 | that move leaves the queue as it was |
| RingBuffer.Buffer.Grow | src/buffer.rs:67-98 | not needed, panics, or grows: exactly when, and growing keeps the queue |
| RingBuffer.Perform | src/buffer.rs:25-207 | each operation does to the ring what it does to a byte queue, or panics as predicted |
| RingBuffer.Replay | src/buffer.rs:25-207 | over every sequence of operations the ring panics exactly where the queue's capacity and head say, and otherwise equals the queue |
| RingBuffer.ShortTailPanics | src/buffer.rs:82-85 | one byte left in the last of four cells, growing to eight panics |
| Generator.ReserveWriteUse | src/buffer.rs:215-242 | reserving, generating, going back, writing the header and coming forward is the `Patched` generator, failures included |
| Generator.Generate | src/buffer.rs:189-242 | running a generator on the ring, in place, is running it on the linear form; a failure says whether the buffer or the generator was at fault |
| Generator.PatchExact | src/buffer.rs:233-240 | writing the reserved header changes those bytes only, as long as the frame is not a full turn |
| Generator.RunExact | src/buffer.rs:215-242 | without a full turn a generator, however nested, succeeds exactly when its bytes fit, leaves exactly its encoding after the old bytes, and changes none of them even if it fails |
| Generator.EndsExact | src/buffer.rs:189-242 | on every buffer, full turns included, a generator succeeds, runs out of room or gives up of its own exactly as its lengths say |
| Generator.RefusedIff | src/io_loop.rs:578-593 | only a generator that gives up somewhere is refused; with room for its bytes, exactly such a one is |
| Generator.FullTurnFills | src/buffer.rs:49-65 | with a full turn the buffer ends up full |
| Generator.RollbackRestores | src/io_loop.rs:569-598 | rolling back after a generator ran restores the queue if and only if it made no full turn |
| Generator.OversizedFrameStays | src/buffer.rs:50-52 | four bytes into three empty cells fail, and the rollback keeps three of them |
| Scheduler.Frames.Push | src/frames.rs:299-329 | poisoned, by its channel or as a whole: the expected reply and the sending are settled at once; else the frame and its expected reply are queued |
| Scheduler.Frames.PushFrames | src/frames.rs:331-355 | poisoned, by its channel or as a whole: the promise is rejected; else the batch is queued with its promise on the last frame |
| Scheduler.Frames.PopFrame | src/frames.rs:364-400 | retried frames, then the content under way, then others, then with flow a new publish whose content is moved over |
| Scheduler.Frames.MoveContent | src/frames.rs:376-396 | moves the header and bodies at the front, no fewer and no more |
| Scheduler.Frames.HasPending | src/frames.rs:402-407 | some queue holds a frame |
| Scheduler.Frames.DropPending | src/frames.rs:409-432 | poisons, empties all queues and the reply table, settles what they held in the order of the code, and names the consumers to deregister |
| Scheduler.Frames.DropAllQueues | src/frames.rs:418-432 | the four queues, one after the other |
| Scheduler.Frames.DropQueue | src/frames.rs:418-432 | each frame is rejected, except that a basic.cancel is resolved and its consumer is to be deregistered |
| Scheduler.Frames.DropFramesForChannel | src/frames.rs:434-454 | frames of the channel are rejected, the others stay in order, in all four queues |
| Scheduler.Frames.RetainOffChannel | src/frames.rs:441-454 | the same for one queue |
| Scheduler.Frames.FindExpectedReply | src/frames.rs:122-137 | takes the first matching reply of the channel out of the table |
| Scheduler.Frames.TakeExpectedReplies | src/frames.rs:156-161 | takes all replies of a channel |
| Scheduler.Frames.ClearExpectedReplies | src/frames.rs:163-167 | takes and cancels them |
| Scheduler.Frames.NextExpectedCloseOk | src/frames.rs:456-470 | cancels the replies before the close-ok and returns that one |
| Scheduler.Frames.ClearAllReplies | src/frames.rs:472-476 | cancels every reply and empties the table, in whatever order it is drained |
| Scheduler.Frames.CancelAll | src/frames.rs:478-490 | cancels each, resolving those that wait for a cancel-ok |
| Publishing.ChunksExact | src/channel.rs:506-511 | body chunks join to the payload, none empty, none over the chunk size |
| Publishing.ChunksFull | src/channel.rs:506-511 | and all but the last have exactly that size |
| Publishing.BodiesFit | src/channel.rs:500-511 | body frames fit `frame_max` if and only if it is at least 9 or there is no payload |
| Publishing.BodiesFull | src/channel.rs:500-511 | every body frame but the last is filled to `frame_max` |
| FrameRuns.InvExec | src/frames.rs:275-490 | the scheduler's invariant holds throughout every run, also when a frame is refused by its generator |
| FrameRuns.UninterruptedContent | src/frames.rs:275-286 | in every run every header and body sent comes right after its predecessor of the same publish, and publishes keep their order without repeats |
| FrameRuns.NothingLost | src/frames.rs:299-400 | in every run, on any set of channels that is not dropped, what has been sent, is popped or is queued is what was accepted, in order, for publishes and for other frames; other channels may be dropped |
| FrameRuns.NothingLostAnywhere | src/frames.rs:299-400 | in every run without drops, the same for all channels together |
| FrameRuns.WholeStep | src/frames.rs:364-454 | if every publish begun was in line to be finished without interruption, it still is after a step, if and only if the step does not drop the rest of one under way |
| FrameRuns.WholePublishes | src/frames.rs:275-400 | in every run in which no drop does so, each part sent but the last of its publish is followed by the next part |
| FrameRuns.CutPublish | src/frames.rs:434-454 | a publish, its first frame sent, its channel dropped: the next frame sent on that channel comes right after it |
| FrameRuns.RestartIff | src/io_loop.rs:255-281 | a new connection keeps the invariant if and only if the frame in line next is not a header or a body |
| FrameRuns.DirtyStart | src/frames.rs:364-372 | otherwise that header or body is the first frame sent on it |
| FrameRuns.DirtyRestart | src/io_loop.rs:580-585 | a header popped, its channel dropped, the header put back: the run that gets there |
| FrameRuns.UrgentFirst | src/frames.rs:364-373 | any number of pops, with any flow flags, yield the frame put back, the rest of the publish under way and the callers' own frames, in this order, before any new publish |
| FrameRuns.PublishNext | src/frames.rs:374-400 | only then, and with the flow on, a publish begins, and exactly the content behind its method is set apart; a pop yields nothing only if nothing may go |
| FrameRuns.FlowGate | src/frames.rs:364-400 | with flow off a pop leaves the publish queue alone, and starts a publish if and only if one had been put back |
| FrameRuns.FlowOffRun | src/frames.rs:375-396 | over a whole run with flow off no publish starts that had not started before |
| FrameRuns.RetriedStartIgnoresFlow | src/frames.rs:364-367 | a publish popped with flow on and put back is popped again with flow off |
| FramePromises.DropFramesSettles | src/frames.rs:418-432 | dropping a queue settles every promise its frames answer for, with the right outcome |
| FramePromises.DropFramesOnly | src/frames.rs:418-432 | and no other |
| FramePromises.CancelRepliesSettles | src/frames.rs:478-490 | cancelling replies settles each of them |
| FramePromises.CancelTableSettles | src/frames.rs:472-476 | the same for the whole table, whatever the order |
| FramePromises.DropPendingSettlesFrame | src/frames.rs:409-432 | `drop_pending` settles the promise of every queued frame |
| FramePromises.DropPendingSettlesReply | src/frames.rs:409-432 | and of every expected reply |
| FramePromises.DropChannelSettles | src/frames.rs:434-454 | dropping a channel rejects the promise of every one of its frames |
| FramePromises.SafeDropPending | src/frames.rs:409-432 | after `drop_pending` every safe promise is settled, unless the I/O loop has its frame |
| FramePromises.NoPromiseForgotten | src/frames.rs:275-490 | in every run a promise once given is settled, or still held by a queue, the reply table or the I/O loop, until its reply is handed to the caller or its frame is refused |
| FramePromises.PoisonedRun | src/frames.rs:299-416 | after `drop_pending`, until the poison is lifted, every promise given is settled at once, and nothing is queued or awaited but the frame in hand at the drop, if it was put back |
| FrameOutcomes.GateExact | src/frames.rs:299-362 | after every run a push or publish is let in if and only if, by the calls made, neither its channel nor everything is poisoned; else nothing is queued or awaited and exactly what it passed in is settled, with the channel's own latest error or else the general one, a cancel-ok waiter with success |
| FrameOutcomes.ChannelPoisonedRun | src/channel.rs:353-374 | from the poisoning of a channel until it is lifted, whatever else is dropped, poisoned or lifted, every push and publish on it is turned away with its latest error |
| FrameOutcomes.BatchLetIn | src/frames.rs:331-355 | a batch let in is at the back in order, its promise with its last frame; an empty one is resolved at once |
| FrameOutcomes.SettlesExact | src/frames.rs:299-490 | each call settles exactly the promises it has to, each with the outcome it has to, and the log only grows |
| FrameOutcomes.LogExact | src/frames.rs:299-490 | over every run a promise is settled with an outcome if and only if some call had to |
| FrameOutcomes.CancelsExact | src/frames.rs:418-432 | the consumers to deregister are exactly those whose basic.cancel was held |
| FrameOutcomes.RepliesConserved | src/frames.rs:122-167 | over every run and on every channel, the replies awaited are those still in the table and those handed over or cancelled, none twice |
| FrameOutcomes.FoundFirst | src/frames.rs:122-137 | what is found is the channel's first reply the finder accepts; nothing only if it accepts none |
| FrameOutcomes.CloseOkFirst | src/frames.rs:456-470 | what is handed over is the channel's first awaited close-ok; nothing only if there is none |
| FrameOutcomes.SuccessOnlyForCancel | src/frames.rs:299-490 | over every run the scheduler itself tells a promise of success only if it was passed in for a basic.cancel or the reply to one |
| OutgoingBytes.AccountExact | src/io_loop.rs:474-493 | accounting for `n` bytes resolves exactly the frames that end within them and leaves the sizes of the rest, with no surplus |
| OutgoingBytes.InvEmit | src/io_loop.rs:569-598 | generating a frame of under 2^32 bytes keeps buffer, sizes and promises in step, also when it is rolled back |
| OutgoingBytes.InvWritten | src/io_loop.rs:462-493 | so does a write of under 2^32 bytes |
| OutgoingBytes.SizesInStep | src/io_loop.rs:474-493 | in step, the sizes sum to the bytes in the buffer |
| OutgoingBytes.WriteInStepIff | src/io_loop.rs:474-493 | after a write they still do if and only if it took under 2^32 bytes |
| OutgoingBytes.FailureInStepIff | src/io_loop.rs:569-598 | after a failed generation they still do if and only if it made no full turn |
| OutgoingBytes.SuccessInStepIff | src/io_loop.rs:573-577 | after a successful one they still do if and only if the frame has under 2^32 bytes |
| OutgoingBytes.ResolvedWithLastByte | src/io_loop.rs:474-485 | the i-th frame is resolved if and only if its last byte is on the wire |
| OutgoingBytes.AccountingRun | src/io_loop.rs:372-598 | in every run of generations, rollbacks, partial writes, clears and resets, the sizes sum to the bytes waiting and no write finds more bytes than frames |
| IoLoop.WireTheorem | src/io_loop.rs:372-598 | in every run of the loop, over any number of connections however they begin: bytes written and bytes waiting are the encodings of the frames sent on this connection; sizes sum to the bytes waiting; resolved are exactly the frames fully written; publishes leave in order, and contents uninterrupted if and only if the first frame is no content, as it is when the connection began clean |
| IoLoop.SerializeIsRun | src/io_loop.rs:569-598 | a pass of the loop is one of those runs, also when a generator ends it, if no frame goes all the way round the empty buffer |
| IoLoop.SmallFramesFit | src/io_loop.rs:569-598 | none does if all frames held have fewer bytes than the buffer has cells |
| IoLoop.Loop.EmitFrame | src/io_loop.rs:573-595 | one frame into the buffer and its size queued, or the buffer rolled back |
| IoLoop.Loop.Serialize | src/io_loop.rs:569-598 | pops and generates until nothing is left, the buffer is full or a generator fails |
| IoLoop.Loop.BytesWritten | src/io_loop.rs:472-493 | consumes what the socket took and resolves the frames it ends |
| IoLoop.Loop.ClearAndReset | src/io_loop.rs:372-381 | rejects every frame not fully written, once each, in order, with the error given, and leaves a fresh sender |
| IoPromises.ClosingExact | src/io_loop.rs:372-381 | writing and then clearing settle exactly the promises of the frames generated: with success exactly those fully written, with the error exactly the others |
| IoPromises.DropLogExact | src/frames.rs:409-432 | `drop_pending` settles exactly the promises that a queue or the reply table answers for |
| IoPromises.SentAnswered | src/io_loop.rs:474-493 | in every run the loop has resolved, or still answers for, every frame sent on this connection |
| IoPromises.ListsTell | src/io_loop.rs:472-493 | in every run the frames resolved are those whose last byte is on the wire, and the serialized ones the others, promise by promise |
| IoPromises.LoopOutcomes | src/io_loop.rs:372-598 | over every run and any number of connections, the loop reports as sent exactly the frames whose last byte reached the wire, and rejects exactly those cut off, each with the error its connection was cleared with |
| IoPromises.SuccessMeansWritten | src/io_loop.rs:372-598 | scheduler and loop together: a promise not passed in for a basic.cancel is told of success if and only if the last byte of a frame with that resolver was written |
| IoPromises.QuitExact | src/io_loop.rs:255-261 | leaving the loop settles exactly the promises settled already or answered for by a frame in the send buffer, the written ones with success and the others with the error |
| IoPromises.PromisesKept | src/io_loop.rs:255-598 | over every run and any number of connections, a promise given is settled by the time the loop is left if and only if it was settled before or a frame in the send buffer answers for it; otherwise a queue, an awaited reply or a refused frame holds it; the loop's own word is success exactly for what was written, on whichever connection |
| IoPromises.PromisesAfterDrop | src/channels.rs:165-176 | with everything dropped at some point and the poison not lifted, what is left open is exactly what only a refused frame held, or only the frame in hand at the drop if it was put back |
| IoPromises.CloseForgets | src/io_loop.rs:306-310 | a publish waits, a close goes through, the loop ends: the publish is never settled |
| IoPromises.PutBackForgotten | src/io_loop.rs:580-585 | everything is dropped while a header is in hand, which is then put back for lack of room: its promise is never settled |
| IoPromises.RefusedForgotten | src/io_loop.rs:586-592 | a publish without a payload whose header is refused: its promise is never settled |
| Receiving.Parse | src/io_loop.rs:615-642 | consumes a frame exactly when it is whole and within `frame_max`, otherwise nothing |
| Receiving.HandleFrames | src/io_loop.rs:600-613 | delivers all the frames at the front of the buffer, each once and in order, keeps exactly the bytes behind them, and says why it stopped |
| Receiving.FramesAreCut | src/io_loop.rs:600-642 | there are points that cut the input into consecutive stretches, one per frame handed out, each of which the parser makes that frame of; the rest follows the last, and no frame within `frame_max` begins it |
| Receiving.OnlyOneCut | src/io_loop.rs:600-642 | nothing else is cut so: the frames, the rest and the verdict are determined by the parser |
| Receiving.DecodeSplit | src/io_loop.rs:600-642 | decoding what has arrived, then the leftover with more, is decoding it all |
| Receiving.PiecesDoNotMatter | src/io_loop.rs:509-642 | however the stream is cut, the frames delivered, the leftover and the verdict are the same |
| Receiving.RestIsStuck | src/io_loop.rs:600-613 | the leftover holds no whole frame |
| Receiving.ErrorIsFinal | src/io_loop.rs:615-642 | after an error more input changes neither frames nor verdict |
| Receiving.ReadSome | src/io_loop.rs:521-531 | reading takes the next bytes in order, and none only when the buffer is full |
| Receiving.StallsLater | src/io_loop.rs:600-642 | handling what the buffer holds does not change whether the stream gets stuck |
| Receiving.Pump | src/io_loop.rs:509-642 | read-then-parse on the ring delivers the frames of the whole stream, each once, cut where the parser cuts it, whatever each read brings, and holds the beginning of the rest; unless it stalls with the buffer full, exactly when the stream says so |
| Receiving.StallIff | src/io_loop.rs:615-642 | a stream without errors stalls if and only if one of its frames is larger than the buffer |
| Reassembly.ChannelInput.ReceiveMethod | src/channel.rs:1234-1253 | a deliver, get-ok or return starts a message in its sink and expects a header |
| Reassembly.ChannelInput.ReceiveHeader | src/channel.rs:551-584 | accepted only when expected and of the right class; starts the body or completes |
| Reassembly.ChannelInput.ReceiveBody | src/channel.rs:586-606 | accepted only when expected and not too long; completes with the last byte |
| Reassembly.ChannelInput.SetCurrent | src/consumer.rs:384-404 | replaces the message under way in one sink; an unknown consumer has none |
| Reassembly.ChannelInput.Complete | src/basic_get_delivery.rs:73-77 | hands the message over and clears the sink |
| Reassembly.AlwaysWellQueued | src/channel_receiver_state.rs:20-98 | after any events, valid or not, at most the first state is mid-body and its remainder is positive |
| Reassembly.RefusedExactly | src/channel_receiver_state.rs:41-98 | in any state, which header and body frames are refused, with which error, and that a refused one reaches no sink and takes the front state with it |
| Reassembly.BodiesComplete | src/channel_receiver_state.rs:65-98 | bodies of the announced total deliver the message with the joined data, however cut; all are accepted if and only if no empty one trails |
| Reassembly.ContentDelivers | src/channel_receiver_state.rs:20-98 | one content delivers exactly one message to its sink and returns to idle; all its frames are accepted if and only if no empty body trails |
| Reassembly.StreamDelivers | src/channel_receiver_state.rs:20-98 | a stream of contents delivers exactly those for known sinks, in order, and is accepted if and only if none has an empty body trailing; otherwise all goes well up to that body |
| Reassembly.TrailingEmptyBody | src/channel_receiver_state.rs:76-97 | one byte, then an empty body: the message arrives and the channel reports an error |
| Reassembly.PublishAsEvents | src/channel.rs:494-511 | the frames of a publish, as the peer would relay them, are a content with the chunks as bodies |
| Reassembly.RoundTrip | src/channel.rs:486-606 | what one side publishes, for any payload and `frame_max`, the other receives unchanged |
| Confirms.ChannelConfirms.RegisterPending | src/acknowledgement.rs:102-111 | issues the next tag since the last reset, pending, with its promise |
| Confirms.ChannelConfirms.CompletePending | src/acknowledgement.rs:113-128 | settles a promise, with the oldest waiting returned message if any |
| Confirms.ChannelConfirms.DropPending | src/acknowledgement.rs:136-154 | settles a pending tag; an unknown one is an error and changes nothing |
| Confirms.ChannelConfirms.DropAll | src/acknowledgement.rs:130-134 | settles every pending tag |
| Confirms.ChannelConfirms.CompletePendingBefore | src/acknowledgement.rs:156-174 | settles the pending tags up to `n`, in the map's order, and does not err |
| Confirms.ChannelConfirms.OnBasicAck | src/channel.rs:1274-1334 | single, multiple, or ignored when confirms are off |
| Confirms.ChannelConfirms.OnChannelError | src/acknowledgement.rs:176-184 | rejects every pending promise and forgets the dropped confirms |
| Confirms.ChannelConfirms.Reset | src/acknowledgement.rs:186-189 | the same, and the tags start over |
| Confirms.ChannelConfirms.ReturnComplete | src/returned_messages.rs:112-121 | a returned message waits for a confirm, or goes to the other list when confirms are off |
| Confirms.ChannelConfirms.Await | src/publisher_confirm.rs:97-107 | a ready confirm is read once and takes its message along |
| Confirms.ChannelConfirms.RegisterDroppedConfirm | src/returned_messages.rs:123-148 | a dropped confirm gives up its message, or is kept until settled |
| Confirms.ChannelConfirms.ProcessDropped | src/returned_messages.rs:123-161 | going through the dropped confirms keeps the unsettled ones in order and collects the rest |
| Confirms.ChannelConfirms.Drain | src/returned_messages.rs:150-169 | hands over everything returned so far, unconfirmed first |
| Confirms.InvExec | src/acknowledgement.rs:92-189 | in every run, channel errors and resets included, the pending publishes are those made and unsettled, and an unread confirmation is held by the user or among the dropped |
| Confirms.SettleUpTo | src/acknowledgement.rs:130-174 | a multiple ack settles exactly the pending publishes up to its tag since the last reset, all for 0, whatever the map's order |
| Confirms.SettledAllWaiting | src/acknowledgement.rs:113-174 | it attaches the oldest waiting messages, one per tag |
| Confirms.SettledOnce | src/acknowledgement.rs:102-189 | in every run a promise is settled at most once, never changed afterwards, and its publish never pending again |
| Confirms.ErrorRejects | src/acknowledgement.rs:176-189 | after a channel error or a reset every pending promise not dropped is rejected, and every settled one keeps its answer |
| Confirms.AnswersExact | src/acknowledgement.rs:102-189 | over every run a promise holds what was first said of its publish: an ack or nack only if one with that outcome reached its tag since the last reset, a rejection only if it was pending at an error or a reset, nothing if neither came |
| Confirms.HandleKept | src/publisher_confirm.rs:97-117 | a confirm neither awaited nor dropped stays the user's |
| Confirms.PublishThenAwait | src/publisher_confirm.rs:97-107 | publish, then anything, then await: the user reads exactly that answer, or is told to wait |
| Confirms.MessagesConserved | src/returned_messages.rs:112-169 | in every run each returned message is in exactly one place, except what a channel error or a reset loses: no other copy is lost or made |
| Confirms.LosesIff | src/returned_messages.rs:52-54 | a channel error or a reset loses a message if and only if a confirm dropped before it was settled carries it |
| Confirms.ErrorLosesMessage | src/acknowledgement.rs:176-184 | a confirm dropped, settled with a message, then a channel error: the message is gone |
| Confirms.WaitingInOrder | src/returned_messages.rs:112-121 | waiting messages are the most recent returned, in order: they are attached oldest first |
| Confirms.UserGets | src/returned_messages.rs:123-169 | the user gets a message only by awaiting the confirm that carries it or by draining, which hands over everything in order and leaves only unsettled confirms |
| Confirms.NonConfirmInOrder | src/returned_messages.rs:112-121 | what waits outside confirms is what was returned outside them since the last drain, in order |
| ChannelIds.IdSequence.constructor | src/id_sequence.rs:17-25 | a sequence without a maximum, at its start |
| ChannelIds.IdSequence.SetMax | src/id_sequence.rs:42-46 | sets the maximum, 0 meaning none |
| ChannelIds.IdSequence.Next | src/id_sequence.rs:48-59 | hands out the upcoming id and wraps after the maximum |
| ChannelIds.CyclicIds | src/id_sequence.rs:48-59 | the k-th next id is the first plus the sum modulo the range, and the arithmetic does not overflow |
| ChannelIds.FreshIds | src/id_sequence.rs:48-59 | a new sequence gives 1 to `max` in turn, forever |
| ChannelIds.CurrentIsLast | src/id_sequence.rs:27-36 | `current` is the last id handed out, also right after a wrap |
| ChannelIds.RangeIff | src/id_sequence.rs:42-59 | after a new maximum all ids stay within it if and only if the next one does |
| ChannelIds.ScanHits | src/channels.rs:383-403 | what the search finds is in range and free |
| ChannelIds.ScanMisses | src/channels.rs:383-403 | what it went past was taken |
| ChannelIds.OneCycleSuffices | src/channels.rs:377-404 | with fewer channels than the maximum one cycle finds a free id, whatever ids are open |
| ChannelIds.Channels.Create | src/channels.rs:367-405 | succeeds exactly below the limit, with the first free id in cyclic order |
| ChannelIds.Channels.Remove | src/channels.rs:97-109 | frees that id only, and never channel 0 |
| Wakeup.InvExec | src/promise.rs:61-77 | the registration invariant holds in every interleaving |
| Wakeup.NoLostWakeup | src/listener.rs:32-86 | in every interleaving of pollers and senders a sleeping task with something to take has been notified, or a sender is about to notify it |
| Wakeup.PollEnds | src/promise.rs:61-77 | a poll left alone takes the first value, or sleeps armed |
| Wakeup.ValuesInOrder | src/consumer.rs:315-463 | in every interleaving what was stored is what was taken and then what is left, in order |
| Wakeup.NotifierExact | src/notifier.rs:20-45 | a client is released only after `notify_all`, and none waits unnotified once it has returned |
| Recovery.KillSwitch.constructor | src/killswitch.rs:6-7 | not killed |
| Recovery.KillSwitch.Kill | src/killswitch.rs:10-12 | kills, and says whether it was the first to |
| Recovery.ChannelStatus.constructor | src/channel_status.rs:233-246 | the start of the run model: a live switch, announced to the command loop |
| Recovery.ChannelStatus.SetWillReceive | src/channel_status.rs:117-127 | the model's step: an acker gets the current switch |
| Recovery.ChannelStatus.SetReconnecting | src/channel_status.rs:253-266 | the model's step: the old switch is killed, a new live one installed, the first cause kept and returned |
| Recovery.ChannelStatus.FinalizeConnection | src/channel_status.rs:268-274 | the model's step: connected, no cause, and the current switch announced |
| Recovery.ChannelStatus.RenewSwitch | src/channel_status.rs:255-255 | only the current switch is killed, and the new one is live |
| Recovery.ChannelStatus.SendCommand | src/internal_rpc.rs:248-253 | the model's step: a command is queued behind the others |
| Recovery.ChannelStatus.HandleCommand | src/internal_rpc.rs:371-514 | the model's step: a status replaces the switch known, a command passes if that switch is live and is skipped otherwise |
| Recovery.InvExec | src/channel_status.rs:248-274 | in every run the killed switches are all but the current one |
| Recovery.SwitchesTellEpochs | src/internal_rpc.rs:337-341 | in every run an acker's switch is killed if and only if it is of an earlier connection, and commands pass if and only if the loop knows the current switch |
| Recovery.AckerLives | src/channel_status.rs:117-127 | an acker made at any point of any run is poisoned if and only if the connection was lost since |
| Recovery.CommandsAnswered | src/internal_rpc.rs:381-445 | in every run commands are handled in the order sent, and one is skipped, its resolver dropped, exactly when it is handled while the channel is not up |
| Recovery.ShutRun | src/internal_rpc.rs:371-445 | until the new switch is announced no command of the channel passes |
| Recovery.NeverFinalized | src/internal_rpc.rs:371-445 | and none ever does if recovery does not finish |
| Recovery.NothingPassesDuringOutage | src/internal_rpc.rs:371-514 | no command queued before recovery finishes passes, before it or after |
| Recovery.StatusReopens | src/internal_rpc.rs:512-514 | the announcement lets commands through again |
| Recovery.PassesAfterOutage | src/internal_rpc.rs:371-514 | once a connection is finalized and its announcement handled, commands pass until the next loss |
| Recovery.StatusTold | src/channel_status.rs:248-274 | from a loss to the next finalized connection the channel is not connected and being recovered for the first error; from then to the next loss it is connected and not being recovered |
| Recovery.FirstCauseStays | src/channel_status.rs:253-266 | however many failures, the first cause stays until recovery finishes |
| Recovery.AtMostOneThrough | src/acker.rs:108-141 | in every interleaving at most one ack, nack or reject of an acker goes out, and none once it is used |
| Recovery.NobodyRefusedForNothing | src/acker.rs:108-141 | in every interleaving an acker that is not invalidated is used up exactly by one call that gets through, and a call is refused only if another got through or the channel was lost |
| Recovery.LostChannelRefuses | src/acker.rs:113-115 | once the channel is lost no further call gets past the check |
| Recovery.CallAlone | src/acker.rs:108-127 | a call on its own gets through if and only if the acker is neither used nor poisoned |
| Registry.ChannelRegistry.RegisterExchange | src/registry.rs:22-38 | declares, keeping the bindings |
| Registry.ChannelRegistry.DeregisterExchange | src/registry.rs:40-42 | forgets the exchange |
| Registry.ChannelRegistry.RegisterExchangeBinding | src/registry.rs:44-56 | appends a binding, to an undeclared entry if need be |
| Registry.ChannelRegistry.DeregisterExchangeBinding | src/registry.rs:58-68 | removes equal bindings |
| Registry.ChannelRegistry.RegisterQueue | src/registry.rs:70-85 | declares, keeping the bindings |
| Registry.ChannelRegistry.DeregisterQueue | src/registry.rs:87-89 | forgets the queue |
| Registry.ChannelRegistry.RegisterQueueBinding | src/registry.rs:91-103 | appends a binding, to an undeclared entry if need be |
| Registry.ChannelRegistry.DeregisterQueueBinding | src/registry.rs:105-115 | removes equal bindings |
| Registry.Retain | src/topology.rs:85-96 | keeps exactly the other bindings, in order |
| Registry.RefinesTopology | src/registry.rs:22-115 | over every run the lists stand for a map of declarations and a set of bindings |
| Registry.UnbindRemovesAll | src/topology.rs:85-96 | an unbind removes every copy of that binding and nothing else |
| Registry.DeclaresChangeNothing | src/channel.rs:389-400 | re-declaring what is declared leaves the registry as it is |
| Registry.BindsDouble | src/channel.rs:402-414 | re-binding appends each stored list to itself |
| Registry.ReplayIdempotent | src/channel.rs:376-440 | a whole replay keeps the topology and doubles the lists, whatever the order |
| Registry.ReplayRebuilds | src/channel.rs:389-440 | sent to a broker that lost everything, the replay brings back exactly the declarations and bindings of the registry |
| Registry.ListsGrow | src/channel.rs:376-440 | after n replays, each in an order of its own, the topology is the same and every list is 2^n times as long |
| Registry.BindsComeLast | src/channel.rs:389-440 | every bind replayed comes after the declarations of both its ends |
| HeartbeatClock.Heartbeat.PollTimeout | src/heartbeat.rs:113-141 | stop, give up, sleep for the rest, or send and sleep |
| HeartbeatClock.HalfInterval | src/io_loop.rs:134-137 | half of the negotiated interval, and at least a millisecond of any |
| HeartbeatClock.FirstPoll | src/heartbeat.rs:38-46 | on a connection written to and read from lately, as the handshake leaves it, the heartbeat loop starts within its bounds |
| HeartbeatClock.HeartbeatTiming | src/heartbeat.rs:113-161 | in every run, while the loop runs, some write or heartbeat request on record, kept apart from the clock, is at most a half interval and a millisecond old, and silence never exceeds five halves |
| HeartbeatClock.WakeExact | src/heartbeat.rs:113-141 | a wake-up gives up after more than four halves of silence, requests a heartbeat if and only if it goes on and nothing was written or requested for more than a half, and sleeps until that is due, at least a millisecond |
| HeartbeatClock.RequestedExactly | src/heartbeat.rs:113-141 | at every move of every run, heartbeats are requested exactly then and by polls only |
| HeartbeatClock.PeerGivenUp | src/heartbeat.rs:113-127 | the peer is given up only at a wake-up, after more than four and at most five half intervals of silence |

## Left out

- IoLoop.WireTheorem: a run generates no frame that goes all the way round the empty buffer, or whose size does not fit 32 bits; `RollbackRestores`, `FailureInStepIff` and `SuccessInStepIff` say exactly what happens otherwise.
- IoLoop.Loop.Serialize: what `critical_error` does after a refusal, beyond giving the connection up, is in `IoPromises` as the steps that clear, drop and leave.
- IoLoop.Loop.ClearAndReset: the receive buffer and the socket state are reset too.
- OutgoingBytes.InvEmit: the same condition.
- Receiving.PiecesDoNotMatter: it is about the stream; on the bounded buffer the same is `Pump`.
- FrameRuns.UninterruptedContent: content frames enter by `push_frames` only, as in the code; `retry_connection_header` is not modelled.
- IoPromises.PromisesKept: it is about resolvers, publishes and expected replies; a canceler given alone is of no use once its frame is written, and the methods of src/generated/channel.rs always pass a resolver or an expected reply with it.
- Receiving.HandleFrames: the frame parser is another crate; it is a parameter that advances by at least a byte and does not change its mind with more input. An error of the channel that gets a frame, which ends the loop, is not modelled.
- Receiving.StallIff: the parser also looks at no byte beyond those it takes.
- Generator.RunExact: the frame generators are another crate; they are programs of raw bytes, sequences and back-patched headers, which may fail.
- RingBuffer.Buffer.ReadFrom: a vectored read is taken to fill its slices in order, and pointers are indices into the buffer's memory.
- RingBuffer.Buffer.constructor: a capacity of 0 makes `consume` and `fill` divide by zero; sizes do not overflow `usize`.
- Confirms.InvExec: tags do not overflow 64 bits, and the `last` promise used by `wait_for_confirms` is not modelled.
- ChannelIds.Channels.Create: the next id must be within the maximum, which `RangeIff` shows is needed; creating the channel object is left out.
- ChannelIds.Channels.Remove: clearing the channel's expected replies is `Scheduler.Frames.ClearExpectedReplies`.
- Wakeup.NoLostWakeup: promises, consumers and notifiers are interleaved atomic steps over values, not classes; the event listener crate is taken to notify every listener registered at the time.
- Recovery.ChannelStatus.SetReconnecting: the receiver state and the saved topology are left out.
- Recovery.ChannelStatus.FinalizeConnection: notifying and cancelling the saved replies are left out.
- Recovery.NothingPassesDuringOutage: one channel; creating it anew under the same id, and a second recovery overwriting saved replies, are not modelled.
- Recovery.AtMostOneThrough: a call that gets through both switches can still fail with an error recorded for the channel; that check is not modelled.
- Registry.ReplayIdempotent: exchanges and queues only; consumers are replayed by the code but carry no state here.
- HeartbeatClock.HeartbeatTiming: sleeps are exact and clocks monotonic; a new timeout starts a new run, on a connection the handshake has written to.
- Setters and look-ups of one line (checkpoints, poison, retry, the heartbeat's timeout) have no row: the lemmas over runs say what they are for.
- Reading and writing sockets, TLS, runtimes, the outer connection loop and its back-off.
- The connection handshake steps, tuning of the configuration, authentication and secrets.
- The generated method layer of the channel, options and argument tables: they only wrap the core.
- Consumer delegates, dropping prefetched deliveries and consumer cancellation.
- Statuses, events, error kinds and formatting: they would only add easy members.
