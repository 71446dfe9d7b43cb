# Feed handler: queues, ITCH parser and pipeline

A Dafny model of a market-data feed handler. Datagrams enter a lock-free ring, a parser thread
turns them into normalized messages, a dispatcher fans those out into one lock-free queue per
subscriber, and a delivery thread empties the queues.

- **Queues.** `MpscQueue` and `SpscQueue` are transition systems whose steps are single atomic
  loads, stores and compare-exchanges. The multi-producer queue has any number of producers, each
  with its own stale locals, under interleaving. The single-producer queue goes further: each
  index has a modification order, a load by the other side may return any value no older than the
  last one seen, and a plain read may return any store the last acquire has not hidden.
  `MpscTheorems` and `MpscWords` hold the results over whole runs, the second the refinement of
  unbounded tickets by 64-bit words. `MpscObject` and `SpscObject` are the classes; each call on
  them takes the steps of its transition system.
- **Parser and builder.** `Wire` has the packed layouts and big-endian numbers, `Framing` what a
  packet means (its frames, the accepted ones, the cap), `ItchFormat` which frames are accepted
  and what is decoded, `ItchParser` the parser object with its loop and decoders, `ItchGenerator`
  the packet builder, `ItchCodec`, `ParserTheorems`, `FramingTheorems` and `ItchTheorems` the
  results. `ItchTable` gives the parser's answers with the letters, lengths and byte ranges of the
  wire format written out. `Framing`, the
  theorems about series of packets and the pipeline are stated for any protocol of this form, ITCH
  being one.
- **Pipeline.** `Engine` and `Dispatcher` are the objects of the receiver, the parse loop and the
  dispatcher. `Pipeline` is the machine of the network, parser and dispatcher threads and a
  controller that initializes, adds subscribers, starts, stops and restarts; its ring and queues
  are `SpscQueue` machines, so every push and pop inside it is taken apart into steps with stale
  reads. `PipelineInvariant` is what each step keeps, `PipelineTheorems` and `PipelineItch` what
  follows for every state of every run. `PipelineProgress` bounds how long a call and a round of
  the parse loop can take, and a round of the dispatcher thread given what is pushed meanwhile.
  `PipelineRound` and `PipelineCalls` tie the two views of the engine together: an undisturbed
  round of the parse loop, a datagram received undisturbed and an undisturbed round of the
  dispatcher thread are sequences of the thread's own steps (`PipelineSteps`), and do to the
  machine what `ParseRound`, `Receive` and `DrainAll` do to the objects. `PipelineLife` says which
  threads are alive when, what a run was fed, and that starting and stopping can always be
  completed; `PipelineDelivery` that every datagram can be delivered.

## Where the code falls short of its intent

- The compile-time check of the multi-producer queue admits a ring of one slot, where the numbers
  for "published" and "recycled" coincide. `OneSlotLosesAnItem` gives a run in which two pushes
  return true and the first item is gone; `SafeExactlyFromTwoSlots` shows that two or more slots
  are exactly what safety needs, and `WordsSafeExactlyFromTwoSlots` the same on 64-bit words.
- `StockDirectoryMessage::SIZE` is 41, but the packed structure has 40 bytes
  (`SizesMatchLayouts`): a body that holds all fields of the structure and nothing more is refused
  (`StockDirectoryRefused`). A packed structure of any kind is accepted exactly when it is not a
  Stock Directory or something follows it (`PackedAccepted`).
- `build_packet` cuts the length to 16 bits. Splitting gives the bodies back exactly when each has
  1 to 65533 bytes (`FramingRoundTrip`); the three builders stay far below that.
- The lower bound on total latency fails once the sum wraps (`LatencyWraps`). The total is the sum
  exactly when the sum fits 64 bits, and then the lower bound holds; that count times maximum fits
  64 bits, which can be read off the statistics, is enough. The upper bound holds always
  (`LatencyBounds`).
- `pop` of the multi-producer queue can report empty after a push has returned true, while an
  older ticket is unpublished (`PopWaitsForTheOldest`).

## Model

| member | source | states |
|---|---|---|
| MpscQueue.Slot | core/distribution/lockfree_queue.hpp:122-122 | the node a counter selects is inside the ring, on words and on unbounded numbers |
| MpscQueue.SequenceMeaning | core/distribution/lockfree_queue.hpp:123-137 | what the sequence number of a slot says about the ticket a producer is after: free, taken by someone else, or a lap behind |
| MpscQueue.TailMeaning | core/distribution/lockfree_queue.hpp:142-149 | the same for the consumer's slot: unpublished or published, nothing else |
| MpscQueue.InitInv | core/distribution/lockfree_queue.hpp:111-116 | the constructor's sequence numbers establish the invariant, for two or more slots |
| MpscQueue.ClaimInv | core/distribution/lockfree_queue.hpp:127-130 | the winning compare-exchange keeps the invariant although `head` was loaded earlier |
| MpscQueue.WriteInv | core/distribution/lockfree_queue.hpp:131-131 | writing a claimed slot overwrites no item that is still owed |
| MpscQueue.PublishInv | core/distribution/lockfree_queue.hpp:132-133 | publishing keeps the invariant and records the push as accepted |
| MpscQueue.RecycleInv | core/distribution/lockfree_queue.hpp:150-151 | recycling the slot before `tail_` moves keeps the invariant |
| MpscQueue.StepInv | core/distribution/lockfree_queue.hpp:118-157 | every step of every thread keeps the invariant |
| MpscQueue.RunInv | core/distribution/lockfree_queue.hpp:111-157 | the invariant holds in every state of every run with two or more slots |
| MpscTheorems.PushesItsArgument | core/distribution/lockfree_queue.hpp:118-139 | what a producer's successful calls pushed is, in order, what those calls were given, read off the actions alone, however many rounds each took; a call in progress still holds its argument |
| MpscTheorems.Fifo | core/distribution/lockfree_queue.hpp:118-157 | popped items are exactly a prefix of the tickets in claim order, published items are still in their slots, each producer's tickets are the arguments of its successful pushes in order plus that of the one in flight |
| MpscTheorems.QuiescentContents | core/distribution/lockfree_queue.hpp:118-157 | with no call in progress the ring holds exactly the tickets not yet popped |
| MpscTheorems.SlotOwnership | core/distribution/lockfree_queue.hpp:129-152 | at most one thread may touch a slot's data; at most Size tickets are outstanding, and Size + 1 against `tail_` only between the two stores of `pop` |
| MpscTheorems.ExtraTicketHappens | core/distribution/lockfree_queue.hpp:150-152 | the case of Size + 1 does occur in a run |
| MpscTheorems.FindSequenceLoad | core/distribution/lockfree_queue.hpp:121-123 | the load in the run that gave a producer the sequence number it acts on |
| MpscTheorems.FindHeadLoad | core/distribution/lockfree_queue.hpp:121-121 | the load in the run that gave a producer the head it acts on |
| MpscTheorems.FullIsTruthful | core/distribution/lockfree_queue.hpp:121-137 | a rejected push saw, at its sequence load, exactly Size tickets claimed and not recycled, and its head was then current |
| MpscTheorems.FindClaim | core/distribution/lockfree_queue.hpp:129-130 | every advance of `head_` past a ticket is a compare-exchange of the producer that owns it |
| MpscTheorems.Progress | core/distribution/lockfree_queue.hpp:120-138 | a producer that goes round again had a spurious failure, or another producer claimed the ticket it was after since its load |
| MpscTheorems.RetriesBounded | core/distribution/lockfree_queue.hpp:120-138 | over any stretch of any run, the rounds a producer loses, spurious failures aside, are no more than the tickets claimed since the one it was after |
| MpscTheorems.CallsGoOn | core/distribution/lockfree_queue.hpp:118-157 | in every state of every run each call in progress has a next step and idle threads can begin one; a compare-exchange may always fail for no reason |
| MpscTheorems.EmptyExact | core/distribution/lockfree_queue.hpp:159-164 | `empty()` is true exactly when the tail it loaded is still the oldest and is unpublished |
| MpscTheorems.PopDecides | core/distribution/lockfree_queue.hpp:141-157 | `pop` finds tail or tail + 1, and succeeds exactly when the oldest ticket is published |
| MpscTheorems.PopWaitsForTheOldest | core/distribution/lockfree_queue.hpp:141-157 | a run in which `pop` reports empty after a completed push |
| MpscTheorems.OneSlotLosesAnItem | core/distribution/lockfree_queue.hpp:103-103 | with one slot a run loses an item whose push returned true |
| MpscTheorems.SafeExactlyFromTwoSlots | core/distribution/lockfree_queue.hpp:103-103 | no run loses an item if and only if the ring has two or more slots |
| MpscWords.WordArithmetic | core/distribution/lockfree_queue.hpp:125-151 | the sum of words is the sum on 64 bits and the signed reading is two's complement |
| MpscWords.SignedDifference | core/distribution/lockfree_queue.hpp:125-125 | a signed difference of words is the true one exactly when both lie on the same side of 2^63 |
| MpscWords.TrueDifferences | core/distribution/lockfree_queue.hpp:125-163 | below 2^63 - Size no difference in push, pop or empty overflows and each is the true one |
| MpscWords.SameStep | core/distribution/lockfree_queue.hpp:118-157 | while all numbers are below 2^63, words and tickets can take the same steps, to the same states, at any size |
| MpscWords.WordStep | core/distribution/lockfree_queue.hpp:118-157 | in a reachable state a step is possible on words exactly when it is on unbounded tickets, and leads to the same state |
| MpscWords.WordsRefineTickets | core/distribution/lockfree_queue.hpp:118-164 | the runs whose counters stay below 2^63 - Size are exactly the same on 64-bit words and on unbounded tickets, with the same differences and answers |
| MpscWords.ShortRuns | core/distribution/lockfree_queue.hpp:111-157 | the runs of fewer than 2^63 - Size steps are the same on words and on tickets, one slot included |
| MpscWords.WordsSafeExactlyFromTwoSlots | core/distribution/lockfree_queue.hpp:103-103 | on words too, no such run loses an item if and only if the ring has two or more slots |
| MpscObject.PushAlone | core/distribution/lockfree_queue.hpp:118-139 | the steps of an undisturbed push: it succeeds exactly when a slot is free |
| MpscObject.PopAlone | core/distribution/lockfree_queue.hpp:141-157 | the steps of an undisturbed pop: it succeeds exactly when a ticket is held, with the oldest item |
| MpscObject.MPSCQueue.constructor | core/distribution/lockfree_queue.hpp:111-116 | for every size the compile-time check admits but zero: counters zero, node i has sequence i, the queue is empty; from two slots on it is valid |
| MpscObject.MPSCQueue.Push | core/distribution/lockfree_queue.hpp:118-139 | succeeds exactly when fewer than Size tickets are held and appends, whatever number of spurious failures |
| MpscObject.MPSCQueue.Pop | core/distribution/lockfree_queue.hpp:141-157 | succeeds exactly when nonempty and removes the oldest |
| MpscObject.MPSCQueue.IsEmpty | core/distribution/lockfree_queue.hpp:159-164 | true exactly when nothing is held |
| SpscQueue.PushTest | core/distribution/lockfree_queue.hpp:25-30 | `push` reads full exactly when Size - 1 elements are held against the pops it sees |
| SpscQueue.PopTest | core/distribution/lockfree_queue.hpp:54-58 | `pop` reads empty exactly when no push it sees is left |
| SpscQueue.ReadIsDetermined | core/distribution/lockfree_queue.hpp:60-60 | the plain read can return exactly one store, the one of the oldest element |
| SpscQueue.StepInv | core/distribution/lockfree_queue.hpp:24-63 | every step, with any stale load, keeps the invariant |
| SpscQueue.RunInv | core/distribution/lockfree_queue.hpp:17-63 | the invariant holds in every state of every run |
| SpscQueue.PushesItsArgument | core/distribution/lockfree_queue.hpp:24-35 | what is recorded as pushed is, in order, what the successful calls were given, read off the actions alone |
| SpscQueue.SafeUnderStaleReads | core/distribution/lockfree_queue.hpp:24-63 | under stale reads: popped is a prefix of what the successful pushes were given, at most Size - 1 are held, the two sides are never on one slot |
| SpscQueue.ViewsAllowed | core/distribution/lockfree_queue.hpp:28-56 | a load may return any value from the last one its side saw to the newest, and no other |
| SpscQueue.SeenIsLastLoad | core/distribution/lockfree_queue.hpp:28-56 | what a side saw is what it last loaded; the other side's stores do not refresh it |
| SpscQueue.EmptyWhileHeld | core/distribution/lockfree_queue.hpp:53-58 | a run in which `pop` can report empty although an element has been pushed |
| SpscQueue.FullWhileEmpty | core/distribution/lockfree_queue.hpp:24-30 | a run in which `push` can report full although all has been popped |
| SpscQueue.ReadsInDoubt | core/distribution/lockfree_queue.hpp:32-60 | without synchronization a plain read may return either of two stores; an acquire that makes one visible hides the older |
| SpscQueue.RejectionIsTruthful | core/distribution/lockfree_queue.hpp:28-58 | when "full" and "empty" are answered, for every view, and that a current view makes them exact |
| SpscQueue.ProducerEffect | core/distribution/lockfree_queue.hpp:24-35 | a push appends its item if it ends in success and nothing otherwise, and leaves the consumer's side alone |
| SpscQueue.ConsumerEffect | core/distribution/lockfree_queue.hpp:53-63 | a pop that ends in success hands out the oldest element |
| SpscQueue.CallsGoOn | core/distribution/lockfree_queue.hpp:24-63 | a call under way always has a next step |
| SpscQueue.WaitFree | core/distribution/lockfree_queue.hpp:24-63 | once begun, a push or a pop takes at most three more steps of its own, in any run, whatever the other side does |
| SpscQueue.PushPath | core/distribution/lockfree_queue.hpp:24-35 | the four steps of a push that finds room, each enabled in its turn, append the item |
| SpscQueue.FullPath | core/distribution/lockfree_queue.hpp:25-30 | the two steps of a push that finds the ring full change nothing it holds |
| SpscQueue.EmptyPath | core/distribution/lockfree_queue.hpp:54-58 | the two steps of a pop that finds nothing change nothing it holds |
| SpscQueue.PopPath | core/distribution/lockfree_queue.hpp:53-63 | the four steps of a pop that finds an element hand out the oldest |
| SpscQueue.PushAlone | core/distribution/lockfree_queue.hpp:24-35 | the steps of an undisturbed push |
| SpscQueue.PopAlone | core/distribution/lockfree_queue.hpp:53-63 | the steps of an undisturbed pop |
| SpscQueue.SizeIsDifference | core/distribution/lockfree_queue.hpp:79-83 | the wrapping subtraction and mask give the difference modulo Size, and the true difference exactly within one lap |
| SpscQueue.SizeObserver | core/distribution/lockfree_queue.hpp:79-88 | `size()` never exceeds capacity; exact with current loads, a lower bound for the consumer, an upper bound for the producer |
| SpscQueue.EmptyFullObservers | core/distribution/lockfree_queue.hpp:66-76 | `empty()` and `full()` agree with `size()` for any views |
| SpscObject.SPSCQueue.constructor | core/distribution/lockfree_queue.hpp:17-20 | the queue starts empty |
| SpscObject.SPSCQueue.Push | core/distribution/lockfree_queue.hpp:24-35 | succeeds exactly when fewer than Size - 1 elements are held, and appends |
| SpscObject.SPSCQueue.Pop | core/distribution/lockfree_queue.hpp:53-63 | succeeds exactly when nonempty, and removes the oldest |
| SpscObject.SPSCQueue.IsEmpty | core/distribution/lockfree_queue.hpp:66-69 | true exactly when nothing is held |
| SpscObject.SPSCQueue.IsFull | core/distribution/lockfree_queue.hpp:72-76 | true exactly when Size - 1 elements are held |
| SpscObject.SPSCQueue.Count | core/distribution/lockfree_queue.hpp:79-83 | the number of elements held, at most the capacity |
| Wire.ReadU16 | protocols/itch50/itch50_messages.hpp:14-17 | shift and or give the big-endian number |
| Wire.Read | protocols/itch50/itch50_messages.hpp:14-32 | the shift-and-or reads denote the big-endian number, which fits the width |
| Wire.ReadBack | protocols/itch50/itch50_messages.hpp:14-32 | reading the digits of a number that fits gives the number |
| Wire.WriteBack | protocols/itch50/itch50_messages.hpp:14-32 | the digits of the number read are the bytes |
| Wire.DigitAt | examples/itch_generator.cpp:27-57 | each shifted and masked byte the writers store is the big-endian digit of its place |
| Wire.FieldOfPack | protocols/itch50/itch50_messages.hpp:79-232 | reading a packed record gives back each field, whatever follows |
| Wire.PackOfFields | protocols/itch50/itch50_messages.hpp:79-232 | packing the fields read gives back the bytes |
| Wire.SizesMatchLayouts | protocols/itch50/itch50_messages.hpp:89-232 | every SIZE is the width of its packed structure, except Stock Directory's, which is one more |
| Wire.TypeAtTwelve | protocols/itch50/itch50_messages.hpp:81-86 | the type is the byte at offset 12 of every layout |
| Wire.KindOfTypeByte | protocols/itch50/itch50_parser.hpp:82-120 | the switch finds every supported kind by its type byte |
| Wire.PackAt | protocols/itch50/itch50_messages.hpp:79-232 | each field of a packed record stands at its offset, digit by digit |
| Framing.LoopVisits | protocols/itch50/itch50_parser.hpp:25-53 | the loop visits exactly the well-formed frames up to the cap and notices a bad length exactly when it runs into one with room left |
| Framing.LoopMeetsSpec | protocols/itch50/itch50_parser.hpp:18-57 | the loop computes what the frame-level specification says, for every byte string |
| ItchParser.ReadAt | protocols/itch50/itch50_messages.hpp:14-32 | a field read is the big-endian number at that offset |
| ItchParser.DecodeSided | protocols/itch50/itch50_parser.hpp:168-193 | the Add Order and Trade decoders assign type, order, side, shares and price from their offsets and nothing else |
| ItchParser.DecodeFields | protocols/itch50/itch50_parser.hpp:123-370 | each of the ten decoders assigns exactly the fields of its plan and keeps the others |
| ItchParser.ItchParser.constructor | protocols/itch50/itch50_parser.hpp:16-16 | counters zero, stock map empty |
| ItchParser.ItchParser.Reset | protocols/itch50/itch50_parser.hpp:66-70 | counters zero, stock map empty |
| ItchParser.ItchParser.ParseMessage | protocols/itch50/itch50_parser.hpp:73-121 | the verdict, the error count for short frames, the stock map and the one output slot |
| ItchParser.ItchParser.ParseFrame | protocols/itch50/itch50_parser.hpp:41-52 | one well-formed frame leaves the loop where the recursion over frames continues |
| ItchParser.ItchParser.ParseFrames | protocols/itch50/itch50_parser.hpp:25-53 | the in-place loop terminates, stays inside the packet and computes the recursion over frames |
| ItchParser.ItchParser.Parse | protocols/itch50/itch50_parser.hpp:18-57 | counters, stock map, whole buffer and returned count are those of the frame-level specification |
| ItchTable.AcceptsTable | protocols/itch50/itch50_parser.hpp:73-121 | exactly the ten letters are accepted, each from its own least length; exactly frames of fewer than 13 bytes are errors |
| ItchTable.SidedTable | protocols/itch50/itch50_parser.hpp:168-218 | Add Order with and without attribution, and Trade: type, byte ranges of every field, and side 0 for 'B' and 1 for anything else |
| ItchTable.ExecutedTable | protocols/itch50/itch50_parser.hpp:220-269 | Order Executed with and without price: type and byte ranges; the side, and without a price the price, are kept |
| ItchTable.ChangedTable | protocols/itch50/itch50_parser.hpp:271-343 | Order Cancel and Replace are modifications, Delete a deletion; byte ranges and kept fields |
| ItchTable.EventTable | protocols/itch50/itch50_parser.hpp:123-166 | System Event and Stock Directory: type, instrument, times; all else kept |
| ItchTable.NoteTable | protocols/itch50/itch50_parser.hpp:141-166 | exactly a frame of type 'R' and 41 or more bytes lists a stock, under bytes 0 to 1 and with bytes 13 to 20 |
| ItchTable.RefusedFrame | protocols/itch50/itch50_parser.hpp:76-119 | a refused frame of fewer than 13 bytes adds one error; an unknown letter, or too few bytes for a known one, changes nothing at all |
| ItchTable.ItchErrors | protocols/itch50/itch50_parser.hpp:32-79 | over any series the error counter is the visited frames of fewer than 13 bytes plus the packets stopped by a bad length |
| FramingTheorems.SplitFinds | protocols/itch50/itch50_parser.hpp:32-53 | every byte string is framed bodies of 1 to 65533 bytes followed by bytes at which no frame begins, and the loop's frames are those |
| FramingTheorems.SplitUnique | protocols/itch50/itch50_parser.hpp:32-53 | however a packet is so composed, its frames are those bodies: the composition is unique |
| FramingTheorems.StopsExactlyOnBadLength | protocols/itch50/itch50_parser.hpp:32-39 | a bad length is counted exactly when three or more bytes are left at which no frame begins and there is room for a message |
| ItchFormat.ItchValid | protocols/itch50/itch50_parser.hpp:73-121 | no accepted message is too short, and a refused one changes nothing |
| ItchCodec.PlanFollowsLayout | protocols/itch50/itch50_parser.hpp:123-370 | the offsets the decoders read are the structures' own offsets of the fields they name |
| ItchCodec.DecodePacked | protocols/itch50/itch50_parser.hpp:123-370 | decoding is a left inverse of packing for all ten kinds, accepted exactly when long enough |
| ItchCodec.PackedAccepted | protocols/itch50/itch50_parser.hpp:73-121 | a packed structure is accepted if and only if it is not a Stock Directory or something follows it |
| ItchCodec.StockDirectoryRefused | protocols/itch50/itch50_parser.hpp:141-145 | the 40 bytes of a complete Stock Directory structure are refused, whatever their fields |
| ItchCodec.AcceptedIsPacked | protocols/itch50/itch50_parser.hpp:123-370 | every accepted body is the packing of some fields that fit, and a rest |
| ItchGenerator.WriteU16 | examples/itch_generator.cpp:27-30 | two big-endian digits at the place, nothing else changed |
| ItchGenerator.WriteU32 | examples/itch_generator.cpp:32-37 | four big-endian digits at the place, nothing else changed |
| ItchGenerator.WriteU64 | examples/itch_generator.cpp:48-57 | eight big-endian digits at the place, nothing else changed |
| ItchGenerator.CopySymbol | examples/itch_generator.cpp:81-81 | the eight characters at the place, nothing else changed |
| ItchGenerator.BuildAddOrder | examples/itch_generator.cpp:69-84 | the bytes are the packed Add Order structure of the arguments |
| ItchGenerator.BuildOrderExecuted | examples/itch_generator.cpp:90-103 | the bytes are the packed Order Executed structure of the arguments |
| ItchGenerator.BuildTrade | examples/itch_generator.cpp:109-125 | the bytes are the packed Trade structure of the arguments |
| ItchGenerator.HeaderBytes | examples/itch_generator.cpp:69-125 | locate, tracking, timestamp, type letter and order reference stand at bytes 0, 2, 4, 12 and 13 of every built message |
| ItchGenerator.SidedBytes | examples/itch_generator.cpp:69-125 | an Add Order has 38 bytes and a Trade 46; side, shares, symbol and price stand at bytes 21, 22, 26 and 34 |
| ItchGenerator.MatchBytes | examples/itch_generator.cpp:90-125 | the match number stands at byte 38 of a Trade and at byte 25 of an Order Executed, which has 33 bytes, its shares at byte 21 |
| ItchGenerator.BuildPacket | examples/itch_generator.cpp:128-138 | the packet is the bodies, each behind its 16-bit length |
| ItchGenerator.FramingRoundTrip | examples/itch_generator.cpp:128-138 | splitting gives the bodies back if and only if each has 1 to 65533 bytes |
| ItchTheorems.BuiltDecodes | examples/itch_generator.cpp:69-125 | each built message is accepted and decodes to what it carries, the slot's old price and side kept where it carries none |
| ItchTheorems.PacketRoundTrip | examples/itch_generator.cpp:27-138 | parsing a built packet of at most max_messages messages gives them all back, in order, no error counted, other slots untouched |
| ItchTheorems.StockMapIsLastListing | protocols/itch50/itch50_parser.hpp:141-166 | after any series since reset the stock map is the last writer's, over the accepted Stock Directory frames visited, and nothing else |
| ItchTheorems.DecodeField | protocols/itch50/itch50_parser.hpp:123-370 | an assigned field depends on the message alone, an unassigned one is kept |
| ItchTheorems.FieldsDetermine | core/types.hpp:39-65 | the nine fields named in the statements about the buffer are all there is to a record |
| ItchTheorems.BufferIsLastAssigned | core/core_engine.hpp:147-161 | through any series into one reused buffer every field of every slot holds the value it was last assigned, or zero |
| ParserTheorems.CutAtCap | protocols/itch50/itch50_parser.hpp:32-57 | the result is the accepted frames of the longest well-formed prefix, cut at the cap, decoded in place; other slots unchanged |
| ParserTheorems.VisitedUpToCap | protocols/itch50/itch50_parser.hpp:21-53 | the parser gets to all frames, or to those up to and including the one that fills the output, and to none without a valid view or room |
| ParserTheorems.SplitConcat | protocols/itch50/itch50_parser.hpp:32-53 | the frames of a fully framed packet followed by another are the frames of both |
| ParserTheorems.ParseConcat | protocols/itch50/itch50_parser.hpp:18-57 | parsing two joined packets is parsing one and then the other, when the cap is not reached |
| ParserTheorems.Accounting | protocols/itch50/itch50_parser.hpp:32-79 | over any series visited frames split into parsed, skipped and short; both counters and the stock map are the totals |
| Dispatcher.OfferConserves | core/distribution/dispatcher.hpp:65-69 | what is offered is queued or dropped, and no queue outgrows its ring |
| Dispatcher.Dispatcher.constructor | core/distribution/dispatcher.hpp:18-18 | no subscribers, no counts |
| Dispatcher.Dispatcher.AddSubscriber | core/distribution/dispatcher.hpp:23-26 | one more empty queue, nothing else changed |
| Dispatcher.Dispatcher.Dispatch | core/distribution/dispatcher.hpp:60-73 | every queue offered the message once, each full one a drop, one message and its latency counted |
| Dispatcher.Dispatcher.DrainAll | core/distribution/dispatcher.hpp:89-102 | a round during which nothing is pushed delivers every queue's messages in order and leaves the queues empty |
| Dispatcher.LatencyExtremes | core/types.hpp:96-102 | minimum and maximum are attained bounds, the total is the sum on 64 bits |
| Dispatcher.LatencyBounds | core/types.hpp:96-102 | count times maximum bounds the total always; the total is the sum exactly while that fits 64 bits, and then count times minimum bounds it from below; count times maximum fitting 64 bits is a sufficient sign |
| Dispatcher.LatencyWraps | core/types.hpp:96-102 | two latencies after which the lower bound fails |
| Engine.UDPReceiver.constructor | core/network/udp_receiver.hpp:88-89 | the ring is empty, the counters and the number zero |
| Engine.UDPReceiver.Receive | core/network/udp_receiver.hpp:206-214 | a datagram is appended and counted as received, or the ring is full and it is counted as dropped |
| Engine.UDPReceiver.ReadPacket | core/network/udp_receiver.hpp:179-190 | the oldest packet leaves as a view with the next 32-bit number |
| Engine.CoreEngine.constructor | core/core_engine.hpp:30-45 | the engine once `set_parser` has put a fresh ITCH parser in place: ring empty, no subscribers, nothing counted |
| Engine.CoreEngine.DispatchFirst | core/core_engine.hpp:160-162 | the messages of a packet are dispatched one by one in order |
| Engine.CoreEngine.ParseView | core/core_engine.hpp:152-170 | a packet is parsed into the reused buffer, its messages dispatched in order, and the engine's counters and packet timing updated |
| Engine.CoreEngine.ParseRound | core/core_engine.hpp:149-177 | one round: the oldest packet is numbered, parsed into the reused buffer and its messages dispatched, nothing delivered; or the ring is empty and nothing changes |
| PipelineInvariant.NetStep | core/network/udp_receiver.hpp:199-217 | every step keeps: the ring's pushes are a subsequence of the datagrams decided, received and dropped count them |
| PipelineInvariant.ReadStep | core/network/udp_receiver.hpp:179-190 | every step keeps: the views handed out are the packets popped, numbered in order |
| PipelineInvariant.SessionsStep | core/core_engine.hpp:145-162 | every step keeps: the parser and the buffer are what parsing this session's packets leaves |
| PipelineInvariant.BatchStep | core/core_engine.hpp:155-162 | every step keeps: dispatched followed by pending is exactly what parsing produced |
| PipelineInvariant.LanesStep | core/distribution/dispatcher.hpp:60-109 | every step keeps: each queue's pushes are a subsequence of what was offered, what it lost is the difference, what it popped was delivered |
| PipelineInvariant.StatsStep | core/distribution/dispatcher.hpp:60-73 | every step keeps: the counters are what the histories say |
| PipelineInvariant.StepInv | core/core_engine.hpp:72-177 | every step of every thread and of starting and stopping keeps the invariant |
| PipelineInvariant.RunInv | core/core_engine.hpp:30-177 | the invariant holds in every state of every run |
| PipelineTheorems.ReceiverAccounting | core/network/udp_receiver.hpp:179-217 | datagrams are received plus dropped plus one in flight; received are read, held or queued, in order; read packets are numbered modulo 2^32 |
| PipelineTheorems.EndToEndOrder | core/core_engine.hpp:145-177 | each subscriber sees a subsequence of what parsing the read packets produced since it joined, those being a prefix of the accepted, those a subsequence of the arrived |
| PipelineTheorems.LaneConservation | core/distribution/dispatcher.hpp:60-109 | for one subscriber: missed by joining late, seen and turned away add up to the messages dispatched |
| PipelineTheorems.DispatcherConservation | core/distribution/dispatcher.hpp:23-109 | messages times subscribers is delivered plus in hand plus queued plus dropped, plus what late subscribers missed, across stops and restarts; and each subscriber sees a subsequence of what was dispatched since it joined |
| PipelineTheorems.Lossless | core/distribution/dispatcher.hpp:60-109 | without drops each subscriber sees exactly what was dispatched since it joined, and the ring accepted every datagram |
| PipelineTheorems.DownIsQuiescent | core/core_engine.hpp:99-118 | when the engine is down no call is half done, every read packet was parsed and dispatched in full, the parser is reset, and ring and queues keep what they held |
| PipelineTheorems.LatencyIsTrue | core/distribution/dispatcher.hpp:61-62 | the latency subtraction never wraps: it is the true difference of dispatch and receive time |
| PipelineTheorems.LatencyInRuns | core/distribution/dispatcher.hpp:60-73 | minimum, maximum, total and count of the dispatcher bound each other in every state |
| PipelineTheorems.ParserInRuns | core/core_engine.hpp:147-156 | while the parser thread lives, counters, stock map and buffer are those of this session's packets |
| PipelineLife.AliveInRuns | core/core_engine.hpp:72-118 | in every state of every run each thread is alive from its start to its join, the receiver if the socket was open at the start |
| PipelineLife.FedInRuns | core/core_engine.hpp:49-177 | the datagrams that arrived, the number of subscribers, the clock and the dispatch times are exactly those of the actions |
| PipelineLife.NothingUninitialized | core/network/udp_receiver.hpp:94-158 | without a successful initialize nothing is ever received |
| PipelineLife.ArrivesExactly | core/network/udp_receiver.hpp:199-217 | a datagram can arrive exactly when the network thread is at the top of its loop, it has 1 to 9000 bytes and time does not run backwards |
| PipelineLife.ControlsExactly | core/core_engine.hpp:49-118 | subscribers are added and the engine started exactly while down, and stopped exactly while up |
| PipelineLife.StartCompletes | core/core_engine.hpp:72-96 | from any state with the engine down, starting brings parser and dispatcher to work, and the receiver if the socket is open |
| PipelineLife.StopCompletes | core/core_engine.hpp:99-118 | from any state of any run with the engine up, whatever its threads are in the middle of, stopping can be completed, and closes the socket if the receiver ran |
| PipelineDelivery.DatagramDelivered | core/core_engine.hpp:145-177 | for every datagram of 1 to 9000 bytes there is a run from the engine just built in which the subscriber is given exactly what parsing it produces |
| PipelineDelivery.BuiltDelivered | examples/itch_generator.cpp:69-138 | for every packet of built messages there is such a run that delivers one record for each, with everything it carries |
| PipelineProgress.StepsAreFree | core/core_engine.hpp:145-177 | the machine adds no restriction to a queue call in progress: every view the queue allows, at any stage |
| PipelineProgress.ThreadsNeverBlock | core/core_engine.hpp:145-177 | each live thread always has a step of its own; at the top of the receive loop that step is an arriving datagram |
| PipelineProgress.RoundEnds | core/core_engine.hpp:149-177 | a round of the parse loop ends within 5 + max * (4 * subscribers + 2) steps of the parser thread, in any run, whatever the other threads do |
| PipelineProgress.CallsEnd | core/network/udp_receiver.hpp:206-214 | once begun, a push of the network thread and a pop of the dispatcher thread take at most three more steps of their own |
| PipelineProgress.DispatcherRoundEnds | core/distribution/dispatcher.hpp:85-109 | from the start of a round of the dispatcher thread to the next it takes at most 1 + 2 * subscribers + 5 * (messages waiting at the start + messages pushed meanwhile) steps, in any run |
| PipelineCalls.ReceiveAlone | core/network/udp_receiver.hpp:206-214 | a datagram received undisturbed is a sequence of the network thread's steps with the effect of `Receive`, the other threads where they were |
| PipelineCalls.DrainAlone | core/distribution/dispatcher.hpp:85-109 | an undisturbed round of the dispatcher thread is a sequence of its steps that delivers, in order, all each queue held, as `DrainAll` does |
| PipelineRound.RoundAlone | core/core_engine.hpp:149-177 | an undisturbed round is a sequence of the parser thread's steps and does to ring, packet number, parser, buffer, queues and counters what `ParseRound` does to the object |
| PipelineRound.RoundInRuns | core/core_engine.hpp:149-177 | every run that has come to the top of the parse loop can go on with such a round |
| PipelineItch.ItchEngine | core/types.hpp:74-78 | the engine with the ITCH parser, a ring of 16384 and queues of 65536 meets the conditions of the theorems about runs |
| PipelineItch.SessionsCarried | core/core_engine.hpp:145-177 | parsing built packets, over any sessions, gives one record for each built message, in order, with all it carries and the receive time of its packet |
| PipelineItch.BuilderToSubscriber | examples/itch_generator.cpp:69-138 | from the builder through ring, parser and queues: each subscriber sees a subsequence of the built messages' records, each with its packet's receive time, and all of them when no queue dropped any |

## Left out

- MpscQueue.RunInv: interleaving of single atomic steps; reorderings a weaker memory model allows on the multi-producer queue are not modelled. Its results need two or more slots, see SafeExactlyFromTwoSlots.
- MpscObject.MPSCQueue.Push: requires a valid queue, so two or more slots, as do Pop and IsEmpty; the compile-time check also admits one, where OneSlotLosesAnItem shows that no such contract holds.
- MpscWords.WordsRefineTickets: counters that reach 2^63 - Size are not covered.
- SpscQueue.RunInv: release, acquire and plain accesses are modelled by stale monotone reads and visible stores, not by the full C++ memory model.
- MpscObject and SpscObject: the classes run one call at a time; concurrent calls are the transition systems' subject. Element moves are copies.
- Dispatcher.Dispatcher.Dispatch: each subscriber's queue is a sequence changed the way the queue object changes it, not a separate heap object; the queue's steps inside `dispatch` and `dispatch_loop` are in Pipeline.
- Dispatcher.Dispatcher.DrainAll: a round during which nothing is pushed; rounds with concurrent pushes are runs of Pipeline, bounded by DispatcherRoundEnds. That such a round delivers all that waited at its start is not claimed.
- Engine.CoreEngine.constructor: the echo parser the code begins with is not modelled; the parser is the one `set_parser` replaces it by.
- The combined statistics of `get_stats`, which mix per-packet totals with per-message counts.
- Pipeline: the loops of the three threads are steps of a machine, a stop flag being noticed at any later turn of the loop. Event counters are unbounded there (the code's wrap after 2^64 events).
- PipelineProgress.ThreadsNeverBlock: that threads are scheduled, that `recvfrom` returns at a stop, and that everything queued is delivered before a stop are not claimed; the code does not drain.
- A ring of zero slots, which the compile-time checks also admit.
- Sockets, multicast, thread creation, affinity, yields and padding: foreign calls or without effect on values. An arriving datagram is any string of 1 to 9000 bytes.
- The clock is a nondecreasing input; `avg_latency_ns` is floating point.
- The parser registry, the echo and null parsers, subscriber adapters, `set_parser`, and what subscribers do with a message.
- Message kinds the parser's switch does not handle, `get_message_size` and `write_u48_be`: no parsing path uses them.
- Programs, printing, random generation and rate limiting.
