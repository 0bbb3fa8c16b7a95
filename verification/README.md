# tcp-pep-go: a model of the stream transport and proofs about it

tcp-pep-go carries TCP streams over a lossy UDP link.  A sending session cuts the TCP bytes into
blocks of K length-prefixed shards, adds parity shards, numbers blocks with 16 bits and data packets
with 8, keeps the last packets for retransmission and adapts the parity count to loss reports.  The
receiving session collects shards in any order, rebuilds missing ones, reports losses once per
block, asks for what it lacks and writes the blocks to TCP in order.

The project has three layers.

* **What each critical section computes.**  `Sender`, `Receiver`, `Protocol`, `Shards` and `Serial`
  hold functions for the sections of code that run under a lock.  The classes `Session.Session`,
  `Fec.FEC`, `Shaping.Shaper` and `Client.ClientPEP` carry the fields and loops of the Go types;
  their methods are proved to do what those functions say.
* **Every run.**  `System` is a state machine of a sending session, a receiving session and a network
  that loses, repeats and reorders.  An event is one critical section or one unprotected step; the
  writer goroutine is followed point by point, so that timers, arrivals, `HandleClose` and
  `Session.Close` can fall between any two of its steps.  `Invariant`, `SenderSteps`, `ReceiverSteps`,
  `WriterSteps` and `Steps` prove one invariant of every event, hence of every run.
* **What follows.**  `Theorems`, `LossReports`, `Retransmission`, `Progress`, `Delivery`, `Controller`,
  `Beyond` and `Examples` state what holds of every run, and give runs that show where promises end.
  `Agreement` joins the first two layers: what the session's methods read, hand to the shaper and write is
  what the state machine has, and behind every run stands a history of calls on the session.
  `Rate`, `Outgoing`, `History` and `FastLink` bound what a session's shaper sends.  `GaloisField`,
  `Polynomial` and `ReedSolomon` construct a Reed-Solomon code and prove the contract that the sessions rely on, so that
  `EndToEnd.Delivers` depends on no assumption about the code.

## Reading the model

* A datagram carries, besides its bytes, the true number of the block it speaks of.  The programs
  never look at it; it is what the wrapped 16-bit numbers are compared with.
* `InWindow` is the one hypothesis about the network: at a delivery, the block spoken of and the
  receiver's next block are among the last 32767 blocks sent.  `Serial.LaterExact` shows that the
  comparison of the code is exact up to that distance and wrong beyond it, within one turn of the
  counter, and `Beyond.WindowIsTight` what one block more leads to.  For loss reports the hypothesis is the same, for the block spoken of.
* `ConfigOk` is what the daemons assume of their flags and do not check: the same K on both ends,
  K + M at most 32 (the index has 5 bits), a 12-bit stream, packets within the 2048-byte receive
  buffer, and an erasure code that keeps its contract.  The documented ranges (`design_ja.md:250-254`)
  satisfy it.  The two ends may have different M.
* The network holds every datagram handed to the shaper, from the moment it is handed over; what the
  shaper still holds back counts as delayed.  Requests for retransmission may arrive unasked for, and
  every timer may fire at any time.
* The initial state is the one after `Start` has made the first receive block.
* A loss report counts as sent with the step that marks its block; the Go code sends it right after giving
  back the lock.
* Time is left out of `System` and kept in `Shaping` and `Rate`, where the interval is the exact
  quotient truncated to whole milliseconds.  A run of the shaper is given by what the other goroutines
  do while the loop waits, between its locked sections and before each packet it hands over, and by
  the clock.

## Findings

* *Loss reports.*  A report is meant to count the packets that never arrived.  It does so if and only
  if no data packet arrived to find its slot filled by reconstruction (`LossReports.ReportCounts`, with
  `Examples.LateShardRun` as the witness); the overcount is exactly the number of such packets.  It is
  always right on a block that is not decoded yet, and on a block with as many full slots as were counted.
* *Truncation.*  An acknowledged CLOSE guarantees complete delivery except for a stream of exactly
  one block of which nothing had arrived: the timer of the first receive block reports on it, and
  the sender takes the report for an acknowledgement (`Theorems.NoTruncation`,
  `Examples.TruncatedRun`).
* *Shaping.*  The interval truncates to zero, and shaping is off, exactly if a burst takes the link
  less than a millisecond (`Rate.ShapedIff`).  Everything a session's shaper sends keeps to the bandwidth,
  in every history of the session, if and only if K packets of LinkMTU bytes take a millisecond or more
  (`FastLink.RateKeptIff`).  On a faster link, for instance K = 10 and LinkMTU 1200 at 100 Mbit/s, shaping
  goes off once clean reports have taken the parity count to zero, and whatever is queued goes out at once
  (`FastLink.BreaksInService`).  Loss reports, requests and CLOSE bypass the shaper and are not counted.
* *Slices.*  With a sender whose M exceeds the receiver's, a parity packet can replace the slice of slots
  of a decoded block while the writer reads it without the lock (`Examples.GrownRun`); with
  M no larger than the receiver's this never happens (`Retransmission.SliceKept`).
* *Documentation.*  The design document gives a 15 ms delay for requests and reports on skipped
  blocks (`design_ja.md:255`, `design_ja.md:263`); the code waits 50 ms and sends no such reports.
  The model follows the code.

## Model

| member | source | states |
|---|---|---|
| Theorems.Integrity | proxy/session.go:371-797 | in every run the bytes written to TCP are a prefix of the bytes read; between blocks they are exactly those of blocks 0..w-1, w being the unbounded number behind nextWriteGrp; every byte read is in a flushed block or pending |
| EndToEnd.Delivers | proxy/session.go:371-797 | the same for the concrete Reed-Solomon code and all flags in range, with nothing assumed of a code; complete delivery after an acknowledged CLOSE |
| Theorems.NoTruncation | proxy/session.go:263-312 | after a CLOSE sent because all tracked blocks were acknowledged, a writer that left through the CLOSE branch has written everything if and only if it is not the case that one single block was sent and nothing received |
| Examples.TruncatedRun | proxy/session.go:740-755 | the exception is real: a run, for every configuration and byte, that sends one byte, closes as acknowledged and writes nothing |
| Steps.StepInv | proxy/session.go:169-889 | every event keeps the invariant of both ends and the network |
| Steps.ReachableInv | proxy/session.go:169-889 | the invariant holds in every state of every run |
| Theorems.NoLostWakeup | proxy/session.go:724-758 | while the writer is parked no decoded next block waits for it, and a reason to stop (CLOSE with everything written, or cancellation) comes with a broadcast still to happen |
| Examples.SleepEnds | proxy/session.go:206-220 | from any reachable state with the writer parked and a reason to stop, that broadcast and the writer's own steps lead it out, for the right reason |
| Theorems.OneReport | proxy/session.go:783-795 | exactly one report datagram has been made for every written block, and never two for any block, however the timer and the writer race |
| LossReports.ReportCounts | proxy/session.go:634-673 | the reported losses are the expected indices that filled no slot; they exceed those that never arrived by exactly the late packets, all in rebuilt slots; they are right on an undecoded block, on a block as full as counted, and in general if and only if no packet of the block came late in the run; zero losses means all K data packets arrived |
| LossReports.LateStep | proxy/session.go:564-567 | what arrived and what filled a slot part company at exactly one kind of event: a packet that finds its slot full without a copy of it having filled it |
| Examples.LateShardRun | proxy/session.go:564-572 | for every K and M >= 1, a run in which every packet of a block up to index K arrives and the report says one loss |
| Theorems.ParityBounded | proxy/session.go:801-839 | in every run 0 <= curM <= FEC_M and fewer than five clean reports are counted |
| Theorems.OutstandingWindow | proxy/session.go:481-492 | in every run txBlocks names only the latest 101 blocks modulo 65536, so at most 101 |
| Theorems.MtuBound | proxy/session.go:346-352 | every datagram in flight, first sending or retransmission, fits LinkMTU with IPv4 and UDP headers, or the 512-byte fallback, and always the receive buffer |
| Theorems.NetworkGenuine | proxy/session.go:855-872 | every datagram in flight is, byte for byte, the marshalled form of a packet of a flushed block, retransmissions included |
| Theorems.OnTheWire | proxy/session.go:439-479 | in every run every datagram in flight, byte by byte: DATA and the stream, sequence number (zero for parity), block number modulo 65536, index, parity mark exactly from index K on, and the framed chunk or the parity of the padded block |
| Theorems.ReportOnTheWire | proxy/session.go:634-673 | in every run every loss report made, byte by byte: LQR and the stream, block number modulo 65536, a zero at the end |
| Agreement.RunIsHistory | proxy/session.go:371-872 | behind every run there is a history of calls on the session with the same sending state, and the network holds exactly the packets those calls hand to the shaper |
| Agreement.ReadAgrees | proxy/session.go:371-394 | a read in the state machine has the sending state of `Sender.Read` and puts on the wire what the session hands to the shaper |
| Agreement.FlushAgrees | proxy/session.go:414-499 | the same for a flush, by the timer or at the end |
| Agreement.ReadKeepsContent | proxy/session.go:371-394 | after a read, the bytes of the blocks flushed so far and of what is pending are the input with the chunk; a block is flushed exactly if the chunk is its K-th |
| Agreement.NakAgrees | proxy/session.go:855-866 | a request puts on the wire exactly what the session hands to the shaper, which is the cached packet if there is one |
| Agreement.PayloadsDeliver | proxy/session.go:764-779 | the bytes the session writes for a decoded block are those of the block's shards as the sender framed them, in order |
| Agreement.SlotsAgree | proxy/session.go:764-779 | each payload the session writes is the one the writer of the state machine writes at that index |
| Retransmission.CacheRefinesLog | proxy/session.go:440-461 | each of the last 256 data packets ever sent is in harqCache under its sequence number |
| Retransmission.CacheHoldsOnlyLog | proxy/session.go:855-866 | whatever a sequence number fetches is one of the last 256 data packets, with its own block, index and number |
| Retransmission.SeqNumsMatch | proxy/session.go:541-546 | the sequence numbers the receiver computes from the 16-bit block number are those the sender gave the packets, for every block, across wraparound |
| Retransmission.NakAnswered | proxy/session.go:855-866 | in every reachable state, whatever the receiver is doing, a request for a data packet among the last 256 puts that packet back on the wire and changes nothing else |
| Progress.SettledStep | proxy/session.go:555-572 | no event whatever undoes an arrival: a packet's block is written, decoded, or still has it |
| Progress.NakProgress | proxy/session.go:677-713 | in every continuation of every run, if each data packet that a block lacks is brought by some arrival, in any order and among any other events, the block is decoded or already written at the end |
| Progress.NakRound | proxy/session.go:677-713 | from any reachable state, asking for the empty data slots of an undecoded block exactly as the NAK loop does, each request answered, is a possible run and decodes it, provided those packets are among the last 256 |
| Delivery.CanFinish | proxy/session.go:677-797 | from every reachable state of a session that is up, with every unwritten block known and what it lacks among the last 256 data packets, requests, answers and the writer's own steps lead to a state in which all blocks are written to TCP |
| Delivery.WriteReady | proxy/session.go:724-796 | with the next block decoded, the writer's own steps write it and go on to the next |
| Progress.RoundAsks | proxy/session.go:691-705 | the requests of that round are those the NAK loop sends, in order |
| Retransmission.HolesShrink | proxy/session.go:555-572 | an answer that fills an empty data slot strictly lowers the number of empty ones |
| Retransmission.DecodedForGood | proxy/session.go:760-779 | no event changes the K data payloads of a decoded block while it exists |
| Retransmission.SliceKept | proxy/session.go:555-562 | if the sender's M is at most the receiver's, no event replaces a block's slice of slots, which the writer reads without the lock |
| Examples.GrownRun | proxy/session.go:555-562 | if it is larger, there is a run in which the slice of the block being written is replaced |
| Beyond.WindowIsTight | proxy/session.go:526-528 | a run of 32768 blocks after which a delayed packet of block 0 is stored as part of block 65536: the window hypothesis cannot be widened by one block |
| Beyond.Misfiled | proxy/session.go:526-553 | in every such state, one block beyond the window, the packet goes into a new block 65536 too late |
| ReceiverProofs.ReceiveOk | proxy/session.go:530-573 | the arrival of any packet of a block keeps the block invariant: K + M slots, ReceivedCnt the number of slots filled from the network, Decoded exactly if that is at least K, contents those that were sent |
| ReceiverProofs.PaddingAgreement | proxy/session.go:591-601 | whenever reconstruction is attempted, a parity shard is among those that arrived, and the receiver's maximum length is the sender's padded length |
| ReceiverProofs.Reconstructs | proxy/session.go:603-629 | with the receiver's own parity count, reconstruction gives every data shard as the sender padded it |
| ReceiverProofs.DecodedStable | proxy/session.go:564-572 | a packet placed into a decoded block leaves its data slots alone |
| ReceiverProofs.SlotDelivers | proxy/session.go:764-779 | what the writer takes from a data slot of a decoded block is what the sender framed there |
| ReceiverProofs.LossesCount | proxy/session.go:652-663 | the count is the number of expected indices that filled no slot, and neither clamp ever applies |
| SenderProofs.FlushOutput | proxy/session.go:437-495 | a flush sends exactly the marshalled K data and curM parity packets of the new block, in order |
| SenderProofs.FlushInv | proxy/session.go:414-499 | a flush keeps the sender's invariant, with one more block in the log: counters, cache, tracked blocks, and every byte read accounted for |
| SenderProofs.ReadState | proxy/session.go:371-394 | a read keeps that invariant with the chunk added to the input, up to the flush it may cause |
| SenderProofs.ReportInv | proxy/session.go:801-839 | a report keeps that invariant, the block now being acknowledged |
| SenderProofs.CachePushAll | proxy/session.go:440-455 | storing packets under their 8-bit numbers keeps the cache equal to the last 256 entries of the unbounded log |
| SenderProofs.StaleAge | proxy/session.go:481-486 | for every tracked block the uint16 age is the true age, so the 60000 guard never keeps a stale entry |
| SenderProofs.DropStaleIs | proxy/session.go:481-486 | the cleanup forgets exactly the blocks more than 100 and less than 60000 numbers back, counted modulo 65536 |
| SenderProofs.FlushTracked | proxy/session.go:481-492 | after the cleanup only the latest 101 blocks are tracked, and each of them is tracked or acknowledged |
| Controller.CleanReports | proxy/session.go:814-823 | n accepted clean reports take curM to max(0, curM - (c + n) div 5) and leave (c + n) mod 5 counted |
| Controller.LossThenClean | proxy/session.go:814-835 | after any history, a report with losses and then n clean ones leave curM at max(curM, min(losses + 1, FEC_M)) - n div 5, or zero, and n mod 5 counted |
| Controller.ReportEffect | proxy/session.go:806-838 | a report is taken if and only if its block is tracked and not reported on; then that block alone is no longer tracked |
| Controller.ParityRange | proxy/session.go:801-839 | over every sequence of reports curM stays within its range and never above both its start and the worst report plus one |
| Controller.DuplicateReport | proxy/session.go:806-809 | a second report on a block changes nothing |
| Serial.LaterExact | proxy/session.go:522-526 | for numbers less than 65536 apart, the uint16 comparison of the code is the true order if and only if they differ by at most 32767 (or by 32768 downwards) |
| Serial.WrapIs | proxy/session.go:425-427 | taking whole turns off an unbounded counter is the remainder by 65536, which is what a uint16 counter holds |
| Shards.StripFrame | proxy/session.go:371-378 | taking the length prefix off a framed chunk, padded by any amount, gives back the chunk if and only if it is shorter than 65536 bytes |
| Shards.FrameLayout | proxy/session.go:371-378 | a frame is the length in two bytes, the high one first, then the chunk |
| Shards.PadLayout | fec/fec.go:77-83 | padding keeps the shard and adds zeros up to the length asked for |
| Protocol.RoundTrip | protocol/header.go:89-150 | Marshal accepts exactly the encodable packets; Unmarshal then gives the packet cut to the fields of its type, and the packet itself if and only if it is well formed |
| Protocol.Renormalize | protocol/header.go:153-210 | whatever Unmarshal accepts can be marshalled and reads back as the same packet; the bytes come back if and only if they were canonical |
| Protocol.WireFormat | protocol/header.go:89-150 | every byte of a marshalled packet, by number, for the eight type codes: type and stream in the first two, then for DATA the sequence number, the block number high byte first, index and parity mark, payload; likewise NAK, LQR, CONNECT and its error |
| Protocol.ParsedFields | protocol/header.go:153-210 | every field of a packet that is read, by its place in the buffer; fields its type does not carry are zero |
| Protocol.Accepted | protocol/header.go:153-210 | a buffer is accepted if and only if its type code is at most 7 and it is as long as that type asks for |
| ReedSolomon.MeetsContract | design_ja.md:19 | the Reed-Solomon code keeps the contract: parity as long as the data, any K of K + M shards rebuild all, fewer are refused, for every K + M up to 256 |
| ReedSolomon.SamePolynomial | design_ja.md:19 | any K shards of a codeword interpolate to the polynomial of the data |
| Polynomial.Unique | design_ja.md:19 | polynomials of length n that agree at n different points agree everywhere |
| Polynomial.Interpolates | design_ja.md:19 | interpolation goes through its points |
| GaloisField.InverseOk | design_ja.md:19 | every non-zero element of the 256-element field has an inverse, by a^256 = a |
| Session.Session.constructor | proxy/session.go:116-165 | a new session has the initial state of both halves, with the first receive block, and the shaper set for K + M packets |
| Session.Session.ReadChunk | proxy/session.go:354-394 | one chunk read: the new sending state is that of `Sender.Read`, and the shaper's queue has grown by the flushed packets exactly if the chunk was the K-th and the shaper runs |
| Session.Session.FlushPendingBlock | proxy/session.go:414-499 | the flush: the new sending state is that of `Sender.Flush`, and the shaper's queue has grown by exactly the packets of the block unless it is stopped |
| Session.Session.SendBlock | proxy/session.go:437-498 | the packets of a full block are numbered, cached, tracked and queued |
| Session.Session.EmitData | proxy/session.go:439-461 | the loop over the data shards numbers, caches and marshals each packet |
| Session.Session.EmitParity | proxy/session.go:463-479 | the loop over the parity shards appends their packets after the data |
| Session.Session.DropOld | proxy/session.go:481-486 | exactly the stale blocks are forgotten, in whatever order the map is walked |
| Session.Session.HandleLQR | proxy/session.go:801-839 | the controller step of `Sender.HandleLQR`; new shaper parameters exactly if the parity count changed |
| Session.Session.UpdateShaperParams | proxy/session.go:841-851 | burst size K + curM and the interval of `Rate.IntervalExact` for it, set together |
| Session.Session.HandleNak | proxy/session.go:855-872 | the marshalled cached packet is at the end of the shaper's queue if there is one and the shaper runs; otherwise, and for everything else, nothing changes |
| Session.Session.AllBlocksAcked | proxy/session.go:284-291 | true exactly if no tracked block waits for its report |
| Session.Session.HandleDataPacket | proxy/session.go:509-573 | the receiving state after a DATA packet, and one broadcast exactly if it completed its block |
| Session.Session.StorePacket | proxy/session.go:530-573 | the block, found or made, with the packet placed and decoded if K are there |
| Session.Session.FirstNumbers | proxy/session.go:541-546 | the sequence numbers of a new block |
| Session.Session.TryDecodeBlock | proxy/session.go:575-632 | decoding as `Receiver.TryDecode` has it, with one broadcast exactly if it succeeds |
| Session.Session.CountData | proxy/session.go:576-584 | whether all K data shards are present |
| Session.Session.MaxSlot | proxy/session.go:591-598 | the length of the longest shard present |
| Session.Session.PadInto | proxy/session.go:603-616 | a fresh array of the shards, padded with zeros, gaps left open |
| Session.Session.CopyBack | proxy/session.go:624-629 | missing data slots are taken from the reconstruction and nothing else changes |
| Session.Session.HandleLQRTimeout | proxy/session.go:634-673 | the block is marked and its report made, once |
| Session.Session.NakTick | proxy/session.go:684-706 | one request for every empty data slot of an undecoded block |
| Session.Session.WriteBlock | proxy/session.go:764-779 | the bytes written for a block are those of its K payloads in order, or as many of them as the connection took before a write failed |
| Session.Session.ExtractData | proxy/session.go:765-772 | the bytes that a payload's length field tells, or none |
| Session.Session.FinishBlock | proxy/session.go:783-795 | a report exactly if none was made, the block deleted, the next number |
| Session.Session.HandleClose | proxy/session.go:876-889 | the flag and the broadcast; the session is closed exactly if its own CLOSE was sent |
| Session.Session.Close | proxy/session.go:206-220 | the context is done, the shaper stopped, the writer woken |
| Session.Session.ShaperIsSession | proxy/session.go:152-161 | in every state of a session the shaper's parameters are those of K + curM packets and everything queued fits LinkMTU, which is what the rate bound asks for |
| Outgoing.CallsAreSession | proxy/session.go:494-495 | every call a session makes on its shaper (a flush, a retransmission, new parameters) is one the rate bound allows for |
| Outgoing.LargestRead | proxy/session.go:346-352 | the largest read, framed and with its packet, UDP and IPv4 headers, takes exactly LinkMTU bytes; without room for a byte it is 512 bytes |
| History.CallsInHistory | proxy/session.go:371-872 | over every history of chunks, timers, reports, requests and their late answers, the calls made on the shaper are such calls |
| History.RequestAnswered | proxy/session.go:855-866 | a request and then its answer make exactly one call with the cached packet, or none, and change nothing else |
| Fec.FEC.GetEncoder | fec/fec.go:38-53 | an encoder exactly if the library supports the counts, made once and kept under its own key |
| Fec.FEC.Encode | fec/fec.go:57-93 | the parity of the data padded to its longest shard, in place in a fresh array, or the error |
| Fec.FEC.Reconstruct | fec/fec.go:97-108 | all shards filled in on success, none touched on failure |
| Fec.PadAllLayout | fec/fec.go:67-86 | data shards are padded with zeros to the longest, at least one byte; missing ones are zeros |
| Fec.EncodeIs | fec/fec.go:57-93 | no parity asked for, none made; an error exactly for counts the library refuses; else M parity shards of the padded data |
| Fec.ReconstructIs | fec/fec.go:97-108 | success exactly if there is parity, the library takes the counts and can rebuild the slice of K + M shards |
| Shaping.Shaper.Run | shaper/shaper.go:94-165 | against any interleaving of the other methods, also between two packets of a batch, any clock and any cancellation: packets sent, current batch and queue are together the accepted packets in order; what is sent is what the turns took, each burst recorded with its time and parameters, shaped or not |
| Shaping.Shaper.OneTurn | shaper/shaper.go:97-164 | one turn of the loop, shaped or unshaped: what is taken from the queue and when, what stays, conservation, and the next opportunity |
| Shaping.Shaper.SendBatch | shaper/shaper.go:158-163 | the batch is handed over in order up to a cancellation, whatever the other goroutines do in between |
| Shaping.Shaper.Enqueue | shaper/shaper.go:55-63 | a packet is accepted at the end of the queue unless stopped |
| Shaping.Shaper.EnqueueMany | shaper/shaper.go:66-74 | packets are accepted in order unless stopped |
| Shaping.Shaper.UpdateParams | shaper/shaper.go:47-52 | both parameters are replaced together |
| Shaping.Shaper.Stop | shaper/shaper.go:77-82 | nothing is accepted any more; the queue stays |
| Shaping.QueueDrains | shaper/shaper.go:129-164 | a queue left alone goes out in order: after n turns exactly its first n times burstSize packets have left, or all of them |
| Shaping.TurnTakesNothing | shaper/shaper.go:97-147 | stopped, cancelled before the turn or in its sleep, or with an empty queue, a turn takes nothing, and the first three end the loop |
| Shaping.TurnTakes | shaper/shaper.go:108-163 | otherwise it takes the front of the queue, all of it unshaped, at most burstSize shaped, exactly at the later of now and the next opportunity plus the delay of the timer |
| Shaping.Backlogged | shaper/shaper.go:129-156 | with a backlog and no delays, shaped bursts start exactly one interval apart |
| Rate.BurstsPaced | shaper/shaper.go:108-156 | in every run each burst uses parameters that were set together, keeps to their size if they shape it, and leaves their interval to pass before the next shaped burst |
| Rate.RateBound | shaper/shaper.go:108-163 | between the starts of bursts a and b of a stretch of shaped ones the bits sent are at most Bandwidth times the time between them and one millisecond per burst, under changing parity and whatever came before and after |
| Rate.ShapedStretch | shaper/shaper.go:108-163 | the same for every run of a session's shaper, on any link |
| Rate.SessionKeepsRate | proxy/session.go:841-851 | on a link where K packets take a millisecond or more, everything the shaper sends keeps to that bound, whatever allowed calls are made |
| History.ServiceKeepsRate | proxy/session.go:841-851 | the same for every script whose calls are those of a history |
| FastLink.BreaksInService | shaper/shaper.go:113-127 | on every faster link, a history of a session and a script that makes exactly its calls, in order, and breaks the bound; the queue is empty whenever a turn begins |
| FastLink.AfterCleanBlocks | proxy/session.go:814-823 | after n blocks with clean reports the parity count is down by one for every five, and the last packet can be asked for |
| FastLink.RateKeptIff | proxy/session.go:841-851 | the shaper of a session keeps to the bandwidth in all histories, against every clock, if and only if K * LinkMTU * 8000 >= Bandwidth |
| Rate.IntervalCovers | proxy/session.go:152-161 | truncation to whole milliseconds loses less than one |
| Rate.IntervalExact | proxy/session.go:841-851 | the interval is the time a burst takes the link, rounded down to whole milliseconds, bounded on both sides; without a bandwidth it is zero |
| Rate.ShapedIff | shaper/shaper.go:113-127 | shaping is on if and only if a burst takes the link a millisecond or more |
| Client.ClientPEP.GetNextStreamID | proxy/client.go:161-176 | within 4095 probes, the first free identifier after the cursor, in circular order; an error exactly if all 4095 are in use |
| Client.ClientPEP.ReusedAfterFullTurn | proxy/client.go:161-176 | two allocations give the same identifier if and only if a positive multiple of 4095 probes lies between them |
| Client.ClientPEP.Register | proxy/client.go:281-283 | a session stored under an identifier that was handed out keeps the allocator's invariant |

## Left out

- Unconditional delivery: a block of which no packet arrives is never asked for, so full delivery is stated for blocks the receiver knows (`Delivery.CanFinish`), and as something that can happen, not as fairness of the network.
- Complete delivery when both sides have closed and `HandleClose` cancels the session, or after the three-second limit: the code does not promise it.
- Session.Session.NakTick: one round is one step, where `handleLQRTimeout` drops the lock between two requests; `System` allows requests at any time instead.
- Session.Session.FinishBlock: one step in the class, where `writeTCPRun` drops the lock around the report; `System` has the three steps apart.
- Session.Session.Close: closing the TCP connection and stopping the block timer, which are no fields of the model.
- Session.Session.HandleClose: flag and broadcast are one step in the class, where the Go code takes two locks in turn; `System` has them apart.
- Fec.FEC.GetEncoder: the cache key is the pair of counts instead of its decimal text.
- Shaping.Interval: exact arithmetic and truncation instead of floating point.
- The Reed-Solomon library's own tables and matrices: `ReedSolomon` is a code by evaluation at the points 0..K+M-1, and nothing is claimed about how the library computes it.
- Sockets, the accept and demultiplexing loops, the CONNECT handshake and its timers, RESET, the server's session table (proxy/server.go, the rest of proxy/client.go): input, output and wall-clock behaviour.
- Back-pressure on reads and the wait for an empty shaper queue before closing: they only delay events that may come late anyway (the run of `FastLink.BreaksInService` finds the queue empty at every read).
- Monitoring, statistics, logging, idle timeouts (proxy/session.go:901-958): reporting only.
- Routing configuration (config/config.go): a map lookup and a first-match scan, which would only add easy members.
