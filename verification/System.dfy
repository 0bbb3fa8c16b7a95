// One direction of a stream end to end: a sending session, a receiving session, and between
// them a network that loses, repeats and reorders datagrams.  Every section of code that runs
// under a lock, or that no lock protects, is one event; a run is any sequence of enabled events.
module System {
  import opened Basics
  import opened Serial
  import opened Protocol
  import opened Shards
  import opened Sender
  import opened SenderProofs
  import opened Receiver
  import opened ReceiverProofs

  // Packet indices on record, block by block.
  type Record = map<nat, set<nat>>

  // A datagram and the true number of the block it speaks of.
  datatype Datagram = Datagram(grp: nat, bytes: seq<Byte>)

  // readTCPRun: reading; end of file seen; last block flushed; CLOSE sent, because every
  // tracked block was acknowledged or because the waiting time ran out.
  datatype ReaderPC = Reading | Ended | Flushed | Closed(acked: bool)

  datatype Snd = Snd(
    tx: Tx,
    pc: ReaderPC,
    input: seq<Byte>,       // every byte read from TCP
    log: seq<Group>,        // every block flushed
    acked: set<nat>)        // every block whose report was accepted

  datatype Reason = Cancelled | WriteError | NothingReceived | AllWritten

  // writeTCPRun, point by point.  From Locked to Decide it holds muRecv.
  datatype WriterPC =
    | Top                   // about to lock, also when just woken
    | Locked                // about to look at the context
    | CtxOk                 // about to look for the next block
    | NotReady              // about to read closeRecv under muSend
    | Decide(closed: bool)  // closeRecv has been read
    | Parked                // in writeCond.Wait
    | Writing(next: nat)    // writing shard `next`, without the lock
    | Done                  // all shards written, about to lock
    | Reporting             // about to call handleLQRTimeout
    | Removing              // about to lock and delete the block
    | Leaving(why: Reason)  // about to set recvClosed
    | Exited(why: Reason)

  datatype Rcv = Rcv(
    rx: Rx,
    pc: WriterPC,
    output: seq<Byte>,            // every byte written to TCP
    closeRecv: bool,
    cancelled: bool,
    closePending: nat,            // HandleClose calls that have yet to broadcast
    cancelPending: nat,           // Session.Close calls that have yet to broadcast
    w: nat,                       // blocks written: nextWriteGrp unwrapped
    x: nat,                       // the highest block heard of: maxRecvGrp unwrapped
    filled: Record,   // the slots of each block filled from the network
    arrived: Record,  // the packets of each block that arrived at all
    reports: seq<nat>)            // the blocks reported on, in order

  datatype Sys = Sys(snd: Snd, rcv: Rcv, net: set<Datagram>, lqrNet: set<Datagram>, closeNet: bool)

  datatype Event =
    | Read(chunk: seq<Byte>)      // sender: a chunk from TCP
    | FlushTimer                  // sender: the 50 ms block timer
    | Eof
    | FinalFlush
    | CloseAcked
    | CloseTimeout
    | NakArrives(seqNum: Byte)    // any request at all, also one never sent
    | LqrArrives(d: Datagram)
    | DataArrives(d: Datagram)
    | LqrTimer(id: U16)           // any block's timer, at any time
    | WriterStep
    | WriteFails(n: nat)          // TCP takes n more bytes and fails
    | CloseArrives
    | CloseBroadcast
    | Cancel                      // Session.Close begins
    | CancelBroadcast

  function InitSys(c: Config): Sys {
    Sys(Snd(InitTx(c), Reading, [], [], {}),
        Rcv(InitRx(c), Top, [], false, false, 0, 0, 0, 0, map[], map[], []),
        {}, {}, false)
  }

  // ---- sender events

  function Tag(grp: nat, bufs: seq<seq<Byte>>): set<Datagram> {
    set i | 0 <= i < |bufs| :: Datagram(grp, bufs[i])
  }

  lemma EmptyTag(grp: nat)
    ensures Tag(grp, []) == {}
  {
  }

  // The block a flush adds to the log, if it flushes at all.
  ghost function LogAfter(c: Config, t: Tx, log: seq<Group>): seq<Group> {
    if t.pending == [] then log else log + [FlushedGroup(c, t)]
  }

  ghost function DoFlush(c: Config, s: Sys, t: Tx, input: seq<Byte>, pc: ReaderPC): Sys {
    s.(snd := Snd(Flush(c, t), pc, input, LogAfter(c, t, s.snd.log), s.snd.acked),
       net := s.net + Tag(|s.snd.log|, FlushOut(c, t)))
  }

  ghost function DoRead(c: Config, s: Sys, chunk: seq<Byte>): Sys {
    var t := Append(s.snd.tx, chunk);
    var full := |t.pending| >= c.k;
    s.(snd := Snd(Sender.Read(c, s.snd.tx, chunk), s.snd.pc, s.snd.input + chunk,
                  if full then LogAfter(c, t, s.snd.log) else s.snd.log, s.snd.acked),
       net := s.net + if full then Tag(|s.snd.log|, FlushOut(c, t)) else {})
  }

  function DoNak(s: Sys, seqNum: Byte): Sys {
    match HandleNak(s.snd.tx, seqNum)
    case None => s
    case Some(buf) =>
      var g := Backward(|s.snd.log|, s.snd.tx.harqCache[seqNum].groupID);
      s.(net := s.net + {Datagram(Max(0, g), buf)})
  }

  function DoLqr(c: Config, s: Sys, d: Datagram): Sys {
    match Unmarshal(d.bytes)
    case Err => s
    case Ok(p) =>
      if p.ptype != LQR then s
      else s.(snd := s.snd.(
                tx := HandleLQR(c, s.snd.tx, p.groupID, p.losses),
                acked := if Accepts(s.snd.tx, p.groupID) then s.snd.acked + {d.grp} else s.snd.acked))
  }

  // ---- receiver events

  predicate LockFree(pc: WriterPC) {
    !(pc.Locked? || pc.CtxOk? || pc.NotReady? || pc.Decide?)
  }

  // The demultiplexer reads at most 2048 bytes of a datagram.
  function ReadBuffer(bytes: seq<Byte>): seq<Byte> {
    if |bytes| <= 2048 then bytes else bytes[..2048]
  }

  function Wake(pc: WriterPC): WriterPC {
    if pc == Parked then Top else pc
  }

  function At(m: Record, g: nat): set<nat> {
    if g in m then m[g] else {}
  }

  ghost function DoData(c: Config, v: Rcv, d: Datagram): Rcv {
    match Unmarshal(ReadBuffer(d.bytes))
    case Err => v
    case Ok(p) =>
      if p.ptype != DATA || v.rx.recvClosed then v
      else
        var v1 := v.(rx := HandleData(c, v.rx, p),
                     x := if v.rx.hasRecv then Max(v.x, d.grp) else d.grp,
                     pc := if Completes(c, v.rx, p) then Wake(v.pc) else v.pc);
        if !Wanted(v.rx, p.groupID) then v1
        else
          v1.(filled := v.filled[d.grp := FilledAfter(c, BlockAt(c, v.rx, p.groupID), At(v.filled, d.grp), p.idx)],
              arrived := v.arrived[d.grp := At(v.arrived, d.grp) + {p.idx}])
  }

  // handleLQRTimeout for one block: at most one report.
  function DoReport(c: Config, s: Sys, id: U16): Sys {
    var v := s.rcv;
    if !Reports(v.rx, id) then s
    else
      var g := Forward(v.w, id);
      var sent := match Marshal(LqrPacket(c, v.rx, id)) case Ok(buf) => {Datagram(g, buf)} case Err => {};
      s.(rcv := v.(rx := LqrTimeout(v.rx, id), reports := v.reports + [g]), lqrNet := s.lqrNet + sent)
  }

  function SlotBytes(slot: Option<Shard>): seq<Byte> {
    if slot.Some? then Strip(slot.value) else []
  }

  // The writer's block is the one it found ready: it stays in the map until the writer deletes it.
  function NextSlot(r: Rx, i: nat): Option<Shard> {
    if r.nextWriteGrp in r.rxBlocks && i < |r.rxBlocks[r.nextWriteGrp].packets|
    then r.rxBlocks[r.nextWriteGrp].packets[i] else None
  }

  predicate NextReported(r: Rx) {
    r.nextWriteGrp in r.rxBlocks && r.rxBlocks[r.nextWriteGrp].lqrReported
  }

  function DoWritten(v: Rcv): Rcv {
    v.(rx := Written(v.rx), pc := Top, w := v.w + 1)
  }

  function DoWriter(c: Config, s: Sys): Sys {
    var v := s.rcv;
    match v.pc
    case Top => s.(rcv := v.(pc := Locked))
    case Locked => s.(rcv := v.(pc := if v.cancelled then Leaving(Cancelled) else CtxOk))
    case CtxOk => s.(rcv := v.(pc := if NextReady(v.rx) then Writing(0) else NotReady))
    case NotReady => s.(rcv := v.(pc := Decide(v.closeRecv)))
    case Decide(closed) =>
      s.(rcv := v.(pc := if closed && !v.rx.hasRecv then Leaving(NothingReceived)
                         else if closed && Drained(v.rx) then Leaving(AllWritten)
                         else Parked))
    case Writing(i) =>
      if i < c.k then
        s.(rcv := v.(output := v.output + SlotBytes(NextSlot(v.rx, i)), pc := Writing(i + 1)))
      else s.(rcv := v.(pc := Done))
    case Done =>
      if NextReported(v.rx) then s.(rcv := DoWritten(v))
      else s.(rcv := v.(pc := Reporting))
    case Reporting => var s1 := DoReport(c, s, v.rx.nextWriteGrp); s1.(rcv := s1.rcv.(pc := Removing))
    case Removing => s.(rcv := DoWritten(v))
    case Leaving(why) => s.(rcv := v.(rx := v.rx.(recvClosed := true), pc := Exited(why)))
    case Parked => s
    case Exited(_) => s
  }

  // ---- runs

  // The window hypothesis: at a delivery, the block spoken of and the receiver's next block are
  // among the last 32767 of the sender's blocks.
  predicate InWindow(s: Sys, d: Datagram) {
    d.grp + 32767 >= |s.snd.log| && s.rcv.w + 32767 >= |s.snd.log|
  }

  predicate Enabled(c: Config, s: Sys, e: Event) {
    match e
    case Read(chunk) => s.snd.pc == Reading && 1 <= |chunk| <= MaxPayload(c)
    case FlushTimer => true
    case Eof => s.snd.pc == Reading
    case FinalFlush => s.snd.pc == Ended
    case CloseAcked => s.snd.pc == Flushed && AllAcked(s.snd.tx)
    case CloseTimeout => s.snd.pc == Flushed
    case NakArrives(_) => true
    case LqrArrives(d) => d in s.lqrNet && d.grp + 32767 >= |s.snd.log|
    case DataArrives(d) => d in s.net && InWindow(s, d) && LockFree(s.rcv.pc)
    case LqrTimer(_) => LockFree(s.rcv.pc)
    case WriterStep => !s.rcv.pc.Parked? && !s.rcv.pc.Exited?
    case WriteFails(n) =>
      s.rcv.pc.Writing? && s.rcv.pc.next < c.k && n <= |SlotBytes(NextSlot(s.rcv.rx, s.rcv.pc.next))|
    case CloseArrives => s.closeNet
    case CloseBroadcast => s.rcv.closePending > 0 && LockFree(s.rcv.pc)
    case Cancel => true
    case CancelBroadcast => s.rcv.cancelPending > 0 && LockFree(s.rcv.pc)
  }

  ghost function Step(c: Config, s: Sys, e: Event): Sys
    requires Enabled(c, s, e)
  {
    match e
    case Read(chunk) => DoRead(c, s, chunk)
    case FlushTimer => DoFlush(c, s, s.snd.tx, s.snd.input, s.snd.pc)
    case Eof => s.(snd := s.snd.(pc := Ended))
    case FinalFlush => DoFlush(c, s, s.snd.tx, s.snd.input, Flushed)
    case CloseAcked => s.(snd := s.snd.(pc := Closed(true)), closeNet := true)
    case CloseTimeout => s.(snd := s.snd.(pc := Closed(false)), closeNet := true)
    case NakArrives(seqNum) => DoNak(s, seqNum)
    case LqrArrives(d) => DoLqr(c, s, d)
    case DataArrives(d) => s.(rcv := DoData(c, s.rcv, d))
    case LqrTimer(id) => DoReport(c, s, id)
    case WriterStep => DoWriter(c, s)
    case WriteFails(n) =>
      var bytes := SlotBytes(NextSlot(s.rcv.rx, s.rcv.pc.next))[..n];
      s.(rcv := s.rcv.(output := s.rcv.output + bytes, pc := Leaving(WriteError)))
    case CloseArrives => s.(rcv := s.rcv.(closeRecv := true, closePending := s.rcv.closePending + 1))
    case CloseBroadcast => s.(rcv := s.rcv.(closePending := s.rcv.closePending - 1, pc := Wake(s.rcv.pc)))
    case Cancel => s.(rcv := s.rcv.(cancelled := true, cancelPending := s.rcv.cancelPending + 1))
    case CancelBroadcast => s.(rcv := s.rcv.(cancelPending := s.rcv.cancelPending - 1, pc := Wake(s.rcv.pc)))
  }

  // The state a sequence of events leads to, if each is enabled in its turn.
  ghost function Exec(c: Config, s: Sys, es: seq<Event>): Option<Sys>
    decreases |es|
  {
    if es == [] then Some(s)
    else if !Enabled(c, s, es[0]) then None
    else Exec(c, Step(c, s, es[0]), es[1..])
  }

  ghost predicate Reaches(c: Config, es: seq<Event>, s: Sys) {
    Exec(c, InitSys(c), es) == Some(s)
  }
}
