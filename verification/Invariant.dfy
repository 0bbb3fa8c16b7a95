// What every reachable state of the system satisfies.
module Invariant {
  import opened Basics
  import opened Serial
  import opened Protocol
  import opened Shards
  import opened Sender
  import opened SenderProofs
  import opened Receiver
  import opened ReceiverProofs
  import opened System

  // ---- the network

  // The datagram is, byte for byte, a packet of the block it is tagged with, and reads back as it.
  ghost predicate Genuine(c: Config, log: seq<Group>, d: Datagram)
    requires LogOk(c, log)
  {
    && d.grp < |log|
    && |d.bytes| <= MaxPayload(c) + 8
    && Unmarshal(ReadBuffer(d.bytes)).Ok?
    && var p := Unmarshal(ReadBuffer(d.bytes)).value;
       p.idx < c.k + log[d.grp].m && p == PacketOf(c, d.grp, log[d.grp], p.idx) && Marshal(p) == Ok(d.bytes)
  }

  ghost predicate NetOk(c: Config, log: seq<Group>, net: set<Datagram>)
    requires LogOk(c, log)
  {
    forall d :: d in net ==> Genuine(c, log, d)
  }

  // The datagram is a loss report of the stream on its block.
  ghost predicate IsReport(stream: U16, d: Datagram) {
    && Unmarshal(d.bytes).Ok?
    && Unmarshal(d.bytes).value.ptype == LQR
    && Unmarshal(d.bytes).value.streamID == stream
    && Unmarshal(d.bytes).value.groupID == Wrap(d.grp)
    && Marshal(Unmarshal(d.bytes).value) == Ok(d.bytes)
  }

  // A report on block g was sent.
  ghost predicate Announced(lqrNet: set<Datagram>, g: nat) {
    exists d :: d in lqrNet && d.grp == g
  }

  // Every report in flight was made, and names its block; every report made was sent, once.
  ghost predicate LqrNetOk(stream: U16, lqrNet: set<Datagram>, reports: seq<nat>) {
    && (forall d :: d in lqrNet ==> d.grp in reports && IsReport(stream, d))
    && (forall g :: g in reports ==> Announced(lqrNet, g))
    && (forall d, d' :: d in lqrNet && d' in lqrNet && d.grp == d'.grp ==> d == d')
  }

  // ---- the receiver's 16-bit numbers

  ghost predicate IndexOk(n: nat, r: Rx, w: nat, x: nat) {
    && r.nextWriteGrp == Wrap(w) && w <= n
    && (!r.hasRecv ==> w == 0)
    && (r.hasRecv ==> r.maxRecvGrp == Wrap(x) && x < n && w <= x + 1 && x <= w + 32766)
  }

  // ---- the receiver's blocks

  // The block a number stands for; block 0 is expected before it is sent.
  ghost function GroupAt(c: Config, log: seq<Group>, g: nat): Group {
    if g < |log| then log[g] else Group(seq(c.k, _ => [0, 1, 0]), 0)
  }

  ghost predicate BlockInv(c: Config, log: seq<Group>, hasRecv: bool, w: nat, x: nat, id: U16, b: RxBlock, f: set<nat>)
    requires LogOk(c, log)
  {
    var g := Forward(w, id);
    && g <= w + 32767
    && (g < |log| || (g == 0 && f == {}))
    && (g != 0 || f != {} ==> hasRecv && g <= x)
    && b.groupID == id
    && BlockOk(c, GroupAt(c, log, g), b, f)
  }

  ghost predicate BlocksOk(c: Config, log: seq<Group>, r: Rx, w: nat, x: nat, filled: Record)
    requires LogOk(c, log)
  {
    forall id :: id in r.rxBlocks ==> BlockInv(c, log, r.hasRecv, w, x, id, r.rxBlocks[id], At(filled, Forward(w, id)))
  }

  // Slots are recorded only for written blocks and blocks at hand; what filled a slot arrived, and
  // only a data packet of a decoded block can arrive without filling one.
  ghost predicate FilledOk(k: nat, blocks: map<U16, RxBlock>, w: nat, filled: Record, arrived: Record) {
    && filled.Keys == arrived.Keys
    && (forall g :: g in filled && g >= w ==> Wrap(g) in blocks && g <= w + 32767)
    && (forall g :: g in filled ==> filled[g] <= arrived[g])
    && (forall g, i :: g in filled && i in arrived[g] && i !in filled[g] ==>
          i < k && (g >= w ==> Wrap(g) in blocks && blocks[Wrap(g)].decoded))
  }

  // ---- loss reports

  ghost predicate Distinct(s: seq<nat>) {
    forall i, j :: 0 <= i < j < |s| ==> s[i] != s[j]
  }

  // Written blocks have been reported on, others exactly if they are marked, nothing twice; and
  // a report on any block but the first means that something of it had arrived.
  ghost predicate ReportsOk(r: Rx, w: nat, x: nat, reports: seq<nat>) {
    && Distinct(reports)
    && (forall g: nat :: g < w ==> g in reports)
    && (forall g :: g in reports && g >= w ==>
          Wrap(g) in r.rxBlocks && g <= w + 32767 && r.rxBlocks[Wrap(g)].lqrReported)
    && (forall id :: id in r.rxBlocks && r.rxBlocks[id].lqrReported ==> Forward(w, id) in reports)
    && (forall g :: g in reports && g != 0 ==> r.hasRecv && g <= x)
  }

  // ---- the output

  predicate Busy(pc: WriterPC) {
    pc.Writing? || pc.Done? || pc.Reporting? || pc.Removing?
  }

  predicate Broken(pc: WriterPC) {
    (pc.Leaving? || pc.Exited?) && pc.why == WriteError
  }

  ghost predicate BusyOk(c: Config, n: nat, r: Rx, pc: WriterPC, w: nat) {
    && (Busy(pc) ==> w < n && NextReady(r))
    && (pc.Writing? ==> pc.next <= c.k)
    && (pc.Removing? ==> NextReported(r))
    && (Broken(pc) ==> w < n)
  }

  // The shards of block w written so far.
  ghost function PartOf(c: Config, shards: seq<Shard>, pc: WriterPC): seq<Shard>
    requires |shards| == c.k
  {
    if pc.Writing? then shards[..Min(pc.next, c.k)]
    else if Busy(pc) then shards
    else []
  }

  ghost predicate OutputOk(c: Config, log: seq<Group>, pc: WriterPC, w: nat, output: seq<Byte>)
    requires LogOk(c, log)
  {
    && w <= |log|
    && (Broken(pc) ==> w < |log| && output <= LogBytes(log[..w + 1]))
    && (!Broken(pc) ==> output == LogBytes(log[..w]) + Bytes(PartOf(c, GroupAt(c, log, w).shards, pc)))
  }

  // ---- the writer's sleep

  predicate CloseExit(r: Rx) {
    !r.hasRecv || Drained(r)
  }

  // No lost wakeup: once the writer has passed a check, whatever makes the check succeed is
  // followed by a broadcast that has yet to happen.
  ghost predicate WakeOk(v: Rcv) {
    && (v.pc.NotReady? || v.pc.Decide? || v.pc.Parked? ==> !NextReady(v.rx))
    && (v.pc.CtxOk? || v.pc.NotReady? || v.pc.Decide? || v.pc.Parked? ==> v.cancelled ==> v.cancelPending > 0)
    && (v.pc.Decide? && v.pc.closed ==> v.closeRecv)
    && (v.pc.Decide? && !v.pc.closed ==> v.closeRecv ==> v.closePending > 0)
    && (v.pc.Parked? ==> v.closeRecv && CloseExit(v.rx) ==> v.closePending > 0)
  }

  // ---- closing

  predicate LeftFor(pc: WriterPC, why: Reason) {
    (pc.Leaving? || pc.Exited?) && pc.why == why
  }

  ghost predicate SndCloseOk(snd: Snd, reports: seq<nat>) {
    && (snd.pc.Flushed? || snd.pc.Closed? ==> snd.tx.pending == [])
    && (snd.pc == Closed(true) ==> |snd.log| == 0 || |snd.log| - 1 in snd.acked)
    && (forall g :: g in snd.acked ==> g in reports)
  }

  ghost predicate RcvCloseOk(snd: Snd, v: Rcv, closeNet: bool) {
    && (closeNet <==> snd.pc.Closed?)
    && (v.closeRecv ==> closeNet)
    && (LeftFor(v.pc, AllWritten) ==> closeNet && v.rx.hasRecv && (snd.pc == Closed(true) ==> v.w == |snd.log|))
    && (LeftFor(v.pc, NothingReceived) ==> closeNet && v.w == 0 && (snd.pc == Closed(true) ==> |snd.log| <= 1))
  }

  ghost predicate SndOk(c: Config, snd: Snd) {
    TxInv(c, snd.tx, snd.log, snd.input, snd.acked)
  }

  lemma LogKnown(c: Config, snd: Snd)
    requires SndOk(c, snd)
    ensures LogOk(c, snd.log)
  {
  }

  ghost predicate RcvOk(c: Config, log: seq<Group>, v: Rcv)
    requires LogOk(c, log)
  {
    && IndexOk(|log|, v.rx, v.w, v.x)
    && BlocksOk(c, log, v.rx, v.w, v.x, v.filled)
    && FilledOk(c.k, v.rx.rxBlocks, v.w, v.filled, v.arrived)
    && ReportsOk(v.rx, v.w, v.x, v.reports)
    && BusyOk(c, |log|, v.rx, v.pc, v.w)
    && OutputOk(c, log, v.pc, v.w, v.output)
    && WakeOk(v)
  }

  ghost predicate Inv(c: Config, s: Sys) {
    && SndOk(c, s.snd)
    && NetOk(c, s.snd.log, s.net)
    && LqrNetOk(c.stream, s.lqrNet, s.rcv.reports)
    && RcvOk(c, s.snd.log, s.rcv)
    && SndCloseOk(s.snd, s.rcv.reports)
    && RcvCloseOk(s.snd, s.rcv, s.closeNet)
  }

  lemma InitInv(c: Config)
    requires ConfigOk(c)
    ensures Inv(c, InitSys(c))
  {
    InitTxInv(c);
    NewBlockOk(c, GroupAt(c, [], 0), 0);
    ForwardExact(0, 0);
  }
}
