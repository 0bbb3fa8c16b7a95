// What the receiving half of a session computes: reassembly, reconstruction, loss reports and
// the writer's decisions (proxy/session.go, UDP to TCP).
module Receiver {
  import opened Basics
  import opened Serial
  import opened Protocol
  import opened Shards
  import opened ErasureCode
  import opened Sender

  datatype RxBlock = RxBlock(
    groupID: U16,
    k: nat,
    m: int,
    packets: seq<Option<Shard>>,   // 0..k-1 data, then parity
    seqNums: seq<Byte>,
    receivedCnt: nat,
    lqrReported: bool,
    decoded: bool)

  datatype Rx = Rx(
    nextWriteGrp: U16,
    rxBlocks: map<U16, RxBlock>,
    recvClosed: bool,
    maxRecvGrp: U16,
    hasRecv: bool)

  function NewBlock(c: Config, id: U16): RxBlock {
    RxBlock(id, c.k, c.rxM, seq(c.k + c.rxM, _ => None), SeqNums(c.k, id), 0, false, false)
  }

  // The sequence numbers of a block's data packets, as the receiver computes them.
  function SeqNums(k: nat, id: U16): (r: seq<Byte>)
    ensures |r| == k
  {
    seq(k, i => (id * k % 256 + i) % 256)
  }

  // The state once Start has run.
  function InitRx(c: Config): Rx {
    Rx(0, map[0 := NewBlock(c, 0)], false, 0, false)
  }

  // ---- HandleDataPacket

  function NoteGroup(r: Rx, id: U16): Rx {
    if !r.hasRecv then r.(maxRecvGrp := id, hasRecv := true)
    else if Later(id, r.maxRecvGrp) then r.(maxRecvGrp := id)
    else r
  }

  function Grow(b: RxBlock, idx: nat): RxBlock {
    if idx < |b.packets| then b
    else b.(packets := b.packets + seq(idx + 1 - |b.packets|, _ => None), m := idx + 1 - b.k)
  }

  function Place(b: RxBlock, idx: nat, payload: Shard): RxBlock {
    var g := Grow(b, idx);
    if g.packets[idx].Some? then g
    else g.(packets := g.packets[idx := Some(payload)], receivedCnt := g.receivedCnt + 1)
  }

  predicate DataComplete(b: RxBlock) {
    b.k <= |b.packets| && forall i :: 0 <= i < b.k ==> b.packets[i].Some?
  }

  function LongestSlot(slots: seq<Option<Shard>>): nat {
    if slots == [] then 0
    else
      var rest, last := LongestSlot(slots[..|slots| - 1]), slots[|slots| - 1];
      if last.Some? then Max(rest, |last.value|) else rest
  }

  function PadSlots(slots: seq<Option<Shard>>, n: nat): (r: seq<Option<Shard>>)
    ensures |r| == |slots|
  {
    seq(|slots|, i requires 0 <= i < |slots| => if slots[i].Some? then Some(Pad(slots[i].value, n)) else None)
  }

  // FEC.Reconstruct: the encoder fills the missing shards in place.
  function Reconstruct(code: Code, k: int, m: int, shards: seq<Option<Shard>>): (r: Option<seq<Shard>>)
    ensures r.Some? ==> |r.value| == |shards|
  {
    if m <= 0 || !Supported(k, m) || |shards| != k + m then None
    else
      match code.rebuild(k, m, shards)
      case Some(full) => if |full| == |shards| then Some(full) else None
      case None => None
  }

  // Missing data shards are taken from the reconstruction, the rest stays.
  function FillData(b: RxBlock, full: seq<Shard>): RxBlock
    requires |full| == |b.packets|
  {
    b.(packets := seq(|b.packets|, i requires 0 <= i < |b.packets| =>
                        if i < b.k && b.packets[i].None? then Some(full[i]) else b.packets[i]))
  }

  function TryDecode(c: Config, b: RxBlock): RxBlock {
    if DataComplete(b) then b.(decoded := true)
    else
      var n := LongestSlot(b.packets);
      if n == 0 then b
      else
        match Reconstruct(c.code, b.k, |b.packets| - b.k, PadSlots(b.packets, n))
        case Some(full) => FillData(b, full).(decoded := true)
        case None => b
  }

  function Receive(c: Config, b: RxBlock, idx: nat, payload: Shard): RxBlock {
    var b1 := Place(b, idx, payload);
    if b1.receivedCnt >= b1.k && !b1.decoded then TryDecode(c, b1) else b1
  }

  function BlockAt(c: Config, r: Rx, id: U16): RxBlock {
    if id in r.rxBlocks then r.rxBlocks[id] else NewBlock(c, id)
  }

  // A DATA packet is looked at only while the receive side is open and its group unwritten.
  predicate Wanted(r: Rx, id: U16) {
    !r.recvClosed && !Later(r.nextWriteGrp, id)
  }

  function HandleData(c: Config, r: Rx, p: Packet): Rx {
    if r.recvClosed then r
    else
      var r1 := NoteGroup(r, p.groupID);
      if !Wanted(r, p.groupID) then r1
      else r1.(rxBlocks := r1.rxBlocks[p.groupID := Receive(c, BlockAt(c, r, p.groupID), p.idx, p.payload)])
  }

  // Whether that packet completed its block, which wakes the writer.
  predicate Completes(c: Config, r: Rx, p: Packet) {
    && Wanted(r, p.groupID)
    && !BlockAt(c, r, p.groupID).decoded
    && Receive(c, BlockAt(c, r, p.groupID), p.idx, p.payload).decoded
  }

  // ---- handleLQRTimeout

  function LastFilled(slots: seq<Option<Shard>>): int {
    if slots == [] then -1
    else if slots[|slots| - 1].Some? then |slots| - 1
    else LastFilled(slots[..|slots| - 1])
  }

  function ExpectedTotal(b: RxBlock): int {
    Max(b.k, LastFilled(b.packets) + 1)
  }

  function Losses(b: RxBlock): Byte {
    Min(255, Max(0, ExpectedTotal(b) - b.receivedCnt))
  }

  predicate Reports(r: Rx, id: U16) {
    id in r.rxBlocks && !r.rxBlocks[id].lqrReported
  }

  function LqrTimeout(r: Rx, id: U16): Rx {
    if Reports(r, id) then r.(rxBlocks := r.rxBlocks[id := r.rxBlocks[id].(lqrReported := true)]) else r
  }

  function LqrPacket(c: Config, r: Rx, id: U16): Packet
    requires Reports(r, id)
  {
    Blank(LQR, c.stream).(groupID := id, losses := Losses(r.rxBlocks[id]))
  }

  // ---- sendNakPeriodic

  // The sequence numbers asked for in one round: those of the data slots still empty.
  function Missing(b: RxBlock, n: nat): seq<Byte>
    requires n <= |b.packets| && n <= |b.seqNums|
  {
    if n == 0 then []
    else if b.packets[n - 1].None? then Missing(b, n - 1) + [b.seqNums[n - 1]]
    else Missing(b, n - 1)
  }

  function NakRequests(b: RxBlock): seq<Byte>
    requires b.k <= |b.packets| && b.k <= |b.seqNums|
  {
    if b.decoded || b.receivedCnt >= b.k then [] else Missing(b, b.k)
  }

  // ---- writeTCPRun

  // The payloads of the data slots; an empty slot has none.
  function Payloads(b: RxBlock): (r: seq<Shard>)
    requires b.k <= |b.packets|
    ensures |r| == b.k
  {
    seq(b.k, i requires 0 <= i < b.k => if b.packets[i].Some? then b.packets[i].value else [])
  }

  predicate NextReady(r: Rx) {
    r.nextWriteGrp in r.rxBlocks && r.rxBlocks[r.nextWriteGrp].decoded
  }

  // Everything up to the highest group seen has been written.
  predicate Drained(r: Rx) {
    Later(r.nextWriteGrp, r.maxRecvGrp)
  }

  function Written(r: Rx): Rx {
    r.(rxBlocks := r.rxBlocks - {r.nextWriteGrp}, nextWriteGrp := (r.nextWriteGrp + 1) % 65536)
  }
}
