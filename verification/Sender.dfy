// What the sending half of a session computes: the block flush, the retransmission cache,
// the parity controller (proxy/session.go, TCP to UDP).
module Sender {
  import opened Basics
  import opened Serial
  import opened Protocol
  import opened Shards
  import opened ErasureCode

  datatype Config = Config(
    k: nat,          // FEC_K, the same on both ends
    m: nat,          // FEC_M of the sender
    rxM: nat,        // FEC_M of the receiver
    mtu: int,        // LinkMTU
    bandwidth: int,
    stream: U16,
    code: Code)

  // What both daemons assume of their flags and nobody checks: indices fit 5 bits, the encoder
  // accepts the shard counts, stream IDs fit 12 bits, a packet fits the 2048-byte receive buffer.
  ghost predicate ConfigOk(c: Config) {
    && c.k >= 1 && c.k + c.m <= 32 && c.k + c.rxM <= 256
    && c.stream <= 0xFFF
    && MaxPayload(c) + 8 <= 2048
    && Contract(c.code)
  }

  // The largest read from TCP, with the 512-byte fallback.
  function MaxPayload(c: Config): nat {
    if c.mtu - 36 <= 0 then 512 else c.mtu - 36
  }

  datatype TxBlock = TxBlock(groupID: U16, m: nat, lqrRecved: bool)

  datatype Tx = Tx(
    curM: nat,
    nextGroupID: U16,
    nextSeqNum: Byte,
    pending: seq<Shard>,
    txBlocks: map<U16, TxBlock>,
    harqCache: map<Byte, Packet>,
    consecutiveOk: nat)

  function InitTx(c: Config): Tx {
    Tx(c.m, 0, 0, [], map[], map[], 0)
  }

  // ---- FEC.Encode

  // The length every shard is padded to.
  function PadLength(data: seq<Shard>): nat {
    Max(1, Longest(data))
  }

  function PadAll(k: nat, data: seq<Shard>): (r: seq<Shard>)
    ensures |r| == k
  {
    seq(k, i requires 0 <= i < k => if i < |data| then Pad(data[i], PadLength(data)) else Zeros(PadLength(data)))
  }

  function Encode(code: Code, k: int, m: int, data: seq<Shard>): (r: Result<seq<Shard>>) {
    if m <= 0 then Ok([])
    else if !Supported(k, m) then Err
    else Ok(seq(m, j requires 0 <= j < m => code.parity(k, j, PadAll(k, data))))
  }

  // ---- flushPendingBlockLocked

  // A block is filled up with shards that carry no data.
  function FillUp(k: nat, pending: seq<Shard>): (r: seq<Shard>)
    ensures |r| >= k
  {
    pending + seq(if |pending| < k then k - |pending| else 0, _ => [0, 0])
  }

  function DataPacket(stream: U16, group: U16, first: Byte, i: nat, shard: Shard): Packet {
    Blank(DATA, stream).(seqNum := (first + i) % 256, groupID := group, idx := i % 256, payload := shard)
  }

  function ParityPacket(stream: U16, group: U16, idx: nat, shard: Shard): Packet {
    Blank(DATA, stream).(groupID := group, idx := idx % 256, isParity := true, payload := shard)
  }

  // The K data packets of a block, and its parity packets.
  function PacketsOf(c: Config, group: U16, first: Byte, data: seq<Shard>): (r: seq<Packet>)
    requires c.k <= |data|
    ensures |r| == c.k
  {
    seq(c.k, i requires 0 <= i < c.k => DataPacket(c.stream, group, first, i, data[i]))
  }

  function ParityPacketsOf(c: Config, group: U16, parity: seq<Shard>): (r: seq<Packet>)
    ensures |r| == |parity|
  {
    seq(|parity|, j requires 0 <= j < |parity| => ParityPacket(c.stream, group, c.k + j, parity[j]))
  }

  function DataPackets(c: Config, t: Tx): seq<Packet> {
    PacketsOf(c, t.nextGroupID, t.nextSeqNum, FillUp(c.k, t.pending))
  }

  function ParityPackets(c: Config, t: Tx, parity: seq<Shard>): seq<Packet> {
    ParityPacketsOf(c, t.nextGroupID, parity)
  }

  // Marshalled packets in order; one that cannot be marshalled is skipped.
  function Wires(ps: seq<Packet>): seq<seq<Byte>> {
    if ps == [] then []
    else
      var rest := Wires(ps[..|ps| - 1]);
      match Marshal(ps[|ps| - 1])
      case Ok(buf) => rest + [buf]
      case Err => rest
  }

  function CacheAll(cache: map<Byte, Packet>, ps: seq<Packet>): map<Byte, Packet> {
    if ps == [] then cache
    else CacheAll(cache, ps[..|ps| - 1])[ps[|ps| - 1].seqNum := ps[|ps| - 1]]
  }

  // Blocks too old to be acknowledged are forgotten.
  predicate Stale(group: U16, id: U16) {
    100 < Sub(group, id) < 60000
  }

  function DropStale(blocks: map<U16, TxBlock>, group: U16): map<U16, TxBlock> {
    map id | id in blocks && !Stale(group, id) :: blocks[id]
  }

  function ParityOf(c: Config, t: Tx): Result<seq<Shard>> {
    Encode(c.code, c.k, t.curM, FillUp(c.k, t.pending))
  }

  // The state after a flush.  A failed encoding loses the block and its number.
  function Flush(c: Config, t: Tx): (t': Tx) {
    if t.pending == [] then t
    else if ParityOf(c, t).Err? then t.(nextGroupID := (t.nextGroupID + 1) % 65536, pending := [])
    else
      t.(nextGroupID := (t.nextGroupID + 1) % 65536,
         nextSeqNum := (t.nextSeqNum + c.k) % 256,
         pending := [],
         harqCache := CacheAll(t.harqCache, DataPackets(c, t)),
         txBlocks := Track(t.txBlocks, t.nextGroupID, t.curM))
  }

  function Track(blocks: map<U16, TxBlock>, group: U16, m: nat): map<U16, TxBlock> {
    DropStale(blocks, group)[group := TxBlock(group, m, false)]
  }

  // What a flush hands to the shaper.
  function FlushOut(c: Config, t: Tx): (out: seq<seq<Byte>>) {
    if t.pending == [] || ParityOf(c, t).Err? then []
    else Wires(DataPackets(c, t) + ParityPackets(c, t, ParityOf(c, t).value))
  }

  // readTCPRun: one chunk read from TCP joins the block; a full block is flushed.
  function Append(t: Tx, chunk: seq<Byte>): Tx {
    t.(pending := t.pending + [Frame(chunk)])
  }

  function Read(c: Config, t: Tx, chunk: seq<Byte>): (t': Tx) {
    var t1 := Append(t, chunk);
    if |t1.pending| >= c.k then Flush(c, t1) else t1
  }

  // ---- HandleLQR

  // One report on the quality of a block, adjusting the parity count.
  function Adapt(c: Config, t: Tx, losses: Byte): Tx {
    if losses == 0 then
      if t.consecutiveOk + 1 >= 5 then
        t.(curM := Max(0, t.curM - 1), consecutiveOk := 0)
      else t.(consecutiveOk := t.consecutiveOk + 1)
    else
      t.(curM := Max(t.curM, Min(losses as int + 1, c.m)), consecutiveOk := 0)
  }

  predicate Accepts(t: Tx, group: U16) {
    group in t.txBlocks && !t.txBlocks[group].lqrRecved
  }

  function HandleLQR(c: Config, t: Tx, group: U16, losses: Byte): Tx {
    if Accepts(t, group) then
      var t1 := Adapt(c, t, losses);
      t1.(txBlocks := t1.txBlocks - {group})
    else t
  }

  // ---- HandleNak

  function HandleNak(t: Tx, seqNum: Byte): (r: Option<seq<Byte>>) {
    if seqNum in t.harqCache && Marshal(t.harqCache[seqNum]).Ok? then Some(Marshal(t.harqCache[seqNum]).value)
    else None
  }

  // readTCPRun, waiting to send CLOSE: every tracked block is acknowledged.
  predicate AllAcked(t: Tx) {
    forall id :: id in t.txBlocks ==> t.txBlocks[id].lqrRecved
  }
}
