// The sender's state as a function of everything it ever sent.
module SenderProofs {
  import opened Basics
  import opened Serial
  import opened Protocol
  import opened Shards
  import opened ErasureCode
  import opened Sender

  // A flushed block: its K data shards and the parity count it was sent with.
  datatype Group = Group(shards: seq<Shard>, m: nat)

  // What travels as shard idx of the block.
  function Payload(c: Config, grp: Group, idx: nat): Shard
    requires |grp.shards| == c.k
  {
    CodewordShard(c.code, c.k, if idx < c.k then grp.shards else PadAll(c.k, grp.shards), idx)
  }

  // The sequence number of the first data packet of block g.
  function FirstSeq(k: nat, g: nat): Byte {
    if g == 0 then 0 else (FirstSeq(k, g - 1) + k) % 256
  }

  lemma {:induction false} FirstSeqIs(k: nat, g: nat)
    ensures FirstSeq(k, g) == g * k % 256
  {
    if g > 0 {
      FirstSeqIs(k, g - 1);
      ModAdd((g - 1) * k, k);
    }
  }

  lemma ModAdd(a: int, b: int)
    ensures (a % 256 + b) % 256 == (a + b) % 256
  {
    var q := a / 256;
    assert a + b == 256 * q + (a % 256 + b);
  }

  // Packet idx of block number g.
  function PacketOf(c: Config, g: nat, grp: Group, idx: nat): Packet
    requires |grp.shards| == c.k
  {
    if idx < c.k then DataPacket(c.stream, Wrap(g), FirstSeq(c.k, g), idx, Payload(c, grp, idx))
    else ParityPacket(c.stream, Wrap(g), idx, Payload(c, grp, idx))
  }

  ghost predicate ShardOk(c: Config, s: Shard) {
    Framed(s) && |s| <= MaxPayload(c) + 2
  }

  ghost predicate GroupOk(c: Config, grp: Group) {
    && |grp.shards| == c.k && grp.m <= c.m
    && (forall i :: 0 <= i < c.k ==> ShardOk(c, grp.shards[i]))
    && (c.k > 0 ==> |grp.shards[0]| > 2)
  }

  ghost predicate LogOk(c: Config, log: seq<Group>) {
    forall g :: 0 <= g < |log| ==> GroupOk(c, log[g])
  }

  function LogBytes(log: seq<Group>): seq<Byte> {
    if log == [] then [] else LogBytes(log[..|log| - 1]) + Bytes(log[|log| - 1].shards)
  }

  function GroupData(c: Config, g: nat, grp: Group): seq<Packet>
    requires |grp.shards| == c.k
  {
    seq(c.k, i requires 0 <= i < c.k => PacketOf(c, g, grp, i))
  }

  // Every data packet ever sent, in order: the log that harqCache abbreviates.
  function AllData(c: Config, log: seq<Group>): seq<Packet>
    requires LogOk(c, log)
  {
    if log == [] then [] else AllData(c, log[..|log| - 1]) + GroupData(c, |log| - 1, log[|log| - 1])
  }

  // ---- the retransmission cache

  // The last position before n that is congruent to b.
  function LastBefore(n: nat, b: Byte): int {
    n - 1 - (n - 1 - b) % 256
  }

  ghost predicate CacheIs(cache: map<Byte, Packet>, ps: seq<Packet>) {
    forall b: Byte :: (b in cache <==> LastBefore(|ps|, b) >= 0)
                      && (b in cache ==> cache[b] == ps[LastBefore(|ps|, b)])
  }

  lemma LastBeforeStep(n: nat, b: Byte)
    ensures LastBefore(n + 1, b) == if b == n % 256 then n else LastBefore(n, b)
  {
    var q, r := (n - b) / 256, (n - 1 - b) / 256;
    assert n - b == 256 * q + (n - b) % 256;
    assert n - 1 - b == 256 * r + (n - 1 - b) % 256;
    var e := n / 256;
    assert n == 256 * e + n % 256;
  }

  lemma CachePush(cache: map<Byte, Packet>, ps: seq<Packet>, p: Packet)
    requires CacheIs(cache, ps) && p.seqNum == |ps| % 256
    ensures CacheIs(cache[p.seqNum := p], ps + [p])
  {
    forall b: Byte
      ensures LastBefore(|ps + [p]|, b) == if b == p.seqNum then |ps| else LastBefore(|ps|, b)
    {
      LastBeforeStep(|ps|, b);
    }
  }

  lemma {:induction false} CachePushAll(cache: map<Byte, Packet>, ps: seq<Packet>, qs: seq<Packet>)
    requires CacheIs(cache, ps)
    requires forall i :: 0 <= i < |qs| ==> qs[i].seqNum == (|ps| + i) % 256
    ensures CacheIs(CacheAll(cache, qs), ps + qs)
  {
    if qs == [] {
      assert ps + qs == ps;
    } else {
      var q, init := qs[|qs| - 1], qs[..|qs| - 1];
      CachePushAll(cache, ps, init);
      CachePush(CacheAll(cache, init), ps + init, q);
      assert ps + qs == (ps + init) + [q];
    }
  }

  lemma {:induction false} AllDataLength(c: Config, log: seq<Group>)
    requires LogOk(c, log)
    ensures |AllData(c, log)| == |log| * c.k
  {
    if log != [] {
      AllDataLength(c, log[..|log| - 1]);
      MulStep(|log| - 1, c.k);
    }
  }

  // Position g * K + i of the log is shard i of block g.
  lemma {:induction false} AllDataAt(c: Config, log: seq<Group>, g: nat, i: nat)
    requires LogOk(c, log) && g < |log| && i < c.k
    ensures |AllData(c, log)| == |log| * c.k
    ensures g * c.k + i < |log| * c.k
    ensures AllData(c, log)[g * c.k + i] == PacketOf(c, g, log[g], i)
  {
    hide PacketOf;
    var n := |log| - 1;
    var init := log[..n];
    AllDataLength(c, init);
    AllDataLength(c, log);
    MulStep(n, c.k);
    if g < n {
      AllDataAt(c, init, g, i);
    } else {
      assert AllData(c, log)[|AllData(c, init)| + i] == GroupData(c, n, log[n])[i];
    }
  }

  // ---- the sender's invariant, part by part

  ghost predicate CountersOk(c: Config, t: Tx, n: nat) {
    t.nextGroupID == Wrap(n) && t.nextSeqNum == FirstSeq(c.k, n)
  }

  ghost predicate ControllerOk(c: Config, t: Tx) {
    t.curM <= c.m && t.consecutiveOk < 5
  }

  // No chunk that was read is empty; only the filling of a block is.
  ghost predicate PendingOk(c: Config, pending: seq<Shard>) {
    forall i :: 0 <= i < |pending| ==> ShardOk(c, pending[i]) && |pending[i]| > 2
  }

  // Everything read so far is in a flushed block or pending, and nothing else is.
  ghost predicate ContentOk(c: Config, t: Tx, log: seq<Group>, input: seq<Byte>) {
    && |t.pending| < c.k
    && PendingOk(c, t.pending)
    && LogOk(c, log)
    && LogBytes(log) + Bytes(t.pending) == input
  }

  ghost predicate CacheOk(c: Config, cache: map<Byte, Packet>, log: seq<Group>) {
    LogOk(c, log) && CacheIs(cache, AllData(c, log))
  }

  // txBlocks holds only blocks among the last 101, and each of those is still tracked or acknowledged.
  ghost predicate TrackedOk(blocks: map<U16, TxBlock>, n: nat, acked: set<nat>) {
    && (forall id :: id in blocks ==> Backward(n, id) >= 0 && Backward(n, id) >= n - 101 && !blocks[id].lqrRecved)
    && (forall g: nat {:trigger g in acked} :: n - 101 <= g < n ==> Wrap(g) in blocks || g in acked)
  }

  ghost predicate TxInv(c: Config, t: Tx, log: seq<Group>, input: seq<Byte>, acked: set<nat>) {
    && CountersOk(c, t, |log|)
    && ControllerOk(c, t)
    && ContentOk(c, t, log, input)
    && CacheOk(c, t.harqCache, log)
    && TrackedOk(t.txBlocks, |log|, acked)
  }

  lemma InitTxInv(c: Config)
    requires ConfigOk(c)
    ensures TxInv(c, InitTx(c), [], [], {})
  {
    assert forall b: Byte :: LastBefore(0, b) < 0;
  }

  // ---- flush

  ghost function FlushedGroup(c: Config, t: Tx): Group {
    Group(FillUp(c.k, t.pending), t.curM)
  }

  // A block ready to flush: between one and K well-framed shards.
  ghost predicate Flushable(c: Config, t: Tx) {
    1 <= |t.pending| <= c.k && PendingOk(c, t.pending)
  }

  lemma FlushedGroupOk(c: Config, t: Tx)
    requires ConfigOk(c) && ControllerOk(c, t) && Flushable(c, t)
    ensures GroupOk(c, FlushedGroup(c, t))
    ensures Bytes(FillUp(c.k, t.pending)) == Bytes(t.pending)
  {
    hide Contract, Bytes, Strip, Wires;
    var fill := FillUp(c.k, t.pending);
    var extra := fill[|t.pending|..];
    assert fill == t.pending + extra;
    BytesConcat(t.pending, extra);
    EmptyShards(extra);
    assert Bytes(t.pending) + [] == Bytes(t.pending);
  }

  lemma EmptyShards(ss: seq<Shard>)
    requires forall i :: 0 <= i < |ss| ==> ss[i] == [0, 0]
    ensures Bytes(ss) == []
  {
  }

  lemma EncodeOk(c: Config, t: Tx)
    requires ConfigOk(c) && ControllerOk(c, t)
    ensures ParityOf(c, t).Ok? && |ParityOf(c, t).value| == t.curM
  {
  }

  lemma PositiveK(c: Config)
    requires ConfigOk(c)
    ensures c.k >= 1
  {
    hide Contract;
  }

  lemma PayloadPositive(c: Config)
    ensures MaxPayload(c) >= 1
  {
  }

  lemma PadAllUniform(k: nat, data: seq<Shard>)
    requires k <= |data|
    ensures Uniform(PadAll(k, data), PadLength(data))
  {
    forall i | 0 <= i < k
      ensures |PadAll(k, data)[i]| == PadLength(data)
    {
      LongestBounds(data, i);
    }
  }

  // What a flush sends: exactly the K data packets and the curM parity packets of the block.
  lemma FlushOutput(c: Config, t: Tx, n: nat)
    requires ConfigOk(c) && CountersOk(c, t, n) && ControllerOk(c, t) && Flushable(c, t)
    ensures GroupOk(c, FlushedGroup(c, t))
    ensures |FlushOut(c, t)| == c.k + t.curM
    ensures forall i :: 0 <= i < c.k + t.curM ==>
      Marshal(PacketOf(c, n, FlushedGroup(c, t), i)) == Ok(FlushOut(c, t)[i])
  {
    hide Contract, Marshal, PacketOf, Wires, Encode, Wrap;
    FlushedGroupOk(c, t);
    EncodeOk(c, t);
    var parity := ParityOf(c, t).value;
    var ps := DataPackets(c, t) + ParityPackets(c, t, parity);
    forall i | 0 <= i < |ps|
      ensures ps[i] == PacketOf(c, n, FlushedGroup(c, t), i) && Marshal(ps[i]).Ok?
    {
      FlushPacket(c, t, n, parity, i);
    }
    AllMarshalled(ps);
  }

  lemma FlushPacket(c: Config, t: Tx, n: nat, parity: seq<Shard>, i: nat)
    requires ConfigOk(c) && CountersOk(c, t, n) && ControllerOk(c, t) && GroupOk(c, FlushedGroup(c, t))
    requires ParityOf(c, t) == Ok(parity) && i < c.k + |parity|
    ensures (DataPackets(c, t) + ParityPackets(c, t, parity))[i] == PacketOf(c, n, FlushedGroup(c, t), i)
    ensures Marshal(PacketOf(c, n, FlushedGroup(c, t), i)).Ok?
  {
    hide Contract, Marshal, ShardOk, PadAll;
    DataSize(PacketOf(c, n, FlushedGroup(c, t), i));
  }

  lemma {:induction false} AllMarshalled(ps: seq<Packet>)
    requires forall i :: 0 <= i < |ps| ==> Marshal(ps[i]).Ok?
    ensures |Wires(ps)| == |ps|
    ensures forall i :: 0 <= i < |ps| ==> Wires(ps)[i] == Marshal(ps[i]).value
  {
    if ps != [] {
      AllMarshalled(ps[..|ps| - 1]);
    }
  }

  lemma FlushState(c: Config, t: Tx, log: seq<Group>, acked: set<nat>)
    requires ConfigOk(c) && CountersOk(c, t, |log|) && ControllerOk(c, t) && Flushable(c, t)
    requires CacheOk(c, t.harqCache, log) && TrackedOk(t.txBlocks, |log|, acked)
    ensures var t', grp := Flush(c, t), FlushedGroup(c, t);
            && GroupOk(c, grp)
            && t'.pending == []
            && CountersOk(c, t', |log| + 1)
            && ControllerOk(c, t')
            && CacheOk(c, t'.harqCache, log + [grp])
            && TrackedOk(t'.txBlocks, |log| + 1, acked)
  {
    FlushedGroupOk(c, t);
    FlushShape(c, t, |log|);
    FlushCache(c, t, log);
    FlushTracked(t.txBlocks, |log|, t.curM, acked);
  }

  lemma FlushShape(c: Config, t: Tx, n: nat)
    requires ConfigOk(c) && CountersOk(c, t, n) && ControllerOk(c, t) && t.pending != []
    ensures var t' := Flush(c, t);
            && t'.pending == []
            && CountersOk(c, t', n + 1)
            && ControllerOk(c, t')
            && t'.harqCache == CacheAll(t.harqCache, DataPackets(c, t))
            && t'.txBlocks == Track(t.txBlocks, Wrap(n), t.curM)
  {
    hide Wrap;
    EncodeOk(c, t);
    WrapNext(n);
  }

  lemma FlushCache(c: Config, t: Tx, log: seq<Group>)
    requires CountersOk(c, t, |log|) && GroupOk(c, FlushedGroup(c, t)) && CacheOk(c, t.harqCache, log)
    ensures CacheOk(c, CacheAll(t.harqCache, DataPackets(c, t)), log + [FlushedGroup(c, t)])
  {
    var grp := FlushedGroup(c, t);
    var all := AllData(c, log);
    GroupDataSeq(c, log, grp);
    assert DataPackets(c, t) == GroupData(c, |log|, grp);
    CachePushAll(t.harqCache, all, GroupData(c, |log|, grp));
    assert (log + [grp])[..|log|] == log;
    assert AllData(c, log + [grp]) == all + GroupData(c, |log|, grp);
  }

  lemma GroupDataSeq(c: Config, log: seq<Group>, grp: Group)
    requires LogOk(c, log) && |grp.shards| == c.k
    ensures forall i :: 0 <= i < c.k ==> GroupData(c, |log|, grp)[i].seqNum == (|AllData(c, log)| + i) % 256
  {
    hide AllData, FirstSeq, Payload;
    var n := |AllData(c, log)|;
    NextFirstSeq(c, log);
    forall i | 0 <= i < c.k
      ensures GroupData(c, |log|, grp)[i].seqNum == (n + i) % 256
    {
      ModAdd(n, i);
    }
  }

  lemma NextFirstSeq(c: Config, log: seq<Group>)
    requires LogOk(c, log)
    ensures FirstSeq(c.k, |log|) == |AllData(c, log)| % 256
  {
    hide AllData, FirstSeq;
    AllDataLength(c, log);
    FirstSeqIs(c.k, |log|);
  }

  // What the cleanup deletes: blocks more than 100 and less than 60000 numbers back, as uint16 counts.
  lemma DropStaleIs(blocks: map<U16, TxBlock>, group: U16, id: U16)
    ensures id in DropStale(blocks, group) <==> id in blocks && !(100 < (group - id) % 65536 < 60000)
    ensures id in DropStale(blocks, group) ==> DropStale(blocks, group)[id] == blocks[id]
  {
    hide Wrap;
    WrapIs(group - id);
  }

  lemma FlushTracked(blocks: map<U16, TxBlock>, n: nat, m: nat, acked: set<nat>)
    requires TrackedOk(blocks, n, acked)
    ensures TrackedOk(Track(blocks, Wrap(n), m), n + 1, acked)
  {
    hide Wrap, Sub, Backward;
    var blocks' := Track(blocks, Wrap(n), m);
    BackwardExact(n + 1, n);
    forall id | id in blocks
      ensures Stale(Wrap(n), id) <==> Backward(n, id) == n - 101
      ensures id != Wrap(n) && Backward(n + 1, id) == Backward(n, id)
    {
      StaleAge(n, id);
    }
    forall g: nat | n + 1 - 101 <= g < n + 1
      ensures Wrap(g) in blocks' || g in acked
    {
      if g < n && g !in acked {
        assert Wrap(g) in blocks;
        BackwardExact(n, g);
      }
    }
  }

  // Among tracked blocks the uint16 age is the true age, so the cleanup never keeps one too long.
  lemma StaleAge(n: nat, id: U16)
    requires Backward(n, id) >= 0 && Backward(n, id) >= n - 101
    ensures Sub(Wrap(n), id) == n - Backward(n, id) <= 101
    ensures Backward(n + 1, id) == Backward(n, id)
    ensures id != Wrap(n)
  {
    hide Wrap, Sub, Backward;
    BackwardWraps(n, id);
    var b := Backward(n, id);
    WrapDifference(n, b);
    WrapSmall(n - b);
    BackwardExact(n + 1, b);
    if id == Wrap(n) {
      BackwardExact(n + 1, n);
    }
  }

  // ---- content

  lemma AppendContent(log: seq<Group>, pending: seq<Shard>, input: seq<Byte>, chunk: seq<Byte>)
    requires LogBytes(log) + Bytes(pending) == input && |chunk| < 65536
    ensures LogBytes(log) + Bytes(pending + [Frame(chunk)]) == input + chunk
  {
    hide LogBytes, Bytes, Strip, Frame;
    FrameFramed(chunk);
    BytesAppend(pending, Frame(chunk));
    assert LogBytes(log) + (Bytes(pending) + chunk) == (LogBytes(log) + Bytes(pending)) + chunk;
  }

  lemma AppendGroup(log: seq<Group>, grp: Group)
    ensures LogBytes(log + [grp]) + Bytes([]) == LogBytes(log) + Bytes(grp.shards)
  {
    assert (log + [grp])[..|log|] == log;
  }

  lemma ReadState(c: Config, t: Tx, log: seq<Group>, input: seq<Byte>, acked: set<nat>, chunk: seq<Byte>)
    requires ConfigOk(c) && TxInv(c, t, log, input, acked) && 1 <= |chunk| <= MaxPayload(c)
    ensures var t1 := Append(t, chunk);
            && Flushable(c, t1) && CountersOk(c, t1, |log|) && ControllerOk(c, t1)
            && CacheOk(c, t1.harqCache, log) && TrackedOk(t1.txBlocks, |log|, acked)
            && LogBytes(log) + Bytes(t1.pending) == input + chunk
  {
    hide Contract, CacheOk, TrackedOk, LogBytes, Bytes, Strip, Frame;
    FrameFramed(chunk);
    AppendContent(log, t.pending, input, chunk);
  }

  lemma FlushInv(c: Config, t: Tx, log: seq<Group>, input: seq<Byte>, acked: set<nat>)
    requires ConfigOk(c) && CountersOk(c, t, |log|) && ControllerOk(c, t) && Flushable(c, t)
    requires CacheOk(c, t.harqCache, log) && TrackedOk(t.txBlocks, |log|, acked)
    requires LogBytes(log) + Bytes(t.pending) == input
    ensures TxInv(c, Flush(c, t), log + [FlushedGroup(c, t)], input, acked)
  {
    FlushState(c, t, log, acked);
    FlushedGroupOk(c, t);
    AppendGroup(log, FlushedGroup(c, t));
  }

  // ---- reports

  lemma ReportInv(c: Config, t: Tx, log: seq<Group>, input: seq<Byte>, acked: set<nat>, g: nat, losses: Byte)
    requires ConfigOk(c) && TxInv(c, t, log, input, acked)
    requires g < |log| <= g + 65536
    ensures var t' := HandleLQR(c, t, Wrap(g), losses);
            t'.pending == t.pending && TxInv(c, t', log, input, if Accepts(t, Wrap(g)) then acked + {g} else acked)
  {
    hide Contract, CacheOk, LogBytes, PendingOk, TrackedOk, Wrap;
    if Accepts(t, Wrap(g)) {
      Acknowledge(t.txBlocks, |log|, acked, g);
    }
  }

  lemma Acknowledge(blocks: map<U16, TxBlock>, n: nat, acked: set<nat>, g: nat)
    requires TrackedOk(blocks, n, acked) && g < n <= g + 65536
    ensures TrackedOk(blocks - {Wrap(g)}, n, acked + {g})
  {
    hide Wrap, Backward;
    BackwardExact(n, g);
    forall h: nat | n - 101 <= h < n
      ensures Wrap(h) in blocks - {Wrap(g)} || h in acked + {g}
    {
      BackwardExact(n, h);
      assert h in acked ==> h in acked + {g};
    }
  }
}
