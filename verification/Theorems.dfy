// What the transport promises, of every run: any interleaving of reads, timers, deliveries,
// losses, repetitions and reorderings that respects the window hypothesis.
module Theorems {
  import opened Basics
  import opened Serial
  import opened Protocol
  import opened Shards
  import opened ErasureCode
  import opened Sender
  import opened SenderProofs
  import opened Receiver
  import opened System
  import opened Invariant
  import opened Steps

  // ---- integrity

  lemma {:induction false} LogBytesPrefix(log: seq<Group>, w: nat)
    requires w <= |log|
    ensures LogBytes(log[..w]) <= LogBytes(log)
  {
    if w == |log| {
      assert log[..w] == log;
    } else {
      LogBytesPrefix(log[..|log| - 1], w);
      assert log[..|log| - 1][..w] == log[..w];
    }
  }

  lemma PartPrefix(log: seq<Group>, w: nat, n: nat)
    requires w < |log| && n <= |log[w].shards|
    ensures LogBytes(log[..w]) + Bytes(log[w].shards[..n]) <= LogBytes(log[..w + 1])
  {
    hide Strip;
    var shards := log[w].shards;
    assert shards == shards[..n] + shards[n..];
    BytesConcat(shards[..n], shards[n..]);
    assert log[..w + 1][..w] == log[..w];
    assert LogBytes(log[..w + 1]) == (LogBytes(log[..w]) + Bytes(shards[..n])) + Bytes(shards[n..]);
  }

  lemma OutputOfBlocks(c: Config, log: seq<Group>, pc: WriterPC, w: nat, output: seq<Byte>)
    requires LogOk(c, log) && OutputOk(c, log, pc, w, output) && (Busy(pc) ==> w < |log|)
    ensures output <= LogBytes(log)
    ensures !Busy(pc) && !Broken(pc) ==> output == LogBytes(log[..w])
  {
    hide LogBytes, Strip;
    if Broken(pc) {
      LogBytesPrefix(log, w + 1);
    } else if Busy(pc) {
      var n := if pc.Writing? then Min(pc.next, c.k) else c.k;
      PartPrefix(log, w, n);
      assert PartOf(c, log[w].shards, pc) == log[w].shards[..n];
      LogBytesPrefix(log, w + 1);
    } else {
      LogBytesPrefix(log, w);
    }
  }

  // End-to-end integrity: the bytes written to TCP are a prefix of the bytes read from TCP;
  // between blocks they are exactly the bytes of the blocks 0..w-1, w being the unbounded
  // count behind the 16-bit nextWriteGrp.
  lemma Integrity(c: Config, es: seq<Event>, s: Sys)
    requires ConfigOk(c) && Reaches(c, es, s)
    ensures s.rcv.output <= s.snd.input
    ensures s.rcv.w <= |s.snd.log| && s.rcv.rx.nextWriteGrp == Wrap(s.rcv.w)
    ensures !Busy(s.rcv.pc) && !Broken(s.rcv.pc) ==> s.rcv.output == LogBytes(s.snd.log[..s.rcv.w])
    ensures LogBytes(s.snd.log) + Bytes(s.snd.tx.pending) == s.snd.input
  {
    hide ConfigOk, Reaches, NetOk, LqrNetOk, BlocksOk, FilledOk, ReportsOk, WakeOk, OutputOk, CacheOk, TrackedOk,
      LogBytes, Wrap, SndCloseOk, RcvCloseOk, CountersOk;
    ReachableInv(c, es, s);
    OutputOfBlocks(c, s.snd.log, s.rcv.pc, s.rcv.w, s.rcv.output);
  }

  // ---- closing

  lemma BytesNonempty(ss: seq<Shard>)
    requires ss != [] && Framed(ss[0]) && |ss[0]| > 2
    ensures Bytes(ss) != []
  {
    if |ss| > 1 {
      BytesNonempty(ss[..|ss| - 1]);
    }
  }

  lemma LogNonempty(c: Config, log: seq<Group>)
    requires c.k >= 1 && LogOk(c, log) && |log| == 1
    ensures LogBytes(log) != []
  {
    hide Bytes;
    assert ShardOk(c, log[0].shards[0]);
    BytesNonempty(log[0].shards);
    assert LogBytes(log) == LogBytes(log[..0]) + Bytes(log[0].shards);
  }

  // No truncation: after a CLOSE sent because every tracked block was acknowledged, a writer that
  // left through the CLOSE branch has written every byte the sender read, with one exception.
  // The exception is a stream of a single block of which nothing had arrived: the report made for
  // the block expected at the start acknowledges it all the same.
  lemma NoTruncation(c: Config, es: seq<Event>, s: Sys)
    requires ConfigOk(c) && Reaches(c, es, s) && s.snd.pc == Closed(true)
    requires LeftFor(s.rcv.pc, AllWritten) || LeftFor(s.rcv.pc, NothingReceived)
    ensures s.rcv.output == s.snd.input <==> !(LeftFor(s.rcv.pc, NothingReceived) && |s.snd.log| == 1)
    ensures |s.snd.log| >= 2 ==> s.rcv.output == s.snd.input
  {
    hide Reaches, NetOk, LqrNetOk, BlocksOk, FilledOk, ReportsOk, WakeOk, OutputOk, CacheOk, TrackedOk, LogBytes,
      Wrap, IndexOk, CountersOk;
    ReachableInv(c, es, s);
    var log, w := s.snd.log, s.rcv.w;
    OutputOfBlocks(c, log, s.rcv.pc, w, s.rcv.output);
    assert Bytes([]) == [] && s.snd.input == LogBytes(log);
    if w == |log| {
      assert log[..w] == log;
    } else {
      LogNonempty(c, log);
      assert log[..0] == [];
      EmptyLog(c);
    }
  }

  lemma EmptyLog(c: Config)
    ensures LogBytes([]) == []
  {
  }

  // ---- the writer's sleep

  // No lost wakeup: while the writer sleeps there is nothing for it to do, or the broadcast that
  // will wake it has yet to happen.
  lemma NoLostWakeup(c: Config, es: seq<Event>, s: Sys)
    requires ConfigOk(c) && Reaches(c, es, s) && s.rcv.pc == Parked
    ensures !NextReady(s.rcv.rx)
    ensures s.rcv.closeRecv && CloseExit(s.rcv.rx) ==> s.rcv.closePending > 0
    ensures s.rcv.cancelled ==> s.rcv.cancelPending > 0
  {
    hide ConfigOk, Reaches, NetOk, LqrNetOk, BlocksOk, FilledOk, ReportsOk, OutputOk, BusyOk, IndexOk, TxInv;
    ReachableInv(c, es, s);
  }

  // ---- loss reports

  // Every written block has been reported on exactly once, whoever got there first, the timer or
  // the writer, and the report was sent; no block is reported on twice.
  lemma OneReport(c: Config, es: seq<Event>, s: Sys, g: nat)
    requires ConfigOk(c) && Reaches(c, es, s)
    ensures g < s.rcv.w ==> exists i :: 0 <= i < |s.rcv.reports| && s.rcv.reports[i] == g
    ensures g < s.rcv.w ==> exists d :: d in s.lqrNet && d.grp == g && IsReport(c.stream, d)
    ensures forall i, j :: 0 <= i < j < |s.rcv.reports| ==> s.rcv.reports[i] != s.rcv.reports[j]
    ensures forall d :: d in s.lqrNet ==> d.grp in s.rcv.reports
    ensures forall d, d' :: d in s.lqrNet && d' in s.lqrNet && d.grp == d'.grp ==> d == d'
  {
    hide ConfigOk, Reaches, NetOk, IsReport, BlocksOk, FilledOk, OutputOk, BusyOk, IndexOk, TxInv, WakeOk;
    ReachableInv(c, es, s);
    if g < s.rcv.w {
      assert g in s.rcv.reports;
      assert Announced(s.lqrNet, g);
    }
  }

  // ---- the sender's bookkeeping

  // Parity stays within its configured maximum and the run of clean reports below five.
  lemma ParityBounded(c: Config, es: seq<Event>, s: Sys)
    requires ConfigOk(c) && Reaches(c, es, s)
    ensures 0 <= s.snd.tx.curM <= c.m && 0 <= s.snd.tx.consecutiveOk < 5
  {
    hide ConfigOk, Reaches, NetOk, LqrNetOk, RcvOk, ContentOk, CacheOk, TrackedOk, CountersOk, SndCloseOk,
      RcvCloseOk;
    ReachableInv(c, es, s);
  }

  lemma Tracked(c: Config, es: seq<Event>, s: Sys)
    requires ConfigOk(c) && Reaches(c, es, s)
    ensures TrackedOk(s.snd.tx.txBlocks, |s.snd.log|, s.snd.acked)
  {
    hide ConfigOk, Reaches, NetOk, LqrNetOk, RcvOk, ContentOk, CacheOk, TrackedOk, CountersOk, SndCloseOk,
      RcvCloseOk;
    ReachableInv(c, es, s);
  }

  // The 16-bit number of one of the last `span` blocks.
  ghost predicate OfLatest(id: U16, n: nat, span: nat) {
    exists g: nat :: n - span <= g < n && id == Wrap(g)
  }

  // Outstanding blocks: only the latest 101 block numbers are ever tracked, also across wraparound.
  lemma OutstandingWindow(c: Config, es: seq<Event>, s: Sys)
    requires ConfigOk(c) && Reaches(c, es, s)
    ensures forall id :: id in s.snd.tx.txBlocks ==> OfLatest(id, |s.snd.log|, 101)
    ensures |s.snd.tx.txBlocks| <= 101
  {
    hide Reaches, ConfigOk, Wrap, Backward;
    Tracked(c, es, s);
    var n, blocks := |s.snd.log|, s.snd.tx.txBlocks;
    forall id | id in blocks
      ensures OfLatest(id, n, 101)
    {
      BackwardWraps(n, id);
      var g: nat := Backward(n, id);
      assert n - 101 <= g < n && id == Wrap(g);
    }
    FewNames(blocks.Keys, n, 101);
    assert |blocks| == |blocks.Keys|;
  }

  lemma {:induction false} FewNames(ids: set<U16>, n: nat, span: nat)
    requires forall id :: id in ids ==> OfLatest(id, n, span)
    ensures |ids| <= span
    decreases span
  {
    hide Wrap;
    if span > 0 && n > 0 {
      var last := Wrap(n - 1);
      var rest := ids - {last};
      forall id | id in rest
        ensures OfLatest(id, n - 1, span - 1)
      {
        var g: nat :| n - span <= g < n && id == Wrap(g);
        assert n - 1 - (span - 1) <= g < n - 1 && id == Wrap(g);
      }
      FewNames(rest, n - 1, span - 1);
      assert ids <= rest + {last};
      assert |ids| <= |rest + {last}|;
    } else {
      assert ids == {} by {
        if id :| id in ids {
          assert OfLatest(id, n, span);
        }
      }
    }
  }

  // No datagram ever exceeds the link: with IPv4 and UDP headers it fits LinkMTU, and without a
  // usable LinkMTU it keeps to the 512-byte fallback.
  lemma MtuBound(c: Config, es: seq<Event>, s: Sys, d: Datagram)
    requires ConfigOk(c) && Reaches(c, es, s) && d in s.net
    ensures c.mtu > 36 ==> |d.bytes| + 28 <= c.mtu
    ensures c.mtu <= 36 ==> |d.bytes| <= 520
    ensures |d.bytes| <= 2048
  {
    hide Contract, Reaches, LqrNetOk, RcvOk, CacheOk, TrackedOk, CountersOk, LogBytes, Unmarshal, PacketOf,
      SndCloseOk, RcvCloseOk;
    ReachableInv(c, es, s);
    assert Genuine(c, s.snd.log, d);
  }

  // Every datagram in flight is, byte for byte, a packet of a block that was flushed.
  lemma NetworkGenuine(c: Config, es: seq<Event>, s: Sys, d: Datagram)
    requires ConfigOk(c) && Reaches(c, es, s) && d in s.net
    ensures LogOk(c, s.snd.log) && d.grp < |s.snd.log|
    ensures exists i: nat ::
      i < c.k + s.snd.log[d.grp].m && Marshal(PacketOf(c, d.grp, s.snd.log[d.grp], i)) == Ok(d.bytes)
  {
    hide ConfigOk, Reaches, LqrNetOk, RcvOk, CacheOk, TrackedOk, CountersOk, LogBytes, Unmarshal, Marshal, PacketOf,
      SndCloseOk, RcvCloseOk;
    ReachableInv(c, es, s);
    assert Genuine(c, s.snd.log, d);
    var p := Unmarshal(ReadBuffer(d.bytes)).value;
    assert Marshal(PacketOf(c, d.grp, s.snd.log[d.grp], p.idx)) == Ok(d.bytes);
  }

  // Every datagram in flight, byte by byte: type DATA and the stream; the sequence number of a data packet,
  // zero for parity; the block number modulo 65536; the index, and whether it is parity, which it is from
  // index K on; and the framed chunk, or the parity shard of the padded block.
  lemma OnTheWire(c: Config, es: seq<Event>, s: Sys, d: Datagram) returns (i: nat)
    requires ConfigOk(c) && Reaches(c, es, s) && d in s.net
    ensures LogOk(c, s.snd.log) && d.grp < |s.snd.log| && i < c.k + s.snd.log[d.grp].m && |d.bytes| >= 6
    ensures d.bytes[0] == 48 + c.stream as int / 256 && d.bytes[1] == c.stream as int % 256
    ensures d.bytes[2] == if i < c.k then (d.grp * c.k + i) % 256 else 0
    ensures 256 * d.bytes[3] as int + d.bytes[4] as int == d.grp % 65536
    ensures d.bytes[5] == 8 * i + if i < c.k then 1 else 2
    ensures var shards := s.snd.log[d.grp].shards;
            d.bytes[6..] == if i < c.k then shards[i] else c.code.parity(c.k, i - c.k, PadAll(c.k, shards))
  {
    hide ConfigOk, Reaches, Marshal, Unmarshal, LogOk, PacketOf, PadAll;
    i := IsPacketOf(c, es, s, d);
    var p := PacketOf(c, d.grp, s.snd.log[d.grp], i);
    WireFormat(p, d.bytes);
    PacketIs(c, d.grp, s.snd.log[d.grp], i);
    WrapIs(d.grp);
    SmallIndex(c, s.snd.log[d.grp], i);
  }

  lemma IsPacketOf(c: Config, es: seq<Event>, s: Sys, d: Datagram) returns (i: nat)
    requires ConfigOk(c) && Reaches(c, es, s) && d in s.net
    ensures LogOk(c, s.snd.log) && d.grp < |s.snd.log| && GroupOk(c, s.snd.log[d.grp])
    ensures i < c.k + s.snd.log[d.grp].m && Marshal(PacketOf(c, d.grp, s.snd.log[d.grp], i)) == Ok(d.bytes)
  {
    hide ConfigOk, Reaches, Marshal, Unmarshal, LqrNetOk, RcvOk, CacheOk, TrackedOk, CountersOk, LogBytes, SndCloseOk,
      RcvCloseOk, PacketOf, ShardOk;
    ReachableInv(c, es, s);
    assert Genuine(c, s.snd.log, d);
    i := Unmarshal(ReadBuffer(d.bytes)).value.idx as int;
  }

  lemma SmallIndex(c: Config, grp: Group, i: nat)
    requires ConfigOk(c) && GroupOk(c, grp) && i < c.k + grp.m
    ensures i % 32 == i
  {
    hide Contract, ShardOk;
  }

  lemma PacketIs(c: Config, g: nat, grp: Group, i: nat)
    requires ConfigOk(c) && GroupOk(c, grp) && i < c.k + grp.m
    ensures var p := PacketOf(c, g, grp, i);
            && p.ptype == 3 && p.streamID == c.stream && p.groupID == Wrap(g) && p.idx == i
            && (p.isParity <==> i >= c.k)
            && p.seqNum == (if i < c.k then (g * c.k + i) % 256 else 0)
            && p.payload == (if i < c.k then grp.shards[i] else c.code.parity(c.k, i - c.k, PadAll(c.k, grp.shards)))
  {
    hide Contract, Wrap, FirstSeq;
    FirstSeqIs(c.k, g);
    ModAdd(g * c.k, i);
  }

  // Every report in flight, byte by byte: type LQR and the stream, the block number modulo 65536, the loss
  // count, a zero.
  lemma ReportOnTheWire(c: Config, es: seq<Event>, s: Sys, d: Datagram)
    requires ConfigOk(c) && Reaches(c, es, s) && d in s.lqrNet
    ensures |d.bytes| == 6 && d.bytes[5] == 0
    ensures d.bytes[0] == 112 + c.stream as int / 256 && d.bytes[1] == c.stream as int % 256
    ensures 256 * d.bytes[2] as int + d.bytes[3] as int == d.grp % 65536
  {
    hide ConfigOk, Reaches, Marshal, Unmarshal, NetOk, RcvOk, TxInv, SndCloseOk, RcvCloseOk, Wrap;
    ReachableInv(c, es, s);
    assert IsReport(c.stream, d);
    WireFormat(Unmarshal(d.bytes).value, d.bytes);
    WrapIs(d.grp);
  }
}
