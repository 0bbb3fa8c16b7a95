// The sender's events keep the invariant.
module SenderSteps {
  import opened Basics
  import opened Serial
  import opened Protocol
  import opened Shards
  import opened ErasureCode
  import opened Sender
  import opened SenderProofs
  import opened Receiver
  import opened ReceiverProofs
  import opened System
  import opened Invariant

  // ---- packets on the wire

  lemma PacketOnWire(c: Config, g: nat, grp: Group, idx: nat, buf: seq<Byte>)
    requires ConfigOk(c) && GroupOk(c, grp) && idx < c.k + grp.m
    requires Marshal(PacketOf(c, g, grp, idx)) == Ok(buf)
    ensures |buf| <= MaxPayload(c) + 8
    ensures Unmarshal(ReadBuffer(buf)) == Ok(PacketOf(c, g, grp, idx))
    ensures PacketOf(c, g, grp, idx).idx == idx
  {
    hide Contract, Marshal, Unmarshal;
    var p := PacketOf(c, g, grp, idx);
    PayloadLength(c, grp, idx);
    PacketWellFormed(c, g, grp, idx);
    DataSize(p);
    RoundTrip(p);
  }

  lemma PacketWellFormed(c: Config, g: nat, grp: Group, idx: nat)
    requires ConfigOk(c) && GroupOk(c, grp) && idx < c.k + grp.m
    ensures var p := PacketOf(c, g, grp, idx);
            p.ptype == DATA && p.idx == idx && p.payload == Payload(c, grp, idx) && WellFormed(p)
  {
    hide Contract;
  }

  lemma TagGenuine(c: Config, t: Tx, log: seq<Group>)
    requires ConfigOk(c) && LogOk(c, log) && CountersOk(c, t, |log|) && ControllerOk(c, t) && Flushable(c, t)
    ensures LogOk(c, log + [FlushedGroup(c, t)])
    ensures NetOk(c, log + [FlushedGroup(c, t)], Tag(|log|, FlushOut(c, t)))
  {
    FlushOutput(c, t, |log|);
    var grp := FlushedGroup(c, t);
    forall d | d in Tag(|log|, FlushOut(c, t))
      ensures Genuine(c, log + [grp], d)
    {
      var i :| 0 <= i < |FlushOut(c, t)| && d == Datagram(|log|, FlushOut(c, t)[i]);
      PacketOnWire(c, |log|, grp, i, d.bytes);
    }
  }

  lemma NetExtends(c: Config, log: seq<Group>, grp: Group, net: set<Datagram>)
    requires LogOk(c, log) && LogOk(c, log + [grp]) && NetOk(c, log, net)
    ensures NetOk(c, log + [grp], net)
  {
    forall d | d in net
      ensures Genuine(c, log + [grp], d)
    {
      assert Genuine(c, log, d) && (log + [grp])[d.grp] == log[d.grp];
    }
  }

  lemma NetUnion(c: Config, log: seq<Group>, net: set<Datagram>, more: set<Datagram>)
    requires LogOk(c, log) && NetOk(c, log, net) && NetOk(c, log, more)
    ensures NetOk(c, log, net + more)
  {
    hide Genuine;
  }

  // A request is answered with the packet the cache abbreviates, of a block among the last 257.
  lemma NakFetches(c: Config, t: Tx, log: seq<Group>, b: Byte) returns (g: nat, i: nat)
    requires c.k >= 1 && CacheOk(c, t.harqCache, log) && b in t.harqCache
    ensures g < |log| <= g + 257 && i < c.k && LogOk(c, log) && |log[g].shards| == c.k
    ensures t.harqCache[b] == PacketOf(c, g, log[g], i)
    ensures g * c.k + i == LastBefore(|log| * c.k, b)
  {
    hide PacketOf, FirstSeq;
    AllDataLength(c, log);
    var n := LastBefore(|AllData(c, log)|, b);
    assert n >= 0 && t.harqCache[b] == AllData(c, log)[n];
    g, i := Position(n, c.k, |log|);
    AllDataAt(c, log, g, i);
  }

  // Data packet n is shard i of block g.
  lemma Position(n: nat, k: nat, s: nat) returns (g: nat, i: nat)
    requires k >= 1 && n < s * k <= n + 256
    ensures g < s <= g + 257 && i < k && n == g * k + i
  {
    g, i := n / k, n % k;
    assert n == g * k + i;
    assert s > g by {
      if s <= g { MulMono(s, g, k); }
    }
    assert s <= g + 257 by {
      if s > g + 257 { MulMono(g + 258, s, k); }
    }
  }

  // ---- the receiver does not notice that a block was sent

  lemma BlockExtends(c: Config, log: seq<Group>, grp: Group, hasRecv: bool, w: nat, x: nat, id: U16, b: RxBlock,
    f: set<nat>)
    requires ConfigOk(c) && LogOk(c, log) && GroupOk(c, grp) && BlockInv(c, log, hasRecv, w, x, id, b, f)
    ensures LogOk(c, log + [grp]) && BlockInv(c, log + [grp], hasRecv, w, x, id, b, f)
  {
    var g := Forward(w, id);
    if g < |log| {
      assert GroupAt(c, log + [grp], g) == GroupAt(c, log, g);
    } else {
      forall i | 0 <= i < |b.packets|
        ensures b.packets[i] == SlotValue(c, GroupAt(c, log + [grp], g), b.decoded, f, i)
      {
        assert b.packets[i] == SlotValue(c, GroupAt(c, log, g), b.decoded, f, i);
      }
    }
  }

  lemma RcvExtends(c: Config, log: seq<Group>, grp: Group, v: Rcv)
    requires ConfigOk(c) && LogOk(c, log) && GroupOk(c, grp) && RcvOk(c, log, v)
    ensures LogOk(c, log + [grp]) && RcvOk(c, log + [grp], v)
  {
    hide BlockInv, FilledOk, ReportsOk, OutputOk, WakeOk, ConfigOk;
    var log' := log + [grp];
    forall id | id in v.rx.rxBlocks
      ensures BlockInv(c, log', v.rx.hasRecv, v.w, v.x, id, v.rx.rxBlocks[id], At(v.filled, Forward(v.w, id)))
    {
      BlockExtends(c, log, grp, v.rx.hasRecv, v.w, v.x, id, v.rx.rxBlocks[id], At(v.filled, Forward(v.w, id)));
    }
    OutputExtends(c, log, grp, v.rx, v.pc, v.w, v.output);
  }

  lemma OutputExtends(c: Config, log: seq<Group>, grp: Group, r: Rx, pc: WriterPC, w: nat, output: seq<Byte>)
    requires LogOk(c, log) && GroupOk(c, grp) && OutputOk(c, log, pc, w, output) && BusyOk(c, |log|, r, pc, w)
    ensures LogOk(c, log + [grp]) && OutputOk(c, log + [grp], pc, w, output)
  {
    var log' := log + [grp];
    assert log'[..w] == log[..w];
    if w < |log| {
      assert log'[..w + 1] == log[..w + 1];
      assert GroupAt(c, log', w) == GroupAt(c, log, w);
    } else {
      assert PartOf(c, GroupAt(c, log', w).shards, pc) == PartOf(c, GroupAt(c, log, w).shards, pc) == [];
    }
  }

  // ---- flushing

  lemma FlushStep(c: Config, s: Sys, t: Tx, input: seq<Byte>, pc: ReaderPC)
    requires ConfigOk(c) && Inv(c, s) && Flushable(c, t)
    requires CountersOk(c, t, |s.snd.log|) && ControllerOk(c, t) && CacheOk(c, t.harqCache, s.snd.log)
    requires TrackedOk(t.txBlocks, |s.snd.log|, s.snd.acked) && LogBytes(s.snd.log) + Bytes(t.pending) == input
    requires !s.snd.pc.Closed? && !s.snd.pc.Flushed? && !pc.Closed?
    ensures Inv(c, DoFlush(c, s, t, input, pc))
  {
    hide TxInv, NetOk, RcvOk, ConfigOk, FlushedGroup, CountersOk, ControllerOk, CacheOk, TrackedOk, FlushOut;
    LogKnown(c, s.snd);
    var log, grp := s.snd.log, FlushedGroup(c, t);
    FlushState(c, t, log, s.snd.acked);
    FlushInv(c, t, log, input, s.snd.acked);
    TagGenuine(c, t, log);
    NetExtends(c, log, grp, s.net);
    RcvExtends(c, log, grp, s.rcv);
    NetUnion(c, log + [grp], s.net, Tag(|log|, FlushOut(c, t)));
  }

  // A flush with nothing pending changes nothing but the program point.
  lemma IdleFlush(c: Config, s: Sys, pc: ReaderPC)
    requires ConfigOk(c) && Inv(c, s) && s.snd.tx.pending == []
    requires pc == s.snd.pc || (s.snd.pc == Ended && pc == Flushed)
    ensures Inv(c, DoFlush(c, s, s.snd.tx, s.snd.input, pc))
  {
    hide TxInv, NetOk, RcvOk, LqrNetOk, ConfigOk;
    assert s.net + Tag(|s.snd.log|, []) == s.net;
  }

  lemma AnyFlush(c: Config, s: Sys, pc: ReaderPC)
    requires ConfigOk(c) && Inv(c, s)
    requires pc == s.snd.pc || (s.snd.pc == Ended && pc == Flushed)
    ensures Inv(c, DoFlush(c, s, s.snd.tx, s.snd.input, pc))
  {
    hide NetOk, RcvOk, LqrNetOk, ConfigOk, CountersOk, ControllerOk, CacheOk, TrackedOk, DoFlush;
    if s.snd.tx.pending == [] {
      IdleFlush(c, s, pc);
    } else {
      FlushStep(c, s, s.snd.tx, s.snd.input, pc);
    }
  }

  lemma ReadStep(c: Config, s: Sys, chunk: seq<Byte>)
    requires ConfigOk(c) && Inv(c, s) && Enabled(c, s, Read(chunk))
    ensures Inv(c, DoRead(c, s, chunk))
  {
    hide NetOk, RcvOk, LqrNetOk, Contract, CountersOk, CacheOk, TrackedOk, DoFlush, Frame, Bytes, LogBytes;
    var t := Append(s.snd.tx, chunk);
    ReadState(c, s.snd.tx, s.snd.log, s.snd.input, s.snd.acked, chunk);
    if |t.pending| >= c.k {
      ReadFlushes(c, s, chunk);
      FlushStep(c, s, t, s.snd.input + chunk, s.snd.pc);
    } else {
      assert TxInv(c, t, s.snd.log, s.snd.input + chunk, s.snd.acked);
      assert s.net + {} == s.net;
    }
  }

  // A chunk that fills its block is a flush of the block.
  lemma ReadFlushes(c: Config, s: Sys, chunk: seq<Byte>)
    requires |Append(s.snd.tx, chunk).pending| >= c.k
    ensures DoRead(c, s, chunk) == DoFlush(c, s, Append(s.snd.tx, chunk), s.snd.input + chunk, s.snd.pc)
  {
    hide Flush, FlushOut, Tag, LogAfter;
  }

  // ---- requests and reports

  lemma NakDatagram(c: Config, t: Tx, log: seq<Group>, b: Byte)
    requires ConfigOk(c) && CacheOk(c, t.harqCache, log) && HandleNak(t, b).Some?
    ensures var d := Datagram(Max(0, Backward(|log|, t.harqCache[b].groupID)), HandleNak(t, b).value);
            Genuine(c, log, d)
  {
    hide Contract, CacheIs, Marshal, Unmarshal, Payload, Backward;
    var g, i := NakFetches(c, t, log, b);
    BackwardExact(|log|, g);
    PacketOnWire(c, g, log[g], i, HandleNak(t, b).value);
  }

  lemma NakStep(c: Config, s: Sys, b: Byte)
    requires ConfigOk(c) && Inv(c, s)
    ensures Inv(c, DoNak(s, b))
  {
    hide RcvOk, LqrNetOk, ConfigOk, Genuine, HandleNak, Backward, CountersOk, ControllerOk, CacheOk, TrackedOk;
    if HandleNak(s.snd.tx, b).Some? {
      NakDatagram(c, s.snd.tx, s.snd.log, b);
    }
  }

  // Block 0 can be reported on before it was sent; such a report is not accepted.
  lemma NothingTracked(c: Config, snd: Snd, id: U16)
    requires SndOk(c, snd) && |snd.log| == 0
    ensures id !in snd.tx.txBlocks
  {
    BackwardWraps(0, id);
  }

  lemma LqrGroup(c: Config, s: Sys, d: Datagram)
    requires Inv(c, s) && d in s.lqrNet
    ensures d.grp in s.rcv.reports && (d.grp < |s.snd.log| || d.grp == 0)
    ensures Unmarshal(d.bytes).Ok? && Unmarshal(d.bytes).value.ptype == LQR
    ensures Unmarshal(d.bytes).value.groupID == Wrap(d.grp)
  {
    hide SndOk, NetOk, BlocksOk, FilledOk, OutputOk, WakeOk, BusyOk, Unmarshal, SndCloseOk, RcvCloseOk;
  }

  lemma LqrStep(c: Config, s: Sys, d: Datagram)
    requires ConfigOk(c) && Inv(c, s) && Enabled(c, s, LqrArrives(d))
    ensures Inv(c, DoLqr(c, s, d))
  {
    hide TxInv, NetOk, RcvOk, LqrNetOk, ConfigOk, Unmarshal, HandleLQR, Accepts;
    LqrGroup(c, s, d);
    var p, log := Unmarshal(d.bytes).value, s.snd.log;
    if d.grp < |log| {
      ReportInv(c, s.snd.tx, log, s.snd.input, s.snd.acked, d.grp, p.losses);
    } else {
      Unaccepted(c, s, d);
    }
  }

  lemma Unaccepted(c: Config, s: Sys, d: Datagram)
    requires SndOk(c, s.snd) && |s.snd.log| == 0
    ensures DoLqr(c, s, d) == s
  {
    hide TxInv;
    if Unmarshal(d.bytes).Ok? {
      NothingTracked(c, s.snd, Unmarshal(d.bytes).value.groupID);
    }
  }
}
