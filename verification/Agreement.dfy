// The session's methods and the state machine speak of the same things: reading, requests, write-out.
module Agreement {
  import opened Basics
  import opened Serial
  import opened Protocol
  import opened Shards
  import opened ErasureCode
  import opened Sender
  import opened SenderProofs
  import opened Receiver
  import opened ReceiverProofs
  import opened System
  import opened Retransmission
  import opened Shaping
  import opened Outgoing
  import opened History

  // The packets that calls on the shaper hand over, in order.
  function Handed(ops: seq<Op>): seq<Wire> {
    if ops == [] then []
    else
      var before := Handed(ops[..|ops| - 1]);
      match ops[|ops| - 1]
      case Enqueue(p) => before + [p]
      case EnqueueMany(ps) => before + ps
      case UpdateParams(_, _) => before
      case Stop => before
  }

  lemma HandedOne(op: Op)
    ensures Handed([]) == []
    ensures op.Enqueue? ==> Handed([op]) == [op.packet]
    ensures op.EnqueueMany? ==> Handed([op]) == op.packets
  {
    assert [op][..0] == [];
    if op.EnqueueMany? {
      assert [] + op.packets == op.packets;
    }
  }

  // ---- reading

  // A read in the state machine is the read of the session: the same sending state, and on the wire the
  // packets its calls hand to the shaper.
  lemma ReadAgrees(c: Config, s: Sys, chunk: seq<Byte>)
    ensures DoRead(c, s, chunk).snd.tx == Sender.Read(c, s.snd.tx, chunk)
    ensures DoRead(c, s, chunk).net == s.net + Tag(|s.snd.log|, Handed(ReadCalls(c, s.snd.tx, chunk)))
  {
    hide Flush, Tag, LogAfter, Wires, Append, ParityOf;
    var t := Append(s.snd.tx, chunk);
    HandedOne(EnqueueMany(FlushOut(c, t)));
    EmptyTag(|s.snd.log|);
  }

  lemma FlushAgrees(c: Config, s: Sys, pc: ReaderPC)
    ensures var s' := DoFlush(c, s, s.snd.tx, s.snd.input, pc);
            && s'.snd.tx == Flush(c, s.snd.tx)
            && s'.net == s.net + Tag(|s.snd.log|, Handed(FlushCalls(c, s.snd.tx)))
  {
    hide Flush, Tag, LogAfter, Wires, ParityOf;
    HandedOne(EnqueueMany(FlushOut(c, s.snd.tx)));
    EmptyTag(|s.snd.log|);
  }

  // A read keeps every byte: what is in the blocks flushed so far and pending is the input, chunk included,
  // whether the chunk fills a block or not.
  lemma ReadKeepsContent(c: Config, t: Tx, log: seq<Group>, input: seq<Byte>, acked: set<nat>, chunk: seq<Byte>)
    requires ConfigOk(c) && TxInv(c, t, log, input, acked) && 1 <= |chunk| <= MaxPayload(c)
    ensures var t1 := Append(t, chunk);
            var log' := if |t1.pending| < c.k then log else log + [FlushedGroup(c, t1)];
            && TxInv(c, Sender.Read(c, t, chunk), log', input + chunk, acked)
            && LogBytes(log') + Bytes(Sender.Read(c, t, chunk).pending) == input + chunk
            && |log'| == |log| + (if |t.pending| + 1 < c.k then 0 else 1)
            && |Sender.Read(c, t, chunk).pending| == (if |t.pending| + 1 < c.k then |t.pending| + 1 else 0)
  {
    hide ConfigOk, CountersOk, CacheOk, TrackedOk, LogBytes, Bytes, Flush, Frame, FlushedGroup;
    ReadState(c, t, log, input, acked, chunk);
    var t1 := Append(t, chunk);
    if |t1.pending| >= c.k {
      FlushInv(c, t1, log, input + chunk, acked);
      FlushShape(c, t1, |log|);
    }
  }

  // ---- requests

  // A request puts on the wire what HandleNak hands to the shaper: the cached packet, or nothing.
  lemma NakAgrees(s: Sys, seqNum: Byte)
    ensures var cache, handed := s.snd.tx.harqCache, Handed(NakCalls(s.snd.tx, seqNum));
            if seqNum in cache && Marshal(cache[seqNum]).Ok?
            then
              && handed == [Marshal(cache[seqNum]).value]
              && DoNak(s, seqNum)
                 == s.(net := s.net + Tag(Max(0, Backward(|s.snd.log|, cache[seqNum].groupID)), handed))
            else handed == [] && DoNak(s, seqNum) == s
  {
    hide Backward, Marshal, Tag;
    var answer := HandleNak(s.snd.tx, seqNum);
    HandedOne(if answer.Some? then Op.Enqueue(answer.value) else Stop);
    if answer.Some? {
      OneTag(Max(0, Backward(|s.snd.log|, s.snd.tx.harqCache[seqNum].groupID)), answer.value);
    }
  }

  lemma OneTag(g: nat, p: Wire)
    ensures Tag(g, [p]) == {Datagram(g, p)}
  {
    assert [p][0] == p;
  }

  // ---- write-out

  // What the session writes for a decoded block is, shard by shard and in order, what the sender framed.
  lemma PayloadsDeliver(c: Config, grp: Group, b: RxBlock, filled: set<nat>)
    requires ConfigOk(c) && GroupOk(c, grp) && BlockOk(c, grp, b, filled) && b.decoded
    ensures b.k == c.k <= |b.packets|
    ensures forall i :: 0 <= i < c.k ==> Strip(Payloads(b)[i]) == Strip(grp.shards[i])
    ensures Bytes(Payloads(b)) == Bytes(grp.shards)
  {
    hide Contract, Strip, SlotsOk, ShardOk;
    forall i | 0 <= i < c.k
      ensures Strip(Payloads(b)[i]) == Strip(grp.shards[i])
    {
      SlotDelivers(c, grp, b, filled, i);
    }
    SameBytes(Payloads(b), grp.shards);
  }

  lemma {:induction false} SameBytes(ss: seq<Shard>, tt: seq<Shard>)
    requires |ss| == |tt| && forall i :: 0 <= i < |ss| ==> Strip(ss[i]) == Strip(tt[i])
    ensures Bytes(ss) == Bytes(tt)
  {
    hide Strip;
    if ss != [] {
      SameBytes(ss[..|ss| - 1], tt[..|tt| - 1]);
    }
  }

  // And it is what the state machine's writer writes, slot after slot.
  lemma SlotsAgree(r: Rx, i: nat)
    requires r.nextWriteGrp in r.rxBlocks
    requires var b := r.rxBlocks[r.nextWriteGrp]; i < b.k <= |b.packets|
    ensures SlotBytes(NextSlot(r, i)) == Strip(Payloads(r.rxBlocks[r.nextWriteGrp])[i])
  {
  }

  // ---- the sending side of a run is a history

  lemma {:induction false} HandedBoth(xs: seq<Op>, ys: seq<Op>)
    ensures Handed(xs + ys) == Handed(xs) + Handed(ys)
  {
    if ys == [] {
      assert xs + ys == xs;
    } else {
      HandedBoth(xs, ys[..|ys| - 1]);
      assert (xs + ys)[..|xs + ys| - 1] == xs + ys[..|ys| - 1];
    }
  }

  // The network holds the packets handed over, and no others.
  ghost predicate HoldsExactly(net: set<Datagram>, ps: seq<Wire>) {
    && (forall d :: d in net ==> d.bytes in ps)
    && (forall p :: p in ps ==> OnItsWay(net, p))
  }

  ghost predicate OnItsWay(net: set<Datagram>, p: Wire) {
    exists d :: d in net && d.bytes == p
  }

  lemma HoldsMore(net: set<Datagram>, ps: seq<Wire>, g: nat, more: seq<Wire>)
    requires HoldsExactly(net, ps)
    ensures HoldsExactly(net + Tag(g, more), ps + more)
  {
    var net' := net + Tag(g, more);
    forall p | p in ps + more
      ensures OnItsWay(net', p)
    {
      if p in ps {
        var d :| d in net && d.bytes == p;
        assert d in net';
      } else {
        var i :| 0 <= i < |more| && more[i] == p;
        assert Datagram(g, more[i]) in net';
      }
    }
  }

  // The history stands behind the sending state and the network.
  ghost predicate Behind(c: Config, h: seq<Act>, s: Sys) {
    After(c, h) == Desk(s.snd.tx, []) && AllPossible(c, h) && HoldsExactly(s.net, Handed(Calls(c, h)))
  }

  lemma ActBehind(c: Config, h: seq<Act>, s: Sys, a: Act, t: Sys, g: nat)
    requires Behind(c, h, s) && Possible(c, a) && Next(c, Desk(s.snd.tx, []), a) == Desk(t.snd.tx, [])
    requires t.net == s.net + Tag(g, Handed(Call(c, Desk(s.snd.tx, []), a)))
    ensures Behind(c, h + [a], t)
  {
    hide Next, Call, Possible, HoldsExactly, Tag, After, Calls;
    var ops := Call(c, Desk(s.snd.tx, []), a);
    OneMoreAct(c, h, a);
    HandedBoth(Calls(c, h), ops);
    HoldsMore(s.net, Handed(Calls(c, h)), g, Handed(ops));
  }

  lemma NakBehind(c: Config, h: seq<Act>, s: Sys, seqNum: Byte)
    requires Behind(c, h, s)
    ensures Behind(c, h + [Request(seqNum)] + [Resend(0)], DoNak(s, seqNum))
  {
    hide Marshal, HoldsExactly, Tag, After, Calls, HandleNak, Backward, DoNak;
    RequestAnswered(c, h, seqNum);
    OneMoreAct(c, h, Request(seqNum));
    OneMoreAct(c, h + [Request(seqNum)], Resend(0));
    NakAgrees(s, seqNum);
    var ops, cache := NakCalls(s.snd.tx, seqNum), s.snd.tx.harqCache;
    HandedBoth(Calls(c, h), ops);
    if Handed(ops) != [] {
      HoldsMore(s.net, Handed(Calls(c, h)), Max(0, Backward(|s.snd.log|, cache[seqNum].groupID)), Handed(ops));
    } else {
      assert Handed(Calls(c, h)) + [] == Handed(Calls(c, h));
    }
    DoNakTx(s, seqNum);
  }

  lemma DoNakTx(s: Sys, seqNum: Byte)
    ensures DoNak(s, seqNum).snd == s.snd
  {
    hide Backward, Marshal;
  }

  lemma StepBehind(c: Config, h: seq<Act>, s: Sys, e: Event) returns (h': seq<Act>)
    requires Behind(c, h, s) && Enabled(c, s, e)
    ensures Behind(c, h', Step(c, s, e))
  {
    hide Behind, DoRead, DoFlush, DoNak, DoLqr, DoData, DoReport, DoWriter, Flush, Sender.Read, ReadCalls, FlushCalls;
    match e
    case Read(chunk) =>
      ReadAgrees(c, s, chunk);
      ActBehind(c, h, s, Chunk(chunk), Step(c, s, e), |s.snd.log|);
      h' := h + [Chunk(chunk)];
    case FlushTimer =>
      FlushAgrees(c, s, s.snd.pc);
      ActBehind(c, h, s, Timer, Step(c, s, e), |s.snd.log|);
      h' := h + [Timer];
    case FinalFlush =>
      FlushAgrees(c, s, Flushed);
      ActBehind(c, h, s, Timer, Step(c, s, e), |s.snd.log|);
      h' := h + [Timer];
    case NakArrives(seqNum) =>
      NakBehind(c, h, s, seqNum);
      h' := h + [Request(seqNum)] + [Resend(0)];
    case LqrArrives(d) =>
      h' := LqrBehind(c, h, s, d);
    case _ =>
      OtherSide(c, s, e);
      SameBehind(c, h, s, Step(c, s, e));
      h' := h;
  }

  lemma SameBehind(c: Config, h: seq<Act>, s: Sys, t: Sys)
    requires Behind(c, h, s) && t.snd.tx == s.snd.tx && t.net == s.net
    ensures Behind(c, h, t)
  {
    hide After, Calls, AllPossible, HoldsExactly;
  }

  lemma LqrBehind(c: Config, h: seq<Act>, s: Sys, d: Datagram) returns (h': seq<Act>)
    requires Behind(c, h, s)
    ensures Behind(c, h', DoLqr(c, s, d))
  {
    hide Behind, Unmarshal, HandleLQR, Interval;
    if Unmarshal(d.bytes).Ok? && Unmarshal(d.bytes).value.ptype == LQR {
      var p := Unmarshal(d.bytes).value;
      NothingHanded(c, s.snd.tx, p.groupID, p.losses);
      EmptyTag(0);
      assert s.net + {} == s.net;
      ActBehind(c, h, s, Report(p.groupID, p.losses), DoLqr(c, s, d), 0);
      h' := h + [Report(p.groupID, p.losses)];
    } else {
      h' := h;
    }
  }

  lemma NothingHanded(c: Config, t: Tx, group: U16, losses: Byte)
    ensures Handed(ReportCalls(c, t, group, losses)) == []
  {
    hide HandleLQR, Interval;
    var m := HandleLQR(c, t, group, losses).curM;
    var op := UpdateParams(c.k + m, Interval(c.bandwidth, c.mtu, c.k + m));
    assert [op][..0] == [];
  }

  // Other events leave the sending state and the network alone.
  lemma OtherSide(c: Config, s: Sys, e: Event)
    requires Enabled(c, s, e)
    requires !e.Read? && !e.FlushTimer? && !e.FinalFlush? && !e.NakArrives? && !e.LqrArrives?
    ensures Step(c, s, e).snd.tx == s.snd.tx && Step(c, s, e).net == s.net
  {
    hide DoData, DoReport, DoWriter, NextSlot, SlotBytes;
    match e
    case LqrTimer(id) => ReportSide(c, s, id);
    case WriterStep => WriterSide(c, s);
    case _ =>
  }

  lemma {:induction false} ExecBehind(c: Config, h: seq<Act>, s: Sys, es: seq<Event>, t: Sys) returns (h': seq<Act>)
    requires Behind(c, h, s) && Exec(c, s, es) == Some(t)
    ensures Behind(c, h', t)
    decreases |es|
  {
    hide Behind, Step, Enabled;
    if es == [] {
      h' := h;
    } else {
      var h1 := StepBehind(c, h, s, es[0]);
      h' := ExecBehind(c, h1, Step(c, s, es[0]), es[1..], t);
    }
  }

  // Behind every run of the state machine there is a history of the session: the same sending state, and
  // the network holds exactly the packets that the history's calls hand to the shaper.
  lemma RunIsHistory(c: Config, es: seq<Event>, s: Sys) returns (h: seq<Act>)
    requires Reaches(c, es, s)
    ensures AllPossible(c, h) && After(c, h) == Desk(s.snd.tx, []) && HoldsExactly(s.net, Handed(Calls(c, h)))
  {
    hide Exec, AllPossible, HoldsExactly, Calls, After;
    NewBehind(c);
    h := ExecBehind(c, [], InitSys(c), es, s);
  }

  lemma NewBehind(c: Config)
    ensures Behind(c, [], InitSys(c))
  {
  }
}
