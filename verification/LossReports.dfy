// What a loss report counts, of every run: when it is the number of packets that never arrived, and
// by how much it is off otherwise.
module LossReports {
  import opened Basics
  import opened Serial
  import opened Protocol
  import opened ErasureCode
  import opened Sender
  import opened SenderProofs
  import opened Receiver
  import opened ReceiverProofs
  import opened System
  import opened Invariant
  import opened ReceiverSteps
  import opened Steps
  import opened Retransmission

  // ---- late packets

  // A packet of block g finds its slot full, though no copy of it filled the slot: reconstruction did.
  ghost predicate Late(c: Config, s: Sys, e: Event, g: nat) {
    && e.DataArrives? && e.d.grp == g
    && Unmarshal(ReadBuffer(e.d.bytes)).Ok?
    && var p := Unmarshal(ReadBuffer(e.d.bytes)).value;
       var b := BlockAt(c, s.rcv.rx, p.groupID);
       && p.ptype == DATA && Wanted(s.rcv.rx, p.groupID)
       && p.idx < |b.packets| && b.packets[p.idx].Some? && p.idx !in At(s.rcv.filled, g)
  }

  ghost predicate NeverLate(c: Config, s: Sys, es: seq<Event>, g: nat)
    decreases |es|
  {
    es != [] ==> Enabled(c, s, es[0]) && !Late(c, s, es[0], g) && NeverLate(c, Step(c, s, es[0]), es[1..], g)
  }

  // Every packet of block g that arrived filled a slot.
  ghost predicate AllFilled(v: Rcv, g: nat) {
    At(v.arrived, g) == At(v.filled, g)
  }

  // What one arrival does to the two records of its block.
  lemma ArrivalRecord(c: Config, v: Rcv, d: Datagram, g: nat)
    ensures var v' := DoData(c, v, d);
            if Unmarshal(ReadBuffer(d.bytes)).Ok? && Unmarshal(ReadBuffer(d.bytes)).value.ptype == DATA &&
               Wanted(v.rx, Unmarshal(ReadBuffer(d.bytes)).value.groupID) && d.grp == g
            then
              var p := Unmarshal(ReadBuffer(d.bytes)).value;
              && At(v'.filled, g) == FilledAfter(c, BlockAt(c, v.rx, p.groupID), At(v.filled, g), p.idx)
              && At(v'.arrived, g) == At(v.arrived, g) + {p.idx}
            else At(v'.filled, g) == At(v.filled, g) && At(v'.arrived, g) == At(v.arrived, g)
  {
    hide Unmarshal, FilledAfter, HandleData, Completes, Later;
  }

  // What the records say of a block still to be written.
  lemma RecordsOf(c: Config, log: seq<Group>, v: Rcv, g: nat)
    requires ConfigOk(c) && LogOk(c, log) && RcvOk(c, log, v) && v.w <= g < |log| && Forward(v.w, Wrap(g)) == g
    ensures var b, f, a := BlockAt(c, v.rx, Wrap(g)), At(v.filled, g), At(v.arrived, g);
            && BlockOk(c, log[g], b, f) && f <= a
            && forall i :: i in a && i !in f ==> i < c.k && b.decoded
  {
    hide ConfigOk, BlocksOk, ReportsOk, WakeOk, OutputOk, BusyOk, IndexOk, BlockOk, Forward, Wrap;
    BlockAtOk(c, log, v.rx, v.w, v.x, v.filled, v.arrived, g);
  }

  lemma SlotFull(c: Config, grp: Group, b: RxBlock, f: set<nat>, i: nat)
    requires |grp.shards| == c.k && BlockOk(c, grp, b, f) && i !in f
    ensures i < |b.packets| && b.packets[i].Some? <==> b.decoded && i < c.k
  {
    hide Payload;
    if i < |b.packets| {
      assert b.packets[i] == SlotValue(c, grp, b.decoded, f, i);
    }
  }

  // The records part exactly at a late packet.
  lemma LateStep(c: Config, s: Sys, e: Event, g: nat)
    requires ConfigOk(c) && Inv(c, s) && Enabled(c, s, e)
    ensures AllFilled(Step(c, s, e).rcv, g) <==> AllFilled(s.rcv, g) && !Late(c, s, e, g)
  {
    hide ConfigOk, TxInv, LqrNetOk, RcvOk, SndCloseOk, RcvCloseOk, Unmarshal, PacketOf, DoData, Marshal, Wrap,
      Forward;
    if e.DataArrives? {
      ArrivalRecord(c, s.rcv, e.d, g);
      if e.d.grp == g {
        LogKnown(c, s.snd);
        assert Genuine(c, s.snd.log, e.d);
        LateArrival(c, s, e.d);
      }
    } else {
      RecordsKept(c, s, e);
    }
  }

  lemma LateArrival(c: Config, s: Sys, d: Datagram)
    requires ConfigOk(c) && SndOk(c, s.snd) && RcvOk(c, s.snd.log, s.rcv) && Genuine(c, s.snd.log, d) && InWindow(s, d)
    ensures AllFilled(DoData(c, s.rcv, d), d.grp) <==> AllFilled(s.rcv, d.grp) && !Late(c, s, DataArrives(d), d.grp)
  {
    hide Contract, TxInv, BlocksOk, FilledOk, ReportsOk, WakeOk, OutputOk, BusyOk, Unmarshal, PacketOf, DoData,
      Marshal, Wrap, Forward, BlockOk, Later;
    var g, v := d.grp, s.rcv;
    var p := Unmarshal(ReadBuffer(d.bytes)).value;
    ArrivalRecord(c, v, d, g);
    LogKnown(c, s.snd);
    PacketFields(c, s.snd.log, g, p);
    if !v.rx.recvClosed {
      WantedIsOrder(|s.snd.log|, v.rx, v.w, v.x, g);
      if v.w <= g {
        RecordsOf(c, s.snd.log, v, g);
        var b, f, a := BlockAt(c, v.rx, Wrap(g)), At(v.filled, g), At(v.arrived, g);
        if p.idx !in f {
          SlotFull(c, s.snd.log[g], b, f, p.idx);
        }
        Parted(c, b, f, a, p.idx);
      }
    }
  }

  lemma Parted(c: Config, b: RxBlock, f: set<nat>, a: set<nat>, i: nat)
    requires f <= a && forall j :: j in a && j !in f ==> j < c.k && b.decoded
    ensures a + {i} == FilledAfter(c, b, f, i) <==> a == f && (b.decoded && i < c.k ==> i in f)
  {
    if a != f {
      var j :| j in a && j !in f;
      assert j !in FilledAfter(c, b, f, i) || (j == i && !(b.decoded && i < c.k));
    } else if b.decoded && i < c.k && i in f {
      assert a + {i} == f;
    }
  }

  lemma {:induction false} LateRun(c: Config, s: Sys, es: seq<Event>, t: Sys, g: nat)
    requires ConfigOk(c) && Inv(c, s) && Exec(c, s, es) == Some(t)
    ensures AllFilled(t.rcv, g) <==> AllFilled(s.rcv, g) && NeverLate(c, s, es, g)
    decreases |es|
  {
    hide Inv, ConfigOk, Step, Enabled, Late, AllFilled;
    if es != [] {
      LateStep(c, s, es[0], g);
      StepInv(c, s, es[0]);
      LateRun(c, Step(c, s, es[0]), es[1..], t, g);
    }
  }

  // ---- the count

  // Data slots that hold a shard the network did not bring.
  ghost function RebuiltSlots(b: RxBlock, f: set<nat>): set<nat> {
    set i: nat | i < b.k && i < |b.packets| && b.packets[i].Some? && i !in f
  }

  lemma BlockOfId(c: Config, es: seq<Event>, s: Sys, id: U16)
    requires ConfigOk(c) && Reaches(c, es, s) && id in s.rcv.rx.rxBlocks
    ensures var g := Forward(s.rcv.w, id);
            var b, f, a := s.rcv.rx.rxBlocks[id], At(s.rcv.filled, g), At(s.rcv.arrived, g);
            && LogOk(c, s.snd.log) && GroupOk(c, GroupAt(c, s.snd.log, g)) && BlockOk(c, GroupAt(c, s.snd.log, g), b, f)
            && f <= a && forall i :: i in a && i !in f ==> i < c.k && b.decoded
  {
    hide Reaches, NetOk, LqrNetOk, OutputOk, BusyOk, IndexOk, CacheOk, TrackedOk, WakeOk, BlockOk, Forward, Wrap,
      ReportsOk, SndCloseOk, RcvCloseOk, Contract;
    ReachableInv(c, es, s);
    ForwardWraps(s.rcv.w, id);
    ForwardAtLeast(s.rcv.w, id);
    var g := Forward(s.rcv.w, id);
    assert BlockInv(c, s.snd.log, s.rcv.rx.hasRecv, s.rcv.w, s.rcv.x, id, s.rcv.rx.rxBlocks[id], At(s.rcv.filled, g));
  }

  lemma CountMissing(e: nat, f: set<nat>, a: set<nat>)
    requires f <= a && forall i :: i in a ==> i < e
    ensures |Upto(e) - f| == |Upto(e) - a| + |a - f|
    ensures |a - f| == 0 <==> a == f
  {
    AtMost(e, f);
    AtMost(e, a);
    assert a == f + (a - f);
  }

  // No slot was rebuilt if as many are full as were counted.
  lemma NothingRebuilt(c: Config, grp: Group, b: RxBlock, f: set<nat>)
    requires |grp.shards| == c.k && BlockOk(c, grp, b, f) && |Present(b.packets)| == b.receivedCnt
    ensures b.decoded ==> forall i: nat :: i < c.k ==> i in f
  {
    hide Payload;
    assert f <= Present(b.packets) by {
      forall i | i in f ensures i in Present(b.packets) { assert b.packets[i] == SlotValue(c, grp, b.decoded, f, i); }
    }
    var extra := Present(b.packets) - f;
    assert Present(b.packets) == f + extra && |extra| == 0;
    if b.decoded {
      forall i: nat | i < c.k ensures i in f { assert b.packets[i] == SlotValue(c, grp, b.decoded, f, i); }
    }
  }

  // A report counts the packets below the highest index seen (at least K) that never filled a slot.
  // It overcounts those that never arrived by exactly the late ones, which lie in rebuilt slots; so it
  // is exact on a block not yet decoded, on a block as full as it was counted, and in general if and
  // only if no packet of the block came late.
  lemma ReportCounts(c: Config, es: seq<Event>, s: Sys, id: U16)
    requires ConfigOk(c) && Reaches(c, es, s) && Reports(s.rcv.rx, id)
    ensures var g, b := Forward(s.rcv.w, id), s.rcv.rx.rxBlocks[id];
            var f, a, e := At(s.rcv.filled, g), At(s.rcv.arrived, g), ExpectedTotal(s.rcv.rx.rxBlocks[id]);
            var losses := LqrPacket(c, s.rcv.rx, id).losses as int;
            && e >= c.k && f <= a && (forall i :: i in f ==> i < e) && (e > c.k ==> e - 1 in f)
            && losses == |Upto(e) - f| == |Upto(e) - a| + |a - f|
            && a - f <= RebuiltSlots(b, f)
            && (!b.decoded || |Present(b.packets)| == b.receivedCnt ==> losses == |Upto(e) - a|)
            && (losses == |Upto(e) - a| <==> NeverLate(c, InitSys(c), es, g))
            && (losses == 0 ==> forall i: nat :: i < c.k ==> i in a)
  {
    hide Contract, Exec, Forward, BlockOk, Losses, ExpectedTotal, NeverLate, Inv, InitSys;
    var g, b := Forward(s.rcv.w, id), s.rcv.rx.rxBlocks[id];
    var f, a := At(s.rcv.filled, g), At(s.rcv.arrived, g);
    BlockOfId(c, es, s, id);
    var grp := GroupAt(c, s.snd.log, g);
    LossesCount(c, grp, b, f);
    Expected(c, grp, b, f);
    CountMissing(ExpectedTotal(b), f, a);
    LateInRebuilt(c, grp, b, f, a);
    if |Present(b.packets)| == b.receivedCnt {
      NothingRebuilt(c, grp, b, f);
    }
    InitInv(c);
    LateRun(c, InitSys(c), es, s, g);
    NothingYet(c, g);
  }

  lemma NothingYet(c: Config, g: nat)
    ensures AllFilled(InitSys(c).rcv, g)
  {
  }

  lemma LateInRebuilt(c: Config, grp: Group, b: RxBlock, f: set<nat>, a: set<nat>)
    requires |grp.shards| == c.k && BlockOk(c, grp, b, f) && forall i :: i in a && i !in f ==> i < c.k && b.decoded
    ensures a - f <= RebuiltSlots(b, f)
  {
    hide BlockOk;
    forall i | i in a - f
      ensures i in RebuiltSlots(b, f)
    {
      SlotFull(c, grp, b, f, i);
      BlockK(c, grp, b, f);
    }
  }

  lemma BlockK(c: Config, grp: Group, b: RxBlock, f: set<nat>)
    requires |grp.shards| == c.k && BlockOk(c, grp, b, f)
    ensures b.k == c.k
  {
    hide SlotsOk;
  }
}
