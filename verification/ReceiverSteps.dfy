// The receiver's events keep the invariant.
module ReceiverSteps {
  import opened Basics
  import opened Serial
  import opened Protocol
  import opened Shards
  import opened ErasureCode
  import opened Sender
  import opened SenderProofs
  import opened Receiver
  import opened ReceiverProofs
  import opened System
  import opened Invariant

  // ---- the wrapped comparisons decide the true order

  lemma NoteGroupIndex(n: nat, r: Rx, w: nat, x: nat, g: nat)
    requires IndexOk(n, r, w, x) && g < n <= g + 32767 && n <= w + 32767
    ensures var x' := if r.hasRecv then Max(x, g) else g;
            && IndexOk(n, NoteGroup(r, Wrap(g)), w, x') && NoteGroup(r, Wrap(g)).hasRecv
            && g <= x' && (r.hasRecv ==> x <= x')
  {
    if r.hasRecv {
      LaterExact(g, x);
    }
  }

  lemma WantedIsOrder(n: nat, r: Rx, w: nat, x: nat, g: nat)
    requires IndexOk(n, r, w, x) && g < n <= g + 32767 && n <= w + 32767 && !r.recvClosed
    ensures Wanted(r, Wrap(g)) <==> w <= g
    ensures w <= g ==> Forward(w, Wrap(g)) == g
  {
    LaterExact(w, g);
    if w <= g {
      ForwardExact(w, g);
    }
  }

  // The writer's exit test means that nothing seen is left to write.
  lemma DrainedIsOrder(n: nat, r: Rx, w: nat, x: nat)
    requires IndexOk(n, r, w, x) && r.hasRecv
    ensures Drained(r) <==> w == x + 1
  {
    LaterExact(w, x);
  }

  // ---- a data packet

  // The receiver after a wanted packet of block g.
  ghost function Received(c: Config, r: Rx, p: Packet): RxBlock {
    Receive(c, BlockAt(c, r, p.groupID), p.idx, p.payload)
  }

  lemma BlockAtOk(c: Config, log: seq<Group>, r: Rx, w: nat, x: nat, filled: Record, arrived: Record, g: nat)
    requires ConfigOk(c) && LogOk(c, log) && BlocksOk(c, log, r, w, x, filled)
    requires FilledOk(c.k, r.rxBlocks, w, filled, arrived)
    requires w <= g < |log| && Forward(w, Wrap(g)) == g
    ensures BlockOk(c, log[g], BlockAt(c, r, Wrap(g)), At(filled, g))
    ensures BlockAt(c, r, Wrap(g)).groupID == Wrap(g)
    ensures Wrap(g) !in r.rxBlocks ==> !BlockAt(c, r, Wrap(g)).lqrReported
  {
    if Wrap(g) in r.rxBlocks {
      assert BlockInv(c, log, r.hasRecv, w, x, Wrap(g), r.rxBlocks[Wrap(g)], At(filled, g));
    } else {
      NewBlockOk(c, log[g], Wrap(g));
    }
  }

  // A packet of block g as it comes off the wire.
  ghost predicate IsPacket(c: Config, log: seq<Group>, g: nat, p: Packet)
    requires LogOk(c, log)
  {
    g < |log| && p.idx < c.k + log[g].m && p == PacketOf(c, g, log[g], p.idx)
  }

  lemma PacketFields(c: Config, log: seq<Group>, g: nat, p: Packet)
    requires ConfigOk(c) && LogOk(c, log) && IsPacket(c, log, g, p)
    ensures p.ptype == DATA && p.groupID == Wrap(g) && p.payload == Payload(c, log[g], p.idx)
  {
    hide Contract;
  }

  lemma FilledNonempty(c: Config, grp: Group, b: RxBlock, f: set<nat>, i: nat)
    requires ConfigOk(c) && GroupOk(c, grp) && BlockOk(c, grp, b, f)
    ensures FilledAfter(c, b, f, i) != {}
  {
    hide Contract, SlotsOk, Sized;
    if f == {} {
      assert !b.decoded && i in FilledAfter(c, b, f, i);
    }
  }

  lemma ReceivedOk(c: Config, log: seq<Group>, r: Rx, w: nat, x: nat, filled: Record, arrived: Record, g: nat,
    p: Packet)
    requires ConfigOk(c) && LogOk(c, log) && BlocksOk(c, log, r, w, x, filled)
    requires FilledOk(c.k, r.rxBlocks, w, filled, arrived)
    requires w <= g && Forward(w, Wrap(g)) == g && IsPacket(c, log, g, p)
    ensures p.groupID == Wrap(g)
    ensures var b := BlockAt(c, r, Wrap(g));
            && BlockOk(c, log[g], Received(c, r, p), FilledAfter(c, b, At(filled, g), p.idx))
            && FilledAfter(c, b, At(filled, g), p.idx) != {}
            && Received(c, r, p).groupID == Wrap(g)
            && Received(c, r, p).lqrReported == b.lqrReported
            && (b.decoded ==> Received(c, r, p).decoded)
  {
    hide ConfigOk, Receive, BlocksOk, FilledOk, BlockOk, PacketOf, Payload, Forward, Wrap, BlockAt;
    BlockAtOk(c, log, r, w, x, filled, arrived, g);
    PacketFields(c, log, g, p);
    FilledNonempty(c, log[g], BlockAt(c, r, Wrap(g)), At(filled, g), p.idx);
    ReceiveOk(c, log[g], BlockAt(c, r, Wrap(g)), At(filled, g), p.idx);
  }

  lemma DataBlocks(c: Config, log: seq<Group>, r: Rx, r': Rx, w: nat, x: nat, x': nat, filled: Record, g: nat,
    f: set<nat>)
    requires LogOk(c, log) && BlocksOk(c, log, r, w, x, filled)
    requires w <= g < |log| && g <= w + 32767 && Forward(w, Wrap(g)) == g && g <= x' && r'.hasRecv
    requires r.hasRecv ==> x <= x'
    requires r'.rxBlocks.Keys == r.rxBlocks.Keys + {Wrap(g)}
    requires forall id :: id in r.rxBlocks && id != Wrap(g) ==> r'.rxBlocks[id] == r.rxBlocks[id]
    requires r'.rxBlocks[Wrap(g)].groupID == Wrap(g) && BlockOk(c, log[g], r'.rxBlocks[Wrap(g)], f)
    ensures BlocksOk(c, log, r', w, x', filled[g := f])
  {
    hide BlockOk;
    forall id | id in r'.rxBlocks
      ensures BlockInv(c, log, r'.hasRecv, w, x', id, r'.rxBlocks[id], At(filled[g := f], Forward(w, id)))
    {
      ForwardWraps(w, id);
      if id != Wrap(g) {
        assert BlockInv(c, log, r.hasRecv, w, x, id, r.rxBlocks[id], At(filled, Forward(w, id)));
      }
    }
  }

  // A later highest group changes nothing else.
  lemma LaterBlocks(c: Config, log: seq<Group>, r: Rx, r': Rx, w: nat, x: nat, x': nat, filled: Record)
    requires LogOk(c, log) && BlocksOk(c, log, r, w, x, filled)
    requires r'.rxBlocks == r.rxBlocks && r'.hasRecv && (r.hasRecv ==> x <= x')
    ensures BlocksOk(c, log, r', w, x', filled)
  {
    hide BlockOk, Forward;
    forall id | id in r'.rxBlocks
      ensures BlockInv(c, log, r'.hasRecv, w, x', id, r'.rxBlocks[id], At(filled, Forward(w, id)))
    {
      assert BlockInv(c, log, r.hasRecv, w, x, id, r.rxBlocks[id], At(filled, Forward(w, id)));
    }
  }

  lemma DataFilled(k: nat, blocks: map<U16, RxBlock>, b: RxBlock, w: nat, filled: Record, arrived: Record,
    g: nat, f: set<nat>, i: nat)
    requires FilledOk(k, blocks, w, filled, arrived) && w <= g <= w + 32767
    requires At(filled, g) <= f <= At(filled, g) + {i} && (i in f || (i < k && b.decoded))
    requires Wrap(g) in blocks && blocks[Wrap(g)].decoded ==> b.decoded
    ensures FilledOk(k, blocks[Wrap(g) := b], w, filled[g := f], arrived[g := At(arrived, g) + {i}])
  {
    hide Wrap;
  }

  lemma DataReports(r: Rx, r': Rx, w: nat, x: nat, x': nat, reports: seq<nat>, g: nat)
    requires ReportsOk(r, w, x, reports) && r'.hasRecv && (r.hasRecv ==> x <= x')
    requires r'.rxBlocks.Keys == r.rxBlocks.Keys + {Wrap(g)}
    requires forall id :: id in r.rxBlocks ==> r'.rxBlocks[id].lqrReported == r.rxBlocks[id].lqrReported
    requires Wrap(g) !in r.rxBlocks ==> !r'.rxBlocks[Wrap(g)].lqrReported
    ensures ReportsOk(r', w, x', reports)
  {
    hide Wrap, Forward, Distinct;
  }

  lemma LaterReports(r: Rx, r': Rx, w: nat, x: nat, x': nat, reports: seq<nat>)
    requires ReportsOk(r, w, x, reports) && r'.hasRecv && (r.hasRecv ==> x <= x') && r'.rxBlocks == r.rxBlocks
    ensures ReportsOk(r', w, x', reports)
  {
    hide Wrap, Forward, Distinct;
  }

  // Packets never take away what the writer relies on, and only wake it up.
  lemma DataWake(n: nat, v: Rcv, v': Rcv, x: nat, x': nat)
    requires WakeOk(v) && IndexOk(n, v.rx, v.w, x) && IndexOk(n, v'.rx, v.w, x') && v'.rx.hasRecv
    requires v.rx.hasRecv ==> x <= x'
    requires v'.pc == v.pc || (v.pc == Parked && v'.pc == Top)
    requires LockFree(v.pc) && (v'.pc == Parked ==> !NextReady(v'.rx))
    requires v'.cancelled == v.cancelled && v'.closeRecv == v.closeRecv
    requires v'.closePending == v.closePending && v'.cancelPending == v.cancelPending
    ensures WakeOk(v')
  {
    DrainedIsOrder(n, v'.rx, v.w, x');
    if v.rx.hasRecv {
      DrainedIsOrder(n, v.rx, v.w, x);
    }
  }

  // ---- the whole step

  lemma Unwanted(c: Config, log: seq<Group>, v: Rcv, v': Rcv, g: nat)
    requires ConfigOk(c) && LogOk(c, log) && RcvOk(c, log, v) && LockFree(v.pc)
    requires g < |log| <= g + 32767 && |log| <= v.w + 32767
    requires v' == v.(rx := NoteGroup(v.rx, Wrap(g)), x := if v.rx.hasRecv then Max(v.x, g) else g)
    ensures RcvOk(c, log, v')
  {
    hide ConfigOk, IndexOk, BlocksOk, FilledOk, ReportsOk, WakeOk, OutputOk, Wrap, Later;
    NoteGroupIndex(|log|, v.rx, v.w, v.x, g);
    LaterBlocks(c, log, v.rx, v'.rx, v.w, v.x, v'.x, v.filled);
    LaterReports(v.rx, v'.rx, v.w, v.x, v'.x, v.reports);
    StillNotReady(v);
    DataWake(|log|, v, v', v.x, v'.x);
  }

  lemma StillNotReady(v: Rcv)
    requires WakeOk(v)
    ensures v.pc == Parked ==> !NextReady(v.rx)
  {
  }

  ghost predicate Placed(c: Config, v: Rcv, v': Rcv, g: nat, p: Packet) {
    var b := BlockAt(c, v.rx, Wrap(g));
    && v'.rx == NoteGroup(v.rx, Wrap(g)).(rxBlocks := v.rx.rxBlocks[Wrap(g) := Received(c, v.rx, p)])
    && v'.x == (if v.rx.hasRecv then Max(v.x, g) else g)
    && v'.pc == (if !b.decoded && Received(c, v.rx, p).decoded then Wake(v.pc) else v.pc)
    && v'.filled == v.filled[g := FilledAfter(c, b, At(v.filled, g), p.idx)]
    && v'.arrived == v.arrived[g := At(v.arrived, g) + {p.idx}]
    && v' == v.(rx := v'.rx, x := v'.x, pc := v'.pc, filled := v'.filled, arrived := v'.arrived)
  }

  lemma PlacedReady(c: Config, v: Rcv, v': Rcv, g: nat, p: Packet)
    requires Placed(c, v, v', g, p) && WakeOk(v)
    requires BlockAt(c, v.rx, Wrap(g)).decoded ==> Received(c, v.rx, p).decoded
    requires Wrap(g) in v.rx.rxBlocks ==> Received(c, v.rx, p).lqrReported == v.rx.rxBlocks[Wrap(g)].lqrReported
    ensures NextReady(v.rx) ==> NextReady(v'.rx)
    ensures NextReported(v.rx) ==> NextReported(v'.rx)
    ensures v'.pc == Parked ==> !NextReady(v'.rx)
    ensures v'.pc == v.pc || (v.pc == Parked && v'.pc == Top)
  {
    hide Received, Wrap;
  }

  lemma PlacedBlocks(c: Config, log: seq<Group>, v: Rcv, v': Rcv, g: nat, p: Packet)
    requires ConfigOk(c) && LogOk(c, log) && RcvOk(c, log, v) && Placed(c, v, v', g, p)
    requires IsPacket(c, log, g, p) && g < |log| <= g + 32767 && |log| <= v.w + 32767
    requires v.w <= g && Forward(v.w, Wrap(g)) == g
    ensures IndexOk(|log|, v'.rx, v'.w, v'.x)
    ensures BlocksOk(c, log, v'.rx, v'.w, v'.x, v'.filled)
    ensures FilledOk(c.k, v'.rx.rxBlocks, v'.w, v'.filled, v'.arrived)
    ensures ReportsOk(v'.rx, v'.w, v'.x, v'.reports)
  {
    hide ConfigOk, BlocksOk, FilledOk, ReportsOk, WakeOk, OutputOk, BusyOk, Wrap, Forward, Later, Receive, BlockOk;
    ReceivedOk(c, log, v.rx, v.w, v.x, v.filled, v.arrived, g, p);
    BlockAtOk(c, log, v.rx, v.w, v.x, v.filled, v.arrived, g);
    NoteGroupIndex(|log|, v.rx, v.w, v.x, g);
    var b := BlockAt(c, v.rx, Wrap(g));
    var f := FilledAfter(c, b, At(v.filled, g), p.idx);
    DataBlocks(c, log, v.rx, v'.rx, v.w, v.x, v'.x, v.filled, g, f);
    DataFilled(c.k, v.rx.rxBlocks, Received(c, v.rx, p), v.w, v.filled, v.arrived, g, f, p.idx);
    DataReports(v.rx, v'.rx, v.w, v.x, v'.x, v.reports, g);
  }

  lemma PlacedStep(c: Config, log: seq<Group>, v: Rcv, v': Rcv, g: nat, p: Packet)
    requires ConfigOk(c) && LogOk(c, log) && RcvOk(c, log, v) && LockFree(v.pc) && Placed(c, v, v', g, p)
    requires IsPacket(c, log, g, p) && g < |log| <= g + 32767 && |log| <= v.w + 32767
    requires v.w <= g && Forward(v.w, Wrap(g)) == g
    ensures RcvOk(c, log, v')
  {
    hide ConfigOk, IndexOk, BlocksOk, FilledOk, ReportsOk, WakeOk, Wrap, Forward, Received, NextReady, NextReported,
      BlockOk, LogBytes, Bytes;
    ReceivedOk(c, log, v.rx, v.w, v.x, v.filled, v.arrived, g, p);
    PlacedBlocks(c, log, v, v', g, p);
    PlacedReady(c, v, v', g, p);
    NoteGroupIndex(|log|, v.rx, v.w, v.x, g);
    DataWake(|log|, v, v', v.x, v'.x);
  }

  lemma DataStep(c: Config, log: seq<Group>, v: Rcv, d: Datagram)
    requires ConfigOk(c) && LogOk(c, log) && RcvOk(c, log, v) && LockFree(v.pc) && Genuine(c, log, d)
    requires |log| <= d.grp + 32767 && |log| <= v.w + 32767
    ensures RcvOk(c, log, DoData(c, v, d))
  {
    hide ConfigOk, BlocksOk, FilledOk, ReportsOk, WakeOk, OutputOk, BusyOk, Wrap, Later, Receive, BlockOk,
      Unmarshal, PacketOf, Payload, Forward;
    var p, g := Unmarshal(ReadBuffer(d.bytes)).value, d.grp;
    PacketFields(c, log, g, p);
    if !v.rx.recvClosed {
      WantedIsOrder(|log|, v.rx, v.w, v.x, g);
      if Wanted(v.rx, Wrap(g)) {
        PlacedStep(c, log, v, DoData(c, v, d), g, p);
      } else {
        Unwanted(c, log, v, DoData(c, v, d), g);
      }
    }
  }
}
