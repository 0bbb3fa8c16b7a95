// Why deliveries must stay within the window: one block beyond it, a late packet is filed as part of a
// block that is yet to be sent.
module Beyond {
  import opened Basics
  import opened Serial
  import opened Protocol
  import opened Shards
  import opened ErasureCode
  import opened Sender
  import opened SenderProofs
  import opened Receiver
  import opened ReceiverProofs
  import opened System
  import opened Invariant
  import opened ReceiverSteps
  import opened Steps
  import opened Retransmission
  import opened Progress
  import opened Delivery

  // ---- what happens to the packet

  // 32768 blocks after a packet's own, the comparison takes it for one of the future.
  lemma TakenForFuture(w: nat, g: nat)
    requires w == g + 32768
    ensures !Later(Wrap(w), Wrap(g)) && Forward(w, Wrap(g)) == g + 65536
  {
    hide Wrap, Forward;
    WrapDifference(w, g);
    WrapSmall(32768);
    WrapSame(g + 65536, g, 1);
    ForwardExact(w, g + 65536);
  }

  lemma BlockPlace(c: Config, s: Sys, id: U16)
    requires Inv(c, s) && id in s.rcv.rx.rxBlocks
    ensures Forward(s.rcv.w, id) < |s.snd.log| || Forward(s.rcv.w, id) == 0
  {
    hide TxInv, NetOk, LqrNetOk, FilledOk, ReportsOk, WakeOk, OutputOk, BusyOk, IndexOk, BlockOk, Forward,
      SndCloseOk, RcvCloseOk;
    LogKnown(c, s.snd);
    var b, f := s.rcv.rx.rxBlocks[id], At(s.rcv.filled, Forward(s.rcv.w, id));
    assert BlockInv(c, s.snd.log, s.rcv.rx.hasRecv, s.rcv.w, s.rcv.x, id, b, f);
  }

  // With everything sent also written, the receiver has no block at hand.
  lemma NothingAtHand(c: Config, s: Sys, id: U16)
    requires Inv(c, s) && s.rcv.w == |s.snd.log| > 0
    ensures id !in s.rcv.rx.rxBlocks
  {
    hide Inv, Forward;
    if id in s.rcv.rx.rxBlocks {
      ForwardAtLeast(s.rcv.w, id);
      BlockPlace(c, s, id);
    }
  }

  // One block beyond the window: the payload of block g is stored in a new block, which stands for
  // block g + 65536.
  lemma Misfiled(c: Config, s: Sys, d: Datagram)
    requires ConfigOk(c) && Inv(c, s) && d in s.net && !s.rcv.rx.recvClosed
    requires s.rcv.w == |s.snd.log| == d.grp + 32768
    ensures !InWindow(s, d) && LogOk(c, s.snd.log) && Genuine(c, s.snd.log, d)
    ensures var p := Unmarshal(ReadBuffer(d.bytes)).value;
            var blocks := DoData(c, s.rcv, d).rx.rxBlocks;
            && p.groupID == Wrap(d.grp) && Forward(s.rcv.w, p.groupID) == d.grp + 65536
            && p.groupID !in s.rcv.rx.rxBlocks && p.groupID in blocks
            && p.idx < |blocks[p.groupID].packets|
            && blocks[p.groupID].packets[p.idx] == Some(Payload(c, s.snd.log[d.grp], p.idx))
  {
    hide Contract, LqrNetOk, SndCloseOk, RcvCloseOk, BlocksOk, FilledOk, ReportsOk, WakeOk, OutputOk, BusyOk, TxInv,
      Unmarshal, Marshal, PacketOf, Payload, Receive, Wrap, Forward, Later;
    LogKnown(c, s.snd);
    assert Genuine(c, s.snd.log, d);
    var v, p := s.rcv, Unmarshal(ReadBuffer(d.bytes)).value;
    PacketFields(c, s.snd.log, d.grp, p);
    TakenForFuture(v.w, d.grp);
    NothingAtHand(c, s, p.groupID);
    FirstStored(c, p.groupID, p.idx, p.payload);
  }

  lemma FirstStored(c: Config, id: U16, idx: nat, payload: Shard)
    ensures var b := Receive(c, NewBlock(c, id), idx, payload);
            idx < |b.packets| && b.packets[idx] == Some(payload)
  {
    hide Reconstruct, LongestSlot, PadSlots;
  }

  // ---- a run that gets there

  // Everything read is sent and written, and both ends are ready for more.
  ghost predicate CaughtUp(s: Sys, n: nat) {
    && |s.snd.log| == n && s.rcv.w == n && s.snd.pc == Reading && s.snd.tx.pending == []
    && Up(s.rcv) && s.rcv.pc == Top
  }

  ghost function Ready(s: Sys, x: Byte): Tx {
    Append(s.snd.tx, [x])
  }

  ghost function AfterSending(c: Config, s: Sys, x: Byte): Sys {
    var t := Ready(s, x);
    s.(snd := Snd(Flush(c, t), Reading, s.snd.input + [x], s.snd.log + [FlushedGroup(c, t)], s.snd.acked),
       net := s.net + Tag(|s.snd.log|, FlushOut(c, t)))
  }

  lemma SendOneBlock(c: Config, s: Sys, x: Byte)
    requires ConfigOk(c) && Inv(c, s) && s.snd.pc == Reading && s.snd.tx.pending == []
    ensures Exec(c, s, [Read([x]), FlushTimer]) == Some(AfterSending(c, s, x))
    ensures Flush(c, Ready(s, x)).pending == []
  {
    hide Contract, Frame, FlushOut, Flush, Tag, FlushedGroup, NetOk, LqrNetOk, RcvOk, CacheOk, TrackedOk,
      SndCloseOk, RcvCloseOk, LogBytes;
    var t := Ready(s, x);
    PayloadPositive(c);
    FlushShape(c, t, |s.snd.log|);
    Idle(c, Flush(c, t));
    var s1 := Step(c, s, Read([x]));
    var tags := Tag(|s.snd.log|, FlushOut(c, t));
    EmptyTag(|s.snd.log|);
    EmptyTag(|s.snd.log| + 1);
    assert s.net + tags + {} == s.net + tags;
    assert DoFlush(c, s1, s1.snd.tx, s1.snd.input, s1.snd.pc) == AfterSending(c, s, x);
    ExecTwo(c, s, Read([x]), FlushTimer);
  }

  lemma Idle(c: Config, t: Tx)
    requires t.pending == []
    ensures FlushOut(c, t) == [] && Flush(c, t) == t
  {
  }

  // The data packets of the new block are on their way.
  lemma OnTheWay(c: Config, s: Sys, x: Byte, i: nat)
    requires ConfigOk(c) && Inv(c, s) && s.snd.pc == Reading && s.snd.tx.pending == [] && i < c.k
    ensures var t := AfterSending(c, s, x);
            LogOk(c, t.snd.log) && Answer(c, t.snd.log, |s.snd.log|, i) in t.net
  {
    hide Contract, FlushOut, Flush, Marshal, PacketOf, NetOk, LqrNetOk, RcvOk, CacheOk, TrackedOk, SndCloseOk,
      RcvCloseOk, LogBytes;
    LogKnown(c, s.snd);
    var g, t := |s.snd.log|, Ready(s, x);
    ReadyToFlush(c, s, x);
    FlushOutput(c, t, g);
    assert (s.snd.log + [FlushedGroup(c, t)])[g] == FlushedGroup(c, t);
    assert Datagram(g, FlushOut(c, t)[i]) in Tag(g, FlushOut(c, t));
  }

  lemma ReadyToFlush(c: Config, s: Sys, x: Byte)
    requires ConfigOk(c) && SndOk(c, s.snd) && s.snd.tx.pending == []
    ensures CountersOk(c, Ready(s, x), |s.snd.log|) && ControllerOk(c, Ready(s, x)) && Flushable(c, Ready(s, x))
  {
    hide Contract, CacheOk, TrackedOk, LogBytes;
    PayloadPositive(c);
    FrameFramed([x]);
  }

  // All data packets of block g are under way, and within the window.
  ghost predicate Afloat(c: Config, s: Sys, g: nat) {
    && LogOk(c, s.snd.log) && g < |s.snd.log|
    && g + 32767 >= |s.snd.log| && s.rcv.w + 32767 >= |s.snd.log|
    && forall i: nat :: i < c.k ==> Answer(c, s.snd.log, g, i) in s.net
  }

  lemma Lands(c: Config, s: Sys, g: nat, i: nat) returns (d: Datagram)
    requires ConfigOk(c) && Afloat(c, s, g) && LockFree(s.rcv.pc) && i < c.k
    ensures Exec(c, s, [DataArrives(d)]) == Some(s.(rcv := DoData(c, s.rcv, d))) && Brings(d, g, i)
  {
    hide ConfigOk, DoData, Answer, LogOk, Brings, Exec;
    d := Answer(c, s.snd.log, g, i);
    AnswerGroup(c, s.snd.log, g, i);
    AnswerOk(c, s.snd.log, g, i);
    OneArrival(c, s, d);
  }

  lemma StillAfloat(c: Config, s: Sys, t: Sys, g: nat)
    requires Afloat(c, s, g) && t.snd == s.snd && t.net == s.net && t.rcv.w == s.rcv.w
    ensures Afloat(c, t, g)
  {
    hide LogOk, Answer;
  }

  lemma FedMore(v: Rcv, v': Rcv, v'': Rcv)
    requires OnlyFed(v, v') && OnlyFed(v', v'')
    ensures OnlyFed(v, v'')
  {
  }

  lemma FedByData(c: Config, v: Rcv, d: Datagram)
    ensures OnlyFed(v, DoData(c, v, d))
  {
    hide DoData;
    DataKeeps(c, v, d);
    DataLeavesOpen(c, v, d);
  }

  // Its first n data packets arrive in turn.
  lemma {:induction false} Arrive(c: Config, s: Sys, g: nat, n: nat) returns (fs: seq<Event>, t: Sys)
    requires ConfigOk(c) && Afloat(c, s, g) && n <= c.k && s.rcv.pc == Top
    ensures Exec(c, s, fs) == Some(t) && t.snd == s.snd && t.net == s.net && OnlyFed(s.rcv, t.rcv)
    ensures forall i: nat :: i < n ==> Delivered(fs, g, i)
  {
    hide ConfigOk, Afloat, Exec, DoData, Delivered, Brings;
    if n == 0 {
      fs, t := [], s;
      ExecNone(c, s);
    } else {
      var gs, u := Arrive(c, s, g, n - 1);
      StillAfloat(c, s, u, g);
      var d := Lands(c, u, g, n - 1);
      t := u.(rcv := DoData(c, u.rcv, d));
      FedByData(c, u.rcv, d);
      FedMore(s.rcv, u.rcv, t.rcv);
      ExecAppend(c, s, gs, [DataArrives(d)]);
      fs := gs + [DataArrives(d)];
      MoreDelivered(gs, d, g, n - 1);
    }
  }

  lemma OneArrival(c: Config, s: Sys, d: Datagram)
    requires Enabled(c, s, DataArrives(d))
    ensures Exec(c, s, [DataArrives(d)]) == Some(s.(rcv := DoData(c, s.rcv, d)))
  {
    hide DoData;
    assert [DataArrives(d)][1..] == [];
    ExecNone(c, Step(c, s, DataArrives(d)));
  }

  lemma MoreDelivered(gs: seq<Event>, d: Datagram, g: nat, n: nat)
    requires Brings(d, g, n) && forall i: nat :: i < n ==> Delivered(gs, g, i)
    ensures forall i: nat :: i <= n ==> Delivered(gs + [DataArrives(d)], g, i)
  {
    hide Brings;
    var fs := gs + [DataArrives(d)];
    forall i: nat | i <= n
      ensures Delivered(fs, g, i)
    {
      if i < n {
        assert Delivered(gs, g, i);
        var j :| 0 <= j < |gs| && gs[j].DataArrives? && Brings(gs[j].d, g, i);
        assert fs[j] == gs[j];
      } else {
        assert fs[|gs|] == DataArrives(d);
      }
    }
  }

  lemma {:induction false} NetGrows(c: Config, s: Sys, fs: seq<Event>, t: Sys)
    requires Exec(c, s, fs) == Some(t)
    ensures s.net <= t.net
    decreases |fs|
  {
    hide Step, Enabled;
    if fs != [] {
      NetStep(c, s, fs[0]);
      NetGrows(c, Step(c, s, fs[0]), fs[1..], t);
    }
  }

  lemma NetStep(c: Config, s: Sys, e: Event)
    requires Enabled(c, s, e)
    ensures s.net <= Step(c, s, e).net
  {
    hide Flush, FlushOut, FlushedGroup, HandleNak, HandleLQR, Unmarshal, DoReport, DoWriter, DoData, Append, Tag,
      Backward, NextSlot, SlotBytes;
    match e
    case LqrTimer(id) => ReportSide(c, s, id);
    case WriterStep => WriterSide(c, s);
    case _ =>
  }

  // The new block, arrived in full, keeps the session going.
  lemma ArrivedIsGoing(c: Config, s: Sys, g: nat)
    requires ConfigOk(c) && Inv(c, s) && Up(s.rcv) && s.rcv.w == g && |s.snd.log| == g + 1
    requires Wrap(g) in s.rcv.rx.rxBlocks && s.rcv.rx.rxBlocks[Wrap(g)].decoded
    ensures Going(c, s) && NextReady(s.rcv.rx)
  {
    hide ConfigOk, Inv, Recent, Wrap;
    IndexKnown(c, s);
    assert Obtainable(c, s, g);
  }

  // One more block is read, sent, received and written.
  lemma OneThrough(c: Config, s: Sys, n: nat, x: Byte) returns (fs: seq<Event>, t: Sys)
    requires ConfigOk(c) && Inv(c, s) && CaughtUp(s, n)
    ensures Exec(c, s, fs) == Some(t) && CaughtUp(t, n + 1) && s.net <= t.net
    ensures n < |t.snd.log| && LogOk(c, t.snd.log) && Answer(c, t.snd.log, n, 0) in t.net
  {
    hide ConfigOk, Inv, Exec, Answer, LogOk, Afloat, AfterSending, Up, Going, NextReady, Wrap, OnlyFed, Holes,
      BlockAt;
    var send := [Read([x]), FlushTimer];
    SendOneBlock(c, s, x);
    var s1 := AfterSending(c, s, x);
    SentState(c, s, x);
    ExecInv(c, s, send);
    NewAfloat(c, s, x);
    var gs, s2 := Arrive(c, s1, n, c.k);
    StaysUp(s1.rcv, s2.rcv);
    ExecInv(c, s1, gs);
    HolesBelow(c, s1, n);
    HolesDelivered(c, s1, gs, s2, n);
    ArrivedIsGoing(c, s2, n);
    var ws;
    ws, t := WriteReady(c, s2);
    NetGrows(c, s2, ws, t);
    GoingUp(c, t);
    ExecAppend(c, s, send, gs);
    ExecAppend(c, s, send + gs, ws);
    fs := send + gs + ws;
    FirstAfloat(c, s1, n);
  }

  lemma SentState(c: Config, s: Sys, x: Byte)
    ensures var t := AfterSending(c, s, x);
            && t.rcv == s.rcv && t.snd.pc == Reading && |t.snd.log| == |s.snd.log| + 1 && s.net <= t.net
            && t.snd.tx == Flush(c, Ready(s, x))
  {
    hide Flush, FlushOut, FlushedGroup, Tag;
  }

  lemma NewAfloat(c: Config, s: Sys, x: Byte)
    requires ConfigOk(c) && Inv(c, s) && CaughtUp(s, |s.snd.log|)
    ensures Afloat(c, AfterSending(c, s, x), |s.snd.log|)
  {
    hide ConfigOk, Inv, AfterSending, LogOk, Answer, Up;
    PositiveK(c);
    SentState(c, s, x);
    OnTheWay(c, s, x, 0);
    forall i: nat | i < c.k
      ensures Answer(c, AfterSending(c, s, x).snd.log, |s.snd.log|, i) in AfterSending(c, s, x).net
    {
      OnTheWay(c, s, x, i);
    }
  }

  lemma FirstAfloat(c: Config, s: Sys, g: nat)
    requires ConfigOk(c) && Afloat(c, s, g)
    ensures LogOk(c, s.snd.log) && g < |s.snd.log| && Answer(c, s.snd.log, g, 0) in s.net
  {
    hide ConfigOk, LogOk, Answer;
    PositiveK(c);
  }

  lemma HolesBelow(c: Config, s: Sys, g: nat)
    requires ConfigOk(c) && Inv(c, s) && s.rcv.w == g < |s.snd.log|
    ensures forall i :: i in Holes(BlockAt(c, s.rcv.rx, Wrap(g))) ==> i < c.k
  {
    hide ConfigOk, Inv, BlockAt, Wrap, Settled;
    PositiveK(c);
    FullIsSettled(c, s, g, 0);
  }

  lemma StaysUp(v: Rcv, v': Rcv)
    requires Up(v) && v.pc == Top && OnlyFed(v, v')
    ensures Up(v') && v'.pc == Top && v'.w == v.w && !v'.rx.recvClosed
  {
  }

  lemma GoingUp(c: Config, s: Sys)
    requires Going(c, s)
    ensures Up(s.rcv)
  {
    hide Inv, Up, Obtainable;
  }

  // n blocks, one after the other; the first data packet of the first is still under way.
  lemma {:induction false} ManyThrough(c: Config, n: nat, x: Byte) returns (es: seq<Event>, s: Sys)
    requires ConfigOk(c)
    ensures Reaches(c, es, s) && CaughtUp(s, n)
    ensures n > 0 ==> Delayed(s)
  {
    hide ConfigOk, Exec, CaughtUp, Answer, LogOk, Inv, InitSys;
    if n == 0 {
      es, s := [], InitSys(c);
      ExecNone(c, s);
      NewCaughtUp(c);
    } else {
      var es1, s1 := ManyThrough(c, n - 1, x);
      ReachableInv(c, es1, s1);
      var fs;
      fs, s := OneThrough(c, s1, n - 1, x);
      ExecAppend(c, InitSys(c), es1, fs);
      es := es1 + fs;
      if n == 1 {
        AnswerGroup(c, s.snd.log, 0, 0);
        assert Answer(c, s.snd.log, 0, 0) in s.net;
      } else {
        var d :| d in s1.net && d.grp == 0;
        assert d in s.net;
      }
    }
  }

  // A packet of block 0 is still under way.
  ghost predicate Delayed(s: Sys) {
    exists d :: d in s.net && d.grp == 0
  }

  lemma NewCaughtUp(c: Config)
    ensures CaughtUp(InitSys(c), 0)
  {
  }

  // The window hypothesis cannot be widened by a single block: after 32768 blocks, read, sent and
  // written, a packet of block 0 that was delayed all the while is stored as part of block 65536.
  lemma WindowIsTight(c: Config, x: Byte) returns (es: seq<Event>, s: Sys, d: Datagram)
    requires ConfigOk(c)
    ensures Reaches(c, es, s) && d in s.net && d.grp == 0 && |s.snd.log| == 32768 && LockFree(s.rcv.pc)
    ensures LogOk(c, s.snd.log) && Genuine(c, s.snd.log, d)
    ensures var p := Unmarshal(ReadBuffer(d.bytes)).value;
            var blocks := DoData(c, s.rcv, d).rx.rxBlocks;
            && p.groupID !in s.rcv.rx.rxBlocks && p.groupID in blocks
            && Forward(s.rcv.w, p.groupID) == 65536
            && p.idx < |blocks[p.groupID].packets|
            && blocks[p.groupID].packets[p.idx] == Some(Payload(c, s.snd.log[0], p.idx))
  {
    hide ConfigOk, Exec, Inv, DoData, Unmarshal, Payload, Forward, Genuine, LogOk;
    es, s := ManyThrough(c, 32768, x);
    ReachableInv(c, es, s);
    assert Delayed(s);
    d :| d in s.net && d.grp == 0;
    Misfiled(c, s, d);
  }
}
