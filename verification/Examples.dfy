// Runs that show where the promises end, and how the sleeping writer gets going again.
module Examples {
  import opened Basics
  import opened Serial
  import opened Protocol
  import opened Shards
  import opened ErasureCode
  import opened Sender
  import opened SenderProofs
  import opened Receiver
  import opened ReceiverProofs
  import opened System
  import opened Invariant
  import opened SenderSteps
  import opened ReceiverSteps
  import opened WriterSteps
  import opened Steps
  import opened Controller
  import opened Retransmission
  import opened Progress
  import opened Theorems
  import opened Beyond

  lemma Then(c: Config, s0: Sys, es: seq<Event>, s: Sys, e: Event)
    requires Exec(c, s0, es) == Some(s) && Enabled(c, s, e)
    ensures Exec(c, s0, es + [e]) == Some(Step(c, s, e))
  {
    hide Step, Enabled;
    ExecAppend(c, s0, es, [e]);
    assert [e][1..] == [];
  }

  // ---- one block sent

  ghost function OneBlock(c: Config, x: Byte): Snd {
    var t := Append(InitTx(c), [x]);
    Snd(Flush(c, t), Reading, [x], [FlushedGroup(c, t)], {})
  }

  ghost function OneSent(c: Config, x: Byte): Sys {
    InitSys(c).(snd := OneBlock(c, x), net := Tag(0, FlushOut(c, Append(InitTx(c), [x]))))
  }

  lemma SendOne(c: Config, x: Byte)
    requires ConfigOk(c)
    ensures Exec(c, InitSys(c), [Read([x]), FlushTimer]) == Some(OneSent(c, x))
    ensures Flush(c, Append(InitTx(c), [x])).pending == []
  {
    hide ConfigOk, Exec, FlushOut, Flush, Tag, Inv, FlushedGroup;
    InitInv(c);
    SendOneBlock(c, InitSys(c), x);
    var t := Append(InitTx(c), [x]);
    assert [] + [x] == [x] && [] + [FlushedGroup(c, t)] == [FlushedGroup(c, t)];
    assert {} + Tag(0, FlushOut(c, t)) == Tag(0, FlushOut(c, t));
  }

  // ---- truncation

  ghost function Report(c: Config): Datagram {
    var p := LqrPacket(c, InitRx(c), 0);
    Datagram(0, match Marshal(p) case Ok(buf) => buf case Err => [])
  }

  lemma ReportMade(c: Config, x: Byte)
    requires ConfigOk(c)
    ensures var s := OneSent(c, x);
            DoReport(c, s, 0) == s.(rcv := s.rcv.(rx := LqrTimeout(s.rcv.rx, 0), reports := [0]), lqrNet := {Report(c)})
    ensures Unmarshal(Report(c).bytes) == Ok(LqrPacket(c, InitRx(c), 0))
  {
    hide Contract, Losses, Marshal, Unmarshal, OneBlock, Tag;
    LqrOnWire(c, InitRx(c), 0);
    ForwardExact(0, 0);
    assert {} + {Report(c)} == {Report(c)};
    assert [] + [0] == [0];
  }

  // The sender after that report: nothing is tracked any more.
  lemma ReportTaken(c: Config, x: Byte)
    requires ConfigOk(c)
    ensures var t := HandleLQR(c, OneBlock(c, x).tx, 0, Losses(NewBlock(c, 0)));
            t.pending == [] && t.txBlocks == map[] && Accepts(OneBlock(c, x).tx, 0)
  {
    hide Contract, Frame, DataPackets, CacheAll, Losses, NewBlock;
    var t := Append(InitTx(c), [x]);
    FlushShape(c, t, 0);
    assert Flush(c, t).txBlocks == map[0 := TxBlock(0, c.m, false)];
    AdaptKeepsBlocks(c, Flush(c, t), Losses(NewBlock(c, 0)));
  }

  ghost function Acked(c: Config, x: Byte): Sys {
    var s := OneSent(c, x);
    s.(snd := s.snd.(tx := HandleLQR(c, s.snd.tx, 0, Losses(NewBlock(c, 0))), acked := {0}),
       rcv := s.rcv.(rx := LqrTimeout(s.rcv.rx, 0), reports := [0]),
       lqrNet := {Report(c)})
  }

  lemma AckOne(c: Config, x: Byte)
    requires ConfigOk(c)
    ensures Exec(c, InitSys(c), [Read([x]), FlushTimer] + [LqrTimer(0), LqrArrives(Report(c))]) == Some(Acked(c, x))
  {
    hide ConfigOk, Losses, Unmarshal, Report, DoReport, HandleLQR, Accepts, LqrTimeout;
    SendOne(c, x);
    ReportMade(c, x);
    ReportTaken(c, x);
    var s := OneSent(c, x);
    var s1 := DoReport(c, s, 0);
    ReportGroup(c);
    assert s.snd.acked + {0} == {0};
    ExecTwo(c, s, LqrTimer(0), LqrArrives(Report(c)));
    ExecAppend(c, InitSys(c), [Read([x]), FlushTimer], [LqrTimer(0), LqrArrives(Report(c))]);
  }

  lemma ReportGroup(c: Config)
    ensures Report(c).grp == 0
  {
  }

  // Closing a stream whose blocks are all acknowledged.
  lemma CloseStream(c: Config, s: Sys)
    requires s.snd.pc == Reading && s.snd.tx.pending == [] && s.snd.tx.txBlocks == map[] && !s.closeNet
    ensures Exec(c, s, [Eof, FinalFlush] + [CloseAcked, CloseArrives]) ==
            Some(s.(snd := s.snd.(pc := Closed(true)),
                    rcv := s.rcv.(closeRecv := true, closePending := s.rcv.closePending + 1), closeNet := true))
  {
    hide Tag;
    var s1 := s.(snd := s.snd.(pc := Ended));
    var s2 := s.(snd := s.snd.(pc := Flushed));
    EmptyTag(|s.snd.log|);
    assert s.net + {} == s.net;
    assert DoFlush(c, s1, s1.snd.tx, s1.snd.input, Flushed) == s2;
    ExecTwo(c, s, Eof, FinalFlush);
    ExecTwo(c, s2, CloseAcked, CloseArrives);
    ExecAppend(c, s, [Eof, FinalFlush], [CloseAcked, CloseArrives]);
  }

  // The writer, with CLOSE received and no block ready, from the top of its loop.
  lemma WriterLeaves(c: Config, s: Sys)
    requires s.rcv.pc == Top && !s.rcv.cancelled && !NextReady(s.rcv.rx) && s.rcv.closeRecv && CloseExit(s.rcv.rx)
    ensures Exec(c, s, [WriterStep, WriterStep] + [WriterStep, WriterStep] + [WriterStep]) ==
            Some(s.(rcv := s.rcv.(pc := Leaving(if s.rcv.rx.hasRecv then AllWritten else NothingReceived))))
  {
    hide NextReady, Drained, DoReport, DoWritten, NextSlot, NextReported;
    var s2 := s.(rcv := s.rcv.(pc := CtxOk));
    var s4 := s.(rcv := s.rcv.(pc := Decide(true)));
    ExecTwo(c, s, WriterStep, WriterStep);
    ExecTwo(c, s2, WriterStep, WriterStep);
    ExecAppend(c, s, [WriterStep, WriterStep], [WriterStep, WriterStep]);
    Then(c, s, [WriterStep, WriterStep] + [WriterStep, WriterStep], s4, WriterStep);
  }

  // The exception to NoTruncation is real: one byte sent, its block lost entirely, the report on
  // the expected block taken for an acknowledgement, CLOSE sent, the receiver done with nothing.
  lemma TruncatedRun(c: Config, x: Byte) returns (es: seq<Event>, s: Sys)
    requires ConfigOk(c)
    ensures Reaches(c, es, s) && s.snd.pc == Closed(true) && s.rcv.pc == Leaving(NothingReceived)
    ensures |s.snd.log| == 1 && s.snd.input == [x] && s.rcv.output == []
  {
    hide ConfigOk, Exec, HandleLQR, Losses, Report, NewBlock;
    AckOne(c, x);
    ReportTaken(c, x);
    var es1, s1 := [Read([x]), FlushTimer] + [LqrTimer(0), LqrArrives(Report(c))], Acked(c, x);
    CloseStream(c, s1);
    var es2 := [Eof, FinalFlush] + [CloseAcked, CloseArrives];
    ExecAppend(c, InitSys(c), es1, es2);
    var s2 := Exec(c, s1, es2).value;
    NotYetReady(c);
    WriterLeaves(c, s2);
    var es3 := [WriterStep, WriterStep] + [WriterStep, WriterStep] + [WriterStep];
    ExecAppend(c, InitSys(c), es1 + es2, es3);
    es, s := es1 + es2 + es3, Exec(c, s2, es3).value;
  }

  lemma NotYetReady(c: Config)
    ensures !NextReady(LqrTimeout(InitRx(c), 0)) && !LqrTimeout(InitRx(c), 0).hasRecv
  {
  }

  // ---- a report that counts a packet which did arrive

  ghost function Shot(c: Config, x: Byte, i: nat): Datagram {
    var t := Append(InitTx(c), [x]);
    Datagram(0, if i < |FlushOut(c, t)| then FlushOut(c, t)[i] else [])
  }

  lemma ShotOk(c: Config, x: Byte, i: nat)
    requires ConfigOk(c) && i < c.k + c.m
    ensures Shot(c, x, i) in OneSent(c, x).net
    ensures LogOk(c, OneBlock(c, x).log) && Genuine(c, OneBlock(c, x).log, Shot(c, x, i))
    ensures Unmarshal(ReadBuffer(Shot(c, x, i).bytes)).value.idx == i
    ensures OneBlock(c, x).log[0].m == c.m
  {
    hide Contract, FlushOut, Unmarshal, PacketOf, Marshal;
    var t := Append(InitTx(c), [x]);
    FrameFramed([x]);
    FlushOutput(c, t, 0);
    TagGenuine(c, t, []);
    PacketOnWire(c, 0, FlushedGroup(c, t), i, FlushOut(c, t)[i]);
    assert OneBlock(c, x).log == [] + [FlushedGroup(c, t)];
  }

  // The state is one block sent, none written, nothing reported, and nobody holds the lock.
  ghost predicate Waiting(c: Config, x: Byte, s: Sys) {
    && s.snd == OneBlock(c, x) && s.net == OneSent(c, x).net
    && s.rcv.w == 0 && LockFree(s.rcv.pc) && !s.rcv.pc.Parked? && !s.rcv.rx.recvClosed && Reports(s.rcv.rx, 0)
  }

  lemma Hit(c: Config, x: Byte, s: Sys, i: nat) returns (t: Sys)
    requires ConfigOk(c) && Inv(c, s) && Waiting(c, x, s) && i < c.k + c.m
    ensures Enabled(c, s, DataArrives(Shot(c, x, i))) && t == Step(c, s, DataArrives(Shot(c, x, i)))
    ensures Inv(c, t) && Waiting(c, x, t) && OnlyFed(s.rcv, t.rcv)
    ensures var f := At(s.rcv.filled, 0); At(t.rcv.filled, 0) == if |f| >= c.k && i < c.k then f else f + {i}
    ensures At(t.rcv.arrived, 0) == At(s.rcv.arrived, 0) + {i}
    ensures |t.rcv.rx.rxBlocks[0].packets| == Max(|s.rcv.rx.rxBlocks[0].packets|, i + 1)
  {
    hide ConfigOk, Inv, Shot, OneBlock, OneSent, DoData, OnlyFed, Genuine, LogOk, Unmarshal, DoRead, DoFlush, DoLqr,
      DoNak, DoWriter, DoReport;
    ShotOk(c, x, i);
    ShotGroup(c, x, i);
    t := Step(c, s, DataArrives(Shot(c, x, i)));
    StepInv(c, s, DataArrives(Shot(c, x, i)));
    var _ := HitBlock(c, x, s, i);
  }

  // The block takes the packet.
  lemma HitBlock(c: Config, x: Byte, s: Sys, i: nat) returns (v: Rcv)
    requires ConfigOk(c) && Inv(c, s) && Waiting(c, x, s) && i < c.k + c.m
    ensures v.w == 0 && LockFree(v.pc) && !v.pc.Parked? && !v.rx.recvClosed && Reports(v.rx, 0) && OnlyFed(s.rcv, v)
    ensures var f := At(s.rcv.filled, 0); At(v.filled, 0) == if |f| >= c.k && i < c.k then f else f + {i}
    ensures At(v.arrived, 0) == At(s.rcv.arrived, 0) + {i}
    ensures |v.rx.rxBlocks[0].packets| == Max(|s.rcv.rx.rxBlocks[0].packets|, i + 1)
    ensures v == DoData(c, s.rcv, Shot(c, x, i))
  {
    hide ConfigOk, Unmarshal, Shot, OneBlock, OneSent, Receive, PacketOf, NetOk, LqrNetOk, ReportsOk, WakeOk, OutputOk,
      BusyOk, TxInv, BlocksOk, FilledOk, BlockOk, SndCloseOk, RcvCloseOk, Marshal;
    ShotOk(c, x, i);
    ShotGroup(c, x, i);
    var d, u, log := Shot(c, x, i), s.rcv, s.snd.log;
    var p := Unmarshal(ReadBuffer(d.bytes)).value;
    PacketFields(c, log, 0, p);
    WantedIsOrder(|log|, u.rx, u.w, u.x, 0);
    ReceivedOk(c, log, u.rx, u.w, u.x, u.filled, u.arrived, 0, p);
    BlockAtOk(c, log, u.rx, u.w, u.x, u.filled, u.arrived, 0);
    CountDecodes(c, log[0], u.rx.rxBlocks[0], At(u.filled, 0));
    ReceiveLength(c, u.rx.rxBlocks[0], i, p.payload);
    DataKeeps(c, u, d);
    DataLeavesOpen(c, u, d);
    v := DoData(c, u, d);
  }

  lemma ShotGroup(c: Config, x: Byte, i: nat)
    ensures Shot(c, x, i).grp == 0 && |OneBlock(c, x).log| == 1
  {
    hide Flush, FlushOut;
  }

  lemma CountDecodes(c: Config, grp: Group, b: RxBlock, f: set<nat>)
    requires |grp.shards| == c.k && BlockOk(c, grp, b, f)
    ensures b.decoded <==> |f| >= c.k
  {
    hide Sized, SlotsOk;
  }

  // The packets lo .. hi - 1.
  function Stretch(lo: nat, hi: nat): (r: set<nat>)
    requires lo <= hi
    ensures |r| == hi - lo && forall i: nat :: i in r <==> lo <= i < hi
  {
    if lo == hi then {} else Stretch(lo, hi - 1) + {hi - 1}
  }

  // At most K of the packets of the block arrive, one after the other.
  lemma {:induction false} Volley(c: Config, x: Byte, lo: nat, hi: nat) returns (es: seq<Event>, s: Sys)
    requires ConfigOk(c) && lo <= hi <= c.k + c.m && hi - lo <= c.k
    ensures Reaches(c, es, s) && Inv(c, s) && Waiting(c, x, s) && s.rcv.pc == Top && !s.rcv.cancelled
    ensures At(s.rcv.filled, 0) == Stretch(lo, hi) == At(s.rcv.arrived, 0)
    ensures |s.rcv.rx.rxBlocks[0].packets| == Max(c.k + c.rxM, if lo < hi then hi else 0)
    decreases hi
  {
    hide ConfigOk, Exec, Shot, Inv, Enabled, Step, OneBlock, Stretch;
    if lo == hi {
      assert Stretch(lo, hi) == {};
      SendOne(c, x);
      es, s := [Read([x]), FlushTimer], OneSent(c, x);
      ReachableInv(c, es, s);
      FreshlySent(c, x);
    } else {
      var es1, s1 := Volley(c, x, lo, hi - 1);
      s := Hit(c, x, s1, hi - 1);
      Then(c, InitSys(c), es1, s1, DataArrives(Shot(c, x, hi - 1)));
      es := es1 + [DataArrives(Shot(c, x, hi - 1))];
      assert Stretch(lo, hi) == Stretch(lo, hi - 1) + {hi - 1};
    }
  }

  lemma FreshlySent(c: Config, x: Byte)
    ensures var s := OneSent(c, x);
            && s.snd == OneBlock(c, x) && s.rcv.w == 0 && s.rcv.pc == Top && !s.rcv.rx.recvClosed && !s.rcv.cancelled
            && Reports(s.rcv.rx, 0) && |s.rcv.rx.rxBlocks[0].packets| == c.k + c.rxM
            && At(s.rcv.filled, 0) == {} == At(s.rcv.arrived, 0)
  {
    hide OneBlock, FlushOut;
  }

  // Packets 1 to K, then packet 0.
  lemma ZeroLast(c: Config, x: Byte) returns (es: seq<Event>, s: Sys)
    requires ConfigOk(c) && c.m >= 1
    ensures Reaches(c, es, s) && Waiting(c, x, s)
    ensures At(s.rcv.filled, 0) == Stretch(1, c.k + 1) && At(s.rcv.arrived, 0) == Upto(c.k + 1)
  {
    hide ConfigOk, Exec, Shot, Waiting, Enabled, Step, Stretch, Upto, OnlyFed, Inv, At, InitSys;
    PositiveK(c);
    var es1, s1 := Volley(c, x, 1, c.k + 1);
    s := Hit(c, x, s1, 0);
    Then(c, InitSys(c), es1, s1, DataArrives(Shot(c, x, 0)));
    es := es1 + [DataArrives(Shot(c, x, 0))];
    WholeStretch(c.k);
  }

  lemma WholeStretch(k: nat)
    ensures Stretch(1, k + 1) + {0} == Upto(k + 1) && |Stretch(1, k + 1)| == k
  {
  }

  // Every K, and at least one parity packet: packets 1 to K arrive, the last of them parity, and data
  // packet 0 is rebuilt; then it arrives as well.  Everything arrived, and the report says one loss.
  lemma LateShardRun(c: Config, x: Byte) returns (es: seq<Event>, s: Sys)
    requires ConfigOk(c) && c.m >= 1
    ensures Reaches(c, es, s) && Reports(s.rcv.rx, 0)
    ensures At(s.rcv.arrived, 0) == Upto(c.k + 1) && ExpectedTotal(s.rcv.rx.rxBlocks[0]) == c.k + 1
    ensures LqrPacket(c, s.rcv.rx, 0).losses == 1
  {
    hide ConfigOk, Exec, Losses, ExpectedTotal, Waiting, Stretch, BlockOk, GroupOk, Inv, InitSys;
    es, s := ZeroLast(c, x);
    ReachableInv(c, es, s);
    BlockZero(c, x, s);
    LateBlock(c, s.snd.log[0], s.rcv.rx.rxBlocks[0], At(s.rcv.filled, 0));
  }

  lemma BlockZero(c: Config, x: Byte, s: Sys)
    requires ConfigOk(c) && Inv(c, s) && Waiting(c, x, s)
    ensures Reports(s.rcv.rx, 0) && s.rcv.rx.nextWriteGrp == 0
    ensures |s.snd.log| == 1 && GroupOk(c, s.snd.log[0])
    ensures BlockOk(c, s.snd.log[0], s.rcv.rx.rxBlocks[0], At(s.rcv.filled, 0))
  {
    hide Contract, Flush, NetOk, LqrNetOk, ReportsOk, WakeOk, OutputOk, BusyOk, TxInv, BlocksOk, FilledOk, BlockOk,
      SndCloseOk, RcvCloseOk, ShardOk;
    ShotGroup(c, x, 0);
    ForwardExact(0, 0);
    LogKnown(c, s.snd);
    BlockAtOk(c, s.snd.log, s.rcv.rx, 0, s.rcv.x, s.rcv.filled, s.rcv.arrived, 0);
  }

  lemma LateBlock(c: Config, grp: Group, b: RxBlock, f: set<nat>)
    requires ConfigOk(c) && GroupOk(c, grp) && BlockOk(c, grp, b, f) && f == Stretch(1, c.k + 1)
    ensures ExpectedTotal(b) == c.k + 1 && Losses(b) == 1
  {
    hide Contract, Losses, Payload, Stretch;
    LossesCount(c, grp, b, f);
    LastFilledIs(b.packets);
    assert c.k in f;
    assert b.packets[c.k] == SlotValue(c, grp, b.decoded, f, c.k);
    HighestSlot(c, grp, b, f);
  }

  // Past the last packet that arrived there is nothing.
  lemma HighestSlot(c: Config, grp: Group, b: RxBlock, f: set<nat>)
    requires |grp.shards| == c.k && SlotsOk(c, grp, b, f) && f == Stretch(1, c.k + 1)
    ensures forall i :: c.k < i < |b.packets| ==> b.packets[i].None?
  {
    hide Payload, Stretch;
  }

  // ---- a slice replaced under the writer

  // All data packets have arrived and the writer has begun to write the block.
  lemma WriterBegins(c: Config, x: Byte) returns (es: seq<Event>, s: Sys)
    requires ConfigOk(c)
    ensures Reaches(c, es, s) && Inv(c, s) && Waiting(c, x, s) && s.rcv.pc == Writing(0)
    ensures s.rcv.rx.rxBlocks[0].decoded && |s.rcv.rx.rxBlocks[0].packets| == c.k + c.rxM
  {
    hide ConfigOk, Exec, OneBlock, Waiting, Inv, Stretch, NextReady;
    var es1, s1 := Volley(c, x, 0, c.k);
    BlockZero(c, x, s1);
    FullDecoded(c, x, s1);
    StartWriting(c, s1);
    var ws := [WriterStep, WriterStep] + [WriterStep];
    s := s1.(rcv := s1.rcv.(pc := Writing(0)));
    ExecAppend(c, InitSys(c), es1, ws);
    es := es1 + ws;
    ReachableInv(c, es, s);
    StillWaiting(c, x, s1);
  }

  // The receiver has room for fewer parity packets than the sender makes: while the writer is at work on
  // the decoded block, the last parity packet arrives, and the slots are copied to a longer slice.
  lemma GrownRun(c: Config, x: Byte) returns (es: seq<Event>, s: Sys, e: Event)
    requires ConfigOk(c) && c.rxM < c.m
    ensures Reaches(c, es, s) && s.rcv.pc == Writing(0) && Enabled(c, s, e)
    ensures 0 in s.rcv.rx.rxBlocks && s.rcv.rx.rxBlocks[0].decoded && 0 in Step(c, s, e).rcv.rx.rxBlocks
    ensures |s.rcv.rx.rxBlocks[0].packets| == c.k + c.rxM && |Step(c, s, e).rcv.rx.rxBlocks[0].packets| == c.k + c.m
  {
    hide ConfigOk, Exec, Shot, OneBlock, Waiting, Enabled, Step, Inv, OnlyFed, BlockOk, GroupOk;
    es, s := WriterBegins(c, x);
    BlockZero(c, x, s);
    e := DataArrives(Shot(c, x, c.k + c.m - 1));
    var t := Hit(c, x, s, c.k + c.m - 1);
    BlockZero(c, x, t);
  }

  lemma StillWaiting(c: Config, x: Byte, s: Sys)
    requires Waiting(c, x, s)
    ensures Waiting(c, x, s.(rcv := s.rcv.(pc := Writing(0))))
  {
    hide OneBlock;
  }

  lemma FullDecoded(c: Config, x: Byte, s: Sys)
    requires ConfigOk(c) && Inv(c, s) && Waiting(c, x, s) && At(s.rcv.filled, 0) == Stretch(0, c.k)
    ensures NextReady(s.rcv.rx) && s.rcv.rx.rxBlocks[0].decoded
  {
    hide Contract, Waiting, Stretch, SlotsOk;
    BlockZero(c, x, s);
  }

  lemma StartWriting(c: Config, s: Sys)
    requires s.rcv.pc == Top && !s.rcv.cancelled && NextReady(s.rcv.rx)
    ensures Exec(c, s, [WriterStep, WriterStep] + [WriterStep]) == Some(s.(rcv := s.rcv.(pc := Writing(0))))
  {
    hide NextReady, Drained, DoReport, DoWritten, NextSlot, NextReported;
    var s2 := s.(rcv := s.rcv.(pc := CtxOk));
    ExecTwo(c, s, WriterStep, WriterStep);
    Then(c, s, [WriterStep, WriterStep], s2, WriterStep);
  }

  // ---- leaving the sleep

  // The pending broadcast, then the writer's own steps: a sleeping writer that has a reason to stop
  // gets to stop.
  lemma SleepEnds(c: Config, es: seq<Event>, s: Sys) returns (fs: seq<Event>, t: Sys)
    requires ConfigOk(c) && Reaches(c, es, s) && s.rcv.pc == Parked
    requires s.rcv.cancelled || (s.rcv.closeRecv && CloseExit(s.rcv.rx))
    ensures Exec(c, s, fs) == Some(t) && t.rcv.pc.Leaving?
    ensures s.rcv.cancelled ==> t.rcv.pc == Leaving(Cancelled)
    ensures !s.rcv.cancelled ==> t.rcv.pc == Leaving(if s.rcv.rx.hasRecv then AllWritten else NothingReceived)
  {
    hide ConfigOk, Reaches, NextReady, Drained, DoReport, DoWritten;
    NoLostWakeup(c, es, s);
    if s.rcv.cancelled {
      var s1 := Step(c, s, CancelBroadcast);
      ExecTwo(c, s, CancelBroadcast, WriterStep);
      fs := [CancelBroadcast, WriterStep] + [WriterStep];
      var s2 := s1.(rcv := s1.rcv.(pc := Locked));
      Then(c, s, [CancelBroadcast, WriterStep], s2, WriterStep);
      t := Step(c, s2, WriterStep);
    } else {
      var s1 := Step(c, s, CloseBroadcast);
      ExecNone(c, s);
      Then(c, s, [], s, CloseBroadcast);
      WriterLeaves(c, s1);
      var ws := [WriterStep, WriterStep] + [WriterStep, WriterStep] + [WriterStep];
      ExecAppend(c, s, [] + [CloseBroadcast], ws);
      fs := [] + [CloseBroadcast] + ws;
      t := Exec(c, s1, ws).value;
    }
  }
}
