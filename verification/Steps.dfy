// Every event keeps the invariant, so every reachable state satisfies it.
module Steps {
  import opened Serial
  import opened Protocol
  import opened Shards
  import opened Sender
  import opened SenderProofs
  import opened Receiver
  import opened ReceiverProofs
  import opened System
  import opened Invariant
  import opened SenderSteps
  import opened ReceiverSteps
  import opened WriterSteps

  // ---- closing, sender side

  // All tracked blocks acknowledged means in particular the last one.
  lemma AckedStep(c: Config, s: Sys)
    requires ConfigOk(c) && Inv(c, s) && Enabled(c, s, CloseAcked)
    ensures Inv(c, Step(c, s, CloseAcked))
  {
    hide NetOk, LqrNetOk, RcvOk, CountersOk, ContentOk, CacheOk, ConfigOk, Wrap, Backward;
    var n := |s.snd.log|;
    if n > 0 {
      var g: nat := n - 1;
      assert g in s.snd.acked || Wrap(g) in s.snd.tx.txBlocks;
    }
  }

  lemma TimeoutStep(c: Config, s: Sys)
    requires ConfigOk(c) && Inv(c, s) && Enabled(c, s, CloseTimeout)
    ensures Inv(c, Step(c, s, CloseTimeout))
  {
    hide TxInv, NetOk, LqrNetOk, RcvOk, ConfigOk;
  }

  lemma EofStep(c: Config, s: Sys)
    requires ConfigOk(c) && Inv(c, s) && Enabled(c, s, Eof)
    ensures Inv(c, Step(c, s, Eof))
  {
    hide TxInv, NetOk, LqrNetOk, RcvOk, ConfigOk;
  }

  // ---- receiver events, with the rest of the system

  lemma DataArrivesStep(c: Config, s: Sys, d: Datagram)
    requires ConfigOk(c) && Inv(c, s) && Enabled(c, s, DataArrives(d))
    ensures Inv(c, Step(c, s, DataArrives(d)))
  {
    hide TxInv, LqrNetOk, RcvOk, ConfigOk, HandleData, Completes, Unmarshal, Genuine;
    LogKnown(c, s.snd);
    assert Genuine(c, s.snd.log, d);
    DataStep(c, s.snd.log, s.rcv, d);
    DataKeeps(c, s.rcv, d);
  }

  // What a packet leaves alone.
  lemma DataKeeps(c: Config, v: Rcv, d: Datagram)
    ensures var v' := DoData(c, v, d);
            && v'.reports == v.reports && v'.w == v.w && v'.closeRecv == v.closeRecv && v'.cancelled == v.cancelled
            && (v.rx.hasRecv ==> v'.rx.hasRecv)
            && (v'.pc == v.pc || (v.pc == Parked && v'.pc == Top))
  {
    hide Receive, Unmarshal, Later, FilledAfter;
  }

  // Leaving through the CLOSE branch after an acknowledged CLOSE: nothing is left to write.
  lemma CloseBranch(c: Config, s: Sys)
    requires ConfigOk(c) && Inv(c, s) && s.rcv.pc == Decide(true)
    ensures var v, snd := s.rcv, s.snd;
            && s.closeNet
            && (!v.rx.hasRecv ==> v.w == 0 && (snd.pc == Closed(true) ==> |snd.log| <= 1))
            && (v.rx.hasRecv && Drained(v.rx) ==> snd.pc == Closed(true) ==> v.w == |snd.log|)
  {
    hide TxInv, NetOk, LqrNetOk, BlocksOk, FilledOk, OutputOk, BusyOk, ConfigOk, Drained, Wrap, ReportsOk,
      NextReady;
    var v, n := s.rcv, |s.snd.log|;
    if v.rx.hasRecv {
      DrainedIsOrder(n, v.rx, v.w, v.x);
    }
    if s.snd.pc == Closed(true) && n > 0 {
      ReportHeard(v.rx, v.w, v.x, v.reports, n - 1);
    }
  }

  lemma ReportHeard(r: Rx, w: nat, x: nat, reports: seq<nat>, g: nat)
    requires ReportsOk(r, w, x, reports) && g in reports
    ensures g != 0 ==> r.hasRecv && g <= x
  {
    hide Wrap, Forward, Distinct;
  }

  // A step of the writer that moves only its program point.
  lemma MovePC(c: Config, s: Sys, pc: WriterPC)
    requires ConfigOk(c) && Inv(c, s) && !Busy(s.rcv.pc) && !Broken(s.rcv.pc) && !Broken(pc)
    requires Busy(pc) ==> pc == Writing(0) && NextReady(s.rcv.rx)
    requires LeftFor(pc, AllWritten) ==>
      s.closeNet && s.rcv.rx.hasRecv && (s.snd.pc == Closed(true) ==> s.rcv.w == |s.snd.log|)
    requires LeftFor(pc, NothingReceived) ==>
      s.closeNet && s.rcv.w == 0 && (s.snd.pc == Closed(true) ==> |s.snd.log| <= 1)
    requires WakeOk(s.rcv.(pc := pc))
    ensures Inv(c, s.(rcv := s.rcv.(pc := pc)))
  {
    hide TxInv, NetOk, LqrNetOk, BlocksOk, FilledOk, ReportsOk, IndexOk, WakeOk, ConfigOk, LogBytes, NextReady,
      BlockOk;
    LogKnown(c, s.snd);
    if pc == Writing(0) {
      NextHeard(c, s.snd.log, s.rcv);
    }
    SamePart(c, GroupAt(c, s.snd.log, s.rcv.w).shards, s.rcv.pc, pc);
  }

  lemma SamePart(c: Config, shards: seq<Shard>, pc: WriterPC, pc': WriterPC)
    requires |shards| == c.k && !Busy(pc) && (Busy(pc') ==> pc' == Writing(0))
    ensures PartOf(c, shards, pc) == PartOf(c, shards, pc') == []
  {
  }

  lemma CheckStep(c: Config, s: Sys)
    requires ConfigOk(c) && Inv(c, s)
    requires s.rcv.pc.Top? || s.rcv.pc.Locked? || s.rcv.pc.CtxOk? || s.rcv.pc.NotReady? || s.rcv.pc.Decide?
    ensures Inv(c, DoWriter(c, s))
  {
    hide DoReport, DoWritten, Inv, ConfigOk, NextReady, Drained;
    var pc' := DoWriter(c, s).rcv.pc;
    CheckWakes(c, s);
    if s.rcv.pc == Decide(true) {
      CloseBranch(c, s);
    }
    MovePC(c, s, pc');
  }

  lemma CheckWakes(c: Config, s: Sys)
    requires Inv(c, s)
    requires s.rcv.pc.Top? || s.rcv.pc.Locked? || s.rcv.pc.CtxOk? || s.rcv.pc.NotReady? || s.rcv.pc.Decide?
    ensures WakeOk(DoWriter(c, s).rcv)
  {
    hide DoReport, TxInv, NetOk, LqrNetOk, BlocksOk, FilledOk, ReportsOk, IndexOk, OutputOk, NextReady, Drained;
  }

  lemma WritingStep(c: Config, s: Sys)
    requires ConfigOk(c) && Inv(c, s) && s.rcv.pc.Writing?
    ensures Inv(c, DoWriter(c, s))
  {
    hide DoReport, TxInv, NetOk, LqrNetOk, BlocksOk, FilledOk, ReportsOk, IndexOk, ConfigOk, LogBytes, Bytes,
      NextReady, NextSlot, SlotBytes;
    LogKnown(c, s.snd);
    var i := s.rcv.pc.next;
    if i < c.k {
      ShardWritten(c, s.snd.log, s.rcv);
    } else {
      var shards := s.snd.log[s.rcv.w].shards;
      assert shards[..i] == shards;
    }
  }

  lemma DoneStep(c: Config, s: Sys)
    requires ConfigOk(c) && Inv(c, s) && (s.rcv.pc.Done? || s.rcv.pc.Removing?)
    ensures Inv(c, DoWriter(c, s))
  {
    hide DoReport, TxInv, NetOk, LqrNetOk, BlocksOk, FilledOk, ReportsOk, IndexOk, ConfigOk, LogBytes, Bytes,
      NextReady, NextReported, Written;
    LogKnown(c, s.snd);
    if s.rcv.pc.Removing? || NextReported(s.rcv.rx) {
      FinishedStep(c, s.snd.log, s.rcv, DoWritten(s.rcv));
    }
  }

  lemma ReportingStep(c: Config, s: Sys)
    requires ConfigOk(c) && Inv(c, s) && s.rcv.pc.Reporting?
    ensures Inv(c, DoWriter(c, s))
  {
    hide TxInv, NetOk, LqrNetOk, BlocksOk, FilledOk, ReportsOk, IndexOk, ConfigOk, LogBytes, Bytes, NextReady,
      NextReported, DoReport;
    ReportStep(c, s, s.rcv.rx.nextWriteGrp);
  }

  lemma LeavingStep(c: Config, s: Sys)
    requires ConfigOk(c) && Inv(c, s) && s.rcv.pc.Leaving?
    ensures Inv(c, DoWriter(c, s))
  {
    hide DoReport, TxInv, NetOk, LqrNetOk, BlockInv, Wrap, Forward, ConfigOk, LogBytes, Bytes, Distinct, Later;
    var v, v' := s.rcv, DoWriter(c, s).rcv;
    assert v'.rx == v.rx.(recvClosed := true);
  }

  lemma WriteFailsStep(c: Config, s: Sys, n: nat)
    requires ConfigOk(c) && Inv(c, s) && Enabled(c, s, WriteFails(n))
    ensures Inv(c, Step(c, s, WriteFails(n)))
  {
    hide TxInv, NetOk, LqrNetOk, BlocksOk, FilledOk, ReportsOk, IndexOk, ConfigOk, LogBytes, Bytes, NextReady,
      NextSlot, SlotBytes;
    LogKnown(c, s.snd);
    ShardBroken(c, s.snd.log, s.rcv, n, Leaving(WriteError));
  }

  lemma WriterInv(c: Config, s: Sys)
    requires ConfigOk(c) && Inv(c, s) && Enabled(c, s, WriterStep)
    ensures Inv(c, DoWriter(c, s))
  {
    hide Inv, ConfigOk, DoWriter;
    match s.rcv.pc
    case Writing(_) => WritingStep(c, s);
    case Done => DoneStep(c, s);
    case Removing => DoneStep(c, s);
    case Reporting => ReportingStep(c, s);
    case Leaving(_) => LeavingStep(c, s);
    case _ => CheckStep(c, s);
  }

  // CLOSE and Session.Close: the flag first, the broadcast later.
  lemma SignalStep(c: Config, s: Sys, e: Event)
    requires ConfigOk(c) && Inv(c, s) && Enabled(c, s, e)
    requires e.CloseArrives? || e.CloseBroadcast? || e.Cancel? || e.CancelBroadcast?
    ensures Inv(c, Step(c, s, e))
  {
    hide TxInv, NetOk, LqrNetOk, BlocksOk, FilledOk, ReportsOk, IndexOk, ConfigOk, LogBytes, NextReady, Drained;
    LogKnown(c, s.snd);
    SamePart(c, GroupAt(c, s.snd.log, s.rcv.w).shards, Parked, Top);
  }

  lemma StepInv(c: Config, s: Sys, e: Event)
    requires ConfigOk(c) && Inv(c, s) && Enabled(c, s, e)
    ensures Inv(c, Step(c, s, e))
  {
    hide Inv, ConfigOk, DoWriter, DoReport, DoData, DoLqr, DoNak, DoRead, DoFlush;
    match e
    case Read(chunk) => ReadStep(c, s, chunk);
    case FlushTimer => AnyFlush(c, s, s.snd.pc);
    case Eof => EofStep(c, s);
    case FinalFlush => AnyFlush(c, s, Flushed);
    case CloseAcked => AckedStep(c, s);
    case CloseTimeout => TimeoutStep(c, s);
    case NakArrives(seqNum) => NakStep(c, s, seqNum);
    case LqrArrives(d) => LqrStep(c, s, d);
    case DataArrives(d) => DataArrivesStep(c, s, d);
    case LqrTimer(id) => ReportStep(c, s, id);
    case WriterStep => WriterInv(c, s);
    case WriteFails(n) => WriteFailsStep(c, s, n);
    case _ => SignalStep(c, s, e);
  }

  lemma {:induction false} ExecInv(c: Config, s: Sys, es: seq<Event>)
    requires ConfigOk(c) && Inv(c, s) && Exec(c, s, es).Some?
    ensures Inv(c, Exec(c, s, es).value)
    decreases |es|
  {
    hide Inv, ConfigOk, Step, Enabled;
    if es != [] {
      StepInv(c, s, es[0]);
      ExecInv(c, Step(c, s, es[0]), es[1..]);
    }
  }

  // The invariant holds in every state of every run.
  lemma ReachableInv(c: Config, es: seq<Event>, s: Sys)
    requires ConfigOk(c) && Reaches(c, es, s)
    ensures Inv(c, s)
  {
    hide Inv, ConfigOk, Exec, InitSys;
    InitInv(c);
    ExecInv(c, InitSys(c), es);
  }
}
