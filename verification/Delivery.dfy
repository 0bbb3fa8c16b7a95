// Requests, answers and the writer together: what can be asked for can be delivered in full.
module Delivery {
  import opened Basics
  import opened Serial
  import opened Protocol
  import opened ErasureCode
  import opened Sender
  import opened SenderProofs
  import opened Receiver
  import opened ReceiverProofs
  import opened System
  import opened Invariant
  import opened ReceiverSteps
  import opened WriterSteps
  import opened Steps
  import opened Retransmission
  import opened Progress
  import opened Theorems

  // ---- known blocks stay known

  // Block g is written, or the receiver knows of it.
  ghost predicate Held(v: Rcv, g: nat) {
    v.w > g || (g <= v.w + 32767 && Wrap(g) in v.rx.rxBlocks)
  }

  lemma HeldStep(c: Config, s: Sys, e: Event, g: nat)
    requires ConfigOk(c) && Inv(c, s) && Enabled(c, s, e) && Held(s.rcv, g)
    ensures Held(Step(c, s, e).rcv, g)
  {
    hide ConfigOk, Inv, DoData, DoReport, DoWriter, DoFlush, DoRead, DoNak, DoLqr, Wrap;
    match e
    case DataArrives(d) =>
      DataKeeps(c, s.rcv, d);
      Arrival(c, s, d);
    case LqrTimer(id) => ReportHolds(c, s, id, g);
    case WriterStep =>
      IndexKnown(c, s);
      WriterHolds(c, s, g);
    case _ => SenderChange(c, s, e);
  }

  lemma ReportHolds(c: Config, s: Sys, id: U16, g: nat)
    requires Held(s.rcv, g)
    ensures Held(DoReport(c, s, id).rcv, g)
  {
    hide Marshal, Losses, Wrap, Forward;
  }

  lemma WriterHolds(c: Config, s: Sys, g: nat)
    requires IndexOk(|s.snd.log|, s.rcv.rx, s.rcv.w, s.rcv.x) && Held(s.rcv, g)
    ensures Held(DoWriter(c, s).rcv, g)
  {
    hide Wrap, DoReport, NextReported, NextSlot, SlotBytes, NextReady, Drained;
    match s.rcv.pc
    case Reporting => ReportHolds(c, s, s.rcv.rx.nextWriteGrp, g);
    case Done => WrittenHolds(|s.snd.log|, s.rcv, g);
    case Removing => WrittenHolds(|s.snd.log|, s.rcv, g);
    case _ =>
  }

  lemma WrittenHolds(n: nat, v: Rcv, g: nat)
    requires IndexOk(n, v.rx, v.w, v.x) && Held(v, g)
    ensures Held(DoWritten(v), g)
  {
    hide Wrap;
    if g > v.w {
      DifferentNear(v.w, g);
    }
  }

  // The receiver knows of block g, and what it lacks of it can still be asked for.
  ghost predicate Obtainable(c: Config, s: Sys, g: nat) {
    Held(s.rcv, g) && forall i: nat :: i < c.k ==> Settled(s.rcv, g, i) || Recent(c, s.snd.log, g, i)
  }

  lemma ObtainableStep(c: Config, s: Sys, e: Event, g: nat)
    requires ConfigOk(c) && Inv(c, s) && Enabled(c, s, e) && Obtainable(c, s, g) && Step(c, s, e).snd.log == s.snd.log
    ensures Obtainable(c, Step(c, s, e), g)
  {
    hide ConfigOk, Inv, Enabled, Step, Settled, Recent, Held;
    HeldStep(c, s, e, g);
    forall i: nat | i < c.k && Settled(s.rcv, g, i)
      ensures Settled(Step(c, s, e).rcv, g, i)
    {
      SettledStep(c, s, e, g, i);
    }
  }

  lemma {:induction false} ObtainableRun(c: Config, s: Sys, fs: seq<Event>, t: Sys, g: nat)
    requires ConfigOk(c) && Inv(c, s) && Exec(c, s, fs) == Some(t) && Obtainable(c, s, g) && t.snd.log == s.snd.log
    ensures Obtainable(c, t, g)
    decreases |fs|
  {
    hide ConfigOk, Inv, Enabled, Step, Obtainable;
    if fs != [] {
      var s1 := Step(c, s, fs[0]);
      LogStep(c, s, fs[0]);
      LogGrows(c, s1, fs[1..], t);
      assert s1.snd.log == s.snd.log;
      StepInv(c, s, fs[0]);
      ObtainableStep(c, s, fs[0], g);
      ObtainableRun(c, s1, fs[1..], t, g);
    }
  }

  // ---- the writer at work

  // The session is up: nothing has told the writer to stop.  Once CLOSE is in, something must have
  // been received, or the writer leaves at once.
  ghost predicate Up(v: Rcv) {
    && !v.cancelled && !v.rx.recvClosed && !v.pc.Leaving? && !v.pc.Exited?
    && (v.closeRecv ==> v.rx.hasRecv)
  }

  ghost predicate Going(c: Config, s: Sys) {
    && Inv(c, s) && Up(s.rcv) && |s.snd.log| <= s.rcv.w + 32767
    && forall g: nat :: s.rcv.w <= g < |s.snd.log| ==> Obtainable(c, s, g)
  }

  lemma GoingOn(c: Config, s: Sys, fs: seq<Event>, t: Sys)
    requires ConfigOk(c) && Going(c, s) && Exec(c, s, fs) == Some(t)
    requires t.snd == s.snd && t.rcv.w >= s.rcv.w && Up(t.rcv)
    ensures Going(c, t)
  {
    hide ConfigOk, Inv, Up, Exec, Obtainable;
    ExecInv(c, s, fs);
    forall g: nat | t.rcv.w <= g < |t.snd.log|
      ensures Obtainable(c, t, g)
    {
      ObtainableRun(c, s, fs, t, g);
    }
  }

  lemma OneStep(c: Config, s: Sys)
    requires !s.rcv.pc.Parked? && !s.rcv.pc.Exited?
    ensures Exec(c, s, [WriterStep]) == Some(DoWriter(c, s))
  {
    hide DoWriter;
    assert [WriterStep][1..] == [];
    ExecNone(c, DoWriter(c, s));
  }

  // Nothing is drained while the next block is sent, known and unwritten.
  lemma NotDrained(c: Config, s: Sys)
    requires Inv(c, s) && s.rcv.w < |s.snd.log| && Held(s.rcv, s.rcv.w) && s.rcv.rx.hasRecv
    ensures !Drained(s.rcv.rx)
  {
    hide TxInv, NetOk, LqrNetOk, FilledOk, ReportsOk, WakeOk, OutputOk, BusyOk, BlockOk, Wrap, Forward, Drained,
      SndCloseOk, RcvCloseOk;
    LogKnown(c, s.snd);
    var v := s.rcv;
    ForwardExact(v.w, v.w);
    var b, f := v.rx.rxBlocks[Wrap(v.w)], At(v.filled, v.w);
    assert BlockInv(c, s.snd.log, v.rx.hasRecv, v.w, v.x, Wrap(v.w), b, f);
    DrainedIsOrder(|s.snd.log|, v.rx, v.w, v.x);
  }

  // How far the writer is from the end of a ready block.
  function Distance(c: Config, pc: WriterPC): nat {
    match pc
    case Top => c.k + 6
    case Locked => c.k + 5
    case CtxOk => c.k + 4
    case Writing(i) => if i <= c.k then c.k - i + 3 else 3
    case Done => 2
    case Reporting => 1
    case Removing => 0
    case _ => 0
  }

  // One step with the next block ready: the block is done with, or the writer is nearer to that.
  lemma ReadyStep(c: Config, s: Sys)
    requires ConfigOk(c) && Inv(c, s) && Up(s.rcv) && NextReady(s.rcv.rx)
    ensures var t := DoWriter(c, s);
            && !s.rcv.pc.Parked? && !s.rcv.pc.Exited? && t.snd == s.snd && Up(t.rcv)
            && ((t.rcv.w == s.rcv.w + 1 && t.rcv.pc == Top)
                || (t.rcv.w == s.rcv.w && NextReady(t.rcv.rx) && Distance(c, t.rcv.pc) < Distance(c, s.rcv.pc)))
  {
    hide ConfigOk, TxInv, NetOk, LqrNetOk, BlocksOk, FilledOk, ReportsOk, OutputOk, IndexOk, SndCloseOk, RcvCloseOk,
      NextReady, NextReported, NextSlot, SlotBytes, DoReport, DoWritten;
    match s.rcv.pc
    case Reporting => ReportUp(c, s);
    case Done => WrittenUp(s.rcv);
    case Removing => WrittenUp(s.rcv);
    case _ =>
  }

  lemma ReportUp(c: Config, s: Sys)
    requires ConfigOk(c) && Inv(c, s) && Up(s.rcv) && NextReady(s.rcv.rx) && s.rcv.pc.Reporting?
    ensures var t := DoReport(c, s, s.rcv.rx.nextWriteGrp);
            t.snd == s.snd && Up(t.rcv) && t.rcv.w == s.rcv.w && NextReady(t.rcv.rx) && t.rcv.pc == s.rcv.pc
  {
    hide ConfigOk, Inv, Marshal, Losses, Forward;
    ReportStep(c, s, s.rcv.rx.nextWriteGrp);
  }

  lemma WrittenUp(v: Rcv)
    requires Up(v)
    ensures var v' := DoWritten(v); Up(v') && v'.w == v.w + 1 && v'.pc == Top
  {
  }

  lemma {:induction false} WriteReady(c: Config, s: Sys) returns (fs: seq<Event>, t: Sys)
    requires ConfigOk(c) && Going(c, s) && NextReady(s.rcv.rx)
    ensures Exec(c, s, fs) == Some(t) && Going(c, t)
    ensures t.snd == s.snd && t.rcv.w == s.rcv.w + 1 && t.rcv.pc == Top
    decreases Distance(c, s.rcv.pc)
  {
    hide ConfigOk, Inv, Up, Obtainable, DoWriter, NextReady, Distance, Exec;
    ReadyStep(c, s);
    OneStep(c, s);
    var u := DoWriter(c, s);
    GoingOn(c, s, [WriterStep], u);
    if u.rcv.w == s.rcv.w + 1 {
      fs, t := [WriterStep], u;
    } else {
      var rest;
      rest, t := WriteReady(c, u);
      fs := [WriterStep] + rest;
      ExecAppend(c, s, [WriterStep], rest);
    }
  }

  // ---- getting the next block ready

  // How far the writer is from giving up the lock.
  function ToUnlock(pc: WriterPC): nat {
    match pc
    case Locked => 4
    case CtxOk => 3
    case NotReady => 2
    case Decide(_) => 1
    case _ => 0
  }

  lemma UnlockStep(c: Config, s: Sys)
    requires ConfigOk(c) && Going(c, s) && s.rcv.w < |s.snd.log| && !LockFree(s.rcv.pc) && !NextReady(s.rcv.rx)
    ensures var t := DoWriter(c, s);
            && t.snd == s.snd && Up(t.rcv) && t.rcv.w == s.rcv.w && t.rcv.rx == s.rcv.rx
            && ToUnlock(t.rcv.pc) < ToUnlock(s.rcv.pc)
  {
    hide ConfigOk, TxInv, NetOk, LqrNetOk, BlocksOk, FilledOk, ReportsOk, OutputOk, IndexOk, SndCloseOk, RcvCloseOk,
      NextReady, NextReported, NextSlot, SlotBytes, DoReport, DoWritten, Drained, Settled, Recent;
    assert Obtainable(c, s, s.rcv.w);
    if s.rcv.rx.hasRecv {
      NotDrained(c, s);
    }
  }

  lemma {:induction false} Unlocked(c: Config, s: Sys) returns (fs: seq<Event>, t: Sys)
    requires ConfigOk(c) && Going(c, s) && s.rcv.w < |s.snd.log| && !NextReady(s.rcv.rx)
    ensures Exec(c, s, fs) == Some(t) && Going(c, t) && LockFree(t.rcv.pc)
    ensures t.snd == s.snd && t.rcv.w == s.rcv.w && t.rcv.rx == s.rcv.rx
    decreases ToUnlock(s.rcv.pc)
  {
    hide ConfigOk, Inv, Up, Obtainable, DoWriter, NextReady, ToUnlock, Exec;
    if LockFree(s.rcv.pc) {
      fs, t := [], s;
      ExecNone(c, s);
    } else {
      UnlockStep(c, s);
      OneStep(c, s);
      var u := DoWriter(c, s);
      GoingOn(c, s, [WriterStep], u);
      var rest;
      rest, t := Unlocked(c, u);
      fs := [WriterStep] + rest;
      ExecAppend(c, s, [WriterStep], rest);
    }
  }

  // A data slot that is empty is not settled.
  lemma EmptyUnsettled(c: Config, s: Sys, i: nat)
    requires ConfigOk(c) && Inv(c, s) && s.rcv.w < |s.snd.log| && i < c.k && Settled(s.rcv, s.rcv.w, i)
    requires Wrap(s.rcv.w) in s.rcv.rx.rxBlocks && !s.rcv.rx.rxBlocks[Wrap(s.rcv.w)].decoded
    ensures var b := s.rcv.rx.rxBlocks[Wrap(s.rcv.w)]; i < |b.packets| ==> b.packets[i].Some?
  {
    hide NetOk, LqrNetOk, ReportsOk, WakeOk, OutputOk, BusyOk, TxInv, BlocksOk, FilledOk, Contract, Wrap, Forward,
      Payload, IndexOk, SndCloseOk, RcvCloseOk;
    LogKnown(c, s.snd);
    var v, log, g := s.rcv, s.snd.log, s.rcv.w;
    ForwardExact(g, g);
    BlockAtOk(c, log, v.rx, g, v.x, v.filled, v.arrived, g);
    var b := v.rx.rxBlocks[Wrap(g)];
    if i < |b.packets| {
      assert b.packets[i] == SlotValue(c, log[g], b.decoded, At(v.filled, g), i);
    }
  }

  // A round of requests for the next block makes it ready.
  lemma AskNext(c: Config, s: Sys) returns (fs: seq<Event>, t: Sys)
    requires ConfigOk(c) && Going(c, s) && LockFree(s.rcv.pc) && s.rcv.w < |s.snd.log| && !NextReady(s.rcv.rx)
    ensures Exec(c, s, fs) == Some(t) && Going(c, t) && NextReady(t.rcv.rx) && t.snd == s.snd && t.rcv.w == s.rcv.w
  {
    hide ConfigOk, Inv, Wrap, Exec, Round, Recent, Settled;
    var g := s.rcv.w;
    IndexKnown(c, s);
    assert Obtainable(c, s, g);
    forall i: nat | i < c.k && i < |s.rcv.rx.rxBlocks[Wrap(g)].packets| && s.rcv.rx.rxBlocks[Wrap(g)].packets[i].None?
      ensures Recent(c, s.snd.log, g, i)
    {
      if Settled(s.rcv, g, i) {
        EmptyUnsettled(c, s, i);
      }
    }
    t := RoundDecodes(c, s, g);
    fs := Round(c, s, g, s.rcv.rx.rxBlocks[Wrap(g)], c.k);
    GoingOn(c, s, fs, t);
    IndexKnown(c, t);
  }

  // ---- the whole stream

  lemma NextBlock(c: Config, s: Sys) returns (fs: seq<Event>, t: Sys)
    requires ConfigOk(c) && Going(c, s) && s.rcv.w < |s.snd.log|
    ensures Exec(c, s, fs) == Some(t) && Going(c, t) && t.snd == s.snd && t.rcv.w == s.rcv.w + 1 && t.rcv.pc == Top
  {
    hide ConfigOk, Going, Exec, NextReady;
    if NextReady(s.rcv.rx) {
      fs, t := WriteReady(c, s);
    } else {
      var fs1, s1 := Unlocked(c, s);
      var fs2, s2 := AskNext(c, s1);
      var fs3;
      fs3, t := WriteReady(c, s2);
      ExecAppend(c, s, fs1, fs2);
      ExecAppend(c, s, fs1 + fs2, fs3);
      fs := fs1 + fs2 + fs3;
    }
  }

  lemma {:induction false} AllBlocks(c: Config, s: Sys) returns (fs: seq<Event>, t: Sys)
    requires ConfigOk(c) && Going(c, s) && s.rcv.w <= |s.snd.log|
    ensures Exec(c, s, fs) == Some(t) && Going(c, t) && t.snd == s.snd && t.rcv.w == |s.snd.log|
    decreases |s.snd.log| - s.rcv.w
  {
    hide ConfigOk, Going, Exec;
    if s.rcv.w == |s.snd.log| {
      fs, t := [], s;
      ExecNone(c, s);
    } else {
      var fs1, s1 := NextBlock(c, s);
      var rest;
      rest, t := AllBlocks(c, s1);
      ExecAppend(c, s, fs1, rest);
      fs := fs1 + rest;
    }
  }

  // Full delivery is within reach: from every reachable state in which the session is up and every
  // unwritten block is known to the receiver, with what it lacks among the last 256 data packets, the
  // events of requests, answers and the writer lead to a state in which all blocks are written.
  lemma CanFinish(c: Config, es: seq<Event>, s: Sys) returns (fs: seq<Event>, t: Sys)
    requires ConfigOk(c) && Reaches(c, es, s) && Up(s.rcv) && |s.snd.log| <= s.rcv.w + 32767
    requires forall g: nat :: s.rcv.w <= g < |s.snd.log| ==> Obtainable(c, s, g)
    ensures Exec(c, s, fs) == Some(t) && t.snd == s.snd && t.rcv.w == |s.snd.log|
    ensures t.rcv.output == LogBytes(s.snd.log)
  {
    hide ConfigOk, Reaches, Inv, Exec, Obtainable, LogBytes;
    ReachableInv(c, es, s);
    IndexKnown(c, s);
    fs, t := AllBlocks(c, s);
    EverythingWritten(c, t);
  }

  lemma EverythingWritten(c: Config, s: Sys)
    requires Inv(c, s) && s.rcv.w == |s.snd.log|
    ensures s.rcv.output == LogBytes(s.snd.log)
  {
    hide TxInv, NetOk, LqrNetOk, BlocksOk, FilledOk, ReportsOk, WakeOk, OutputOk, IndexOk, SndCloseOk, RcvCloseOk,
      LogBytes;
    LogKnown(c, s.snd);
    OutputOfBlocks(c, s.snd.log, s.rcv.pc, s.rcv.w, s.rcv.output);
    assert s.snd.log[..|s.snd.log|] == s.snd.log;
  }
}
