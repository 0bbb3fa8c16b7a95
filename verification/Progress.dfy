// Progress: what arrives is kept, whatever else happens, so that requests for what is missing complete
// a block, and complete blocks complete the stream.
module Progress {
  import opened Basics
  import opened Serial
  import opened Protocol
  import opened ErasureCode
  import opened Sender
  import opened SenderProofs
  import opened Receiver
  import opened ReceiverProofs
  import opened System
  import opened Invariant
  import opened ReceiverSteps
  import opened Steps
  import opened Retransmission

  // ---- what has arrived stays

  // The receiver's block g has been fed slot i, or has been decoded.
  ghost predicate Fed(v: Rcv, g: nat, i: nat) {
    && Wrap(g) in v.rx.rxBlocks
    && (v.rx.rxBlocks[Wrap(g)].decoded || i in At(v.filled, g))
  }

  // Nothing more is needed of packet i of block g: the block is written, decoded, or has it.
  ghost predicate Settled(v: Rcv, g: nat, i: nat) {
    v.w > g || (g <= v.w + 32767 && Fed(v, g, i))
  }

  lemma SettledStep(c: Config, s: Sys, e: Event, g: nat, i: nat)
    requires ConfigOk(c) && Inv(c, s) && Enabled(c, s, e) && Settled(s.rcv, g, i)
    ensures Settled(Step(c, s, e).rcv, g, i)
  {
    hide ConfigOk, Inv, DoData, DoReport, DoWriter, DoFlush, DoRead, DoNak, DoLqr, Wrap;
    if e.DataArrives? {
      DataKeeps(c, s.rcv, e.d);
      if s.rcv.w <= g {
        ArrivalKeeps(c, s, e.d, g, i);
      }
    } else {
      RecordsKept(c, s, e);
      if e.LqrTimer? {
        ReportKeeps(c, s, e.id, g, i);
      } else if e.WriterStep? {
        IndexKnown(c, s);
        WriterKeeps(c, s, g, i);
      } else {
        SenderChange(c, s, e);
      }
    }
  }

  lemma IndexKnown(c: Config, s: Sys)
    requires Inv(c, s)
    ensures IndexOk(|s.snd.log|, s.rcv.rx, s.rcv.w, s.rcv.x)
  {
    hide TxInv, NetOk, LqrNetOk, BlocksOk, FilledOk, ReportsOk, WakeOk, OutputOk, BusyOk, IndexOk, SndCloseOk,
      RcvCloseOk;
  }

  lemma ReportKeeps(c: Config, s: Sys, id: U16, g: nat, i: nat)
    requires Settled(s.rcv, g, i)
    ensures Settled(DoReport(c, s, id).rcv, g, i)
  {
    hide Marshal, Losses, Wrap, Forward;
  }

  lemma WriterKeeps(c: Config, s: Sys, g: nat, i: nat)
    requires IndexOk(|s.snd.log|, s.rcv.rx, s.rcv.w, s.rcv.x) && Settled(s.rcv, g, i)
    ensures Settled(DoWriter(c, s).rcv, g, i)
  {
    hide Wrap, DoReport, NextReported, NextSlot, SlotBytes, NextReady, Drained;
    match s.rcv.pc
    case Reporting => ReportKeeps(c, s, s.rcv.rx.nextWriteGrp, g, i);
    case Done => WrittenKeeps(|s.snd.log|, s.rcv, g, i);
    case Removing => WrittenKeeps(|s.snd.log|, s.rcv, g, i);
    case _ =>
  }

  lemma WrittenKeeps(n: nat, v: Rcv, g: nat, i: nat)
    requires IndexOk(n, v.rx, v.w, v.x) && Settled(v, g, i)
    ensures Settled(DoWritten(v), g, i)
  {
    hide Wrap;
    if g > v.w {
      DifferentNear(v.w, g);
    }
  }

  // What an arrival does to the blocks: nothing to any but its own, which keeps what it has and, unless
  // written, gets what was brought.
  lemma Arrival(c: Config, s: Sys, d: Datagram)
    requires ConfigOk(c) && Inv(c, s) && Enabled(c, s, DataArrives(d))
    ensures var v, v', h := s.rcv, DoData(c, s.rcv, d), d.grp;
            && (v.rx.recvClosed || h < v.w ==> v'.rx.rxBlocks == v.rx.rxBlocks && v'.filled == v.filled)
            && (!v.rx.recvClosed && v.w <= h ==>
                  && h <= v.w + 32767 && Wrap(h) in v'.rx.rxBlocks
                  && v'.rx.rxBlocks == v.rx.rxBlocks[Wrap(h) := v'.rx.rxBlocks[Wrap(h)]]
                  && (Wrap(h) in v.rx.rxBlocks && v.rx.rxBlocks[Wrap(h)].decoded ==> v'.rx.rxBlocks[Wrap(h)].decoded)
                  && v'.filled == v.filled[h := At(v'.filled, h)] && At(v.filled, h) <= At(v'.filled, h)
                  && forall i :: Brings(d, h, i) ==> Fed(v', h, i))
  {
    hide LqrNetOk, ReportsOk, WakeOk, OutputOk, BusyOk, TxInv, BlocksOk, FilledOk, Contract, Marshal, Unmarshal,
      Wrap, Forward, BlockOk, PacketOf, Payload, Receive, Later, SndCloseOk, RcvCloseOk;
    LogKnown(c, s.snd);
    assert Genuine(c, s.snd.log, d);
    var log, v, g := s.snd.log, s.rcv, d.grp;
    var p := Unmarshal(ReadBuffer(d.bytes)).value;
    PacketFields(c, log, g, p);
    if !v.rx.recvClosed {
      WantedIsOrder(|log|, v.rx, v.w, v.x, g);
      if v.w <= g {
        ReceivedOk(c, log, v.rx, v.w, v.x, v.filled, v.arrived, g, p);
      }
    }
  }

  lemma ArrivalKeeps(c: Config, s: Sys, d: Datagram, g: nat, i: nat)
    requires ConfigOk(c) && Inv(c, s) && Enabled(c, s, DataArrives(d)) && s.rcv.w <= g && Settled(s.rcv, g, i)
    ensures Settled(DoData(c, s.rcv, d), g, i)
  {
    hide Inv, ConfigOk, Wrap, DoData, Forward;
    var v, h := s.rcv, d.grp;
    Arrival(c, s, d);
    DataKeeps(c, v, d);
    if !v.rx.recvClosed && v.w <= h && Wrap(h) == Wrap(g) {
      ForwardExact(v.w, g);
      ForwardExact(v.w, h);
    }
  }

  lemma ArrivalSettles(c: Config, s: Sys, d: Datagram, g: nat, i: nat)
    requires ConfigOk(c) && Inv(c, s) && Enabled(c, s, DataArrives(d)) && Brings(d, g, i) && !s.rcv.rx.recvClosed
    ensures Settled(Step(c, s, DataArrives(d)).rcv, g, i)
  {
    hide Inv, ConfigOk, Wrap, DoData, Fed;
    Arrival(c, s, d);
    DataKeeps(c, s.rcv, d);
  }

  // The receive side never opens again.
  lemma StaysClosed(c: Config, s: Sys, e: Event)
    requires Enabled(c, s, e) && s.rcv.rx.recvClosed
    ensures Step(c, s, e).rcv.rx.recvClosed
  {
    hide DoData, DoReport, DoWriter, DoFlush, DoRead, DoNak, DoLqr;
    match e
    case DataArrives(d) => DataLeavesOpen(c, s.rcv, d);
    case LqrTimer(id) => ReportLeavesClosed(c, s, id);
    case WriterStep => WriterLeavesClosed(c, s);
    case _ => SenderChange(c, s, e);
  }

  lemma ReportLeavesClosed(c: Config, s: Sys, id: U16)
    ensures DoReport(c, s, id).rcv.rx.recvClosed == s.rcv.rx.recvClosed
  {
    hide Marshal, Losses, Forward;
  }

  lemma WriterLeavesClosed(c: Config, s: Sys)
    requires s.rcv.rx.recvClosed
    ensures DoWriter(c, s).rcv.rx.recvClosed
  {
    hide DoReport, DoWritten, NextReported, NextSlot, SlotBytes, NextReady, Drained;
    WrittenLeavesClosed(s.rcv);
    match s.rcv.pc
    case Reporting => ReportLeavesClosed(c, s, s.rcv.rx.nextWriteGrp);
    case Done =>
    case Removing =>
    case Leaving(_) =>
    case _ =>
  }

  lemma WrittenLeavesClosed(v: Rcv)
    ensures DoWritten(v).rx.recvClosed == v.rx.recvClosed
  {
  }

  lemma {:induction false} StaysClosedRun(c: Config, s: Sys, fs: seq<Event>, t: Sys)
    requires Exec(c, s, fs) == Some(t) && s.rcv.rx.recvClosed
    ensures t.rcv.rx.recvClosed
    decreases |fs|
  {
    hide Step, Enabled;
    if fs != [] {
      StaysClosed(c, s, fs[0]);
      StaysClosedRun(c, Step(c, s, fs[0]), fs[1..], t);
    }
  }

  // Some event of the run brings packet i of block g.
  ghost predicate Delivered(fs: seq<Event>, g: nat, i: nat) {
    exists j :: 0 <= j < |fs| && fs[j].DataArrives? && Brings(fs[j].d, g, i)
  }

  lemma {:induction false} RunSettles(c: Config, s: Sys, fs: seq<Event>, t: Sys, g: nat, i: nat)
    requires ConfigOk(c) && Inv(c, s) && Exec(c, s, fs) == Some(t) && !t.rcv.rx.recvClosed
    requires Settled(s.rcv, g, i) || Delivered(fs, g, i)
    ensures Settled(t.rcv, g, i)
    decreases |fs|
  {
    hide Inv, ConfigOk, Step, Enabled, Settled, Brings;
    if fs != [] {
      var e, s1, rest := fs[0], Step(c, s, fs[0]), fs[1..];
      StepInv(c, s, e);
      if Settled(s.rcv, g, i) {
        SettledStep(c, s, e, g, i);
      } else {
        var j :| 0 <= j < |fs| && fs[j].DataArrives? && Brings(fs[j].d, g, i);
        if j == 0 {
          if s.rcv.rx.recvClosed {
            StaysClosedRun(c, s, fs, t);
          }
          ArrivalSettles(c, s, e.d, g, i);
        } else {
          assert rest[j - 1] == fs[j];
        }
      }
      RunSettles(c, s1, rest, t, g, i);
    }
  }

  // ---- requests complete a block

  // A data slot of an undecoded block is full exactly if the network filled it.
  lemma FullIsSettled(c: Config, s: Sys, g: nat, i: nat)
    requires ConfigOk(c) && Inv(c, s) && s.rcv.w <= g < |s.snd.log| && g <= s.rcv.w + 32767 && i < c.k
    ensures var b := BlockAt(c, s.rcv.rx, Wrap(g)); b.k == c.k <= |b.packets|
    ensures i !in Holes(BlockAt(c, s.rcv.rx, Wrap(g))) ==> Settled(s.rcv, g, i)
  {
    hide NetOk, LqrNetOk, ReportsOk, WakeOk, OutputOk, BusyOk, TxInv, BlocksOk, FilledOk, Contract, Wrap, Forward,
      Payload, IndexOk, SndCloseOk, RcvCloseOk;
    LogKnown(c, s.snd);
    var v, log := s.rcv, s.snd.log;
    ForwardExact(v.w, g);
    BlockAtOk(c, log, v.rx, v.w, v.x, v.filled, v.arrived, g);
    var b := BlockAt(c, v.rx, Wrap(g));
    assert b.packets[i] == SlotValue(c, log[g], b.decoded, At(v.filled, g), i);
    if Wrap(g) !in v.rx.rxBlocks {
      assert b.packets[i] == None;
    }
  }

  // With all K data packets settled the block is decoded or written.
  lemma SettledDecodes(c: Config, s: Sys, g: nat)
    requires ConfigOk(c) && Inv(c, s) && g < |s.snd.log| && forall i: nat :: i < c.k ==> Settled(s.rcv, g, i)
    ensures s.rcv.w > g || (Wrap(g) in s.rcv.rx.rxBlocks && s.rcv.rx.rxBlocks[Wrap(g)].decoded)
  {
    hide NetOk, LqrNetOk, ReportsOk, WakeOk, OutputOk, BusyOk, TxInv, BlocksOk, FilledOk, Contract, Wrap, Forward,
      SlotsOk, IndexOk, SndCloseOk, RcvCloseOk;
    var v, log := s.rcv, s.snd.log;
    assert Settled(v, g, 0);
    if v.w <= g {
      LogKnown(c, s.snd);
      ForwardExact(v.w, g);
      BlockAtOk(c, log, v.rx, v.w, v.x, v.filled, v.arrived, g);
      if !v.rx.rxBlocks[Wrap(g)].decoded {
        forall i: nat | i < c.k ensures i in At(v.filled, g) { assert Settled(v, g, i); }
        Subsets(Upto(c.k), At(v.filled, g));
      }
    }
  }

  // Progress, in every continuation of every run: if each data packet that block g lacks is brought by
  // some arrival, in whatever order and among whatever other events, the block is decoded, or already
  // written, at the end.
  lemma NakProgress(c: Config, es: seq<Event>, s: Sys, fs: seq<Event>, t: Sys, g: nat)
    requires ConfigOk(c) && Reaches(c, es, s) && Exec(c, s, fs) == Some(t) && !t.rcv.rx.recvClosed
    requires g < |s.snd.log| && g <= s.rcv.w + 32767
    requires forall i :: i in Holes(BlockAt(c, s.rcv.rx, Wrap(g))) ==> Delivered(fs, g, i)
    ensures t.rcv.w > g || (Wrap(g) in t.rcv.rx.rxBlocks && t.rcv.rx.rxBlocks[Wrap(g)].decoded)
  {
    hide ConfigOk, Reaches, Exec;
    ReachableInv(c, es, s);
    HolesDelivered(c, s, fs, t, g);
  }

  lemma HolesDelivered(c: Config, s: Sys, fs: seq<Event>, t: Sys, g: nat)
    requires ConfigOk(c) && Inv(c, s) && Exec(c, s, fs) == Some(t) && !t.rcv.rx.recvClosed
    requires g < |s.snd.log| && g <= s.rcv.w + 32767
    requires forall i :: i in Holes(BlockAt(c, s.rcv.rx, Wrap(g))) ==> Delivered(fs, g, i)
    ensures t.rcv.w > g || (Wrap(g) in t.rcv.rx.rxBlocks && t.rcv.rx.rxBlocks[Wrap(g)].decoded)
  {
    hide ConfigOk, Inv, Exec, Wrap, Holes, BlockAt, Delivered, Fed;
    forall i: nat | i < c.k
      ensures Settled(t.rcv, g, i)
    {
      if s.rcv.w <= g {
        FullIsSettled(c, s, g, i);
      }
      RunSettles(c, s, fs, t, g, i);
    }
    ExecInv(c, s, fs);
    LogGrows(c, s, fs, t);
    SettledDecodes(c, t, g);
  }

  lemma {:induction false} LogGrows(c: Config, s: Sys, fs: seq<Event>, t: Sys)
    requires Exec(c, s, fs) == Some(t)
    ensures s.snd.log <= t.snd.log
    decreases |fs|
  {
    hide Step, Enabled;
    if fs != [] {
      LogStep(c, s, fs[0]);
      LogGrows(c, Step(c, s, fs[0]), fs[1..], t);
    }
  }

  lemma LogStep(c: Config, s: Sys, e: Event)
    requires Enabled(c, s, e)
    ensures s.snd.log <= Step(c, s, e).snd.log
  {
    hide Flush, FlushOut, FlushedGroup, HandleNak, HandleLQR, Unmarshal, NextSlot, SlotBytes, Append, Tag, Backward,
      Marshal, Losses, Drained, NextReady, NextReported, Forward, LqrTimeout;
  }

  // ---- one round, request by request

  lemma {:induction false} ExecAppend(c: Config, s: Sys, es: seq<Event>, fs: seq<Event>)
    requires Exec(c, s, es).Some?
    ensures Exec(c, s, es + fs) == Exec(c, Exec(c, s, es).value, fs)
    decreases |es|
  {
    hide Step, Enabled;
    if es == [] {
      assert es + fs == fs;
    } else {
      ExecAppend(c, Step(c, s, es[0]), es[1..], fs);
      assert (es + fs)[1..] == es[1..] + fs;
    }
  }

  lemma ExecNone(c: Config, s: Sys)
    ensures Exec(c, s, []) == Some(s)
  {
  }

  lemma ExecTwo(c: Config, s: Sys, e1: Event, e2: Event)
    requires Enabled(c, s, e1) && Enabled(c, Step(c, s, e1), e2)
    ensures Exec(c, s, [e1, e2]) == Some(Step(c, Step(c, s, e1), e2))
  {
    hide Step, Enabled;
    var s1 := Step(c, s, e1);
    assert [e1, e2][1..] == [e2] && [e2][1..] == [];
    assert Exec(c, s1, [e2]) == Some(Step(c, s1, e2));
  }

  // The state in which a round of requests for block g makes sense: the window hypothesis holds,
  // the receive side is open and nobody holds its lock.
  ghost predicate Asking(c: Config, s: Sys, g: nat) {
    && Inv(c, s) && LockFree(s.rcv.pc) && !s.rcv.rx.recvClosed
    && s.rcv.w <= g < |s.snd.log| <= g + 32767 && |s.snd.log| <= s.rcv.w + 32767
  }

  ghost function Ask(c: Config, s: Sys, g: nat, i: nat): seq<Event>
    requires LogOk(c, s.snd.log) && g < |s.snd.log| && i < c.k
  {
    [NakArrives(SeqNums(c.k, Wrap(g))[i]), DataArrives(Answer(c, s.snd.log, g, i))]
  }

  // What arrivals leave alone.
  ghost predicate OnlyFed(v: Rcv, v': Rcv) {
    && v'.w == v.w && v'.closeRecv == v.closeRecv && v'.cancelled == v.cancelled
    && (v.rx.hasRecv ==> v'.rx.hasRecv) && v'.rx.recvClosed == v.rx.recvClosed
    && (v'.pc == v.pc || (v.pc == Parked && v'.pc == Top))
  }

  // One request for slot i and its answer can happen, and the next request can follow.
  lemma AskStep(c: Config, s: Sys, g: nat, i: nat) returns (t: Sys)
    requires ConfigOk(c) && Asking(c, s, g) && i < c.k && Recent(c, s.snd.log, g, i)
    ensures LogOk(c, s.snd.log) && Exec(c, s, Ask(c, s, g, i)) == Some(t)
    ensures Asking(c, t, g) && t.snd == s.snd && OnlyFed(s.rcv, t.rcv)
  {
    hide Inv, ConfigOk, DoData, DoNak, Answer, SeqNums, Wrap, Brings, Genuine;
    AnswerInNet(c, s, g, i);
    AnswerGroup(c, s.snd.log, g, i);
    var d, q := Answer(c, s.snd.log, g, i), SeqNums(c.k, Wrap(g))[i];
    ExecTwo(c, s, NakArrives(q), DataArrives(d));
    t := s.(net := s.net + {d}, rcv := DoData(c, s.rcv, d));
    ExecInv(c, s, Ask(c, s, g, i));
    DataKeeps(c, s.rcv, d);
    DataLeavesOpen(c, s.rcv, d);
  }

  lemma AnswerGroup(c: Config, log: seq<Group>, g: nat, i: nat)
    requires LogOk(c, log) && g < |log|
    ensures Answer(c, log, g, i).grp == g
  {
  }

  lemma DataLeavesOpen(c: Config, v: Rcv, d: Datagram)
    ensures DoData(c, v, d).rx.recvClosed == v.rx.recvClosed
  {
    hide Receive, Unmarshal, Later, FilledAfter;
  }

  // The events of one round on block b: each empty data slot below n asked for and answered.
  ghost function Round(c: Config, s: Sys, g: nat, b: RxBlock, n: nat): seq<Event>
    requires LogOk(c, s.snd.log) && g < |s.snd.log| && n <= c.k && n <= |b.packets|
  {
    if n == 0 then []
    else Round(c, s, g, b, n - 1) + if b.packets[n - 1].None? then Ask(c, s, g, n - 1) else []
  }

  ghost function Asked(es: seq<Event>): seq<Byte> {
    if es == [] then []
    else Asked(es[..|es| - 1]) + if es[|es| - 1].NakArrives? then [es[|es| - 1].seqNum] else []
  }

  // What a round asks for is what the receiver's NAK loop sends.
  lemma {:induction false} RoundAsks(c: Config, s: Sys, g: nat, b: RxBlock, n: nat)
    requires LogOk(c, s.snd.log) && g < |s.snd.log| && n <= c.k <= |b.packets| && b.seqNums == SeqNums(c.k, Wrap(g))
    ensures Asked(Round(c, s, g, b, n)) == Missing(b, n)
  {
    hide Answer, Wrap;
    if n > 0 {
      RoundAsks(c, s, g, b, n - 1);
      var before := Round(c, s, g, b, n - 1);
      if b.packets[n - 1].None? {
        var ask := Ask(c, s, g, n - 1);
        assert (before + ask)[..|before| + 1] == before + [ask[0]];
        assert (before + [ask[0]])[..|before|] == before;
      } else {
        assert before + [] == before;
      }
    }
  }

  lemma {:induction false} RoundState(c: Config, s: Sys, g: nat, b: RxBlock, n: nat) returns (t: Sys)
    requires ConfigOk(c) && Asking(c, s, g) && n <= c.k && n <= |b.packets| && LogOk(c, s.snd.log) && g < |s.snd.log|
    requires forall i: nat :: i < n && b.packets[i].None? ==> Recent(c, s.snd.log, g, i)
    ensures Exec(c, s, Round(c, s, g, b, n)) == Some(t)
    ensures Asking(c, t, g) && t.snd == s.snd && OnlyFed(s.rcv, t.rcv)
  {
    hide Asking, ConfigOk, Wrap, Ask, Exec, LogOk, Recent;
    if n == 0 {
      t := s;
      ExecNone(c, s);
    } else {
      var u := RoundState(c, s, g, b, n - 1);
      var before := Round(c, s, g, b, n - 1);
      if b.packets[n - 1].None? {
        AskSame(c, s, u, g, n - 1);
        t := AskStep(c, u, g, n - 1);
        ExecAppend(c, s, before, Ask(c, s, g, n - 1));
      } else {
        t := u;
        assert before + [] == before;
      }
    }
  }

  lemma AskSame(c: Config, s: Sys, t: Sys, g: nat, i: nat)
    requires s.snd == t.snd && Asking(c, s, g) && i < c.k && LogOk(c, s.snd.log)
    ensures Ask(c, s, g, i) == Ask(c, t, g, i)
  {
    hide Inv;
  }

  lemma {:induction false} RoundDelivers(c: Config, s: Sys, g: nat, b: RxBlock, n: nat, i: nat)
    requires ConfigOk(c) && LogOk(c, s.snd.log) && g < |s.snd.log| && i < n <= c.k && n <= |b.packets|
    requires b.packets[i].None?
    ensures Delivered(Round(c, s, g, b, n), g, i)
  {
    hide ConfigOk, Wrap, Answer, Brings;
    var before := Round(c, s, g, b, n - 1);
    if i < n - 1 {
      RoundDelivers(c, s, g, b, n - 1, i);
      var j :| 0 <= j < |before| && before[j].DataArrives? && Brings(before[j].d, g, i);
      assert Round(c, s, g, b, n)[j] == before[j];
    } else {
      AnswerOk(c, s.snd.log, g, i);
      assert Round(c, s, g, b, n)[|before| + 1] == DataArrives(Answer(c, s.snd.log, g, i));
    }
  }

  // One round of requests, each answered: a block that is known to the receiver and whose missing data
  // packets are among the last 256 data packets can be asked for just as the NAK loop asks, and is
  // decoded by the answers.
  lemma NakRound(c: Config, es: seq<Event>, s: Sys, g: nat) returns (t: Sys)
    requires ConfigOk(c) && Reaches(c, es, s) && LockFree(s.rcv.pc) && !s.rcv.rx.recvClosed
    requires s.rcv.w <= g < |s.snd.log| <= g + 32767 && |s.snd.log| <= s.rcv.w + 32767
    requires Wrap(g) in s.rcv.rx.rxBlocks && !s.rcv.rx.rxBlocks[Wrap(g)].decoded
    requires var b := s.rcv.rx.rxBlocks[Wrap(g)];
             forall i: nat :: i < c.k && i < |b.packets| && b.packets[i].None? ==> Recent(c, s.snd.log, g, i)
    ensures var b := s.rcv.rx.rxBlocks[Wrap(g)];
            && LogOk(c, s.snd.log) && c.k <= |b.packets| && c.k == b.k == |b.seqNums|
            && Asked(Round(c, s, g, b, c.k)) == NakRequests(b)
            && Exec(c, s, Round(c, s, g, b, c.k)) == Some(t)
    ensures Wrap(g) in t.rcv.rx.rxBlocks && t.rcv.rx.rxBlocks[Wrap(g)].decoded
  {
    hide ConfigOk, Reaches, Inv, Exec, Wrap, Round, Missing, LogOk, Recent;
    ReachableInv(c, es, s);
    t := RoundDecodes(c, s, g);
  }

  lemma RoundDecodes(c: Config, s: Sys, g: nat) returns (t: Sys)
    requires ConfigOk(c) && Asking(c, s, g)
    requires Wrap(g) in s.rcv.rx.rxBlocks && !s.rcv.rx.rxBlocks[Wrap(g)].decoded
    requires var b := s.rcv.rx.rxBlocks[Wrap(g)];
             forall i: nat :: i < c.k && i < |b.packets| && b.packets[i].None? ==> Recent(c, s.snd.log, g, i)
    ensures var b := s.rcv.rx.rxBlocks[Wrap(g)];
            && LogOk(c, s.snd.log) && c.k <= |b.packets| && c.k == b.k == |b.seqNums|
            && Asked(Round(c, s, g, b, c.k)) == NakRequests(b)
            && Exec(c, s, Round(c, s, g, b, c.k)) == Some(t)
    ensures Wrap(g) in t.rcv.rx.rxBlocks && t.rcv.rx.rxBlocks[Wrap(g)].decoded
    ensures Asking(c, t, g) && t.snd == s.snd && OnlyFed(s.rcv, t.rcv)
  {
    hide ConfigOk, Inv, Exec, Wrap, Round, Missing, LogOk, Recent;
    var b := s.rcv.rx.rxBlocks[Wrap(g)];
    KnownBlock(c, s, g);
    RoundAsks(c, s, g, b, c.k);
    t := RoundState(c, s, g, b, c.k);
    forall i | i in Holes(b)
      ensures Delivered(Round(c, s, g, b, c.k), g, i)
    {
      RoundDelivers(c, s, g, b, c.k, i);
    }
    HolesDelivered(c, s, Round(c, s, g, b, c.k), t, g);
  }

  lemma KnownBlock(c: Config, s: Sys, g: nat)
    requires ConfigOk(c) && Inv(c, s) && s.rcv.w <= g < |s.snd.log| && g <= s.rcv.w + 32767
    requires Wrap(g) in s.rcv.rx.rxBlocks
    ensures LogOk(c, s.snd.log)
    ensures var b := s.rcv.rx.rxBlocks[Wrap(g)];
            b.k == c.k <= |b.packets| && b.seqNums == SeqNums(c.k, Wrap(g)) && (!b.decoded ==> b.receivedCnt < c.k)
  {
    hide NetOk, LqrNetOk, ReportsOk, WakeOk, OutputOk, BusyOk, TxInv, FilledOk, BlocksOk, Contract, Wrap, Forward,
      SlotsOk, IndexOk, SndCloseOk, RcvCloseOk;
    LogKnown(c, s.snd);
    ForwardExact(s.rcv.w, g);
    var v := s.rcv;
    BlockAtOk(c, s.snd.log, v.rx, v.w, v.x, v.filled, v.arrived, g);
  }
}
