// Loss reports and the writer's own steps keep the invariant.
module WriterSteps {
  import opened Basics
  import opened Serial
  import opened Protocol
  import opened Shards
  import opened ErasureCode
  import opened Sender
  import opened SenderProofs
  import opened Receiver
  import opened ReceiverProofs
  import opened System
  import opened Invariant

  // ---- reporting

  ghost predicate Marked(v: Rcv, v': Rcv, id: U16) {
    && Reports(v.rx, id)
    && v' == v.(rx := LqrTimeout(v.rx, id), reports := v.reports + [Forward(v.w, id)])
  }

  lemma MarkedBlocks(c: Config, log: seq<Group>, v: Rcv, v': Rcv, id: U16)
    requires LogOk(c, log) && BlocksOk(c, log, v.rx, v.w, v.x, v.filled) && Marked(v, v', id)
    ensures BlocksOk(c, log, v'.rx, v'.w, v'.x, v'.filled)
  {
    hide SlotsOk, Forward;
    forall i | i in v'.rx.rxBlocks
      ensures BlockInv(c, log, v'.rx.hasRecv, v.w, v.x, i, v'.rx.rxBlocks[i], At(v.filled, Forward(v.w, i)))
    {
      assert BlockInv(c, log, v.rx.hasRecv, v.w, v.x, i, v.rx.rxBlocks[i], At(v.filled, Forward(v.w, i)));
      MarkedSlots(c, GroupAt(c, log, Forward(v.w, i)), v.rx.rxBlocks[i], At(v.filled, Forward(v.w, i)));
    }
  }

  lemma MarkedSlots(c: Config, grp: Group, b: RxBlock, f: set<nat>)
    requires |grp.shards| == c.k && BlockOk(c, grp, b, f)
    ensures BlockOk(c, grp, b.(lqrReported := true), f)
  {
    hide SlotValue;
  }

  // A block that is not marked has never been reported on.
  lemma MarkedReports(c: Config, log: seq<Group>, v: Rcv, v': Rcv, id: U16)
    requires LogOk(c, log) && BlocksOk(c, log, v.rx, v.w, v.x, v.filled) && ReportsOk(v.rx, v.w, v.x, v.reports)
    requires Marked(v, v', id)
    ensures ReportsOk(v'.rx, v'.w, v'.x, v'.reports)
    ensures Forward(v.w, id) !in v.reports
  {
    hide BlockOk, Wrap, Forward;
    var g := Forward(v.w, id);
    ForwardWraps(v.w, id);
    ForwardAtLeast(v.w, id);
    assert BlockInv(c, log, v.rx.hasRecv, v.w, v.x, id, v.rx.rxBlocks[id], At(v.filled, g));
    assert g !in v.reports;
    DistinctPush(v.reports, g);
  }

  lemma DistinctPush(s: seq<nat>, g: nat)
    requires Distinct(s) && g !in s
    ensures Distinct(s + [g])
  {
  }

  lemma MarkedRest(k: nat, v: Rcv, v': Rcv, id: U16)
    requires Marked(v, v', id) && WakeOk(v) && FilledOk(k, v.rx.rxBlocks, v.w, v.filled, v.arrived)
    ensures WakeOk(v') && FilledOk(k, v'.rx.rxBlocks, v'.w, v'.filled, v'.arrived)
    ensures NextReady(v'.rx) == NextReady(v.rx)
    ensures NextReported(v.rx) ==> NextReported(v'.rx)
    ensures id == v.rx.nextWriteGrp ==> NextReported(v'.rx)
  {
    hide Wrap, Later;
  }

  lemma MarkedStep(c: Config, log: seq<Group>, v: Rcv, v': Rcv, id: U16)
    requires LogOk(c, log) && RcvOk(c, log, v) && Marked(v, v', id)
    ensures RcvOk(c, log, v')
  {
    hide BlocksOk, FilledOk, ReportsOk, WakeOk, OutputOk, NextReady, NextReported, Wrap, Forward;
    MarkedBlocks(c, log, v, v', id);
    MarkedReports(c, log, v, v', id);
    MarkedRest(c.k, v, v', id);
  }

  lemma LqrOnWire(c: Config, r: Rx, id: U16)
    requires ConfigOk(c) && Reports(r, id)
    ensures Marshal(LqrPacket(c, r, id)).Ok?
    ensures Unmarshal(Marshal(LqrPacket(c, r, id)).value) == Ok(LqrPacket(c, r, id))
  {
    hide Contract, Losses, Marshal, Unmarshal;
    RoundTrip(LqrPacket(c, r, id));
  }

  lemma ReportStep(c: Config, s: Sys, id: U16)
    requires ConfigOk(c) && Inv(c, s)
    ensures Inv(c, DoReport(c, s, id))
    ensures id == s.rcv.rx.nextWriteGrp && NextReady(s.rcv.rx) ==> NextReported(DoReport(c, s, id).rcv.rx)
    ensures DoReport(c, s, id).rcv.pc == s.rcv.pc
    ensures NextReady(DoReport(c, s, id).rcv.rx) == NextReady(s.rcv.rx)
  {
    hide ConfigOk, SndOk, NetOk, BlocksOk, FilledOk, ReportsOk, WakeOk, OutputOk, IndexOk, BusyOk, Wrap, Forward,
      Losses, Marshal, Unmarshal;
    var v := s.rcv;
    if Reports(v.rx, id) {
      var v' := DoReport(c, s, id).rcv;
      LogKnown(c, s.snd);
      MarkedStep(c, s.snd.log, v, v', id);
      MarkedReports(c, s.snd.log, v, v', id);
      MarkedRest(c.k, v, v', id);
      LqrOnWire(c, v.rx, id);
      ForwardWraps(v.w, id);
      var d := Datagram(Forward(v.w, id), Marshal(LqrPacket(c, v.rx, id)).value);
      LqrNetGrows(c.stream, s.lqrNet, v.reports, d);
      assert DoReport(c, s, id).lqrNet == s.lqrNet + {d};
    }
  }

  lemma LqrNetGrows(stream: U16, net: set<Datagram>, reports: seq<nat>, d: Datagram)
    requires LqrNetOk(stream, net, reports) && IsReport(stream, d) && d.grp !in reports
    ensures LqrNetOk(stream, net + {d}, reports + [d.grp])
  {
    hide IsReport;
    assert Announced(net + {d}, d.grp);
    forall g | g in reports
      ensures Announced(net + {d}, g)
    {
      var e :| e in net && e.grp == g;
      assert e in net + {d};
    }
  }

  // ---- finishing a block

  ghost predicate Finished(c: Config, log: seq<Group>, v: Rcv, v': Rcv)
    requires LogOk(c, log)
  {
    && RcvOk(c, log, v)
    && (v.pc.Done? || v.pc.Removing?) && NextReported(v.rx)
    && v' == DoWritten(v)
  }

  lemma NextHeard(c: Config, log: seq<Group>, v: Rcv)
    requires ConfigOk(c) && LogOk(c, log) && RcvOk(c, log, v) && NextReady(v.rx)
    ensures v.w < |log| && v.rx.hasRecv && v.w <= v.x
    ensures BlockOk(c, log[v.w], v.rx.rxBlocks[Wrap(v.w)], At(v.filled, v.w)) && v.rx.nextWriteGrp == Wrap(v.w)
  {
    hide FilledOk, ReportsOk, WakeOk, OutputOk, BusyOk, SlotsOk, Sized, Contract, Wrap, Forward;
    ForwardWraps(v.w, Wrap(v.w));
    var b, f := v.rx.rxBlocks[Wrap(v.w)], At(v.filled, v.w);
    assert BlockInv(c, log, v.rx.hasRecv, v.w, v.x, Wrap(v.w), b, f);
    assert f != {};
  }

  lemma FinishedIndex(c: Config, log: seq<Group>, v: Rcv, v': Rcv)
    requires ConfigOk(c) && LogOk(c, log) && Finished(c, log, v, v')
    ensures IndexOk(|log|, v'.rx, v'.w, v'.x)
  {
    hide BlocksOk, FilledOk, ReportsOk, WakeOk, OutputOk, ConfigOk, BlockOk, Wrap;
    NextHeard(c, log, v);
    WrapNext(v.w);
  }

  lemma FinishedBlocks(c: Config, log: seq<Group>, v: Rcv, v': Rcv)
    requires LogOk(c, log) && Finished(c, log, v, v')
    ensures BlocksOk(c, log, v'.rx, v'.w, v'.x, v'.filled)
    ensures FilledOk(c.k, v'.rx.rxBlocks, v'.w, v'.filled, v'.arrived)
  {
    hide WakeOk, OutputOk, ReportsOk, BlockOk, Wrap, Forward;
    forall id | id in v'.rx.rxBlocks
      ensures BlockInv(c, log, v'.rx.hasRecv, v'.w, v'.x, id, v'.rx.rxBlocks[id], At(v'.filled, Forward(v'.w, id)))
    {
      ForwardAdvance(v.w, id);
      ForwardWraps(v.w, id);
      assert BlockInv(c, log, v.rx.hasRecv, v.w, v.x, id, v.rx.rxBlocks[id], At(v.filled, Forward(v.w, id)));
    }
    forall g | g in v'.filled && g >= v'.w
      ensures Wrap(g) in v'.rx.rxBlocks && g <= v'.w + 32767
    {
      DifferentNear(v.w, g);
    }
  }

  lemma FinishedReports(c: Config, log: seq<Group>, v: Rcv, v': Rcv)
    requires LogOk(c, log) && Finished(c, log, v, v')
    ensures ReportsOk(v'.rx, v'.w, v'.x, v'.reports)
  {
    hide WakeOk, OutputOk, BlocksOk, FilledOk, Wrap, Forward, Distinct;
    ForwardWraps(v.w, v.rx.nextWriteGrp);
    assert v.w in v.reports;
    forall g | g in v'.reports && g >= v'.w
      ensures Wrap(g) in v'.rx.rxBlocks && g <= v'.w + 32767 && v'.rx.rxBlocks[Wrap(g)].lqrReported
    {
      DifferentNear(v.w, g);
    }
    forall id | id in v'.rx.rxBlocks && v'.rx.rxBlocks[id].lqrReported
      ensures Forward(v'.w, id) in v'.reports
    {
      ForwardAdvance(v.w, id);
    }
  }

  lemma FinishedOutput(c: Config, log: seq<Group>, v: Rcv, v': Rcv)
    requires LogOk(c, log) && Finished(c, log, v, v')
    ensures OutputOk(c, log, v'.pc, v'.w, v'.output) && BusyOk(c, |log|, v'.rx, v'.pc, v'.w) && WakeOk(v')
  {
    hide BlocksOk, FilledOk, ReportsOk, WakeOk, IndexOk, Bytes, Wrap;
    assert log[..v.w + 1][..v.w] == log[..v.w];
    assert LogBytes(log[..v.w + 1]) == LogBytes(log[..v.w]) + Bytes(log[v.w].shards);
    NothingPart(c, log, v'.w);
    FreshTop(v');
  }

  lemma NothingPart(c: Config, log: seq<Group>, w: nat)
    requires LogOk(c, log) && w <= |log|
    ensures LogBytes(log[..w]) + Bytes(PartOf(c, GroupAt(c, log, w).shards, Top)) == LogBytes(log[..w])
  {
  }

  lemma FreshTop(v: Rcv)
    requires v.pc == Top
    ensures WakeOk(v)
  {
  }

  lemma FinishedStep(c: Config, log: seq<Group>, v: Rcv, v': Rcv)
    requires ConfigOk(c) && LogOk(c, log) && Finished(c, log, v, v')
    ensures RcvOk(c, log, v')
  {
    hide Finished;
    FinishedIndex(c, log, v, v');
    FinishedBlocks(c, log, v, v');
    FinishedReports(c, log, v, v');
    FinishedOutput(c, log, v, v');
  }

  // ---- writing a shard

  lemma NextSlotDelivers(c: Config, log: seq<Group>, v: Rcv)
    requires ConfigOk(c) && LogOk(c, log) && RcvOk(c, log, v) && v.pc.Writing? && v.pc.next < c.k
    ensures v.w < |log| && v.pc.next < |log[v.w].shards|
            && SlotBytes(NextSlot(v.rx, v.pc.next)) == Strip(log[v.w].shards[v.pc.next])
  {
    hide BlocksOk, FilledOk, ReportsOk, WakeOk, OutputOk, ConfigOk, Strip, Wrap, BlockOk;
    NextHeard(c, log, v);
    SlotDelivers(c, log[v.w], v.rx.rxBlocks[Wrap(v.w)], At(v.filled, v.w), v.pc.next);
  }

  lemma OneMore(before: seq<Byte>, shards: seq<Shard>, i: nat)
    requires i < |shards|
    ensures before + Bytes(shards[..i]) + Strip(shards[i]) == before + Bytes(shards[..i + 1])
  {
    assert shards[..i + 1] == shards[..i] + [shards[i]];
    BytesAppend(shards[..i], shards[i]);
    assert (before + Bytes(shards[..i])) + Strip(shards[i]) == before + (Bytes(shards[..i]) + Strip(shards[i]));
  }

  lemma ShardWritten(c: Config, log: seq<Group>, v: Rcv)
    requires ConfigOk(c) && LogOk(c, log) && RcvOk(c, log, v) && v.pc.Writing? && v.pc.next < c.k
    ensures OutputOk(c, log, Writing(v.pc.next + 1), v.w, v.output + SlotBytes(NextSlot(v.rx, v.pc.next)))
  {
    hide BlocksOk, FilledOk, ReportsOk, WakeOk, ConfigOk, LogBytes, Bytes, Strip, NextSlot, SlotBytes;
    NextSlotDelivers(c, log, v);
    OneMore(LogBytes(log[..v.w]), log[v.w].shards, v.pc.next);
  }

  // What a failed write leaves behind is still the beginning of the block.
  lemma ShardBroken(c: Config, log: seq<Group>, v: Rcv, n: nat, why: WriterPC)
    requires ConfigOk(c) && LogOk(c, log) && RcvOk(c, log, v) && v.pc.Writing? && v.pc.next < c.k
    requires n <= |SlotBytes(NextSlot(v.rx, v.pc.next))| && Broken(why)
    ensures OutputOk(c, log, why, v.w, v.output + SlotBytes(NextSlot(v.rx, v.pc.next))[..n])
  {
    hide BlocksOk, FilledOk, ReportsOk, WakeOk, ConfigOk, Strip, NextSlot, SlotBytes;
    NextSlotDelivers(c, log, v);
    PrefixOfBlock(c, log, v.w, v.pc.next, n);
  }

  lemma PrefixOfBlock(c: Config, log: seq<Group>, w: nat, i: nat, n: nat)
    requires LogOk(c, log) && w < |log| && i < c.k && n <= |Strip(log[w].shards[i])|
    ensures LogBytes(log[..w]) + Bytes(log[w].shards[..i]) + Strip(log[w].shards[i])[..n] <= LogBytes(log[..w + 1])
  {
    hide Strip;
    var before, shards := LogBytes(log[..w]), log[w].shards;
    assert log[..w + 1][..w] == log[..w];
    assert shards == shards[..i + 1] + shards[i + 1..];
    BytesConcat(shards[..i + 1], shards[i + 1..]);
    OneMore(before, shards, i);
    assert LogBytes(log[..w + 1]) == before + Bytes(shards[..i]) + Strip(shards[i]) + Bytes(shards[i + 1..]);
  }
}
