// Selective retransmission: the 256-entry cache against the log of everything sent, and the
// progress a round of requests makes.
module Retransmission {
  import opened Basics
  import opened Serial
  import opened Protocol
  import opened Shards
  import opened ErasureCode
  import opened Sender
  import opened SenderProofs
  import opened Receiver
  import opened ReceiverProofs
  import opened System
  import opened Invariant
  import opened SenderSteps
  import opened Steps

  // ---- sequence numbers

  lemma LastBeforeExact(n: nat, p: nat)
    requires p < n <= p + 256
    ensures LastBefore(n, p % 256) == p
  {
    var q := p / 256;
    assert p == 256 * q + p % 256;
    assert n - 1 - p % 256 == 256 * q + (n - 1 - p);
  }

  // 65536 blocks of K packets are a whole number of turns of the 8-bit counter.
  lemma WrapSeq(k: nat, g: nat)
    ensures Wrap(g) * k % 256 == g * k % 256
  {
    hide Wrap;
    WrapTurns(g);
    TurnsVanish(g / 65536, Wrap(g), k);
  }

  lemma TurnsVanish(a: int, r: int, k: int)
    ensures (r + 65536 * a) * k % 256 == r * k % 256
  {
    SpreadTurns(a, r, k);
    WholeTurns(256 * (a * k), r * k);
  }

  lemma WholeTurns(q: int, x: int)
    ensures (256 * q + x) % 256 == x % 256
  {
  }

  lemma SpreadTurns(a: int, r: int, k: int)
    ensures (r + 65536 * a) * k == 256 * (256 * (a * k)) + r * k
  {
  }

  // The sequence numbers the receiver computes from the 16-bit block number are those the sender
  // gave the packets, for every block.
  lemma SeqNumsMatch(c: Config, g: nat, grp: Group, i: nat)
    requires |grp.shards| == c.k && i < c.k
    ensures SeqNums(c.k, Wrap(g))[i] == PacketOf(c, g, grp, i).seqNum == (g * c.k + i) % 256
  {
    WrapSeq(c.k, g);
    FirstSeqIs(c.k, g);
    ModAdd(g * c.k, i);
  }

  // ---- the cache

  lemma CacheFetches(c: Config, cache: map<Byte, Packet>, log: seq<Group>, g: nat, i: nat)
    requires CacheOk(c, cache, log) && g < |log| && i < c.k && |log| * c.k <= g * c.k + i + 256
    ensures (g * c.k + i) % 256 in cache && cache[(g * c.k + i) % 256] == PacketOf(c, g, log[g], i)
  {
    hide PacketOf;
    AllDataAt(c, log, g, i);
    LastBeforeExact(|log| * c.k, g * c.k + i);
  }

  // The cache refines the log: each of the last 256 data packets is found under its sequence number.
  lemma CacheRefinesLog(c: Config, es: seq<Event>, s: Sys, g: nat, i: nat)
    requires ConfigOk(c) && Reaches(c, es, s)
    requires g < |s.snd.log| && i < c.k && |s.snd.log| * c.k <= g * c.k + i + 256
    ensures LogOk(c, s.snd.log)
    ensures (g * c.k + i) % 256 in s.snd.tx.harqCache
    ensures s.snd.tx.harqCache[(g * c.k + i) % 256] == PacketOf(c, g, s.snd.log[g], i)
  {
    hide ConfigOk, Reaches, CacheOk;
    CacheInvariant(c, es, s);
    CacheFetches(c, s.snd.tx.harqCache, s.snd.log, g, i);
  }

  lemma CacheInvariant(c: Config, es: seq<Event>, s: Sys)
    requires ConfigOk(c) && Reaches(c, es, s)
    ensures LogOk(c, s.snd.log) && CacheOk(c, s.snd.tx.harqCache, s.snd.log)
  {
    hide ConfigOk, Reaches, NetOk, LqrNetOk, RcvOk, CacheOk, TrackedOk, CountersOk, SndCloseOk, RcvCloseOk;
    ReachableInv(c, es, s);
  }

  // And it holds nothing else: whatever a sequence number fetches is a data packet among the last
  // 256, under its own block, index and sequence number.
  lemma CacheHoldsOnlyLog(c: Config, es: seq<Event>, s: Sys, b: Byte) returns (g: nat, i: nat)
    requires ConfigOk(c) && Reaches(c, es, s) && b in s.snd.tx.harqCache
    ensures LogOk(c, s.snd.log) && g < |s.snd.log| && i < c.k
    ensures s.snd.tx.harqCache[b] == PacketOf(c, g, s.snd.log[g], i)
    ensures (g * c.k + i) % 256 == b && |s.snd.log| * c.k <= g * c.k + i + 256
  {
    hide Contract, Reaches, CacheOk, PacketOf;
    CacheInvariant(c, es, s);
    g, i := NakFetches(c, s.snd.tx, s.snd.log, b);
    LastBeforeIs(|s.snd.log| * c.k, b);
  }

  lemma LastBeforeIs(n: nat, b: Byte)
    ensures LastBefore(n, b) % 256 == b && n <= LastBefore(n, b) + 256
  {
    var q := (n - 1 - b) / 256;
    assert n - 1 - b == 256 * q + (n - 1 - b) % 256;
    assert LastBefore(n, b) == b + 256 * q;
  }

  // ---- one answered request

  ghost function Answer(c: Config, log: seq<Group>, g: nat, i: nat): Datagram
    requires LogOk(c, log) && g < |log|
  {
    Datagram(g, match Marshal(PacketOf(c, g, log[g], i)) case Ok(buf) => buf case Err => [])
  }

  // The data slots still empty.
  ghost function Holes(b: RxBlock): set<nat> {
    set i: nat | i < b.k && i < |b.packets| && b.packets[i].None?
  }

  // Every answer that fills an empty slot leaves strictly fewer of them.
  lemma HolesShrink(c: Config, b: RxBlock, i: nat, payload: Shard)
    requires i in Holes(b)
    ensures Holes(Receive(c, b, i, payload)) <= Holes(b) - {i}
    ensures |Holes(Receive(c, b, i, payload))| < |Holes(b)|
  {
    hide Reconstruct;
    var h := Holes(Receive(c, b, i, payload));
    assert h <= Holes(b) - {i};
    Subsets(h, Holes(b) - {i});
  }

  lemma {:induction false} Subsets(a: set<nat>, b: set<nat>)
    requires a <= b
    ensures |a| <= |b|
  {
    assert b == a + (b - a);
  }

  // Data packet i of block g is among the last 256 data packets.
  ghost predicate Recent(c: Config, log: seq<Group>, g: nat, i: nat) {
    |log| * c.k <= g * c.k + i + 256
  }

  lemma RecentNear(c: Config, log: seq<Group>, g: nat, i: nat)
    requires i < c.k && g < |log| && Recent(c, log, g, i)
    ensures |log| <= g + 256
  {
    if |log| > g + 256 {
      MulMono(g + 257, |log|, c.k);
      MulApart(g, c.k);
    }
  }

  lemma MulApart(g: nat, k: nat)
    ensures (g + 257) * k == g * k + 257 * k
  {
  }

  lemma AnswerInNet(c: Config, s: Sys, g: nat, i: nat)
    requires ConfigOk(c) && Inv(c, s) && g < |s.snd.log| && i < c.k && Recent(c, s.snd.log, g, i)
    ensures LogOk(c, s.snd.log)
    ensures DoNak(s, SeqNums(c.k, Wrap(g))[i]) == s.(net := s.net + {Answer(c, s.snd.log, g, i)})
    ensures Genuine(c, s.snd.log, Answer(c, s.snd.log, g, i))
  {
    hide NetOk, LqrNetOk, RcvOk, CacheOk, TrackedOk, CountersOk, SndCloseOk, RcvCloseOk, Contract, Marshal,
      Unmarshal, Payload, Backward, LogBytes, Wrap;
    var log := s.snd.log;
    SeqNumsMatch(c, g, log[g], i);
    CacheFetches(c, s.snd.tx.harqCache, log, g, i);
    RecentNear(c, log, g, i);
    BackwardExact(|log|, g);
    AnswerOk(c, log, g, i);
  }

  lemma AnswerOk(c: Config, log: seq<Group>, g: nat, i: nat)
    requires ConfigOk(c) && LogOk(c, log) && g < |log| && i < c.k
    ensures Marshal(PacketOf(c, g, log[g], i)) == Ok(Answer(c, log, g, i).bytes)
    ensures Genuine(c, log, Answer(c, log, g, i)) && Brings(Answer(c, log, g, i), g, i)
  {
    hide Contract, Marshal, Unmarshal, PacketOf;
    PacketWellFormed(c, g, log[g], i);
    RoundTrip(PacketOf(c, g, log[g], i));
    PacketOnWire(c, g, log[g], i, Answer(c, log, g, i).bytes);
  }

  // The datagram is packet i of block g, as first sent or as an answer.
  ghost predicate Brings(d: Datagram, g: nat, i: nat) {
    && d.grp == g
    && Unmarshal(ReadBuffer(d.bytes)).Ok?
    && Unmarshal(ReadBuffer(d.bytes)).value.idx == i
  }

  // A request for a data packet among the last 256 is answered, in every reachable state, whatever the
  // receiver is doing: the packet itself goes out again, and nothing else changes.
  lemma NakAnswered(c: Config, es: seq<Event>, s: Sys, g: nat, i: nat)
    requires ConfigOk(c) && Reaches(c, es, s)
    requires g < |s.snd.log| && i < c.k && Recent(c, s.snd.log, g, i)
    ensures LogOk(c, s.snd.log)
    ensures var e, d := NakArrives(SeqNums(c.k, Wrap(g))[i]), Answer(c, s.snd.log, g, i);
            && Enabled(c, s, e) && Step(c, s, e) == s.(net := s.net + {d})
            && Brings(d, g, i) && Marshal(PacketOf(c, g, s.snd.log[g], i)) == Ok(d.bytes)
  {
    hide ConfigOk, Reaches, Inv, DoNak, Answer, Marshal, PacketOf, SeqNums, Wrap, Brings;
    ReachableInv(c, es, s);
    AnswerInNet(c, s, g, i);
    AnswerOk(c, s.snd.log, g, i);
  }

  // ---- stability

  // Once decoded, a block's data payloads stay as they are until the writer deletes the block:
  // this is why the writer may read them without holding the lock.
  lemma DecodedForGood(c: Config, es: seq<Event>, s: Sys, e: Event, id: U16)
    requires ConfigOk(c) && Reaches(c, es, s) && Enabled(c, s, e)
    requires id in s.rcv.rx.rxBlocks && s.rcv.rx.rxBlocks[id].decoded && id in Step(c, s, e).rcv.rx.rxBlocks
    ensures var b, b' := s.rcv.rx.rxBlocks[id], Step(c, s, e).rcv.rx.rxBlocks[id];
            && c.k <= |b.packets| <= |b'.packets|
            && b'.decoded && b'.packets[..c.k] == b.packets[..c.k]
            && forall i :: 0 <= i < c.k ==> b.packets[i].Some?
  {
    hide Reaches, ConfigOk, Enabled, Step, Receive, DataComplete;
    var b, b' := s.rcv.rx.rxBlocks[id], Step(c, s, e).rcv.rx.rxBlocks[id];
    DecodedFull(c, es, s, id);
    BlockChange(c, s, e, id);
    Complete(b);
    if idx: nat, payload :| b' == Receive(c, b, idx, payload) {
      DecodedStable(c, b, idx, payload);
    }
  }

  lemma Complete(b: RxBlock)
    requires DataComplete(b)
    ensures b.k <= |b.packets| && forall i :: 0 <= i < b.k ==> b.packets[i].Some?
  {
  }

  // What one event can do to a block other than delete it: mark it as reported, or feed it a packet.
  lemma BlockChange(c: Config, s: Sys, e: Event, id: U16)
    requires Enabled(c, s, e) && id in s.rcv.rx.rxBlocks && id in Step(c, s, e).rcv.rx.rxBlocks
    ensures var b, b' := s.rcv.rx.rxBlocks[id], Step(c, s, e).rcv.rx.rxBlocks[id];
            b' == b || b' == b.(lqrReported := true) || exists idx: nat, payload :: b' == Receive(c, b, idx, payload)
  {
    hide Receive, DoData, DoReport, DoWriter, DoFlush, DoRead, DoNak, DoLqr;
    match e
    case DataArrives(d) => DataChange(c, s.rcv, d, id);
    case LqrTimer(i) => ReportChange(c, s, i, id);
    case WriterStep => WriterChange(c, s, id);
    case _ => SenderChange(c, s, e);
  }

  lemma ReportChange(c: Config, s: Sys, i: U16, id: U16)
    requires id in s.rcv.rx.rxBlocks
    ensures id in DoReport(c, s, i).rcv.rx.rxBlocks
    ensures var b, b' := s.rcv.rx.rxBlocks[id], DoReport(c, s, i).rcv.rx.rxBlocks[id];
            b' == b || b' == b.(lqrReported := true)
  {
    hide Marshal, Losses;
  }

  lemma WriterChange(c: Config, s: Sys, id: U16)
    requires id in s.rcv.rx.rxBlocks && id in DoWriter(c, s).rcv.rx.rxBlocks
    ensures var b, b' := s.rcv.rx.rxBlocks[id], DoWriter(c, s).rcv.rx.rxBlocks[id];
            b' == b || b' == b.(lqrReported := true)
  {
    hide DoReport, DoWriter;
    if s.rcv.pc.Reporting? {
      ReportChange(c, s, s.rcv.rx.nextWriteGrp, id);
      ReportingBlocks(c, s);
    } else if s.rcv.pc.Done? || s.rcv.pc.Removing? {
      RemovingBlocks(c, s, id);
    } else {
      OtherBlocks(c, s);
    }
  }

  lemma ReportingBlocks(c: Config, s: Sys)
    requires s.rcv.pc.Reporting?
    ensures DoWriter(c, s).rcv.rx.rxBlocks == DoReport(c, s, s.rcv.rx.nextWriteGrp).rcv.rx.rxBlocks
  {
    hide DoReport;
  }

  lemma RemovingBlocks(c: Config, s: Sys, id: U16)
    requires (s.rcv.pc.Done? || s.rcv.pc.Removing?) && id in DoWriter(c, s).rcv.rx.rxBlocks
    ensures id in s.rcv.rx.rxBlocks && DoWriter(c, s).rcv.rx.rxBlocks[id] == s.rcv.rx.rxBlocks[id]
  {
    hide DoReport, NextReported, NextSlot;
  }

  lemma OtherBlocks(c: Config, s: Sys)
    requires !s.rcv.pc.Done? && !s.rcv.pc.Removing? && !s.rcv.pc.Reporting?
    ensures DoWriter(c, s).rcv.rx.rxBlocks == s.rcv.rx.rxBlocks
  {
    hide DoReport, DoWritten, Drained, NextSlot, SlotBytes, NextReady, NextReported;
    match s.rcv.pc
    case Writing(i) =>
    case Decide(closed) =>
    case _ =>
  }

  lemma SenderChange(c: Config, s: Sys, e: Event)
    requires Enabled(c, s, e) && !e.DataArrives? && !e.LqrTimer? && !e.WriterStep?
    ensures Step(c, s, e).rcv.rx == s.rcv.rx && Step(c, s, e).rcv.w == s.rcv.w
    ensures Step(c, s, e).rcv.filled == s.rcv.filled && Step(c, s, e).rcv.arrived == s.rcv.arrived
  {
    hide Flush, FlushOut, HandleNak, HandleLQR, Unmarshal, NextSlot, SlotBytes, Append, LogAfter, Tag, Backward;
  }

  // The receiver's reports and writer leave the sender and the network alone.
  lemma ReportSide(c: Config, s: Sys, id: U16)
    ensures DoReport(c, s, id).snd == s.snd && DoReport(c, s, id).net == s.net
  {
    hide Marshal, Losses, Forward, LqrTimeout;
  }

  lemma WriterSide(c: Config, s: Sys)
    ensures DoWriter(c, s).snd == s.snd && DoWriter(c, s).net == s.net
  {
    hide DoReport, DoWritten, Drained, NextSlot, SlotBytes, NextReady, NextReported;
    match s.rcv.pc
    case Reporting => ReportSide(c, s, s.rcv.rx.nextWriteGrp);
    case Done =>
    case Removing =>
    case Writing(_) =>
    case _ =>
  }

  lemma DataChange(c: Config, v: Rcv, d: Datagram, id: U16)
    requires id in v.rx.rxBlocks && id in DoData(c, v, d).rx.rxBlocks
    ensures var b, b' := v.rx.rxBlocks[id], DoData(c, v, d).rx.rxBlocks[id];
            b' == b || exists idx: nat, payload :: b' == Receive(c, b, idx, payload)
  {
    hide Receive, Unmarshal, FilledAfter, Later;
    if Unmarshal(ReadBuffer(d.bytes)).Ok? {
      var p := Unmarshal(ReadBuffer(d.bytes)).value;
      if p.ptype == DATA && Wanted(v.rx, p.groupID) && p.groupID == id {
        assert DoData(c, v, d).rx.rxBlocks[id] == Receive(c, v.rx.rxBlocks[id], p.idx, p.payload);
      }
    }
  }

  // ---- the slice of slots

  // A block's slots are only ever copied to a longer slice, and only for an index past its end.
  lemma ReceiveLength(c: Config, b: RxBlock, idx: nat, payload: Shard)
    ensures |Receive(c, b, idx, payload).packets| == Max(|b.packets|, idx + 1)
  {
    hide Reconstruct, LongestSlot, PadSlots;
  }

  // Every block has room for what either end's M asks for, and no more.
  ghost predicate Roomy(c: Config, r: Rx) {
    forall id :: id in r.rxBlocks ==> c.k + c.rxM <= |r.rxBlocks[id].packets| <= c.k + Max(c.rxM, c.m)
  }

  lemma RoomyStep(c: Config, s: Sys, e: Event)
    requires ConfigOk(c) && Inv(c, s) && Enabled(c, s, e) && Roomy(c, s.rcv.rx)
    ensures Roomy(c, Step(c, s, e).rcv.rx)
  {
    hide ConfigOk, Inv, DoData, DoReport, DoWriter, DoFlush, DoRead, DoNak, DoLqr;
    if e.DataArrives? {
      RoomyArrival(c, s, e.d);
    } else {
      forall id | id in Step(c, s, e).rcv.rx.rxBlocks
        ensures id in s.rcv.rx.rxBlocks
        ensures Step(c, s, e).rcv.rx.rxBlocks[id].packets == s.rcv.rx.rxBlocks[id].packets
      {
        SlotsKept(c, s, e, id);
      }
    }
  }

  lemma SlotsKept(c: Config, s: Sys, e: Event, id: U16)
    requires Enabled(c, s, e) && !e.DataArrives? && id in Step(c, s, e).rcv.rx.rxBlocks
    ensures id in s.rcv.rx.rxBlocks
    ensures Step(c, s, e).rcv.rx.rxBlocks[id].packets == s.rcv.rx.rxBlocks[id].packets
  {
    hide DoReport, DoWriter, DoFlush, DoRead, DoNak, DoLqr;
    match e
    case LqrTimer(i) =>
      ReportNames(c, s, i);
      ReportChange(c, s, i, id);
    case WriterStep =>
      WriterNames(c, s, id);
      WriterChange(c, s, id);
    case _ => SenderChange(c, s, e);
  }

  lemma ReportNames(c: Config, s: Sys, i: U16)
    ensures DoReport(c, s, i).rcv.rx.rxBlocks.Keys == s.rcv.rx.rxBlocks.Keys
  {
    hide Marshal, Losses, Forward, LqrTimeout, LqrPacket;
    MarkedNames(s.rcv.rx, i);
  }

  lemma MarkedNames(r: Rx, i: U16)
    ensures LqrTimeout(r, i).rxBlocks.Keys == r.rxBlocks.Keys
  {
  }

  lemma WriterNames(c: Config, s: Sys, id: U16)
    requires id in DoWriter(c, s).rcv.rx.rxBlocks
    ensures id in s.rcv.rx.rxBlocks
  {
    hide DoReport, DoWriter;
    if s.rcv.pc.Reporting? {
      ReportingBlocks(c, s);
      ReportNames(c, s, s.rcv.rx.nextWriteGrp);
    } else if s.rcv.pc.Done? || s.rcv.pc.Removing? {
      RemovingBlocks(c, s, id);
    } else {
      OtherBlocks(c, s);
    }
  }

  lemma RoomyArrival(c: Config, s: Sys, d: Datagram)
    requires ConfigOk(c) && Inv(c, s) && Enabled(c, s, DataArrives(d)) && Roomy(c, s.rcv.rx)
    ensures Roomy(c, DoData(c, s.rcv, d).rx)
  {
    hide ConfigOk, LqrNetOk, RcvOk, SndCloseOk, RcvCloseOk, Unmarshal, Marshal, PacketOf, Receive, TxInv, DoData,
      BlockAt;
    LogKnown(c, s.snd);
    assert Genuine(c, s.snd.log, d);
    var v, p := s.rcv, Unmarshal(ReadBuffer(d.bytes)).value;
    IndexBelow(c, s.snd.log, d.grp);
    ReceiveLength(c, BlockAt(c, v.rx, p.groupID), p.idx, p.payload);
    BlockAtRoomy(c, v.rx, p.groupID);
    ArrivalBlocks(c, v, d);
  }

  lemma IndexBelow(c: Config, log: seq<Group>, g: nat)
    requires LogOk(c, log) && g < |log|
    ensures log[g].m <= c.m
  {
    hide ShardOk;
    assert GroupOk(c, log[g]);
  }

  lemma BlockAtRoomy(c: Config, r: Rx, id: U16)
    requires Roomy(c, r)
    ensures c.k + c.rxM <= |BlockAt(c, r, id).packets| <= c.k + Max(c.rxM, c.m)
  {
  }

  lemma ArrivalBlocks(c: Config, v: Rcv, d: Datagram)
    requires Unmarshal(ReadBuffer(d.bytes)).Ok?
    ensures var p := Unmarshal(ReadBuffer(d.bytes)).value;
            || DoData(c, v, d).rx.rxBlocks == v.rx.rxBlocks
            || DoData(c, v, d).rx.rxBlocks ==
               v.rx.rxBlocks[p.groupID := Receive(c, BlockAt(c, v.rx, p.groupID), p.idx, p.payload)]
  {
    hide Unmarshal, Receive, Later, FilledAfter, BlockAt;
  }

  lemma {:induction false} RoomyRun(c: Config, s: Sys, es: seq<Event>, t: Sys)
    requires ConfigOk(c) && Inv(c, s) && Roomy(c, s.rcv.rx) && Exec(c, s, es) == Some(t)
    ensures Roomy(c, t.rcv.rx)
    decreases |es|
  {
    hide Inv, ConfigOk, Step, Enabled, Roomy;
    if es != [] {
      RoomyStep(c, s, es[0]);
      StepInv(c, s, es[0]);
      RoomyRun(c, Step(c, s, es[0]), es[1..], t);
    }
  }

  // With no more parity packets than the receiver made room for, no event ever replaces a block's slice.
  lemma SliceKept(c: Config, es: seq<Event>, s: Sys, e: Event, id: U16)
    requires ConfigOk(c) && c.m <= c.rxM && Reaches(c, es, s) && Enabled(c, s, e)
    requires id in s.rcv.rx.rxBlocks && id in Step(c, s, e).rcv.rx.rxBlocks
    ensures |Step(c, s, e).rcv.rx.rxBlocks[id].packets| == |s.rcv.rx.rxBlocks[id].packets| == c.k + c.rxM
  {
    hide Inv, ConfigOk, Exec, Step, Enabled;
    InitInv(c);
    NewRoomy(c);
    RoomyRun(c, InitSys(c), es, s);
    ReachableInv(c, es, s);
    RoomyStep(c, s, e);
  }

  lemma NewRoomy(c: Config)
    ensures Roomy(c, InitSys(c).rcv.rx)
  {
  }

  // Only arrivals change what is on record of them.
  lemma RecordsKept(c: Config, s: Sys, e: Event)
    requires Enabled(c, s, e) && !e.DataArrives?
    ensures Step(c, s, e).rcv.filled == s.rcv.filled && Step(c, s, e).rcv.arrived == s.rcv.arrived
  {
    hide DoReport, DoWriter, DoFlush, DoRead, DoNak, DoLqr;
    match e
    case LqrTimer(id) => ReportRecords(c, s, id);
    case WriterStep => WriterRecords(c, s);
    case _ => SenderChange(c, s, e);
  }

  lemma ReportRecords(c: Config, s: Sys, id: U16)
    ensures DoReport(c, s, id).rcv.filled == s.rcv.filled && DoReport(c, s, id).rcv.arrived == s.rcv.arrived
  {
    hide Marshal, Losses, Forward, LqrTimeout;
  }

  lemma WriterRecords(c: Config, s: Sys)
    ensures DoWriter(c, s).rcv.filled == s.rcv.filled && DoWriter(c, s).rcv.arrived == s.rcv.arrived
  {
    hide DoReport, Written, Drained, NextSlot, SlotBytes, NextReady, NextReported;
    match s.rcv.pc
    case Reporting => ReportRecords(c, s, s.rcv.rx.nextWriteGrp);
    case Done =>
    case Removing =>
    case Writing(_) =>
    case _ =>
  }

  lemma DecodedFull(c: Config, es: seq<Event>, s: Sys, id: U16)
    requires ConfigOk(c) && Reaches(c, es, s) && id in s.rcv.rx.rxBlocks && s.rcv.rx.rxBlocks[id].decoded
    ensures DataComplete(s.rcv.rx.rxBlocks[id]) && s.rcv.rx.rxBlocks[id].k == c.k
  {
    hide Reaches, NetOk, LqrNetOk, ReportsOk, WakeOk, OutputOk, BusyOk, CacheOk, TrackedOk, CountersOk, FilledOk,
      Contract, Wrap, Forward, Payload, LogBytes, IndexOk, SndCloseOk, RcvCloseOk;
    ReachableInv(c, es, s);
    var f := At(s.rcv.filled, Forward(s.rcv.w, id));
    assert BlockInv(c, s.snd.log, s.rcv.rx.hasRecv, s.rcv.w, s.rcv.x, id, s.rcv.rx.rxBlocks[id], f);
  }
}
