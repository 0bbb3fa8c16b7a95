// proxy/session.go: the session object.  Each method is one critical section of the Go code; what
// it does to the two halves of the state is the matching function of Sender and Receiver.
module Session {
  import opened Basics
  import opened Serial
  import opened Protocol
  import opened Shards
  import opened Sender
  import opened Receiver
  import opened Fec
  import opened Shaping
  import opened Rate
  import opened Outgoing

  class Session {
    const c: Config
    const shaper: Shaper
    const fec: FEC

    // TCP to UDP, under muSend
    var curM: nat
    var nextGroupID: U16
    var nextSeqNum: Byte
    var pendingData: seq<Shard>
    var txBlocks: map<U16, TxBlock>
    var harqCache: map<Byte, Packet>
    var consecutiveOk: nat
    var closeSent: bool
    var closeRecv: bool
    var cancelled: bool           // the context is done

    // UDP to TCP, under muRecv
    var nextWriteGrp: U16
    var rxBlocks: map<U16, RxBlock>
    var recvClosed: bool
    var maxRecvGrp: U16
    var hasRecv: bool
    ghost var broadcasts: nat     // calls of writeCond.Broadcast

    ghost function TxState(): Tx
      reads this
    {
      Tx(curM, nextGroupID, nextSeqNum, pendingData, txBlocks, harqCache, consecutiveOk)
    }

    ghost function RxState(): Rx
      reads this
    {
      Rx(nextWriteGrp, rxBlocks, recvClosed, maxRecvGrp, hasRecv)
    }

    // Blocks have their K data slots and sequence numbers; the shaper always runs with the
    // parameters of K + curM packets and has only been given packets that fit the link.
    ghost predicate Valid()
      reads this, shaper, fec
    {
      && ConfigOk(c) && c.m == c.rxM
      && fec.Valid() && fec.code == c.code
      && shaper.Valid()
      && TxFits(c, TxState())
      && (c.mtu > 36 ==> forall p :: p in shaper.history ==> Fits(FlagsOf(c), p))
      && shaper.burstSize == c.k + curM && shaper.burstInterval == Interval(c.bandwidth, c.mtu, c.k + curM)
      && (forall id :: id in rxBlocks ==> BlockShape(rxBlocks[id]))
    }

    ghost predicate BlockShape(b: RxBlock) {
      b.k == c.k && c.k <= |b.packets| && |b.seqNums| == c.k
    }

    // NewSession and the first block of Start.
    constructor (c: Config)
      requires ConfigOk(c) && c.m == c.rxM
      ensures Valid() && this.c == c && fresh(shaper) && fresh(fec)
      ensures TxState() == InitTx(c) && RxState() == InitRx(c)
    {
      this.c := c;
      fec := new FEC(c.code);
      shaper := new Shaper(c.k + c.m, Interval(c.bandwidth, c.mtu, c.k + c.m));
      curM, nextGroupID, nextSeqNum, pendingData := c.m, 0, 0, [];
      txBlocks, harqCache, consecutiveOk := map[], map[], 0;
      closeSent, closeRecv, cancelled := false, false, false;
      nextWriteGrp, recvClosed, maxRecvGrp, hasRecv, broadcasts := 0, false, 0, false, 0;
      rxBlocks := map[0 := NewBlock(c, 0)];
    }

    // ---- sending

    // Appends empty shards until the block is full.
    method PadPending()
      modifies this`pendingData
      ensures pendingData == FillUp(c.k, old(pendingData))
    {
      while |pendingData| < c.k
        invariant |old(pendingData)| <= |pendingData|
        invariant |old(pendingData)| <= c.k ==> |pendingData| <= c.k
        invariant |old(pendingData)| > c.k ==> pendingData == old(pendingData)
        invariant pendingData == old(pendingData) + seq(|pendingData| - |old(pendingData)|, _ => [0, 0])
      {
        pendingData := pendingData + [[0, 0]];
      }
    }

    // Numbers the K data packets, caches each for retransmission and marshals it.
    method EmitData(group: U16) returns (bufs: seq<seq<Byte>>)
      requires c.k <= |pendingData| && nextGroupID == (group + 1) % 65536
      modifies this`nextSeqNum, this`harqCache
      ensures nextSeqNum == (old(nextSeqNum) + c.k) % 256
      ensures harqCache == CacheAll(old(harqCache), PacketsOf(c, group, old(nextSeqNum), pendingData))
      ensures bufs == Wires(PacketsOf(c, group, old(nextSeqNum), pendingData))
    {
      hide Marshal, CacheAll, Wires;
      bufs := [];
      ghost var all := PacketsOf(c, group, nextSeqNum, pendingData);
      NonePushed(harqCache);
      for i := 0 to c.k
        invariant nextSeqNum == (old(nextSeqNum) + i) % 256
        invariant harqCache == CacheAll(old(harqCache), all[..i]) && bufs == Wires(all[..i])
      {
        var seqNum := nextSeqNum;
        SeqStep(old(nextSeqNum) + i);
        nextSeqNum := (nextSeqNum + 1) % 256;
        var pkt :=
          Blank(DATA, c.stream).(seqNum := seqNum, groupID := group, idx := i % 256, payload := pendingData[i]);
        assert pkt == all[i] && all[..i + 1] == all[..i] + [all[i]];
        PushPacket(old(harqCache), all[..i], pkt);
        harqCache := harqCache[seqNum := pkt];
        var buf := Marshal(pkt);
        if buf.Ok? {
          bufs := bufs + [buf.value];
        }
      }
      assert all[..c.k] == all;
    }

    method EmitParity(group: U16, parity: seq<Shard>, before: seq<seq<Byte>>, ghost data: seq<Packet>)
      returns (bufs: seq<seq<Byte>>)
      requires before == Wires(data)
      ensures bufs == Wires(data + ParityPacketsOf(c, group, parity))
    {
      hide Marshal, Wires;
      bufs := before;
      ghost var all := ParityPacketsOf(c, group, parity);
      assert data + all[..0] == data;
      for j := 0 to |parity|
        invariant bufs == Wires(data + all[..j])
      {
        var pkt :=
          Blank(DATA, c.stream).(groupID := group, idx := (c.k + j) % 256, isParity := true, payload := parity[j]);
        assert pkt == all[j] && data + all[..j + 1] == (data + all[..j]) + [all[j]];
        PushPacket(map[], data + all[..j], pkt);
        var buf := Marshal(pkt);
        if buf.Ok? {
          bufs := bufs + [buf.value];
        }
      }
      assert all[..|parity|] == all;
    }

    // Forgets blocks whose reports were lost.
    method DropOld(group: U16)
      modifies this`txBlocks
      ensures txBlocks == DropStale(old(txBlocks), group)
    {
      var ids := txBlocks.Keys;
      while ids != {}
        invariant ids <= old(txBlocks).Keys
        invariant txBlocks.Keys == set id | id in old(txBlocks) && (id in ids || !Stale(group, id))
        invariant forall id :: id in txBlocks ==> txBlocks[id] == old(txBlocks)[id]
        decreases |ids|
      {
        var id :| id in ids;
        if Stale(group, id) {
          txBlocks := txBlocks - {id};
        }
        ids := ids - {id};
      }
    }

    // flushPendingBlockLocked
    method FlushPendingBlock()
      requires Valid()
      modifies this`nextGroupID, this`nextSeqNum, this`pendingData, this`txBlocks, this`harqCache
      modifies shaper`queue, shaper`history, fec
      ensures Valid()
      ensures TxState() == Flush(c, old(TxState()))
      ensures shaper.Now() == Apply(old(shaper.Now()), FlushCalls(c, old(TxState())))
      ensures shaper.queue
           == if shaper.stopped then old(shaper.queue) else old(shaper.queue) + FlushOut(c, old(TxState()))
    {
      hide Encode, CacheAll, Wires, DropStale, Interval, ConfigOk, DataPacket, ParityPacket, FlushOut, TxFits, Fits,
        FlagsOf, BlockShape, Apply, FlushCalls;
      ghost var t := TxState();
      FlushCallsApply(c, t, shaper.Now());
      FlushKeepsFit(c, t);
      FlushFits(c, t);
      FlushOutIs(c, t);
      if |pendingData| == 0 {
        return;
      }
      PadPending();
      var group := nextGroupID;
      nextGroupID := (nextGroupID + 1) % 65536;
      var parity := fec.Encode(c.k, curM, pendingData);
      if parity.Err? {
        pendingData := [];
        return;
      }
      SendBlock(group, parity.value);
    }

    // The packets of a full block are numbered, cached, tracked and queued.
    method SendBlock(group: U16, parity: seq<Shard>)
      requires shaper.Valid() && c.k <= |pendingData| && nextGroupID == (group + 1) % 65536
      modifies this`nextSeqNum, this`pendingData, this`txBlocks, this`harqCache, shaper`queue, shaper`history
      ensures shaper.Valid() && pendingData == [] && nextSeqNum == (old(nextSeqNum) + c.k) % 256
      ensures var data := PacketsOf(c, group, old(nextSeqNum), old(pendingData));
              var bufs := Wires(data + ParityPacketsOf(c, group, parity));
              && harqCache == CacheAll(old(harqCache), data)
              && shaper.queue == (if shaper.stopped then old(shaper.queue) else old(shaper.queue) + bufs)
              && shaper.history == (if shaper.stopped then old(shaper.history) else old(shaper.history) + bufs)
      ensures txBlocks == Track(old(txBlocks), group, curM) && txBlocks[group] == TxBlock(group, curM, false)
    {
      hide CacheAll, Wires, DropStale, DataPacket, ParityPacket;
      ghost var data := PacketsOf(c, group, nextSeqNum, pendingData);
      var bufs := EmitData(group);
      bufs := EmitParity(group, parity, bufs, data);
      DropOld(group);
      txBlocks := txBlocks[group := TxBlock(group, curM, false)];
      shaper.EnqueueMany(bufs);
      pendingData := [];
    }

    // readTCPRun: one chunk from TCP, read into a buffer of the largest payload.
    method ReadChunk(chunk: seq<Byte>)
      requires Valid() && |chunk| <= MaxPayload(c)
      modifies this`nextGroupID, this`nextSeqNum, this`pendingData, this`txBlocks, this`harqCache
      modifies shaper`queue, shaper`history, fec
      ensures Valid()
      ensures TxState() == Read(c, old(TxState()), chunk)
      ensures shaper.Now() == Apply(old(shaper.Now()), ReadCalls(c, old(TxState()), chunk))
      ensures var t := old(TxState()).(pending := old(pendingData) + [Frame(chunk)]);
              if |t.pending| < c.k then TxState() == t && shaper.queue == old(shaper.queue)
              else TxState() == Flush(c, t) &&
                   shaper.queue == old(shaper.queue) + if shaper.stopped then [] else FlushOut(c, t)
    {
      AppendFits(c, TxState(), chunk);
      pendingData := pendingData + [Frame(chunk)];
      if |pendingData| >= c.k {
        FlushPendingBlock();
      }
    }

    method UpdateShaperParams()
      requires shaper.Valid()
      modifies shaper`burstSize, shaper`burstInterval
      ensures shaper.Valid()
      ensures shaper.burstSize == c.k + curM && shaper.burstInterval == Interval(c.bandwidth, c.mtu, c.k + curM)
    {
      shaper.UpdateParams(c.k + curM, Interval(c.bandwidth, c.mtu, c.k + curM));
    }

    method HandleLQR(p: Packet)
      requires Valid()
      modifies this`txBlocks, this`consecutiveOk, this`curM, shaper`burstSize, shaper`burstInterval
      ensures Valid()
      ensures TxState() == Sender.HandleLQR(c, old(TxState()), p.groupID, p.losses)
      ensures shaper.Now() == Apply(old(shaper.Now()), ReportCalls(c, old(TxState()), p.groupID, p.losses))
    {
      hide Interval, ConfigOk, TxFits, Fits, FlagsOf, BlockShape, Apply, ReportCalls;
      ReportCallsApply(c, TxState(), shaper.Now(), p.groupID, p.losses);
      ReportFits(c, TxState(), p.groupID, p.losses);
      if p.groupID !in txBlocks || txBlocks[p.groupID].lqrRecved {
        return;
      }
      var losses := p.losses as int;
      if losses == 0 {
        consecutiveOk := consecutiveOk + 1;
        if consecutiveOk >= 5 {
          if curM > 0 {
            curM := curM - 1;
            UpdateShaperParams();
          }
          consecutiveOk := 0;
        }
      } else {
        consecutiveOk := 0;
        var newM := losses + 1;
        if newM > c.m {
          newM := c.m;
        }
        if curM < newM {
          curM := newM;
          UpdateShaperParams();
        }
      }
      txBlocks := txBlocks - {p.groupID};
    }

    method HandleNak(p: Packet)
      requires Valid()
      modifies shaper`queue, shaper`history
      ensures Valid()
      ensures shaper.Now() == Apply(old(shaper.Now()), NakCalls(TxState(), p.seqNum))
      ensures p.seqNum in harqCache && Marshal(harqCache[p.seqNum]).Ok? && !shaper.stopped ==>
        shaper.queue == old(shaper.queue) + [Marshal(harqCache[p.seqNum]).value]
      ensures p.seqNum !in harqCache || Marshal(harqCache[p.seqNum]).Err? || shaper.stopped ==>
        shaper.queue == old(shaper.queue)
    {
      hide Marshal, TxFits, Interval, ConfigOk;
      if p.seqNum in harqCache {
        var buf := Marshal(harqCache[p.seqNum]);
        if buf.Ok? {
          NakShort(c, TxState(), p.seqNum);
          FitsLink(c, buf.value);
          ApplyOne(shaper.Now(), Op.Enqueue(buf.value));
          shaper.Enqueue(buf.value);
        }
      }
    }

    // The check made before CLOSE is sent.
    method AllBlocksAcked() returns (acked: bool)
      ensures acked <==> AllAcked(TxState())
    {
      acked := true;
      var ids := txBlocks.Keys;
      while ids != {}
        invariant ids <= txBlocks.Keys
        invariant acked <==> forall id :: id in txBlocks && id !in ids ==> txBlocks[id].lqrRecved
        decreases |ids|
      {
        var id :| id in ids;
        ids := ids - {id};
        if !txBlocks[id].lqrRecved {
          acked := false;
          assert id in txBlocks && id !in ids;
          return;
        }
      }
    }

    // ---- receiving

    method HandleDataPacket(p: Packet)
      requires Valid()
      modifies this`rxBlocks, this`maxRecvGrp, this`hasRecv, this`broadcasts, fec
      ensures Valid()
      ensures RxState() == HandleData(c, old(RxState()), p)
      ensures broadcasts == old(broadcasts) + if Completes(c, old(RxState()), p) then 1 else 0
    {
      hide Interval, ConfigOk, Receive, NewBlock, Later;
      if recvClosed {
        return;
      }
      var group := p.groupID;
      if !hasRecv {
        maxRecvGrp, hasRecv := group, true;
      } else if Later(group, maxRecvGrp) {
        maxRecvGrp := group;
      }
      if Later(nextWriteGrp, group) {
        return;
      }
      StorePacket(group, p.idx as int, p.payload);
    }

    // Finds or makes the block, places the payload, and decodes as soon as K shards are there.
    method StorePacket(group: U16, idx: nat, payload: Shard)
      requires Valid()
      modifies this`rxBlocks, this`broadcasts, fec
      ensures Valid()
      ensures rxBlocks == old(rxBlocks)[group := Receive(c, old(BlockAt(c, RxState(), group)), idx, payload)]
      ensures broadcasts == old(broadcasts) +
                            if !old(BlockAt(c, RxState(), group)).decoded && rxBlocks[group].decoded then 1 else 0
    {
      hide Interval, ConfigOk, Place, TryDecode, NewBlock;
      var b;
      if group in rxBlocks {
        b := rxBlocks[group];
      } else {
        b := NewRxBlock(group);
      }
      b := PlacePacket(b, idx, payload);
      rxBlocks := rxBlocks[group := b];
      if b.receivedCnt >= b.k && !b.decoded {
        TryDecodeBlock(group);
      }
    }

    method NewRxBlock(group: U16) returns (b: RxBlock)
      ensures b == NewBlock(c, group) && BlockShape(b)
    {
      var seqNums := FirstNumbers(group);
      b := RxBlock(group, c.k, c.rxM, seq(c.k + c.rxM, _ => None), seqNums, 0, false, false);
    }

    // Makes room for the index if need be, and keeps the payload if the slot is empty.
    method PlacePacket(b0: RxBlock, idx: nat, payload: Shard) returns (b: RxBlock)
      requires BlockShape(b0)
      ensures b == Place(b0, idx, payload) && BlockShape(b) && b.decoded == b0.decoded
    {
      b := b0;
      if idx >= |b.packets| {
        var packets := b.packets + seq(idx + 1 - |b.packets|, _ => None);
        b := b.(packets := packets, m := idx + 1 - b.k);
      }
      if b.packets[idx].None? {
        b := b.(packets := b.packets[idx := Some(payload)], receivedCnt := b.receivedCnt + 1);
      }
    }

    // The sequence numbers of a block the receiver has just heard of.
    method FirstNumbers(group: U16) returns (seqNums: seq<Byte>)
      ensures seqNums == SeqNums(c.k, group)
    {
      var firstSeq := group * c.k % 256;
      seqNums := [];
      for i := 0 to c.k
        invariant seqNums == SeqNums(c.k, group)[..i]
      {
        seqNums := seqNums + [(firstSeq + i) % 256];
      }
    }

    method TryDecodeBlock(group: U16)
      requires ConfigOk(c) && fec.Valid() && fec.code == c.code
      requires group in rxBlocks && BlockShape(rxBlocks[group]) && !rxBlocks[group].decoded
      modifies this`rxBlocks, this`broadcasts, fec
      ensures fec.Valid()
      ensures rxBlocks == old(rxBlocks)[group := TryDecode(c, old(rxBlocks[group]))]
      ensures BlockShape(rxBlocks[group])
      ensures broadcasts == old(broadcasts) + if rxBlocks[group].decoded then 1 else 0
    {
      hide ConfigOk, DataComplete, LongestSlot, Reconstruct, PadSlots;
      var b := rxBlocks[group];
      var complete := CountData(b);
      if complete {
        rxBlocks, broadcasts := rxBlocks[group := b.(decoded := true)], broadcasts + 1;
        return;
      }
      var maxLen := MaxSlot(b.packets);
      if maxLen == 0 {
        assert rxBlocks == rxBlocks[group := b];
        return;
      }
      var m := |b.packets| - b.k;
      var shards := PadInto(b.packets, maxLen);
      var ok := fec.Reconstruct(b.k, m, shards);
      if !ok {
        assert rxBlocks == rxBlocks[group := b];
        return;
      }
      var packets := CopyBack(b, shards);
      ghost var full := Reconstruct(c.code, b.k, m, PadSlots(b.packets, maxLen)).value;
      assert packets == FillData(b, full).packets;
      rxBlocks, broadcasts := rxBlocks[group := b.(packets := packets, decoded := true)], broadcasts + 1;
    }

    // How many of the K data shards are there?
    method CountData(b: RxBlock) returns (complete: bool)
      requires b.k <= |b.packets|
      ensures complete <==> DataComplete(b)
    {
      var dataOk := 0;
      for i := 0 to b.k
        invariant 0 <= dataOk <= i
        invariant dataOk == i <==> forall j :: 0 <= j < i ==> b.packets[j].Some?
      {
        if b.packets[i].Some? {
          dataOk := dataOk + 1;
        }
      }
      complete := dataOk == b.k;
    }

    method MaxSlot(slots: seq<Option<Shard>>) returns (maxLen: nat)
      ensures maxLen == LongestSlot(slots)
    {
      maxLen := 0;
      for i := 0 to |slots|
        invariant maxLen == LongestSlot(slots[..i])
      {
        assert slots[..i + 1][..i] == slots[..i];
        if slots[i].Some? && |slots[i].value| > maxLen {
          maxLen := |slots[i].value|;
        }
      }
      assert slots[..|slots|] == slots;
    }

    method PadInto(slots: seq<Option<Shard>>, maxLen: nat) returns (shards: array<Option<Shard>>)
      ensures fresh(shards) && shards[..] == PadSlots(slots, maxLen)
    {
      shards := new Option<Shard>[|slots|](_ => None);
      for i := 0 to |slots|
        invariant forall j :: 0 <= j < i ==> shards[j] == PadSlots(slots, maxLen)[j]
        invariant forall j :: i <= j < |slots| ==> shards[j] == None
      {
        if slots[i].Some? {
          var p := slots[i].value;
          if |p| < maxLen {
            shards[i] := Some(p + Zeros(maxLen - |p|));
          } else {
            shards[i] := Some(p);
          }
        }
      }
    }

    method CopyBack(b: RxBlock, shards: array<Option<Shard>>) returns (packets: seq<Option<Shard>>)
      requires b.k <= |b.packets| == shards.Length
      ensures |packets| == |b.packets|
      ensures forall i :: 0 <= i < |packets| ==>
        packets[i] == if i < b.k && b.packets[i].None? then shards[i] else b.packets[i]
    {
      packets := b.packets;
      for i := 0 to b.k
        invariant |packets| == |b.packets|
        invariant forall j :: 0 <= j < |packets| ==>
          packets[j] == if j < i && b.packets[j].None? then shards[j] else b.packets[j]
      {
        if packets[i].None? {
          packets := packets[i := shards[i]];
        }
      }
    }

    // handleLQRTimeout: at most one report per block.
    method HandleLQRTimeout(group: U16) returns (report: Option<Packet>)
      requires Valid()
      modifies this`rxBlocks
      ensures Valid()
      ensures RxState() == LqrTimeout(old(RxState()), group)
      ensures report == if Reports(old(RxState()), group) then Some(LqrPacket(c, old(RxState()), group)) else None
    {
      if group !in rxBlocks || rxBlocks[group].lqrReported {
        return None;
      }
      var b := rxBlocks[group];
      rxBlocks := rxBlocks[group := b.(lqrReported := true)];
      var maxIdx := -1;
      for i := 0 to |b.packets|
        invariant maxIdx == LastFilled(b.packets[..i])
      {
        assert b.packets[..i + 1][..i] == b.packets[..i];
        if b.packets[i].Some? {
          maxIdx := i;
        }
      }
      assert b.packets[..|b.packets|] == b.packets;
      var expectedTotal := b.k;
      if maxIdx >= b.k {
        expectedTotal := maxIdx + 1;
      }
      var losses := expectedTotal - b.receivedCnt;
      if losses < 0 {
        losses := 0;
      }
      if losses > 255 {
        losses := 255;
      }
      return Some(Blank(LQR, c.stream).(groupID := group, losses := losses));
    }

    // One round of sendNakPeriodic.
    method NakTick(group: U16) returns (naks: seq<Packet>)
      requires Valid()
      ensures |naks| == if group in rxBlocks then |NakRequests(rxBlocks[group])| else 0
      ensures forall i :: 0 <= i < |naks| ==>
        naks[i] == Blank(NAK, c.stream).(seqNum := NakRequests(rxBlocks[group])[i])
    {
      naks := [];
      if group !in rxBlocks || rxBlocks[group].decoded {
        return;
      }
      var b := rxBlocks[group];
      if b.receivedCnt < b.k {
        for i := 0 to b.k
          invariant |naks| == |Missing(b, i)|
          invariant forall j :: 0 <= j < |naks| ==> naks[j] == Blank(NAK, c.stream).(seqNum := Missing(b, i)[j])
        {
          if b.packets[i].None? {
            naks := naks + [Blank(NAK, c.stream).(seqNum := b.seqNums[i])];
          }
        }
      }
    }

    // ---- writing to TCP

    // The TCP bytes of one payload: none if it is too short for its length field or that is zero or wrong.
    method ExtractData(payload: Shard) returns (data: seq<Byte>)
      ensures data == Strip(payload)
    {
      data := [];
      if |payload| >= 2 {
        var dataLen := FromBigEndian(payload[0], payload[1]);
        if dataLen > 0 && 2 + dataLen <= |payload| {
          data := payload[2..2 + dataLen];
        }
      }
    }

    // What the writer writes for the block it found ready, to a connection that takes `room` more bytes
    // before a write fails.
    method WriteBlock(b: RxBlock, room: nat) returns (out: seq<Byte>, ok: bool)
      requires b.k <= |b.packets|
      ensures var all := Bytes(Payloads(b)); ok == (|all| <= room) && out == if ok then all else all[..room]
    {
      hide Strip, Bytes;
      out, ok := [], true;
      ghost var payloads := Payloads(b);
      NoBytes();
      for i := 0 to b.k
        invariant out == Bytes(payloads[..i]) && |out| <= room
      {
        assert payloads[..i + 1] == payloads[..i] + [payloads[i]];
        BytesAppend(payloads[..i], payloads[i]);
        var data := ExtractData(if b.packets[i].Some? then b.packets[i].value else []);
        if |out| + |data| > room {
          PartialWrite(payloads, i, room);
          return out + data[..room - |out|], false;
        }
        out := out + data;
      }
      assert payloads[..b.k] == payloads;
    }

    // The block has been written: report on it if nobody has, delete it, go on to the next.
    method FinishBlock() returns (report: Option<Packet>)
      requires Valid() && nextWriteGrp in rxBlocks
      modifies this`rxBlocks, this`nextWriteGrp
      ensures Valid()
      ensures RxState() == Written(LqrTimeout(old(RxState()), old(nextWriteGrp)))
      ensures report.Some? <==> !old(rxBlocks[nextWriteGrp]).lqrReported
      ensures report.Some? ==> report.value == LqrPacket(c, old(RxState()), old(nextWriteGrp))
    {
      report := None;
      if !rxBlocks[nextWriteGrp].lqrReported {
        report := HandleLQRTimeout(nextWriteGrp);
      }
      rxBlocks, nextWriteGrp := rxBlocks - {nextWriteGrp}, (nextWriteGrp + 1) % 65536;
    }

    // ---- closing

    // CLOSE from the peer: the flag, then the broadcast; the session ends if it has sent its own.
    method HandleClose()
      requires Valid()
      modifies this`closeRecv, this`cancelled, this`broadcasts, shaper`stopped
      ensures Valid() && closeRecv && TxState() == old(TxState()) && RxState() == old(RxState())
      ensures cancelled == (old(cancelled) || closeSent) && shaper.stopped == (old(shaper.stopped) || closeSent)
      ensures broadcasts == old(broadcasts) + if closeSent then 2 else 1
    {
      closeRecv := true;
      var bothClosed := closeSent && closeRecv;
      broadcasts := broadcasts + 1;
      if bothClosed {
        Close();
      }
    }

    // Session.Close: the context first, the broadcast last.
    method Close()
      requires Valid()
      modifies this`cancelled, this`broadcasts, shaper`stopped
      ensures Valid() && cancelled && shaper.stopped && broadcasts == old(broadcasts) + 1
    {
      cancelled := true;
      shaper.Stop();
      broadcasts := broadcasts + 1;
    }

    // ---- the rate

    // In every valid state the shaper is one the rate bound is proved for.
    lemma ShaperIsSession()
      requires Valid() && c.mtu > 36
      ensures ViewOk(FlagsOf(c), shaper.Now())
    {
      hide Interval, ConfigOk;
      assert forall p :: p in shaper.queue ==> p in shaper.history;
    }
  }

  // ---- what goes to the shaper fits

  lemma FitsLink(c: Config, p: Wire)
    requires |p| <= MaxPayload(c) + 8
    ensures c.mtu > 36 ==> Fits(FlagsOf(c), p)
  {
  }

  lemma FlushFits(c: Config, t: Tx)
    requires ConfigOk(c) && TxFits(c, t)
    ensures c.mtu > 36 ==> forall p :: p in FlushOut(c, t) ==> Fits(FlagsOf(c), p)
  {
    hide ConfigOk, TxFits, FlushOut;
    FlushShort(c, t);
  }

  // What a flush does to the shaper's fields.
  lemma FlushCallsApply(c: Config, t: Tx, v: View)
    ensures Apply(v, FlushCalls(c, t)) == (if v.stopped then v else v.(queue := v.queue + FlushOut(c, t)))
    ensures t.pending == [] || ParityOf(c, t).Err? ==> Apply(v, FlushCalls(c, t)) == v
  {
    hide ParityOf;
    if t.pending == [] || ParityOf(c, t).Err? {
      assert v.queue + [] == v.queue;
    } else {
      ApplyOne(v, EnqueueMany(FlushOut(c, t)));
    }
  }

  // And a report: the parameters of the parity count it leads to.
  lemma ReportCallsApply(c: Config, t: Tx, v: View, group: U16, losses: Byte)
    requires v.size == c.k + t.curM && v.interval == Interval(c.bandwidth, c.mtu, v.size)
    ensures var m := Sender.HandleLQR(c, t, group, losses).curM;
            Apply(v, ReportCalls(c, t, group, losses)) ==
            v.(size := c.k + m, interval := Interval(c.bandwidth, c.mtu, c.k + m))
  {
    hide Interval, Sender.HandleLQR;
    var m := Sender.HandleLQR(c, t, group, losses).curM;
    ApplyOne(v, UpdateParams(c.k + m, Interval(c.bandwidth, c.mtu, c.k + m)));
  }

  lemma NoBytes()
    ensures Bytes([]) == []
  {
  }

  // A write that fails in shard i has written the beginning of the block.
  lemma PartialWrite(payloads: seq<Shard>, i: nat, room: nat)
    requires i < |payloads| && |Bytes(payloads[..i])| <= room < |Bytes(payloads[..i]) + Strip(payloads[i])|
    ensures var before := Bytes(payloads[..i]);
            && |Bytes(payloads)| > room
            && Bytes(payloads)[..room] == before + Strip(payloads[i])[..room - |before|]
  {
    hide Strip;
    assert payloads == payloads[..i + 1] + payloads[i + 1..] && payloads[..i + 1] == payloads[..i] + [payloads[i]];
    BytesAppend(payloads[..i], payloads[i]);
    BytesConcat(payloads[..i + 1], payloads[i + 1..]);
  }

  // ---- small facts about the loops

  lemma SeqStep(n: nat)
    ensures (n % 256 + 1) % 256 == (n + 1) % 256
  {
  }

  lemma NonePushed(cache: map<Byte, Packet>)
    ensures CacheAll(cache, []) == cache && Wires([]) == []
  {
  }

  lemma PushPacket(cache: map<Byte, Packet>, ps: seq<Packet>, p: Packet)
    ensures CacheAll(cache, ps + [p]) == CacheAll(cache, ps)[p.seqNum := p]
    ensures Wires(ps + [p]) == Wires(ps) + (if Marshal(p).Ok? then [Marshal(p).value] else [])
  {
    hide Marshal;
    assert (ps + [p])[..|ps|] == ps;
  }

  lemma FlushOutIs(c: Config, t: Tx)
    ensures t.pending == [] || ParityOf(c, t).Err? ==> FlushOut(c, t) == []
    ensures t.pending != [] && ParityOf(c, t).Ok? ==>
      FlushOut(c, t) == Wires(DataPackets(c, t) + ParityPackets(c, t, ParityOf(c, t).value))
  {
  }
}
