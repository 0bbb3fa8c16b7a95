// What a session hands to its shaper: packets that fit the link, parameters set in consistent pairs.
module Outgoing {
  import opened Basics
  import opened Protocol
  import opened Shards
  import opened ErasureCode
  import opened Sender
  import opened SenderProofs
  import opened Shaping
  import opened Rate

  function FlagsOf(c: Config): Flags {
    Flags(c.k, c.m, c.bandwidth, Max(0, c.mtu))
  }

  ghost predicate Short(c: Config, s: Shard) {
    |s| <= MaxPayload(c) + 2
  }

  // Nothing pending or cached is longer than a read makes it, and the parity count is in its range.
  ghost predicate TxFits(c: Config, t: Tx) {
    && t.curM <= c.m
    && (forall s :: s in t.pending ==> Short(c, s))
    && CacheFits(c, t.harqCache)
  }

  ghost predicate CacheFits(c: Config, cache: map<Byte, Packet>) {
    forall b :: b in cache ==> cache[b].ptype == DATA && Short(c, cache[b].payload)
  }

  // ---- what comes out fits

  lemma {:induction false} WiresShort(c: Config, ps: seq<Packet>)
    requires forall i :: 0 <= i < |ps| ==> ps[i].ptype == DATA && Short(c, ps[i].payload)
    ensures forall p :: p in Wires(ps) ==> |p| <= MaxPayload(c) + 8
  {
    hide Marshal, MaxPayload;
    if ps != [] {
      WiresShort(c, ps[..|ps| - 1]);
      MarshalShort(c, ps[|ps| - 1]);
    }
  }

  lemma MarshalShort(c: Config, p: Packet)
    requires p.ptype == DATA && Short(c, p.payload)
    ensures Marshal(p).Ok? ==> |Marshal(p).value| <= MaxPayload(c) + 8
  {
    hide MaxPayload;
  }

  lemma FilledShort(c: Config, t: Tx)
    requires TxFits(c, t)
    ensures forall s :: s in FillUp(c.k, t.pending) ==> Short(c, s)
  {
    hide MaxPayload;
    PayloadPositive(c);
  }

  lemma PadShort(c: Config, data: seq<Shard>)
    requires data != [] && forall s :: s in data ==> Short(c, s)
    ensures PadLength(data) <= MaxPayload(c) + 2
  {
    hide Longest, MaxPayload;
    var i := LongestAttained(data);
    PayloadPositive(c);
    assert Short(c, data[i]);
  }

  lemma ParityShort(c: Config, t: Tx, parity: seq<Shard>)
    requires ConfigOk(c) && TxFits(c, t) && ParityOf(c, t) == Ok(parity)
    ensures forall j :: 0 <= j < |parity| ==> Short(c, parity[j])
  {
    hide Contract, Longest, MaxPayload;
    var data := FillUp(c.k, t.pending);
    FilledShort(c, t);
    PadShort(c, data);
    var n := PadLength(data);
    forall j | 0 <= j < |parity|
      ensures Short(c, parity[j])
    {
      PadAllUniform(c.k, data);
      ParityLength(c.code, c.k, j, n, PadAll(c.k, data));
    }
  }

  lemma FlushShort(c: Config, t: Tx)
    requires ConfigOk(c) && TxFits(c, t)
    ensures forall p :: p in FlushOut(c, t) ==> |p| <= MaxPayload(c) + 8
  {
    hide ConfigOk, Wires, Encode, FillUp, Marshal, Short;
    if t.pending != [] && ParityOf(c, t).Ok? {
      var parity := ParityOf(c, t).value;
      FilledShort(c, t);
      ParityShort(c, t, parity);
      WiresShort(c, DataPackets(c, t) + ParityPackets(c, t, parity));
    }
  }

  lemma NakShort(c: Config, t: Tx, seqNum: Byte)
    requires TxFits(c, t) && HandleNak(t, seqNum).Some?
    ensures |HandleNak(t, seqNum).value| <= MaxPayload(c) + 8
  {
    hide Marshal, MaxPayload, Short;
    MarshalShort(c, t.harqCache[seqNum]);
  }

  // The largest read fills the link exactly: with its frame, packet, UDP and IPv4 headers it takes LinkMTU
  // bytes; without a usable LinkMTU it is 512 bytes.
  lemma LargestRead(c: Config, p: Packet, chunk: seq<Byte>)
    requires p.ptype == DATA && p.streamID <= 0xFFF && p.payload == Frame(chunk) && |chunk| == MaxPayload(c)
    ensures Marshal(p).Ok?
    ensures c.mtu > 36 ==> |Marshal(p).value| + 28 == c.mtu
    ensures c.mtu <= 36 ==> |chunk| == 512
  {
    hide Marshal;
    DataSize(p);
  }

  // ---- the calls a session makes on its shaper

  function FlushCalls(c: Config, t: Tx): seq<Op> {
    if t.pending == [] || ParityOf(c, t).Err? then [] else [EnqueueMany(FlushOut(c, t))]
  }

  function ReadCalls(c: Config, t: Tx, chunk: seq<Byte>): seq<Op> {
    var t1 := Append(t, chunk);
    if |t1.pending| >= c.k then FlushCalls(c, t1) else []
  }

  // New parameters only if the parity count changed.
  function ReportCalls(c: Config, t: Tx, group: U16, losses: Byte): seq<Op> {
    var m := HandleLQR(c, t, group, losses).curM;
    if m == t.curM then [] else [UpdateParams(c.k + m, Interval(c.bandwidth, c.mtu, c.k + m))]
  }

  function NakCalls(t: Tx, seqNum: Byte): seq<Op> {
    match HandleNak(t, seqNum)
    case Some(buf) => [Op.Enqueue(buf)]
    case None => []
  }

  // With a usable LinkMTU, every such call is one that the rate bound allows for.
  lemma CallsAreSession(c: Config, t: Tx, chunk: seq<Byte>, seqNum: Byte, group: U16, losses: Byte)
    requires ConfigOk(c) && TxFits(c, t) && c.mtu > 36
    ensures SessionOps(FlagsOf(c), FlushCalls(c, t))
    ensures |chunk| <= MaxPayload(c) ==> SessionOps(FlagsOf(c), ReadCalls(c, t, chunk))
    ensures SessionOps(FlagsOf(c), NakCalls(t, seqNum))
    ensures SessionOps(FlagsOf(c), ReportCalls(c, t, group, losses))
  {
    hide Contract, FlushOut, HandleNak, Interval, Append;
    FlushShort(c, t);
    if |chunk| <= MaxPayload(c) {
      AppendFits(c, t, chunk);
      FlushShort(c, Append(t, chunk));
    }
    if HandleNak(t, seqNum).Some? {
      NakShort(c, t, seqNum);
    }
    ReportFits(c, t, group, losses);
  }

  // ---- and stays so

  lemma {:induction false} CacheShort(c: Config, cache: map<Byte, Packet>, ps: seq<Packet>)
    requires CacheFits(c, cache)
    requires forall i :: 0 <= i < |ps| ==> ps[i].ptype == DATA && Short(c, ps[i].payload)
    ensures CacheFits(c, CacheAll(cache, ps))
  {
    hide Short;
    if ps != [] {
      var init, last := ps[..|ps| - 1], ps[|ps| - 1];
      CacheShort(c, cache, init);
      assert CacheAll(cache, ps) == CacheAll(cache, init)[last.seqNum := last];
    }
  }

  lemma FlushKeepsFit(c: Config, t: Tx)
    requires TxFits(c, t)
    ensures TxFits(c, Flush(c, t))
  {
    hide Encode, FillUp, CacheAll, CacheFits, Short, Track;
    FilledShort(c, t);
    var data, ps := FillUp(c.k, t.pending), DataPackets(c, t);
    forall i | 0 <= i < |ps|
      ensures ps[i].ptype == DATA && Short(c, ps[i].payload)
    {
      assert data[i] in data;
    }
    CacheShort(c, t.harqCache, ps);
  }

  lemma AppendFits(c: Config, t: Tx, chunk: seq<Byte>)
    requires TxFits(c, t) && |chunk| <= MaxPayload(c)
    ensures TxFits(c, Append(t, chunk))
  {
    hide MaxPayload;
  }

  lemma ReportFits(c: Config, t: Tx, group: U16, losses: Byte)
    requires TxFits(c, t)
    ensures TxFits(c, HandleLQR(c, t, group, losses))
  {
    hide Short;
  }
}
