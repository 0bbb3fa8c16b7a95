// On a fast link shaping goes off, and a session's shaper then sends faster than the bandwidth: a
// history that takes a session there, and the exact condition under which none does.
module FastLink {
  import opened Basics
  import opened Protocol
  import opened Shards
  import opened ErasureCode
  import opened Sender
  import opened Controller
  import opened Shaping
  import opened Rate
  import opened Outgoing
  import opened History

  // ---- clean blocks take the parity count to zero

  // A read that fills the buffer.
  function FullChunk(c: Config): (r: seq<Byte>)
    ensures |r| == MaxPayload(c)
  {
    seq(MaxPayload(c), _ => 0)
  }

  function ReadChunks(c: Config, t: Tx, n: nat): Tx {
    if n == 0 then t else Read(c, ReadChunks(c, t, n - 1), FullChunk(c))
  }

  // A block is read, sent and reported on without loss.
  function CleanBlock(c: Config, t: Tx): Tx {
    HandleLQR(c, ReadChunks(c, t, c.k), t.nextGroupID, 0)
  }

  function CleanBlocks(c: Config, n: nat): Tx {
    if n == 0 then InitTx(c) else CleanBlock(c, CleanBlocks(c, n - 1))
  }

  lemma {:induction false} Collecting(c: Config, t: Tx, n: nat)
    requires t.pending == [] && n < c.k
    ensures ReadChunks(c, t, n) == t.(pending := seq(n, _ => Frame(FullChunk(c))))
  {
    hide Flush, Frame;
    if n > 0 {
      Collecting(c, t, n - 1);
      var f := Frame(FullChunk(c));
      assert seq(n - 1, _ => f) + [f] == seq(n, _ => f);
    }
  }

  // The block of K full chunks, ready to be flushed.
  function FullBlock(c: Config, t: Tx): Tx {
    t.(pending := seq(c.k, _ => Frame(FullChunk(c))))
  }

  lemma BlockRead(c: Config, t: Tx)
    requires c.k >= 1 && t.pending == []
    ensures ReadChunks(c, t, c.k) == Flush(c, FullBlock(c, t))
  {
    hide Flush, Frame;
    Collecting(c, t, c.k - 1);
    var f := Frame(FullChunk(c));
    assert seq(c.k - 1, _ => f) + [f] == seq(c.k, _ => f);
  }

  lemma BlockSent(c: Config, t: Tx)
    requires ConfigOk(c) && t.curM <= c.m && t.txBlocks == map[] && t.pending == []
    ensures var t1, t2 := FullBlock(c, t), Flush(c, FullBlock(c, t));
            && t2.pending == [] && t2.curM == t.curM && t2.consecutiveOk == t.consecutiveOk
            && t2.txBlocks == map[t.nextGroupID := TxBlock(t.nextGroupID, t.curM, false)]
            && t2.harqCache == CacheAll(t.harqCache, DataPackets(c, t1))
  {
    hide Contract, CacheAll, Frame, DataPackets;
  }

  lemma LastCached(cache: map<Byte, Packet>, ps: seq<Packet>)
    requires ps != []
    ensures var last := ps[|ps| - 1]; last.seqNum in CacheAll(cache, ps) && CacheAll(cache, ps)[last.seqNum] == last
  {
  }

  // After n such blocks the parity count is down by one for every five, and the last packet is cached.
  lemma {:induction false} AfterCleanBlocks(c: Config, n: nat)
    requires ConfigOk(c)
    ensures var t := CleanBlocks(c, n);
            && t.pending == [] && t.txBlocks == map[] && t.curM == Max(0, c.m - n / 5) && t.consecutiveOk == n % 5
            && (n > 0 ==> exists b :: b in t.harqCache && FullPacket(c, t.harqCache[b]))
  {
    hide Contract, Flush, ReadChunks, CacheAll;
    if n > 0 {
      AfterCleanBlocks(c, n - 1);
      var t := CleanBlocks(c, n - 1);
      var t1 := FullBlock(c, t);
      BlockRead(c, t);
      BlockSent(c, t);
      var ps := DataPackets(c, t1);
      LastCached(t.harqCache, ps);
      LastIsFull(c, t);
      assert ps[|ps| - 1].seqNum in CleanBlocks(c, n).harqCache;
      FifthReport(n - 1);
    }
  }

  // A data packet as long as the session makes them.
  ghost predicate FullPacket(c: Config, p: Packet) {
    p.ptype == DATA && p.streamID == c.stream && |p.payload| == MaxPayload(c) + 2
  }

  lemma LastIsFull(c: Config, t: Tx)
    requires c.k >= 1
    ensures var ps := DataPackets(c, FullBlock(c, t)); ps != [] && FullPacket(c, ps[|ps| - 1])
  {
    hide Frame;
    var data := FullBlock(c, t).pending;
    assert FillUp(c.k, data) == data;
    FrameLength(FullChunk(c));
  }

  lemma FrameLength(b: seq<Byte>)
    ensures |Frame(b)| == |b| + 2
  {
  }

  // ---- the history and its calls

  function Chunks(c: Config, n: nat): seq<Act> {
    seq(n, _ => Chunk(FullChunk(c)))
  }

  lemma {:induction false} ChunksRead(c: Config, h: seq<Act>, n: nat)
    requires ConfigOk(c) && After(c, h).t.pending == [] && After(c, h).t.curM <= c.m && AllPossible(c, h) && n <= c.k
    ensures After(c, h + Chunks(c, n)) == After(c, h).(t := ReadChunks(c, After(c, h).t, n))
    ensures Calls(c, h + Chunks(c, n)) ==
            Calls(c, h) + (if n < c.k then [] else [EnqueueMany(FlushOut(c, FullBlock(c, After(c, h).t)))])
    ensures AllPossible(c, h + Chunks(c, n))
  {
    hide Contract, Flush, FlushOut, Frame, After, Calls, FullChunk;
    var t := After(c, h).t;
    if n == 0 {
      assert h + Chunks(c, 0) == h && Calls(c, h) + [] == Calls(c, h);
    } else {
      ChunksRead(c, h, n - 1);
      var before, a := h + Chunks(c, n - 1), Chunk(FullChunk(c));
      assert h + Chunks(c, n) == before + [a];
      FullPossible(c);
      OneMoreAct(c, before, a);
      Collecting(c, t, n - 1);
      ChunkCalls(c, t, n);
      assert Calls(c, h) + [] == Calls(c, h);
    }
  }

  lemma FullPossible(c: Config)
    ensures Possible(c, Chunk(FullChunk(c)))
  {
  }

  // Only the K-th chunk leads to a call.
  lemma ChunkCalls(c: Config, t: Tx, n: nat)
    requires ConfigOk(c) && t.pending == [] && t.curM <= c.m && 1 <= n <= c.k
    ensures ReadCalls(c, t.(pending := seq(n - 1, _ => Frame(FullChunk(c)))), FullChunk(c)) ==
            if n < c.k then [] else [EnqueueMany(FlushOut(c, FullBlock(c, t)))]
  {
    hide Contract, FlushOut, Frame, FullChunk;
    var f := Frame(FullChunk(c));
    assert seq(n - 1, _ => f) + [f] == seq(n, _ => f);
  }

  function CleanHistory(c: Config, n: nat): seq<Act> {
    if n == 0 then []
    else CleanHistory(c, n - 1) + Chunks(c, c.k) + [Report(CleanBlocks(c, n - 1).nextGroupID, 0)]
  }

  // What block n of the history hands to the shaper.
  function Packets(c: Config, n: nat): seq<Wire> {
    FlushOut(c, FullBlock(c, CleanBlocks(c, n)))
  }

  // The parity count before the report on block n - 1, and the call that report leads to.
  function MBefore(c: Config, n: nat): nat {
    if n == 0 then c.m else CleanBlocks(c, n - 1).curM
  }

  function Params(c: Config, m: nat): Op {
    UpdateParams(c.k + m, Interval(c.bandwidth, c.mtu, c.k + m))
  }

  function Update(c: Config, n: nat): seq<Op> {
    if MBefore(c, n) == CleanBlocks(c, n).curM then [] else [Params(c, CleanBlocks(c, n).curM)]
  }

  lemma CleanStep(c: Config, h: seq<Act>, n: nat)
    requires ConfigOk(c) && n > 0 && AllPossible(c, h) && After(c, h) == Desk(CleanBlocks(c, n - 1), [])
    ensures var h' := h + Chunks(c, c.k) + [Report(CleanBlocks(c, n - 1).nextGroupID, 0)];
            && After(c, h') == Desk(CleanBlocks(c, n), [])
            && Calls(c, h') == Calls(c, h) + [EnqueueMany(Packets(c, n - 1))] + Update(c, n)
            && AllPossible(c, h')
  {
    hide Contract, Flush, FlushOut, HandleLQR, ReadChunks, After, Calls, Chunks, Interval;
    var t := CleanBlocks(c, n - 1);
    AfterCleanBlocks(c, n - 1);
    ChunksRead(c, h, c.k);
    OneMoreAct(c, h + Chunks(c, c.k), Report(t.nextGroupID, 0));
    BlockRead(c, t);
    BlockSent(c, t);
  }

  lemma {:induction false} CleanIs(c: Config, n: nat)
    requires ConfigOk(c)
    ensures After(c, CleanHistory(c, n)) == Desk(CleanBlocks(c, n), []) && AllPossible(c, CleanHistory(c, n))
    ensures n > 0 ==>
      Calls(c, CleanHistory(c, n)) == Calls(c, CleanHistory(c, n - 1)) + [EnqueueMany(Packets(c, n - 1))] + Update(c, n)
  {
    hide ConfigOk, Chunks, Packets, Update, CleanBlocks, After, Calls, AllPossible;
    if n == 0 {
      NoHistory(c);
    } else {
      CleanIs(c, n - 1);
      CleanStep(c, CleanHistory(c, n - 1), n);
    }
  }

  lemma NoHistory(c: Config)
    ensures After(c, []) == Desk(CleanBlocks(c, 0), []) && AllPossible(c, [])
  {
  }

  // n requests for one packet, each answered.
  function Asks(seqNum: Byte, n: nat): seq<Act> {
    if n == 0 then [] else Asks(seqNum, n - 1) + [Request(seqNum), Resend(0)]
  }

  function Resends(p: Wire, n: nat): seq<Op> {
    seq(n, _ => Op.Enqueue(p))
  }

  lemma {:induction false} AsksAnswered(c: Config, h: seq<Act>, seqNum: Byte, n: nat)
    requires AllPossible(c, h) && After(c, h).held == [] && HandleNak(After(c, h).t, seqNum).Some?
    ensures After(c, h + Asks(seqNum, n)) == After(c, h) && AllPossible(c, h + Asks(seqNum, n))
    ensures Calls(c, h + Asks(seqNum, n)) == Calls(c, h) + Resends(HandleNak(After(c, h).t, seqNum).value, n)
  {
    hide HandleNak, After, Calls;
    var p := HandleNak(After(c, h).t, seqNum).value;
    if n == 0 {
      assert h + Asks(seqNum, 0) == h && Calls(c, h) + Resends(p, 0) == Calls(c, h);
    } else {
      AsksAnswered(c, h, seqNum, n - 1);
      var before := h + Asks(seqNum, n - 1);
      assert h + Asks(seqNum, n) == before + [Request(seqNum)] + [Resend(0)];
      OneMoreAct(c, before, Request(seqNum));
      OneMoreAct(c, before + [Request(seqNum)], Resend(0));
      assert Desk(After(c, h).t, [p][..0] + [p][1..]) == After(c, h);
      assert Resends(p, n) == Resends(p, n - 1) + [Op.Enqueue(p)];
      assert Calls(c, before) + [] == Calls(c, before);
      assert Calls(c, h) + Resends(p, n - 1) + [Op.Enqueue(p)] == Calls(c, h) + Resends(p, n);
    }
  }

  // ---- the script

  // All calls made while the loop waits for the queue to fill, in no time.
  function Simple(ops: seq<Op>): Turn {
    Turn(ops, 0.0, [], 0.0, [], Never)
  }

  // One turn for each block: the last report's call, then the block.
  function BlockTurns(c: Config, n: nat): seq<Turn> {
    if n == 0 then []
    else BlockTurns(c, n - 1) + [Simple(Update(c, n - 1) + [EnqueueMany(Packets(c, n - 1))])]
  }

  lemma {:induction false} BlockCalls(c: Config, n: nat)
    requires ConfigOk(c)
    ensures ScriptCalls(BlockTurns(c, n)) + Update(c, n) == Calls(c, CleanHistory(c, n))
  {
    hide ConfigOk, Calls, CleanHistory, Packets, Update;
    if n == 0 {
      NoCalls(c);
    } else {
      BlockCalls(c, n - 1);
      CleanIs(c, n);
      var init, ops := BlockTurns(c, n - 1), Update(c, n - 1) + [EnqueueMany(Packets(c, n - 1))];
      ScriptPush(init, Simple(ops));
      SimpleCalls(ops);
      assert ScriptCalls(init) + ops == ScriptCalls(init) + Update(c, n - 1) + [EnqueueMany(Packets(c, n - 1))];
    }
  }

  lemma NoCalls(c: Config)
    ensures Calls(c, CleanHistory(c, 0)) == [] && Update(c, 0) == [] && ScriptCalls([]) == []
  {
  }

  lemma ScriptPush(script: seq<Turn>, turn: Turn)
    ensures ScriptCalls(script + [turn]) == ScriptCalls(script) + TurnCalls(turn)
  {
    assert (script + [turn])[..|script|] == script;
  }

  lemma SimpleCalls(ops: seq<Op>)
    ensures TurnCalls(Simple(ops)) == ops
  {
  }

  // ---- where the script leads

  // An idle shaper with the parameters of K + m packets.
  predicate IdleAt(c: Config, p: Stage, m: nat) {
    p.running && p.view == View(c.k + m, Interval(c.bandwidth, c.mtu, c.k + m), [], false)
  }

  lemma SimpleTurn(v: View, ops: seq<Op>, clock: real, nextReset: real)
    requires var v1 := Apply(v, ops); !v1.stopped && |v1.queue| <= v1.size
    ensures var o, v1 := TurnOutcome(v, Simple(ops), clock, nextReset), Apply(v, ops);
            && o.running && o.rest == v1.(queue := [])
            && (v1.interval == 0 && v1.queue != [] ==>
                  o.now == clock && o.burst == Some(Sent(clock, v1.size, 0, v1.queue)))
    ensures CallsReached(v, Simple(ops), clock, nextReset) == TurnCalls(Simple(ops))
  {
    var v1 := Apply(v, ops);
    assert Apply(v1, []) == v1;
    QuietBatch([], |v1.queue|);
    assert v1.queue[..|v1.queue|] == v1.queue && v1.queue[|v1.queue|..] == [];
    assert v1 == v1.(queue := v1.queue);
  }

  lemma WiresAtMost(ps: seq<Packet>)
    ensures |Wires(ps)| <= |ps|
  {
    hide Marshal;
    if ps != [] {
      WiresAtMost(ps[..|ps| - 1]);
    }
  }

  lemma PacketsAtMost(c: Config, n: nat)
    requires ConfigOk(c) && CleanBlocks(c, n).curM <= c.m
    ensures |Packets(c, n)| <= c.k + CleanBlocks(c, n).curM
  {
    hide Contract, CleanBlocks, Wires, Frame;
    var t := FullBlock(c, CleanBlocks(c, n));
    if t.pending != [] && ParityOf(c, t).Ok? {
      WiresAtMost(DataPackets(c, t) + ParityPackets(c, t, ParityOf(c, t).value));
    }
  }

  lemma Updated(c: Config, p: Stage, n: nat)
    requires IdleAt(c, p, MBefore(c, n))
    ensures Apply(p.view, Update(c, n)) == View(c.k + CleanBlocks(c, n).curM,
              Interval(c.bandwidth, c.mtu, c.k + CleanBlocks(c, n).curM), [], false)
  {
    hide Interval, CleanBlocks, MBefore;
    if Update(c, n) != [] {
      ApplyOne(p.view, Params(c, CleanBlocks(c, n).curM));
    }
  }

  lemma BlockTurn(c: Config, p: Stage, n: nat)
    requires ConfigOk(c) && IdleAt(c, p, MBefore(c, n))
    ensures var turn := Simple(Update(c, n) + [EnqueueMany(Packets(c, n))]);
            && IdleAt(c, NextStage(p, turn), CleanBlocks(c, n).curM)
            && CallsReached(p.view, turn, p.clock, p.nextReset) == TurnCalls(turn)
  {
    hide Contract, Interval, CleanBlocks, MBefore, Update, Packets, Apply, TurnOutcome, CallsReached, Simple;
    AfterCleanBlocks(c, n);
    PacketsAtMost(c, n);
    Updated(c, p, n);
    var v := Apply(p.view, Update(c, n));
    ApplyBoth(p.view, Update(c, n), [EnqueueMany(Packets(c, n))]);
    ApplyOne(v, EnqueueMany(Packets(c, n)));
    assert [] + Packets(c, n) == Packets(c, n);
    SimpleTurn(p.view, Update(c, n) + [EnqueueMany(Packets(c, n))], p.clock, p.nextReset);
  }

  // The queue is empty whenever a turn begins, so the back-pressure on reads never delays one.
  ghost predicate EmptyEachTurn(p: Stage, script: seq<Turn>)
    decreases |script|
  {
    script != [] ==> p.view.queue == [] && EmptyEachTurn(NextStage(p, script[0]), script[1..])
  }

  // One more turn at the end of a script that runs through.
  lemma {:induction false} Push(p: Stage, script: seq<Turn>, turn: Turn)
    requires RunsThrough(p, script) && EmptyEachTurn(p, script)
    requires var q := Reached(p, script);
             && q.running && q.view.queue == []
             && CallsReached(q.view, turn, q.clock, q.nextReset) == TurnCalls(turn)
    ensures var q := Reached(p, script);
            && RunsThrough(p, script + [turn]) && EmptyEachTurn(p, script + [turn])
            && Reached(p, script + [turn]) == NextStage(q, turn)
            && BurstsFrom(p, script + [turn]) == BurstsFrom(p, script) + BurstsFrom(q, [turn])
    decreases |script|
  {
    hide CallsReached, TurnCalls, TurnOutcome;
    var all := script + [turn];
    if script == [] {
      assert all == [turn] && [turn][1..] == [];
      assert Bursts(p.view, [], p.clock, p.nextReset) == [];
      assert [] + BurstsFrom(p, [turn]) == BurstsFrom(p, [turn]);
    } else {
      assert all[0] == script[0] && all[1..] == script[1..] + [turn];
      Push(NextStage(p, script[0]), script[1..], turn);
      BurstsCons(p, script[0], script[1..]);
      BurstsCons(p, script[0], all[1..]);
      assert [script[0]] + script[1..] == script && [script[0]] + all[1..] == all;
    }
  }

  lemma BurstsCons(p: Stage, turn: Turn, rest: seq<Turn>)
    requires p.running
    ensures var o := TurnOutcome(p.view, turn, p.clock, p.nextReset);
            BurstsFrom(p, [turn] + rest) ==
            (if o.burst.Some? then [o.burst.value] else []) + BurstsFrom(NextStage(p, turn), rest)
  {
    hide TurnOutcome;
    assert ([turn] + rest)[0] == turn && ([turn] + rest)[1..] == rest;
  }

  lemma {:induction false} BlocksSent(c: Config, n: nat)
    requires ConfigOk(c) && c.mtu > 36
    ensures RunsThrough(Start(c), BlockTurns(c, n)) && EmptyEachTurn(Start(c), BlockTurns(c, n))
    ensures IdleAt(c, Reached(Start(c), BlockTurns(c, n)), MBefore(c, n)) && Forwards(BlockTurns(c, n))
  {
    hide ConfigOk, Interval, CleanBlocks, Update, Packets, CallsReached, TurnOutcome, TurnCalls;
    if n == 0 {
      NewIdle(c);
    } else {
      BlocksSent(c, n - 1);
      var script := BlockTurns(c, n - 1);
      var q, turn := Reached(Start(c), script), Simple(Update(c, n - 1) + [EnqueueMany(Packets(c, n - 1))]);
      BlockTurn(c, q, n - 1);
      Push(Start(c), script, turn);
    }
  }

  lemma NewIdle(c: Config)
    requires c.mtu > 36
    ensures IdleAt(c, Start(c), MBefore(c, 0)) && Reached(Start(c), []) == Start(c)
  {
    hide Interval;
  }

  // ---- the rush

  // Unshaped, the whole queue goes at once and takes no time.
  lemma RushTurn(c: Config, q: Stage, p: Wire, ops: seq<Op>, n: nat)
    requires q.running && Apply(q.view, ops) == View(c.k, 0, [], false) && n > 0
    ensures var turn := Simple(ops + Resends(p, n));
            && CallsReached(q.view, turn, q.clock, q.nextReset) == TurnCalls(turn)
            && NextStage(q, turn) == Stage(View(c.k, 0, [], false), q.clock, q.nextReset, true)
            && BurstsFrom(q, [turn]) == [Sent(q.clock, c.k, 0, Copies(p, n))]
  {
    hide Apply, TurnOutcome, Copies;
    var v, turn := View(c.k, 0, [], false), Simple(ops + Resends(p, n));
    ApplyBoth(q.view, ops, Resends(p, n));
    Retransmitted(v, p, n);
    assert [] + Copies(p, n) == Copies(p, n);
    UnshapedTurn(q.view, ops + Resends(p, n), q.clock, q.nextReset);
    UnshapedCalls(q.view, ops + Resends(p, n), q.clock, q.nextReset);
    BurstsCons(q, turn, []);
    assert [turn] + [] == [turn];
    assert BurstsFrom(NextStage(q, turn), []) == [];
  }

  lemma UnshapedCalls(v: View, ops: seq<Op>, clock: real, nextReset: real)
    requires var v1 := Apply(v, ops); !v1.stopped && v1.interval == 0 && v1.queue != []
    ensures CallsReached(v, Simple(ops), clock, nextReset) == TurnCalls(Simple(ops))
  {
    hide Apply;
    QuietBatch([], |Apply(Apply(v, ops), []).queue|);
  }

  // The history: blocks until the parity count is zero, then requests for one packet.
  function FastHistory(c: Config, seqNum: Byte): seq<Act>
    requires c.bandwidth > 0
  {
    CleanHistory(c, 5 * c.m + 1) + Asks(seqNum, c.bandwidth) + Asks(seqNum, 1)
  }

  // Its script: a turn for each block, a turn for all the requests but one, a turn for the last.
  function FastScript(c: Config, p: Wire): seq<Turn>
    requires c.bandwidth > 0
  {
    var n := 5 * c.m + 1;
    BlockTurns(c, n) + [Simple(Update(c, n) + Resends(p, c.bandwidth))] + [Simple([] + Resends(p, 1))]
  }

  lemma FastCalls(c: Config, seqNum: Byte)
    requires ConfigOk(c) && c.bandwidth > 0 && HandleNak(CleanBlocks(c, 5 * c.m + 1), seqNum).Some?
    ensures var p := HandleNak(CleanBlocks(c, 5 * c.m + 1), seqNum).value;
            && AllPossible(c, FastHistory(c, seqNum))
            && ScriptCalls(FastScript(c, p)) == Calls(c, FastHistory(c, seqNum))
  {
    hide ConfigOk, Calls, After, CleanHistory, CleanBlocks, BlockTurns, Update, HandleNak, Resends, Asks,
      ScriptCalls, TurnCalls, AllPossible;
    var n, bw := 5 * c.m + 1, c.bandwidth;
    var p, h := HandleNak(CleanBlocks(c, n), seqNum).value, CleanHistory(c, n);
    CleanIs(c, n);
    BlockCalls(c, n);
    AsksAnswered(c, h, seqNum, bw);
    AsksAnswered(c, h + Asks(seqNum, bw), seqNum, 1);
    var blocks, rush, last := BlockTurns(c, n), Update(c, n) + Resends(p, bw), [] + Resends(p, 1);
    ScriptPush(blocks, Simple(rush));
    SimpleCalls(rush);
    ScriptPush(blocks + [Simple(rush)], Simple(last));
    SimpleCalls(last);
    assert last == Resends(p, 1);
    assert ScriptCalls(blocks) + rush == ScriptCalls(blocks) + Update(c, n) + Resends(p, bw);
  }

  lemma FastRun(c: Config, p: Wire) returns (clock: real, before: seq<Sent>)
    requires ConfigOk(c) && c.mtu > 36 && c.bandwidth > 0 && !SlowEnough(FlagsOf(c))
    ensures var script := FastScript(c, p);
            && RunsThrough(Start(c), script) && EmptyEachTurn(Start(c), script) && Forwards(script)
            && BurstsFrom(Start(c), script) ==
               before + [Sent(clock, c.k, 0, Copies(p, c.bandwidth))] + [Sent(clock, c.k, 0, Copies(p, 1))]
  {
    hide ConfigOk, Interval, CleanBlocks, Update, RunsThrough, EmptyEachTurn, BlockTurns, CallsReached, TurnCalls,
      TurnOutcome, Bursts, Copies, Resends, SlowEnough, Reached, NextStage, BurstsFrom, MBefore;
    var n, bw := 5 * c.m + 1, c.bandwidth;
    var blocks := BlockTurns(c, n);
    BlocksSent(c, n);
    var q := Reached(Start(c), blocks);
    clock, before := q.clock, BurstsFrom(Start(c), blocks);
    Updated(c, q, n);
    ParityGone(c);
    var rush, last := Simple(Update(c, n) + Resends(p, bw)), Simple([] + Resends(p, 1));
    RushTurn(c, q, p, Update(c, n), bw);
    Push(Start(c), blocks, rush);
    var r := NextStage(q, rush);
    ApplyNone(r.view);
    RushTurn(c, r, p, [], 1);
    Push(Start(c), blocks + [rush], last);
  }

  lemma ApplyNone(v: View)
    ensures Apply(v, []) == v
  {
  }

  lemma ParityGone(c: Config)
    requires ConfigOk(c) && c.mtu > 36 && c.bandwidth > 0 && !SlowEnough(FlagsOf(c))
    ensures CleanBlocks(c, 5 * c.m + 1).curM == 0 && Interval(c.bandwidth, c.mtu, c.k) == 0
  {
    hide Contract, CleanBlocks, Interval;
    AfterCleanBlocks(c, 5 * c.m + 1);
    ShapedIff(c.bandwidth, c.mtu, c.k);
  }

  lemma TwoRushes(bw: int, p: Wire, before: seq<Sent>, b0: Sent, b1: Sent)
    requires bw > 0 && b0.packets == Copies(p, bw) && b0.start == b1.start
    ensures !RateKept(bw, before + [b0] + [b1])
  {
    hide BitCount, TotalBits, PacketBits, Budget, Copies;
    var bursts, a := before + [b0] + [b1], |before|;
    assert bursts[a..a + 1] == [b0];
    OneBurstBits(b0);
    CopiesBits(p, bw);
    HeaderBits(p);
    TooMuch(bw, PacketBits(p));
    assert bursts[a + 1].start - bursts[a].start == 0.0 - 0.0;
    assert !WithinBudget(bw, bursts, a, a + 1);
  }

  // On every link too fast for K packets, whatever the bandwidth, there is a history of a session that
  // breaks the bound: full reads with clean reports take the parity count to zero and shaping off, and
  // requests for one packet of the last block, LinkMTU bytes on the link, are then answered at once.
  // The queue is empty whenever a turn begins.
  lemma BreaksInService(c: Config) returns (h: seq<Act>, script: seq<Turn>)
    requires ConfigOk(c) && c.mtu > 36 && c.bandwidth > 0 && !SlowEnough(FlagsOf(c))
    ensures Serves(c, h, script) && EmptyEachTurn(Start(c), script)
    ensures !RateKept(c.bandwidth, Bursts(NewView(FlagsOf(c)), script, 0.0, 0.0))
  {
    hide Contract, CleanBlocks, Marshal, SlowEnough, AllPossible, RunsThrough, EmptyEachTurn, ScriptCalls, Calls,
      FastScript, FastHistory, RateKept, Bursts, Copies, Interval, Forwards;
    var t := CleanBlocks(c, 5 * c.m + 1);
    AfterCleanBlocks(c, 5 * c.m + 1);
    var seqNum :| seqNum in t.harqCache && FullPacket(c, t.harqCache[seqNum]);
    DataSize(t.harqCache[seqNum]);
    var p := HandleNak(t, seqNum).value;
    h, script := FastHistory(c, seqNum), FastScript(c, p);
    FastCalls(c, seqNum);
    var clock, before := FastRun(c, p);
    var b0, b1 := Sent(clock, c.k, 0, Copies(p, c.bandwidth)), Sent(clock, c.k, 0, Copies(p, 1));
    TwoRushes(c.bandwidth, p, before, b0, b1);
  }

  // The exact condition: the shaper keeps to the rate in every history of a session, against every
  // clock, if and only if K packets of LinkMTU bytes take the link a millisecond or more.
  lemma RateKeptIff(c: Config)
    requires ConfigOk(c) && c.mtu > 36 && c.bandwidth > 0
    ensures SlowEnough(FlagsOf(c)) <==>
      forall script :: InService(c, script) ==>
        RateKept(c.bandwidth, Bursts(NewView(FlagsOf(c)), script, 0.0, 0.0))
  {
    hide ConfigOk, SlowEnough, Serves, RateKept, Bursts;
    if SlowEnough(FlagsOf(c)) {
      forall script | InService(c, script)
        ensures RateKept(c.bandwidth, Bursts(NewView(FlagsOf(c)), script, 0.0, 0.0))
      {
        ServiceKeepsRate(c, script);
      }
    } else {
      var h, script := BreaksInService(c);
      assert InService(c, script);
    }
  }
}
