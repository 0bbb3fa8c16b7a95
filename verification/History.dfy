// What a session goes through, as its shaper sees it: the calls that reads, timers, reports and
// requests lead to, in order.
module History {
  import opened Basics
  import opened Protocol
  import opened Sender
  import opened Shaping
  import opened Rate
  import opened Outgoing

  // A chunk from TCP; the block timer; a loss report; a request, whose packet is fetched under the lock;
  // that packet queued, after the lock was given back; the end of the session.
  datatype Act =
    | Chunk(bytes: seq<Byte>)
    | Timer
    | Report(group: U16, losses: Byte)
    | Request(seqNum: Byte)
    | Resend(i: nat)
    | End

  // The sending half, and the packets fetched but not yet queued.
  datatype Desk = Desk(t: Tx, held: seq<Wire>)

  predicate Possible(c: Config, a: Act) {
    a.Chunk? ==> 1 <= |a.bytes| <= MaxPayload(c)
  }

  function Next(c: Config, d: Desk, a: Act): Desk {
    match a
    case Chunk(bytes) => d.(t := Read(c, d.t, bytes))
    case Timer => d.(t := Flush(c, d.t))
    case Report(group, losses) => d.(t := HandleLQR(c, d.t, group, losses))
    case Request(seqNum) =>
      (match HandleNak(d.t, seqNum)
       case Some(buf) => d.(held := d.held + [buf])
       case None => d)
    case Resend(i) => if i < |d.held| then d.(held := d.held[..i] + d.held[i + 1..]) else d
    case End => d
  }

  function Call(c: Config, d: Desk, a: Act): seq<Op> {
    match a
    case Chunk(bytes) => ReadCalls(c, d.t, bytes)
    case Timer => FlushCalls(c, d.t)
    case Report(group, losses) => ReportCalls(c, d.t, group, losses)
    case Request(_) => []
    case Resend(i) => if i < |d.held| then [Op.Enqueue(d.held[i])] else []
    case End => [Stop]
  }

  // From a new session: the state a history leads to, and the calls it makes.
  function After(c: Config, h: seq<Act>): Desk {
    if h == [] then Desk(InitTx(c), []) else Next(c, After(c, h[..|h| - 1]), h[|h| - 1])
  }

  function Calls(c: Config, h: seq<Act>): seq<Op> {
    if h == [] then [] else Calls(c, h[..|h| - 1]) + Call(c, After(c, h[..|h| - 1]), h[|h| - 1])
  }

  ghost predicate AllPossible(c: Config, h: seq<Act>) {
    forall i :: 0 <= i < |h| ==> Possible(c, h[i])
  }

  lemma OneMoreAct(c: Config, h: seq<Act>, a: Act)
    ensures After(c, h + [a]) == Next(c, After(c, h), a)
    ensures Calls(c, h + [a]) == Calls(c, h) + Call(c, After(c, h), a)
    ensures AllPossible(c, h) && Possible(c, a) ==> AllPossible(c, h + [a])
  {
    hide Next, Call, Possible;
    assert (h + [a])[..|h|] == h;
  }

  // A request and then its answer make the call that HandleNak makes.
  lemma RequestAnswered(c: Config, h: seq<Act>, seqNum: Byte)
    ensures var d := After(c, h);
            && Calls(c, h + [Request(seqNum)] + [Resend(|d.held|)]) == Calls(c, h) + NakCalls(d.t, seqNum)
            && After(c, h + [Request(seqNum)] + [Resend(|d.held|)]) == d
            && NakCalls(d.t, seqNum) ==
               (if seqNum in d.t.harqCache && Marshal(d.t.harqCache[seqNum]).Ok?
                then [Op.Enqueue(Marshal(d.t.harqCache[seqNum]).value)] else [])
  {
    hide Marshal, After, Calls;
    var d := After(c, h);
    OneMoreAct(c, h, Request(seqNum));
    OneMoreAct(c, h + [Request(seqNum)], Resend(|d.held|));
    assert Calls(c, h) + [] == Calls(c, h);
    var d1 := Next(c, d, Request(seqNum));
    if HandleNak(d.t, seqNum).Some? {
      assert d1.held[..|d.held|] + d1.held[|d.held| + 1..] == d.held;
    }
  }

  // ---- they are calls the rate bound allows for

  ghost predicate DeskFits(c: Config, d: Desk) {
    TxFits(c, d.t) && forall p :: p in d.held ==> |p| <= MaxPayload(c) + 8
  }

  lemma NextFits(c: Config, d: Desk, a: Act)
    requires DeskFits(c, d) && Possible(c, a)
    ensures DeskFits(c, Next(c, d, a))
  {
    hide TxFits, Flush, HandleLQR, HandleNak, Append, MaxPayload;
    match a
    case Chunk(bytes) =>
      AppendFits(c, d.t, bytes);
      FlushKeepsFit(c, Append(d.t, bytes));
    case Timer => FlushKeepsFit(c, d.t);
    case Report(group, losses) => ReportFits(c, d.t, group, losses);
    case Request(seqNum) =>
      if HandleNak(d.t, seqNum).Some? {
        NakShort(c, d.t, seqNum);
      }
    case Resend(i) =>
      if i < |d.held| {
        assert forall p :: p in d.held[..i] + d.held[i + 1..] ==> p in d.held;
      }
    case End =>
  }

  lemma CallIsSession(c: Config, d: Desk, a: Act)
    requires ConfigOk(c) && c.mtu > 36 && DeskFits(c, d) && Possible(c, a)
    ensures SessionOps(FlagsOf(c), Call(c, d, a))
  {
    hide ConfigOk, TxFits, FlushCalls, ReadCalls, ReportCalls;
    match a
    case Chunk(bytes) => CallsAreSession(c, d.t, bytes, 0, 0, 0);
    case Timer => CallsAreSession(c, d.t, [], 0, 0, 0);
    case Report(group, losses) => CallsAreSession(c, d.t, [], 0, group, losses);
    case Request(_) =>
    case Resend(i) =>
    case End =>
  }

  lemma {:induction false} CallsInHistory(c: Config, h: seq<Act>)
    requires ConfigOk(c) && c.mtu > 36 && AllPossible(c, h)
    ensures DeskFits(c, After(c, h)) && SessionOps(FlagsOf(c), Calls(c, h))
  {
    hide ConfigOk, Next, Call, TxFits, SessionOp, Possible;
    if h == [] {
      NewFits(c);
    } else {
      var init, last := h[..|h| - 1], h[|h| - 1];
      CallsInHistory(c, init);
      assert Possible(c, last);
      NextFits(c, After(c, init), last);
      CallIsSession(c, After(c, init), last);
    }
  }

  lemma NewFits(c: Config)
    ensures DeskFits(c, Desk(InitTx(c), []))
  {
  }

  // ---- runs of the shaper in such a history

  // Every call of a turn, and of a script, in the order they are made.
  function TurnCalls(turn: Turn): seq<Op> {
    turn.wake + turn.gap + DoneBefore(turn.during, |turn.during|)
  }

  function ScriptCalls(script: seq<Turn>): seq<Op> {
    if script == [] then [] else ScriptCalls(script[..|script| - 1]) + TurnCalls(script[|script| - 1])
  }

  // The calls a turn gets to: none after the loop has ended, or for a part of the turn that is skipped.
  function CallsReached(v: View, turn: Turn, clock: real, nextReset: real): seq<Op> {
    var v1 := Apply(v, turn.wake);
    if v1.stopped || turn.cancel == AtWake || v1.queue == [] then turn.wake
    else
      var v2 := Apply(v1, turn.gap);
      if v1.interval <= 0 then turn.wake + turn.gap + Meanwhile(turn, |v2.queue|)
      else if clock + turn.elapsed < nextReset && turn.cancel == InSleep then turn.wake + turn.gap
      else turn.wake + turn.gap + Meanwhile(turn, Max(0, Min(v1.size, |v2.queue|)))
  }

  // Every call of the script takes place.
  ghost predicate RunsThrough(p: Stage, script: seq<Turn>)
    decreases |script|
  {
    script != [] ==>
      && p.running
      && CallsReached(p.view, script[0], p.clock, p.nextReset) == TurnCalls(script[0])
      && RunsThrough(NextStage(p, script[0]), script[1..])
  }

  ghost predicate Forwards(script: seq<Turn>) {
    forall i :: 0 <= i < |script| ==> script[i].elapsed >= 0.0 && script[i].delay >= 0.0
  }

  function Start(c: Config): Stage {
    Stage(NewView(FlagsOf(c)), 0.0, 0.0, true)
  }

  // The script is one of a session with history h.
  ghost predicate Serves(c: Config, h: seq<Act>, script: seq<Turn>) {
    && AllPossible(c, h) && Forwards(script)
    && ScriptCalls(script) == Calls(c, h)
    && RunsThrough(Start(c), script)
  }

  ghost predicate InService(c: Config, script: seq<Turn>) {
    exists h :: Serves(c, h, script)
  }

  lemma {:induction false} PartsOfBatch(fl: Flags, during: seq<seq<Op>>, n: nat)
    requires n <= |during| && SessionOps(fl, DoneBefore(during, n))
    ensures forall i :: 0 <= i < n ==> SessionOps(fl, during[i])
  {
    hide SessionOp;
    if n > 0 {
      Split(fl, DoneBefore(during, n - 1), during[n - 1]);
      PartsOfBatch(fl, during, n - 1);
    }
  }

  lemma Split(fl: Flags, xs: seq<Op>, ys: seq<Op>)
    requires SessionOps(fl, xs + ys)
    ensures SessionOps(fl, xs) && SessionOps(fl, ys)
  {
    hide SessionOp;
    assert forall i :: 0 <= i < |xs| ==> xs[i] == (xs + ys)[i];
    assert forall i :: 0 <= i < |ys| ==> ys[i] == (xs + ys)[|xs| + i];
  }

  lemma {:induction false} PartsOfScript(fl: Flags, script: seq<Turn>)
    requires Forwards(script) && SessionOps(fl, ScriptCalls(script))
    ensures SessionScript(fl, script)
  {
    hide SessionOps;
    if script != [] {
      var init, turn := script[..|script| - 1], script[|script| - 1];
      Split(fl, ScriptCalls(init), TurnCalls(turn));
      Split(fl, turn.wake + turn.gap, DoneBefore(turn.during, |turn.during|));
      Split(fl, turn.wake, turn.gap);
      PartsOfBatch(fl, turn.during, |turn.during|);
      PartsOfScript(fl, init);
      assert SessionTurn(fl, turn);
    }
  }

  // Everything the shaper of a session sends keeps to the rate, on a link slow enough.
  lemma ServiceKeepsRate(c: Config, script: seq<Turn>)
    requires ConfigOk(c) && c.mtu > 36 && c.bandwidth > 0 && SlowEnough(FlagsOf(c)) && InService(c, script)
    ensures RateKept(c.bandwidth, Bursts(NewView(FlagsOf(c)), script, 0.0, 0.0))
  {
    hide ConfigOk, SessionOps, Calls, ScriptCalls, RunsThrough, SlowEnough, Bursts, RateKept, DeskFits;
    var h :| Serves(c, h, script);
    CallsInHistory(c, h);
    PartsOfScript(FlagsOf(c), script);
    SessionKeepsRate(FlagsOf(c), script);
  }
}
