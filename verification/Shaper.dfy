// shaper/shaper.go: the packet queue that smooths bursts.
module Shaping {
  import opened Basics

  type Wire = seq<Byte>

  // What other goroutines do to the shaper while its loop runs.
  datatype Op = Enqueue(packet: Wire) | EnqueueMany(packets: seq<Wire>) | UpdateParams(size: int, interval: int) | Stop

  datatype Cancel = Never | AtWake | InSleep | AfterSends(n: nat)

  // One turn of the loop, as the rest of the world shapes it: what is done while the loop waits for
  // the queue to fill, how long the turn takes to reach the clock, what is done before the queue is
  // locked again, how late the timer wakes the loop, what is done before each packet of the batch is
  // handed over, and where the context is cancelled.
  datatype Turn = Turn(
    wake: seq<Op>,
    elapsed: real,
    gap: seq<Op>,
    delay: real,
    during: seq<seq<Op>>,
    cancel: Cancel)

  // What one turn took from the queue: when, with the parameters read for it, and the packets.  An
  // interval of zero or less means that the turn was not shaped.
  datatype Sent = Sent(start: real, size: int, interval: int, packets: seq<Wire>)

  // The interval in whole milliseconds that K + M packets of LinkMTU bytes take; time.Duration truncates.
  function Interval(bandwidth: int, mtu: int, size: int): int {
    if bandwidth <= 0 then 0
    else if size * mtu >= 0 then size * mtu * 8000 / bandwidth
    else -(-(size * mtu) * 8000 / bandwidth)
  }

  // The shaper's fields, and what a sequence of calls makes of them.
  datatype View = View(size: int, interval: int, queue: seq<Wire>, stopped: bool)

  function Apply(v: View, ops: seq<Op>): View {
    if ops == [] then v
    else
      var before := Apply(v, ops[..|ops| - 1]);
      match ops[|ops| - 1]
      case Enqueue(p) => if before.stopped then before else before.(queue := before.queue + [p])
      case EnqueueMany(ps) => if before.stopped then before else before.(queue := before.queue + ps)
      case UpdateParams(size, interval) => before.(size := size, interval := interval)
      case Stop => before.(stopped := true)
  }

  lemma ApplyOne(v: View, op: Op)
    ensures Apply(v, [op]) ==
            match op
            case Enqueue(p) => (if v.stopped then v else v.(queue := v.queue + [p]))
            case EnqueueMany(ps) => (if v.stopped then v else v.(queue := v.queue + ps))
            case UpdateParams(size, interval) => v.(size := size, interval := interval)
            case Stop => v.(stopped := true)
  {
    assert [op][..0] == [];
    assert Apply(v, []) == v;
  }

  lemma {:induction false} ApplyBoth(v: View, xs: seq<Op>, ys: seq<Op>)
    ensures Apply(Apply(v, xs), ys) == Apply(v, xs + ys)
  {
    if ys == [] {
      assert xs + ys == xs;
    } else {
      var init, last := ys[..|ys| - 1], ys[|ys| - 1];
      ApplyBoth(v, xs, init);
      assert (xs + ys)[..|xs + ys| - 1] == xs + init;
    }
  }

  predicate CutShort(cancel: Cancel, n: nat) {
    cancel.AfterSends? && cancel.n < n
  }

  // What is done before packet i, and in all before the first n packets.
  function Before(during: seq<seq<Op>>, i: nat): seq<Op> {
    if i < |during| then during[i] else []
  }

  function DoneBefore(during: seq<seq<Op>>, n: nat): seq<Op> {
    if n == 0 then [] else DoneBefore(during, n - 1) + Before(during, n - 1)
  }

  // What is done while a batch of n packets is handed over, up to a cancellation.
  function Meanwhile(turn: Turn, n: nat): seq<Op> {
    DoneBefore(turn.during, if CutShort(turn.cancel, n) then turn.cancel.n + 1 else n)
  }

  // What one turn of the loop comes to: whether the loop goes on, the time, what was taken from the
  // queue, and the fields afterwards.
  datatype Outcome = Outcome(running: bool, now: real, burst: Option<Sent>, rest: View)

  // An empty queue is waited on; otherwise everything goes at once if shaping is off, and else, no
  // earlier than the next opportunity, as much as the burst size allows.
  function TurnOutcome(v: View, turn: Turn, clock: real, nextReset: real): Outcome {
    var v1 := Apply(v, turn.wake);
    if v1.stopped || turn.cancel == AtWake then Outcome(false, clock, None, v1)
    else if v1.queue == [] then Outcome(true, clock, None, v1)
    else
      var v2 := Apply(v1, turn.gap);
      var now := clock + turn.elapsed;
      if v1.interval <= 0 then TakenOutcome(v1, v2, turn, now, |v2.queue|)
      else if now < nextReset && turn.cancel == InSleep then Outcome(false, now, None, v2)
      else
        var start := (if now < nextReset then nextReset else now) + turn.delay;
        var n := Max(0, Min(v1.size, |v2.queue|));
        if n == 0 then Outcome(true, start, None, v2) else TakenOutcome(v1, v2, turn, start, n)
  }

  // The first n packets are taken at `start` and handed over.
  function TakenOutcome(v1: View, v2: View, turn: Turn, start: real, n: nat): Outcome
    requires n <= |v2.queue|
  {
    Outcome(!CutShort(turn.cancel, n), start, Some(Sent(start, v1.size, v1.interval, v2.queue[..n])),
            Apply(v2.(queue := v2.queue[n..]), Meanwhile(turn, n)))
  }

  function NextReset(o: Outcome, nextReset: real): real {
    if o.burst.Some? && o.burst.value.interval > 0 then o.now + o.burst.value.interval as real else nextReset
  }

  // What a whole run takes from the queue, turn by turn.
  function Bursts(v: View, script: seq<Turn>, clock: real, nextReset: real): seq<Sent>
    decreases |script|
  {
    if script == [] then []
    else
      var o := TurnOutcome(v, script[0], clock, nextReset);
      (if o.burst.Some? then [o.burst.value] else []) +
      (if o.running then Bursts(o.rest, script[1..], o.now, NextReset(o, nextReset)) else [])
  }

  // Where a run has got to: the fields, the time, the next opportunity, and whether the loop goes on.
  datatype Stage = Stage(view: View, clock: real, nextReset: real, running: bool)

  function NextStage(p: Stage, turn: Turn): Stage {
    var o := TurnOutcome(p.view, turn, p.clock, p.nextReset);
    Stage(o.rest, o.now, NextReset(o, p.nextReset), o.running)
  }

  function Reached(p: Stage, script: seq<Turn>): Stage
    decreases |script|
  {
    if script == [] || !p.running then p else Reached(NextStage(p, script[0]), script[1..])
  }

  function BurstsFrom(p: Stage, script: seq<Turn>): seq<Sent> {
    if p.running then Bursts(p.view, script, p.clock, p.nextReset) else []
  }

  function AllPackets(bursts: seq<Sent>): seq<Wire> {
    if bursts == [] then [] else AllPackets(bursts[..|bursts| - 1]) + bursts[|bursts| - 1].packets
  }

  class Shaper {
    var burstSize: int
    var burstInterval: int
    var queue: seq<Wire>
    var stopped: bool
    ghost var history: seq<Wire>  // every packet accepted, in order
    ghost var sent: seq<Wire>     // every packet handed to sendFn, in order
    ghost var batch: seq<Wire>    // taken from the queue, not yet handed over

    // Conservation and order: nothing is lost, made up or overtaken.
    ghost predicate Valid()
      reads this
    {
      sent + batch + queue == history
    }

    ghost function Now(): View
      reads this
    {
      View(burstSize, burstInterval, queue, stopped)
    }

    constructor (size: int, interval: int)
      ensures Valid() && burstSize == size && burstInterval == interval && queue == [] && !stopped
      ensures history == [] && batch == []
    {
      burstSize, burstInterval, queue, stopped := size, interval, [], false;
      history, sent, batch := [], [], [];
    }

    method UpdateParams(size: int, interval: int)
      requires Valid()
      modifies this`burstSize, this`burstInterval
      ensures Valid() && burstSize == size && burstInterval == interval
    {
      burstSize, burstInterval := size, interval;
    }

    method Enqueue(packet: Wire)
      requires Valid()
      modifies this`queue, this`history
      ensures Valid()
      ensures queue == if stopped then old(queue) else old(queue) + [packet]
      ensures history == if stopped then old(history) else old(history) + [packet]
    {
      if stopped {
        return;
      }
      assert sent + batch + (queue + [packet]) == (sent + batch + queue) + [packet];
      queue, history := queue + [packet], history + [packet];
    }

    method EnqueueMany(packets: seq<Wire>)
      requires Valid()
      modifies this`queue, this`history
      ensures Valid()
      ensures queue == if stopped then old(queue) else old(queue) + packets
      ensures history == if stopped then old(history) else old(history) + packets
    {
      if stopped {
        return;
      }
      assert sent + batch + (queue + packets) == (sent + batch + queue) + packets;
      queue, history := queue + packets, history + packets;
    }

    method Stop()
      requires Valid()
      modifies this`stopped
      ensures Valid() && stopped
    {
      stopped := true;
    }

    // Other goroutines at work, one locked section after another.
    method Interleave(ops: seq<Op>)
      requires Valid()
      modifies this`burstSize, this`burstInterval, this`queue, this`stopped, this`history
      ensures Valid() && old(history) <= history
      ensures Now() == Apply(old(Now()), ops)
    {
      for i := 0 to |ops|
        invariant Valid() && old(history) <= history
        invariant Now() == Apply(old(Now()), ops[..i])
      {
        assert ops[..i + 1][..i] == ops[..i];
        match ops[i]
        case Enqueue(p) => Enqueue(p);
        case EnqueueMany(ps) => EnqueueMany(ps);
        case UpdateParams(size, interval) => UpdateParams(size, interval);
        case Stop => Stop();
      }
      assert ops[..|ops|] == ops;
    }

    // Hands the packets of the batch over one by one, the others at work in between, stopping if the
    // context is cancelled.
    method SendBatch(pkts: seq<Wire>, turn: Turn) returns (cancelled: bool)
      requires Valid() && batch == pkts
      modifies this
      ensures Valid() && old(history) <= history
      ensures cancelled <==> CutShort(turn.cancel, |pkts|)
      ensures !cancelled ==> batch == []
      ensures cancelled ==> sent == old(sent) + pkts[..turn.cancel.n]
      ensures sent + batch == old(sent) + pkts
      ensures Now() == Apply(old(Now()), Meanwhile(turn, |pkts|))
    {
      hide Apply;
      NothingDone(Now(), turn.during);
      for i := 0 to |pkts|
        invariant Valid() && batch == pkts[i..] && sent == old(sent) + pkts[..i] && old(history) <= history
        invariant turn.cancel.AfterSends? ==> i <= turn.cancel.n
        invariant Now() == Apply(old(Now()), DoneBefore(turn.during, i))
      {
        Interleave(Before(turn.during, i));
        ApplyBoth(old(Now()), DoneBefore(turn.during, i), Before(turn.during, i));
        if turn.cancel == AfterSends(i) {
          return true;
        }
        assert sent + pkts[i..] + queue == (sent + [pkts[i]]) + pkts[i + 1..] + queue;
        sent, batch := sent + [pkts[i]], pkts[i + 1..];
      }
      return false;
    }

    // The shaper loop, against any behaviour of the other goroutines and of the clock.  Whatever they
    // do, packets leave in the order they came, and each turn takes what its parameters allow.
    method Run(script: seq<Turn>) returns (bursts: seq<Sent>)
      requires Valid() && batch == []
      modifies this
      ensures Valid() && old(history) <= history
      ensures bursts == Bursts(old(Now()), script, 0.0, 0.0)
      ensures sent + batch == old(sent) + AllPackets(bursts)
    {
      hide TurnOutcome, Bursts, AllPackets;
      bursts := [];
      NoPackets();
      var clock, nextReset, running := 0.0, 0.0, true;
      ghost var all := Bursts(Now(), script, clock, nextReset);
      assert script[0..] == script && [] + all == all && sent + batch == sent + [];
      var i := 0;
      while running && i < |script|
        invariant i <= |script|
        invariant Valid() && (running ==> batch == []) && old(history) <= history
        invariant sent + batch == old(sent) + AllPackets(bursts)
        invariant all == bursts + ToCome(running, Now(), script[i..], clock, nextReset)
      {
        BurstsStep(Now(), script, i, clock, nextReset);
        ghost var before, sent0 := bursts, sent;
        assert sent0 + batch == sent0;
        var burst;
        running, clock, nextReset, burst := OneTurn(script[i], clock, nextReset);
        assert burst.None? ==> sent0 + [] == sent0;
        if burst.Some? {
          MorePackets(bursts, burst.value);
          ghost var packets := burst.value.packets;
          assert old(sent) + (AllPackets(bursts) + packets) == (old(sent) + AllPackets(bursts)) + packets;
          bursts := bursts + [burst.value];
        }
        i := i + 1;
        Regrouped(before, burst, ToCome(running, Now(), script[i..], clock, nextReset));
      }
      NoneToCome(running, Now(), script[i..], clock, nextReset);
    }

    // One turn of the loop: whether it goes on, the clock, the next opportunity, what was taken if anything.
    method OneTurn(turn: Turn, clock: real, nextReset: real)
      returns (running: bool, now: real, reset: real, burst: Option<Sent>)
      requires Valid() && batch == []
      modifies this
      ensures Valid() && (running ==> batch == []) && old(history) <= history
      ensures var o := TurnOutcome(old(Now()), turn, clock, nextReset);
              && running == o.running && now == o.now && burst == o.burst && Now() == o.rest
              && reset == NextReset(o, nextReset)
      ensures sent + batch == old(sent) + (if burst.Some? then burst.value.packets else [])
    {
      hide Apply, Meanwhile;
      assert old(sent) + [] == old(sent);
      running, now, reset, burst := true, clock, nextReset, None;
      Interleave(turn.wake);
      if |queue| == 0 && !stopped && turn.cancel != AtWake {
        return;
      }
      if stopped || turn.cancel == AtWake {
        running := false;
        return;
      }
      var size, interval := burstSize, burstInterval;
      Interleave(turn.gap);
      now := now + turn.elapsed;
      if interval <= 0 {
        var all := queue;
        assert queue[..|queue|] == all;
        Take(|queue|);
        burst := Some(Sent(now, size, interval, all));
        var cancelled := SendBatch(all, turn);
        running := !cancelled;
        return;
      }
      if now < nextReset {
        if turn.cancel == InSleep {
          running := false;
          return;
        }
        now := nextReset;
      }
      now := now + turn.delay;
      var n := |queue|;
      if n > size {
        n := size;
      }
      if n <= 0 {
        return;
      }
      var pkts := queue[..n];
      Take(n);
      reset := now + interval as real;
      burst := Some(Sent(now, size, interval, pkts));
      var cancelled := SendBatch(pkts, turn);
      running := !cancelled;
    }

    // The locked section that takes the front of the queue.
    method Take(n: nat)
      requires Valid() && batch == [] && n <= |queue|
      modifies this`queue, this`batch
      ensures Valid() && batch == old(queue[..n]) && queue == old(queue[n..])
    {
      assert sent + [] + queue == sent + queue[..n] + queue[n..];
      batch, queue := queue[..n], queue[n..];
    }
  }

  // ---- small facts about the loops

  lemma NothingDone(v: View, during: seq<seq<Op>>)
    ensures Apply(v, DoneBefore(during, 0)) == v
  {
  }

  lemma NoPackets()
    ensures AllPackets([]) == []
  {
  }

  lemma MorePackets(bursts: seq<Sent>, b: Sent)
    ensures AllPackets(bursts + [b]) == AllPackets(bursts) + b.packets
  {
    assert (bursts + [b])[..|bursts|] == bursts;
  }

  // What is still to come, if the loop goes on.
  ghost function ToCome(running: bool, v: View, script: seq<Turn>, clock: real, nextReset: real): seq<Sent> {
    if running then Bursts(v, script, clock, nextReset) else []
  }

  lemma NoneToCome(running: bool, v: View, script: seq<Turn>, clock: real, nextReset: real)
    requires !running || script == []
    ensures ToCome(running, v, script, clock, nextReset) == []
  {
  }

  lemma BurstsStep(v: View, script: seq<Turn>, i: nat, clock: real, nextReset: real)
    requires i < |script|
    ensures var o := TurnOutcome(v, script[i], clock, nextReset);
            Bursts(v, script[i..], clock, nextReset) ==
            (if o.burst.Some? then [o.burst.value] else []) +
            ToCome(o.running, o.rest, script[i + 1..], o.now, NextReset(o, nextReset))
  {
    hide TurnOutcome;
    assert script[i..][0] == script[i] && script[i..][1..] == script[i + 1..];
  }

  lemma Regrouped(bursts: seq<Sent>, burst: Option<Sent>, rest: seq<Sent>)
    ensures bursts + ((if burst.Some? then [burst.value] else []) + rest) ==
            (if burst.Some? then bursts + [burst.value] else bursts) + rest
  {
  }

  // ---- what a turn does

  // A stopped shaper and a cancelled context end the loop before anything is taken; an empty queue is
  // waited on; cancelled in its sleep the loop ends without taking anything either.
  lemma TurnTakesNothing(v: View, turn: Turn, clock: real, nextReset: real)
    ensures var v1, o := Apply(v, turn.wake), TurnOutcome(v, turn, clock, nextReset);
            && (v1.stopped || turn.cancel == AtWake ==> o.burst.None? && !o.running && o.rest == v1)
            && (!v1.stopped && turn.cancel != AtWake && v1.queue == [] ==>
                  o.burst.None? && o.running && o.rest == v1 && o.now == clock)
            && (!v1.stopped && v1.queue != [] && v1.interval > 0 && turn.cancel == InSleep &&
                clock + turn.elapsed < nextReset ==>
                  o.burst.None? && !o.running && o.rest == Apply(v1, turn.gap))
  {
    hide Apply, Meanwhile;
  }

  // Otherwise the parameters are those read when the loop woke.  Unshaped, the whole queue goes, at once;
  // shaped, as much as the size allows, exactly at the later of now and the next opportunity, and the
  // delay of the timer after that.  What is taken is the front of the queue, and the rest stays.
  lemma TurnTakes(v: View, turn: Turn, clock: real, nextReset: real)
    requires var v1 := Apply(v, turn.wake); !v1.stopped && turn.cancel != AtWake && v1.queue != [] && v1.size > 0
    requires Apply(v, turn.wake).interval <= 0 || turn.cancel != InSleep || clock + turn.elapsed >= nextReset
    ensures var v1 := Apply(v, turn.wake);
            var v2, o, now := Apply(v1, turn.gap), TurnOutcome(v, turn, clock, nextReset), clock + turn.elapsed;
            && o.burst.Some? && o.burst.value.size == v1.size && o.burst.value.interval == v1.interval
            && o.burst.value.start == o.now
            && o.burst.value.packets <= v2.queue
            && (v1.interval <= 0 ==> o.now == now && o.burst.value.packets == v2.queue)
            && (v1.interval > 0 ==>
                  && o.now == (if now >= nextReset then now else nextReset) + turn.delay
                  && |o.burst.value.packets| == Min(v1.size, |v2.queue|))
            && o.rest
               == Apply(v2.(queue := v2.queue[|o.burst.value.packets|..]), Meanwhile(turn, |o.burst.value.packets|))
            && (o.running <==> !(turn.cancel.AfterSends? && turn.cancel.n < |o.burst.value.packets|))
  {
    hide Apply, Meanwhile;
    var v1 := Apply(v, turn.wake);
    QueueKept(v1, turn.gap);
  }

  // Nothing but the loop takes packets out of the queue.
  lemma {:induction false} QueueKept(v: View, ops: seq<Op>)
    ensures v.queue <= Apply(v, ops).queue
  {
    if ops != [] {
      QueueKept(v, ops[..|ops| - 1]);
    }
  }

  // The next opportunity is the start of the last shaped turn and its interval; an unshaped turn, or one that
  // takes nothing, leaves it as it was.
  lemma Opportunity(o: Outcome, nextReset: real)
    ensures o.burst.Some? && o.burst.value.interval > 0 ==>
      NextReset(o, nextReset) == o.now + o.burst.value.interval as real
    ensures o.burst.None? || o.burst.value.interval <= 0 ==> NextReset(o, nextReset) == nextReset
  {
  }

  // Backlogged and without delays, shaped bursts follow each other exactly one interval apart.
  lemma Backlogged(v: View, turn: Turn, last: Sent)
    requires last.interval > 0 && turn.elapsed == 0.0 && turn.delay == 0.0 && turn.cancel == Never
    requires var v1 := Apply(v, turn.wake); !v1.stopped && v1.queue != [] && v1.size > 0 && v1.interval > 0
    ensures var o := TurnOutcome(v, turn, last.start, last.start + last.interval as real);
            o.burst.Some? && o.burst.value.start == last.start + last.interval as real
  {
    hide Apply, TurnOutcome, Meanwhile;
    TurnTakes(v, turn, last.start, last.start + last.interval as real);
  }

  // ---- progress

  // A turn in which nobody else touches the shaper.
  predicate Quiet(turn: Turn) {
    turn.wake == [] && turn.gap == [] && turn.during == [] && turn.cancel == Never
  }

  // A queue left alone goes out in order, burstSize packets a turn, and nothing stays behind: after
  // n turns exactly the first n * burstSize packets have left, or all of them.
  lemma {:induction false} QueueDrains(v: View, script: seq<Turn>, clock: real, nextReset: real)
    requires !v.stopped && v.size > 0 && v.interval > 0 && forall i :: 0 <= i < |script| ==> Quiet(script[i])
    ensures AllPackets(Bursts(v, script, clock, nextReset)) == v.queue[..Min(|v.queue|, |script| * v.size)]
    decreases |script|
  {
    hide TurnOutcome, AllPackets, NextReset;
    if script == [] {
      NoPackets();
    } else {
      var o := TurnOutcome(v, script[0], clock, nextReset);
      QuietTurn(v, script[0], clock, nextReset);
      QueueDrains(o.rest, script[1..], o.now, NextReset(o, nextReset));
      var later := Bursts(o.rest, script[1..], o.now, NextReset(o, nextReset));
      Portion(v.queue, v.size, |script| - 1);
      if o.burst.Some? {
        FirstPackets(o.burst.value, later);
      } else {
        assert [] + later == later;
      }
    }
  }

  lemma QuietTurn(v: View, turn: Turn, clock: real, nextReset: real)
    requires !v.stopped && v.size > 0 && v.interval > 0 && Quiet(turn)
    ensures var o, n := TurnOutcome(v, turn, clock, nextReset), Min(v.size, |v.queue|);
            && o.running && o.rest == v.(queue := v.queue[n..])
            && (o.burst.Some? <==> v.queue != [])
            && (o.burst.Some? ==> o.burst.value.packets == v.queue[..n])
  {
    QuietBatch(turn.during, Min(v.size, |v.queue|));
    assert v == v.(queue := v.queue[0..]);
  }

  lemma {:induction false} QuietBatch(during: seq<seq<Op>>, n: nat)
    requires during == []
    ensures DoneBefore(during, n) == []
  {
    if n > 0 {
      QuietBatch(during, n - 1);
    }
  }

  lemma Portion(queue: seq<Wire>, size: int, n: nat)
    requires size > 0
    ensures var m := Min(size, |queue|);
            0 <= m <= |queue| && (n + 1) * size >= size && n * size >= 0
            && queue[..m] + queue[m..][..Min(|queue[m..]|, n * size)] == queue[..Min(|queue|, (n + 1) * size)]
  {
    MulStep(n, size);
    assert n * size >= 0;
  }

  lemma {:induction false} FirstPackets(b: Sent, later: seq<Sent>)
    ensures AllPackets([b] + later) == b.packets + AllPackets(later)
    decreases |later|
  {
    var all := [b] + later;
    if later == [] {
      assert all[..0] == [];
    } else {
      var init, last := later[..|later| - 1], later[|later| - 1];
      FirstPackets(b, init);
      assert all[..|all| - 1] == [b] + init;
    }
  }
}
