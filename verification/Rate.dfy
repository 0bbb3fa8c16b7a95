// How fast a session's shaper sends: the bound the link bandwidth sets, and exactly when it holds.
module Rate {
  import opened Basics
  import opened Shaping

  // ---- what a session does to its shaper

  // FEC_K, FEC_M, Bandwidth and LinkMTU of the session.
  datatype Flags = Flags(k: nat, m: nat, bandwidth: int, mtu: nat)

  // Fits the link with its IPv4 and UDP headers.
  predicate Fits(fl: Flags, p: Wire) {
    |p| + 28 <= fl.mtu
  }

  // Parameters as NewSession and updateShaperParams set them: K + curM packets and their interval.
  predicate SessionPair(fl: Flags, size: int, interval: int) {
    fl.k <= size <= fl.k + fl.m && interval == Interval(fl.bandwidth, fl.mtu, size)
  }

  predicate SessionOp(fl: Flags, op: Op) {
    match op
    case Enqueue(p) => Fits(fl, p)
    case EnqueueMany(ps) => forall p :: p in ps ==> Fits(fl, p)
    case UpdateParams(size, interval) => SessionPair(fl, size, interval)
    case Stop => true
  }

  predicate SessionOps(fl: Flags, ops: seq<Op>) {
    forall i :: 0 <= i < |ops| ==> SessionOp(fl, ops[i])
  }

  predicate SessionTurn(fl: Flags, turn: Turn) {
    && turn.elapsed >= 0.0 && turn.delay >= 0.0
    && SessionOps(fl, turn.wake) && SessionOps(fl, turn.gap)
    && forall i :: 0 <= i < |turn.during| ==> SessionOps(fl, turn.during[i])
  }

  predicate SessionScript(fl: Flags, script: seq<Turn>) {
    forall i :: 0 <= i < |script| ==> SessionTurn(fl, script[i])
  }

  // The shaper as NewSession makes it.
  function NewView(fl: Flags): View {
    View(fl.k + fl.m, Interval(fl.bandwidth, fl.mtu, fl.k + fl.m), [], false)
  }

  predicate ViewOk(fl: Flags, v: View) {
    SessionPair(fl, v.size, v.interval) && forall p :: p in v.queue ==> Fits(fl, p)
  }

  lemma {:induction false} ApplyOk(fl: Flags, v: View, ops: seq<Op>)
    requires ViewOk(fl, v) && SessionOps(fl, ops)
    ensures ViewOk(fl, Apply(v, ops))
    ensures v.queue <= Apply(v, ops).queue
  {
    hide Interval;
    if ops != [] {
      ApplyOk(fl, v, ops[..|ops| - 1]);
      assert SessionOp(fl, ops[|ops| - 1]);
    }
  }

  lemma {:induction false} DoneOk(fl: Flags, during: seq<seq<Op>>, n: nat)
    requires forall i :: 0 <= i < |during| ==> SessionOps(fl, during[i])
    ensures SessionOps(fl, DoneBefore(during, n))
  {
    hide SessionOp;
    if n > 0 {
      DoneOk(fl, during, n - 1);
    }
  }

  // ---- what such a shaper sends

  predicate BurstOk(fl: Flags, b: Sent) {
    && SessionPair(fl, b.size, b.interval)
    && (b.interval > 0 ==> |b.packets| <= b.size)
    && forall p :: p in b.packets ==> Fits(fl, p)
  }

  lemma TakenOk(fl: Flags, v1: View, v2: View, turn: Turn, start: real, n: nat)
    requires ViewOk(fl, v1) && ViewOk(fl, v2) && SessionTurn(fl, turn) && n <= |v2.queue|
    requires v1.interval > 0 ==> n <= v1.size
    ensures var o := TakenOutcome(v1, v2, turn, start, n); ViewOk(fl, o.rest) && BurstOk(fl, o.burst.value)
  {
    hide Interval, SessionOps, Apply, DoneBefore;
    var left := v2.(queue := v2.queue[n..]);
    assert forall p :: p in left.queue ==> p in v2.queue;
    assert forall p :: p in v2.queue[..n] ==> p in v2.queue;
    DoneOk(fl, turn.during, if CutShort(turn.cancel, n) then turn.cancel.n + 1 else n);
    ApplyOk(fl, left, Meanwhile(turn, n));
  }

  lemma TurnOk(fl: Flags, v: View, turn: Turn, clock: real, nextReset: real)
    requires ViewOk(fl, v) && SessionTurn(fl, turn)
    ensures var o := TurnOutcome(v, turn, clock, nextReset);
            && ViewOk(fl, o.rest) && o.now >= clock
            && (o.burst.Some? ==>
                  && BurstOk(fl, o.burst.value) && o.burst.value.start == o.now
                  && (o.burst.value.interval > 0 ==> o.now >= nextReset))
  {
    hide Interval, SessionOps, Apply, ViewOk, BurstOk, Meanwhile;
    var v1 := Apply(v, turn.wake);
    ApplyOk(fl, v, turn.wake);
    ApplyOk(fl, v1, turn.gap);
    var v2 := Apply(v1, turn.gap);
    var now := clock + turn.elapsed;
    if !v1.stopped && turn.cancel != AtWake && v1.queue != [] {
      if v1.interval <= 0 {
        TakenOk(fl, v1, v2, turn, now, |v2.queue|);
      } else {
        var n := Max(0, Min(v1.size, |v2.queue|));
        SizeKnown(fl, v1);
        TakenOk(fl, v1, v2, turn, (if now < nextReset then nextReset else now) + turn.delay, n);
      }
    }
  }

  lemma SizeKnown(fl: Flags, v: View)
    requires ViewOk(fl, v)
    ensures v.size >= 0
  {
    hide Interval;
  }

  // A shaped burst is over before the next shaped one starts.
  ghost predicate Paced(bursts: seq<Sent>) {
    forall i, j :: 0 <= i < j < |bursts| && bursts[i].interval > 0 && bursts[j].interval > 0 ==>
      bursts[j].start >= bursts[i].start + bursts[i].interval as real
  }

  ghost predicate NotBefore(bursts: seq<Sent>, t: real) {
    forall i :: 0 <= i < |bursts| && bursts[i].interval > 0 ==> bursts[i].start >= t
  }

  ghost predicate AllOk(fl: Flags, bursts: seq<Sent>) {
    forall i :: 0 <= i < |bursts| ==> BurstOk(fl, bursts[i])
  }

  // Whatever the other goroutines and the clock do: every burst has parameters that were set together,
  // keeps to their size if they shape it, and leaves their interval to pass before the next such burst.
  lemma {:induction false} BurstsPaced(fl: Flags, v: View, script: seq<Turn>, clock: real, nextReset: real)
    requires ViewOk(fl, v) && SessionScript(fl, script)
    ensures var bursts := Bursts(v, script, clock, nextReset);
            AllOk(fl, bursts) && Paced(bursts) && NotBefore(bursts, nextReset)
    decreases |script|
  {
    hide TurnOutcome, SessionTurn, ViewOk, BurstOk;
    if script != [] {
      var o := TurnOutcome(v, script[0], clock, nextReset);
      TurnOk(fl, v, script[0], clock, nextReset);
      var reset := NextReset(o, nextReset);
      BurstsPaced(fl, o.rest, script[1..], o.now, reset);
      var later := if o.running then Bursts(o.rest, script[1..], o.now, reset) else [];
      if o.burst.Some? {
        PacedCons(fl, o.burst.value, later, reset, nextReset);
      } else {
        assert [] + later == later;
      }
    }
  }

  lemma PacedCons(fl: Flags, b: Sent, later: seq<Sent>, reset: real, nextReset: real)
    requires BurstOk(fl, b) && AllOk(fl, later) && Paced(later) && NotBefore(later, reset)
    requires b.interval > 0 ==> b.start >= nextReset && reset == b.start + b.interval as real
    requires b.interval <= 0 ==> reset == nextReset
    ensures AllOk(fl, [b] + later) && Paced([b] + later) && NotBefore([b] + later, nextReset)
  {
    hide BurstOk;
    var all := [b] + later;
    forall i, j | 0 <= i < j < |all| && all[i].interval > 0 && all[j].interval > 0
      ensures all[j].start >= all[i].start + all[i].interval as real
    {
      assert all[j] == later[j - 1];
    }
  }

  // ---- bits

  // What a packet takes on the link, with its IPv4 and UDP headers.
  function PacketBits(p: Wire): nat {
    (|p| + 28) * 8
  }

  function BitCount(ps: seq<Wire>): nat {
    if ps == [] then 0 else BitCount(ps[..|ps| - 1]) + PacketBits(ps[|ps| - 1])
  }

  function TotalBits(bursts: seq<Sent>): nat {
    if bursts == [] then 0 else TotalBits(bursts[..|bursts| - 1]) + BitCount(bursts[|bursts| - 1].packets)
  }

  lemma {:induction false} BitsBound(ps: seq<Wire>, mtu: nat)
    requires forall i :: 0 <= i < |ps| ==> |ps[i]| + 28 <= mtu
    ensures BitCount(ps) <= |ps| * (mtu * 8)
  {
    if ps != [] {
      BitsBound(ps[..|ps| - 1], mtu);
      MulStep(|ps| - 1, mtu * 8);
    }
  }

  // Truncation to a whole millisecond loses less than one.
  lemma IntervalCovers(bandwidth: int, mtu: nat, size: nat)
    requires bandwidth > 0
    ensures size * (mtu * 8) * 1000 <= bandwidth * (Interval(bandwidth, mtu, size) + 1)
    ensures Interval(bandwidth, mtu, size) >= 0
  {
    var x := size * mtu * 8000;
    assert size * (mtu * 8) * 1000 == x by { Regroup(size, mtu); }
    RoundedDown(x, bandwidth);
  }

  // The interval is the time the link takes, in whole milliseconds rounded down; no bandwidth, no interval.
  // A negative LinkMTU gives the negative interval: the conversion truncates towards zero.
  lemma IntervalExact(bandwidth: int, mtu: int, size: nat)
    ensures bandwidth > 0 && mtu >= 0 ==>
      var i := Interval(bandwidth, mtu, size);
      i >= 0 && bandwidth * i <= size * mtu * 8000 < bandwidth * (i + 1)
    ensures mtu < 0 ==> Interval(bandwidth, mtu, size) == -Interval(bandwidth, -mtu, size)
    ensures bandwidth <= 0 ==> Interval(bandwidth, mtu, size) == 0
  {
    if mtu < 0 {
      MulSign(size, mtu);
    } else if bandwidth > 0 {
      RoundedDown(size * mtu * 8000, bandwidth);
    }
  }

  lemma MulSign(size: nat, mtu: int)
    requires mtu < 0
    ensures size * -mtu == -(size * mtu) && size * -mtu >= 0 && (size > 0 ==> size * mtu < 0)
  {
  }

  lemma RoundedDown(x: nat, d: int)
    requires d > 0
    ensures x / d >= 0 && d * (x / d) <= x < d * (x / d + 1)
  {
    assert x == d * (x / d) + x % d;
  }

  lemma Regroup(a: nat, b: nat)
    ensures a * (b * 8) * 1000 == a * b * 8000
  {
  }

  // Shaping is on exactly if a burst takes the link at least a millisecond; on a faster link the
  // interval truncates to zero and the loop sends at once.
  lemma ShapedIff(bandwidth: int, mtu: nat, size: nat)
    requires bandwidth > 0
    ensures Interval(bandwidth, mtu, size) > 0 <==> size * mtu * 8000 >= bandwidth
    ensures Interval(bandwidth, mtu, size) >= 0
  {
    Positive(size * mtu * 8000, bandwidth);
  }

  lemma Positive(x: nat, d: int)
    requires d > 0
    ensures x / d > 0 <==> x >= d
    ensures x / d >= 0
  {
    assert x == d * (x / d) + x % d;
    if x / d > 0 {
      assert d * (x / d) >= d;
    }
  }

  // ---- the bound

  // What the bandwidth carries in t milliseconds and n more.
  function Budget(bandwidth: int, t: real, n: int): real {
    bandwidth as real * (t + n as real)
  }

  // Between the starts of any two turns that took packets, the link is given no more than the bandwidth
  // carries in that time, with one millisecond of slack per turn.
  ghost predicate RateKept(bandwidth: int, bursts: seq<Sent>) {
    forall a, b :: 0 <= a <= b < |bursts| ==> WithinBudget(bandwidth, bursts, a, b)
  }

  ghost predicate WithinBudget(bandwidth: int, bursts: seq<Sent>, a: int, b: int)
    requires 0 <= a <= b < |bursts|
  {
    TotalBits(bursts[a..b]) as real * 1000.0 <= Budget(bandwidth, bursts[b].start - bursts[a].start, b - a)
  }

  // The rate bound for a stretch of shaped bursts, however often the parity count and with it the burst
  // parameters changed in between, and whatever came before and after.
  lemma {:induction false} RateBound(fl: Flags, bursts: seq<Sent>, a: nat, b: nat)
    requires fl.bandwidth > 0 && Paced(bursts) && AllOk(fl, bursts) && a <= b < |bursts|
    requires forall i :: a <= i <= b ==> bursts[i].interval > 0
    ensures WithinBudget(fl.bandwidth, bursts, a, b)
  {
    hide BitCount, Budget, BurstOk;
    if a == b {
      assert bursts[a..b] == [];
      NoBudget(fl.bandwidth, bursts[b].start - bursts[a].start);
    } else {
      RateBound(fl, bursts, a, b - 1);
      var last := bursts[b - 1];
      assert BurstOk(fl, last);
      BurstBits(fl, last);
      assert bursts[a..b][..b - 1 - a] == bursts[a..b - 1];
      AddBurst(fl.bandwidth, TotalBits(bursts[a..b - 1]), BitCount(last.packets), last.interval,
               last.start - bursts[a].start, bursts[b].start - last.start, b - 1 - a);
      assert (last.start - bursts[a].start) + (bursts[b].start - last.start) == bursts[b].start - bursts[a].start;
    }
  }

  lemma BurstBits(fl: Flags, b: Sent)
    requires fl.bandwidth > 0 && BurstOk(fl, b) && b.interval > 0
    ensures BitCount(b.packets) * 1000 <= fl.bandwidth * (b.interval + 1)
  {
    hide Interval;
    assert forall i :: 0 <= i < |b.packets| ==> b.packets[i] in b.packets;
    BitsBound(b.packets, fl.mtu);
    MulMono(|b.packets|, b.size, fl.mtu * 8);
    IntervalCovers(fl.bandwidth, fl.mtu, b.size);
  }

  lemma NoBudget(bandwidth: int, t: real)
    requires t == 0.0
    ensures Budget(bandwidth, t, 0) == 0.0
  {
  }

  lemma AddBurst(bw: int, before: nat, bits: nat, interval: int, t: real, dt: real, n: nat)
    requires bw > 0 && bits * 1000 <= bw * (interval + 1) && dt >= interval as real
    requires before as real * 1000.0 <= Budget(bw, t, n)
    ensures (before + bits) as real * 1000.0 <= Budget(bw, t + dt, n + 1)
  {
    var r := bw as real;
    assert (bits * 1000) as real <= (bw * (interval + 1)) as real == r * (interval as real + 1.0);
    ScaleMono(r, interval as real + 1.0, dt + 1.0);
    assert r * (t + n as real) + r * (dt + 1.0) == r * (t + dt + (n + 1) as real);
  }

  lemma ScaleMono(r: real, x: real, y: real)
    requires r >= 0.0 && x <= y
    ensures r * x <= r * y
  {
  }

  // On any link, in every run of a session's shaper.
  lemma ShapedStretch(fl: Flags, script: seq<Turn>, a: nat, b: nat)
    requires fl.bandwidth > 0 && SessionScript(fl, script)
    requires var bursts := Bursts(NewView(fl), script, 0.0, 0.0);
             a <= b < |bursts| && forall i :: a <= i <= b ==> bursts[i].interval > 0
    ensures WithinBudget(fl.bandwidth, Bursts(NewView(fl), script, 0.0, 0.0), a, b)
  {
    hide SessionScript, Bursts, Interval, Paced, BurstOk;
    BurstsPaced(fl, NewView(fl), script, 0.0, 0.0);
    RateBound(fl, Bursts(NewView(fl), script, 0.0, 0.0), a, b);
  }

  // ---- when it holds

  // K packets take the link a millisecond or more: shaping stays on at every parity count.
  predicate SlowEnough(fl: Flags) {
    fl.k * fl.mtu * 8000 >= fl.bandwidth
  }

  lemma AlwaysShaped(fl: Flags, size: int, interval: int)
    requires fl.bandwidth > 0 && SlowEnough(fl) && SessionPair(fl, size, interval)
    ensures interval > 0
  {
    ShapedIff(fl.bandwidth, fl.mtu, size);
    MulMono(fl.k, size, fl.mtu);
  }

  // Everything the shaper sends keeps to the rate, in every run, on a link slow enough.
  lemma SessionKeepsRate(fl: Flags, script: seq<Turn>)
    requires fl.bandwidth > 0 && SlowEnough(fl) && SessionScript(fl, script)
    ensures RateKept(fl.bandwidth, Bursts(NewView(fl), script, 0.0, 0.0))
  {
    hide SessionScript, SlowEnough, Bursts, Interval, Paced;
    var bursts := Bursts(NewView(fl), script, 0.0, 0.0);
    BurstsPaced(fl, NewView(fl), script, 0.0, 0.0);
    forall i | 0 <= i < |bursts|
      ensures bursts[i].interval > 0
    {
      assert BurstOk(fl, bursts[i]);
      AlwaysShaped(fl, bursts[i].size, bursts[i].interval);
    }
    forall a, b | 0 <= a <= b < |bursts|
      ensures WithinBudget(fl.bandwidth, bursts, a, b)
    {
      RateBound(fl, bursts, a, b);
    }
  }

  // ---- when it does not

  function Copies(p: Wire, n: nat): (r: seq<Wire>)
    ensures |r| == n
  {
    seq(n, _ => p)
  }

  lemma {:induction false} CopiesBits(p: Wire, n: nat)
    ensures BitCount(Copies(p, n)) == n * PacketBits(p)
  {
    if n > 0 {
      CopiesBits(p, n - 1);
      assert Copies(p, n)[..n - 1] == Copies(p, n - 1);
      MulStep(n - 1, PacketBits(p));
    }
  }

  // n retransmissions queued one after another.
  lemma {:induction false} Retransmitted(v: View, p: Wire, n: nat)
    requires !v.stopped
    ensures Apply(v, seq(n, _ => Op.Enqueue(p))) == v.(queue := v.queue + Copies(p, n))
  {
    var ops := seq(n, _ => Op.Enqueue(p));
    if n == 0 {
      assert v.queue + Copies(p, 0) == v.queue;
    } else {
      Retransmitted(v, p, n - 1);
      assert ops[..n - 1] == seq(n - 1, _ => Op.Enqueue(p));
      assert Copies(p, n) == Copies(p, n - 1) + [p];
      assert v.queue + Copies(p, n) == (v.queue + Copies(p, n - 1)) + [p];
    }
  }

  // An unshaped turn takes the whole queue.
  lemma UnshapedTurn(v: View, wake: seq<Op>, clock: real, nextReset: real)
    requires var v1 := Apply(v, wake); !v1.stopped && v1.interval == 0 && v1.queue != []
    ensures var v1 := Apply(v, wake);
            TurnOutcome(v, Turn(wake, 0.0, [], 0.0, [], Never), clock, nextReset) ==
            Outcome(true, clock, Some(Sent(clock, v1.size, 0, v1.queue)), v1.(queue := []))
  {
    var v1 := Apply(v, wake);
    assert Apply(v1, []) == v1;
    QuietBatch([], |v1.queue|);
    assert v1.queue[..|v1.queue|] == v1.queue && v1.queue[|v1.queue|..] == [];
    assert clock + 0.0 == clock;
  }

  lemma HeaderBits(p: Wire)
    ensures PacketBits(p) >= 1
  {
  }

  lemma OneBurstBits(b: Sent)
    ensures TotalBits([b]) == BitCount(b.packets)
  {
    assert [b][..0] == [];
  }

  lemma TooMuch(bw: nat, bits: nat)
    requires bw > 0 && bits > 0
    ensures (bw * bits) as real * 1000.0 > Budget(bw, 0.0 - 0.0, 1)
  {
    assert bw * bits >= bw;
    assert Budget(bw, 0.0 - 0.0, 1) == bw as real;
  }
}
