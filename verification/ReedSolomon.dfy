// The systematic Reed-Solomon code over bytes.  Position by position, the k data shards are the
// values at points 0 .. k-1 of one polynomial of length k, and parity shard j is its value at point
// k+j.  The code meets the contract under which the sessions are proved.
module ReedSolomon {
  import opened Basics
  import opened Shards
  import opened ErasureCode
  import opened GaloisField
  import opened Polynomial

  function Point(i: nat): Elem {
    FromByte(if i < 256 then i else 0)
  }

  function Points(at: seq<nat>): (r: seq<Elem>)
    ensures |r| == |at|
  {
    seq(|at|, i requires 0 <= i < |at| => Point(at[i]))
  }

  function ByteAt(s: Shard, pos: nat): Elem {
    if pos < |s| then FromByte(s[pos]) else ZERO
  }

  function Column(data: seq<Shard>, pos: nat): (r: seq<Elem>)
    ensures |r| == |data|
  {
    seq(|data|, i requires 0 <= i < |data| => ByteAt(data[i], pos))
  }

  // The polynomial with the bytes at `pos` as its values at the given points.
  function Through(at: seq<nat>, data: seq<Shard>, pos: nat): (p: Poly)
    requires |at| == |data|
    ensures |p| == |at|
  {
    Interpolate(Points(at), Column(data, pos))
  }

  // The shard at point i of the codeword that has the given shards at the given points.
  function ShardAt(at: seq<nat>, data: seq<Shard>, n: nat, i: nat): (s: Shard)
    requires |at| == |data|
    ensures |s| == n
  {
    seq(n, pos requires 0 <= pos < n => ToByte(Eval(Through(at, data, pos), Point(i))))
  }

  function Counting(k: nat): (r: seq<nat>)
    ensures |r| == k && forall i :: 0 <= i < k ==> r[i] == i
  {
    seq(k, i requires 0 <= i < k => i)
  }

  function Parity(k: nat, j: nat, data: seq<Shard>): Shard {
    if |data| == k && k > 0 then ShardAt(Counting(k), data, |data[0]|, k + j) else []
  }

  // The numbers of the shards present among the first n, in order.
  function Indices(shards: seq<Option<Shard>>, n: nat): (r: seq<nat>)
    requires n <= |shards|
    ensures forall t :: 0 <= t < |r| ==> r[t] < n && shards[r[t]].Some?
    ensures forall t, u :: 0 <= t < u < |r| ==> r[t] < r[u]
  {
    if n == 0 then [] else Indices(shards, n - 1) + if shards[n - 1].Some? then [n - 1] else []
  }

  function Taken(shards: seq<Option<Shard>>, at: seq<nat>): (r: seq<Shard>)
    requires forall t :: 0 <= t < |at| ==> at[t] < |shards| && shards[at[t]].Some?
    ensures |r| == |at| && forall t :: 0 <= t < |at| ==> r[t] == shards[at[t]].value
  {
    seq(|at|, t requires 0 <= t < |at| => shards[at[t]].value)
  }

  function Rebuilt(k: nat, m: nat, shards: seq<Option<Shard>>): Option<seq<Shard>> {
    var all := Indices(shards, |shards|);
    if k == 0 || |all| < k then None
    else
      var at := all[..k];
      var data := Taken(shards, at);
      Some(seq(k + m, i requires 0 <= i < k + m => ShardAt(at, data, |data[0]|, i)))
  }

  function SystematicCode(): Code {
    Code(Parity, Rebuilt)
  }

  // ---- points

  lemma PointInjective(i: nat, j: nat)
    requires i < 256 && j < 256 && Point(i) == Point(j)
    ensures i == j
  {
    hide FromByte, ToByte;
    ByteRoundTrip(i);
    ByteRoundTrip(j);
  }

  ghost predicate Increasing(at: seq<nat>) {
    && (forall t :: 0 <= t < |at| ==> at[t] < 256)
    && (forall t, u :: 0 <= t < u < |at| ==> at[t] < at[u])
  }

  lemma PointsDistinct(at: seq<nat>)
    requires Increasing(at)
    ensures AllDifferent(Points(at))
  {
    hide Point;
    forall t, u | 0 <= t < u < |at| ensures Points(at)[t] != Points(at)[u] {
      if Point(at[t]) == Point(at[u]) {
        PointInjective(at[t], at[u]);
      }
    }
  }

  lemma ThroughAt(at: seq<nat>, data: seq<Shard>, pos: nat, t: nat)
    requires |at| == |data| && Increasing(at) && t < |at|
    ensures Eval(Through(at, data, pos), Point(at[t])) == ByteAt(data[t], pos)
  {
    hide Eval, Interpolate, Point, ByteAt;
    PointsDistinct(at);
    Interpolates(Points(at), Column(data, pos), t);
  }

  // ---- the codeword is the values of one polynomial

  lemma CodewordAt(k: nat, data: seq<Shard>, n: nat, i: nat, pos: nat)
    requires k > 0 && |data| == k && Uniform(data, n) && i < 256 && k <= 256 && pos < n
    ensures |CodewordShard(SystematicCode(), k, data, i)| == n
    ensures ByteAt(CodewordShard(SystematicCode(), k, data, i), pos) ==
            Eval(Through(Counting(k), data, pos), Point(i))
    ensures CodewordShard(SystematicCode(), k, data, i)[pos] ==
            ToByte(Eval(Through(Counting(k), data, pos), Point(i)))
  {
    hide Eval, Through, Point, FromByte, ToByte, Counting;
    var at := Counting(k);
    if i < k {
      ThroughAt(at, data, pos, i);
      ByteRoundTrip(data[i][pos]);
    } else {
      ElemRoundTrip(Eval(Through(at, data, pos), Point(i)));
    }
  }

  // The shards taken are k different ones of the codeword of data.
  ghost predicate Carries(k: nat, data: seq<Shard>, at: seq<nat>, taken: seq<Shard>) {
    && |data| == k == |at| == |taken| && Increasing(at)
    && forall t :: 0 <= t < k ==> taken[t] == CodewordShard(SystematicCode(), k, data, at[t])
  }

  // Any k shards of the codeword carry the same polynomial.
  lemma SamePolynomial(k: nat, data: seq<Shard>, n: nat, at: seq<nat>, taken: seq<Shard>, pos: nat, x: Elem)
    requires 0 < k <= 256 && |data| == k && Uniform(data, n) && pos < n
    requires Carries(k, data, at, taken)
    ensures Eval(Through(at, taken, pos), x) == Eval(Through(Counting(k), data, pos), x)
  {
    hide Eval, Through, Point, Counting, CodewordShard, ByteAt;
    var p, q := Through(at, taken, pos), Through(Counting(k), data, pos);
    var xs := Points(at);
    forall t | 0 <= t < k ensures Eval(p, xs[t]) == Eval(q, xs[t]) {
      ThroughAt(at, taken, pos, t);
      CodewordAt(k, data, n, at[t], pos);
    }
    PointsDistinct(at);
    Unique(p, q, xs, x);
  }

  lemma FirstTaken(k: nat, data: seq<Shard>, n: nat, at: seq<nat>, taken: seq<Shard>)
    requires 0 < k <= 256 && |data| == k && n > 0 && Uniform(data, n) && Carries(k, data, at, taken)
    ensures |taken[0]| == n
  {
    hide CodewordShard;
    CodewordAt(k, data, n, at[0], 0);
  }

  lemma ShardRecovered(k: nat, data: seq<Shard>, n: nat, at: seq<nat>, taken: seq<Shard>, i: nat)
    requires 0 < k <= 256 && |data| == k && Uniform(data, n) && i < 256
    requires Carries(k, data, at, taken)
    ensures n > 0 ==> ShardAt(at, taken, n, i) == CodewordShard(SystematicCode(), k, data, i)
  {
    hide Eval, Through, Point, Counting, CodewordShard, ByteAt, ToByte;
    if n > 0 {
      CodewordAt(k, data, n, i, 0);
      forall pos | 0 <= pos < n
        ensures ShardAt(at, taken, n, i)[pos] == CodewordShard(SystematicCode(), k, data, i)[pos]
      {
        SamePolynomial(k, data, n, at, taken, pos, Point(i));
        CodewordAt(k, data, n, i, pos);
      }
    }
  }

  // ---- the contract

  lemma {:induction false} IndicesCount(shards: seq<Option<Shard>>, n: nat)
    requires n <= |shards|
    ensures |Indices(shards, n)| == |Present(shards[..n])|
  {
    if n > 0 {
      IndicesCount(shards, n - 1);
      var before, now := Present(shards[..n - 1]), Present(shards[..n]);
      if shards[n - 1].Some? {
        assert now == before + {n - 1};
      } else {
        assert now == before;
      }
    } else {
      assert Present(shards[..0]) == {};
    }
  }

  lemma CountPresent(shards: seq<Option<Shard>>)
    ensures |Indices(shards, |shards|)| == |Present(shards)|
  {
    hide Indices, Present;
    IndicesCount(shards, |shards|);
    assert shards[..|shards|] == shards;
  }

  lemma RebuiltIs(k: nat, m: nat, shards: seq<Option<Shard>>, i: nat)
    requires k > 0 && i < k + m
    ensures |Present(shards)| < k <==> Rebuilt(k, m, shards).None?
    ensures |Present(shards)| >= k ==>
      var all := Indices(shards, |shards|);
      && k <= |all|
      && |Rebuilt(k, m, shards).value| == k + m
      && var taken := Taken(shards, all[..k]);
         Rebuilt(k, m, shards).value[i] == ShardAt(all[..k], taken, |taken[0]|, i)
  {
    hide Indices, Present, ShardAt, Taken;
    CountPresent(shards);
  }

  lemma TakenAgree(k: nat, m: nat, data: seq<Shard>, shards: seq<Option<Shard>>)
    requires Supported(k, m) && |data| == k && |shards| == k + m && k <= |Indices(shards, |shards|)|
    requires Agrees(SystematicCode(), k, data, shards)
    ensures var at := Indices(shards, |shards|)[..k]; Carries(k, data, at, Taken(shards, at))
  {
    hide Indices, CodewordShard, Taken;
  }

  lemma RebuiltShard(k: nat, m: nat, n: nat, data: seq<Shard>, shards: seq<Option<Shard>>, i: nat)
    requires Supported(k, m) && |data| == k && n > 0 && Uniform(data, n) && |shards| == k + m && i < k + m
    requires |Present(shards)| >= k && Agrees(SystematicCode(), k, data, shards)
    ensures Rebuilt(k, m, shards).Some? && |Rebuilt(k, m, shards).value| == k + m
    ensures Rebuilt(k, m, shards).value[i] == CodewordShard(SystematicCode(), k, data, i)
  {
    hide Indices, Present, ShardAt, Taken, Rebuilt, CodewordShard, Agrees, Increasing;
    RebuiltIs(k, m, shards, i);
    TakenAgree(k, m, data, shards);
    var at := Indices(shards, |shards|)[..k];
    FirstTaken(k, data, n, at, Taken(shards, at));
    ShardRecovered(k, data, n, at, Taken(shards, at), i);
  }

  lemma RecoversAny(k: nat, m: nat, n: nat, data: seq<Shard>, shards: seq<Option<Shard>>)
    requires Supported(k, m) && m > 0 && |data| == k && n > 0 && Uniform(data, n) && |shards| == k + m
    ensures Recovers(SystematicCode(), k, m, data, shards)
  {
    hide Present, Rebuilt, CodewordShard, Agrees;
    var code := SystematicCode();
    RebuiltIs(k, m, shards, 0);
    if |Present(shards)| >= k && Agrees(code, k, data, shards) {
      RebuiltShard(k, m, n, data, shards, 0);
      forall i | 0 <= i < k + m
        ensures code.rebuild(k, m, shards).value[i] == CodewordShard(code, k, data, i)
      {
        RebuiltShard(k, m, n, data, shards, i);
      }
    }
  }

  // The code meets the contract: parity shards have the data shards' length, and any k of the
  // k + m shards give back all of them.
  lemma MeetsContract()
    ensures Contract(SystematicCode())
  {
    hide ShardAt, Recovers;
    var code := SystematicCode();
    forall k: nat, m: nat, n: nat, data: seq<Shard>, shards: seq<Option<Shard>> |
      Supported(k, m) && m > 0 && |data| == k && n > 0 && Uniform(data, n) && |shards| == k + m
      ensures Recovers(code, k, m, data, shards)
    {
      RecoversAny(k, m, n, data, shards);
    }
  }
}

// The transport over that code: no assumption about an erasure code is left.
module EndToEnd {
  import opened ErasureCode
  import opened ReedSolomon
  import opened Sender
  import opened SenderProofs
  import opened System
  import opened Invariant
  import opened Theorems

  // Whatever the flags within their ranges, the bytes written are a prefix of the bytes read, and
  // after an acknowledged CLOSE they are all of them, but for the one block of which nothing came.
  lemma Delivers(c: Config, es: seq<Event>, s: Sys)
    requires c.k >= 1 && c.k + c.m <= 32 && c.k + c.rxM <= 256 && c.stream <= 0xFFF && MaxPayload(c) + 8 <= 2048
    requires c.code == SystematicCode() && Reaches(c, es, s)
    ensures s.rcv.output <= s.snd.input
    ensures s.snd.pc == Closed(true) && LeftFor(s.rcv.pc, AllWritten) ==> s.rcv.output == s.snd.input
    ensures s.snd.pc == Closed(true) && LeftFor(s.rcv.pc, NothingReceived) ==>
      (s.rcv.output == s.snd.input <==> |s.snd.log| != 1)
  {
    hide Reaches, Contract, SystematicCode, LogBytes;
    MeetsContract();
    Integrity(c, es, s);
    if s.snd.pc == Closed(true) && (LeftFor(s.rcv.pc, AllWritten) || LeftFor(s.rcv.pc, NothingReceived)) {
      NoTruncation(c, es, s);
    }
  }
}
