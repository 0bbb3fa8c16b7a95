// Shards: a block is K byte strings, each holding a two-byte length and then TCP data.
module Shards {
  import opened Basics
  import opened Protocol

  type Shard = seq<Byte>

  function Zeros(n: nat): (r: Shard)
    ensures |r| == n && forall i :: 0 <= i < n ==> r[i] == 0
  {
    seq(n, _ => 0)
  }

  // readTCPRun: the length as uint16, big endian, then the bytes.
  function Frame(b: seq<Byte>): Shard {
    BigEndian(|b| % 65536) + b
  }

  // writeTCPRun: what the receiver writes to TCP for one payload.
  function Strip(s: Shard): seq<Byte> {
    if |s| < 2 then []
    else
      var n := FromBigEndian(s[0], s[1]);
      if n > 0 && 2 + n <= |s| then s[2..2 + n] else []
  }

  function Pad(s: Shard, n: nat): Shard {
    if |s| < n then s + Zeros(n - |s|) else s
  }

  // A shard whose length field tells its own length.
  ghost predicate Framed(s: Shard) {
    |s| >= 2 && FromBigEndian(s[0], s[1]) == |s| - 2
  }

  function Longest(ss: seq<Shard>): nat {
    if ss == [] then 0 else Max(Longest(ss[..|ss| - 1]), |ss[|ss| - 1]|)
  }

  // The TCP bytes of a list of shards, in order.
  function Bytes(ss: seq<Shard>): seq<Byte> {
    if ss == [] then [] else Bytes(ss[..|ss| - 1]) + Strip(ss[|ss| - 1])
  }

  lemma LongestBounds(ss: seq<Shard>, i: nat)
    requires i < |ss|
    ensures |ss[i]| <= Longest(ss)
  {
    if i < |ss| - 1 {
      LongestBounds(ss[..|ss| - 1], i);
    }
  }

  lemma LongestAttained(ss: seq<Shard>) returns (i: nat)
    requires ss != []
    ensures i < |ss| && |ss[i]| == Longest(ss)
  {
    i := |ss| - 1;
    if |ss| > 1 && Longest(ss[..|ss| - 1]) > |ss[|ss| - 1]| {
      i := LongestAttained(ss[..|ss| - 1]);
    }
  }

  // The frame on the wire: the length in two bytes, the high one first, then the bytes.
  lemma FrameLayout(b: seq<Byte>)
    requires |b| < 65536
    ensures var s := Frame(b); |s| == 2 + |b| && 256 * s[0] as int + s[1] as int == |b| && s[2..] == b
  {
    hide BigEndian;
    HighByteFirst(|b| % 65536);
  }

  lemma HighByteFirst(n: U16)
    ensures |BigEndian(n)| == 2 && 256 * BigEndian(n)[0] as int + BigEndian(n)[1] as int == n
  {
  }

  // Padding adds zero bytes at the end, as many as are missing.
  lemma PadLayout(s: Shard, n: nat)
    ensures var p := Pad(s, n);
            && |p| == Max(|s|, n) && p[..|s|] == s
            && forall i :: |s| <= i < |p| ==> p[i] == 0
  {
  }

  // A zero-padded frame strips back to the bytes that were framed, except that a chunk too
  // long for its 16-bit length field comes back shorter.
  lemma StripFrame(b: seq<Byte>, n: nat)
    ensures Strip(Pad(Frame(b), n)) == b <==> |b| < 65536
  {
    var s := Pad(Frame(b), n);
    FrameHead(b);
    assert s[0] == Frame(b)[0] && s[1] == Frame(b)[1];
    if |b| < 65536 {
      assert s[2..2 + |b|] == b;
    } else {
      assert |Strip(s)| <= |b| % 65536 < |b|;
    }
  }

  lemma FrameHead(b: seq<Byte>)
    ensures |Frame(b)| == |b| + 2
    ensures FromBigEndian(Frame(b)[0], Frame(b)[1]) == |b| % 65536
    ensures Frame(b)[2..] == b
  {
    BigEndianRoundTrip(|b| % 65536);
    assert Frame(b)[0] == BigEndian(|b| % 65536)[0] && Frame(b)[1] == BigEndian(|b| % 65536)[1];
  }

  lemma BigEndianRoundTrip(n: U16)
    ensures FromBigEndian(BigEndian(n)[0], BigEndian(n)[1]) == n
  {
  }

  lemma FrameFramed(b: seq<Byte>)
    requires |b| < 65536
    ensures Framed(Frame(b)) && Strip(Frame(b)) == b && |Frame(b)| == |b| + 2
  {
    StripFrame(b, 0);
  }

  // Padding never changes what a framed shard delivers.
  lemma StripPadded(s: Shard, n: nat)
    requires Framed(s)
    ensures Strip(Pad(s, n)) == Strip(s) == s[2..]
  {
    assert Pad(s, n)[2..|s|] == s[2..];
  }

  lemma BytesAppend(ss: seq<Shard>, s: Shard)
    ensures Bytes(ss + [s]) == Bytes(ss) + Strip(s)
  {
    assert (ss + [s])[..|ss|] == ss;
  }

  lemma {:induction false} BytesConcat(ss: seq<Shard>, tt: seq<Shard>)
    ensures Bytes(ss + tt) == Bytes(ss) + Bytes(tt)
  {
    if tt == [] {
      assert ss + tt == ss;
    } else {
      var t, init := tt[|tt| - 1], tt[..|tt| - 1];
      assert ss + tt == (ss + init) + [t] && tt == init + [t];
      BytesConcat(ss, init);
      BytesAppend(ss + init, t);
      assert (Bytes(ss) + Bytes(init)) + Strip(t) == Bytes(ss) + (Bytes(init) + Strip(t));
    }
  }
}

// The contract of the erasure code behind fec/fec.go.  The Reed-Solomon library itself is not
// part of this model: a code is any pair of functions that keeps this contract, and module
// ReedSolomon shows that one exists.
module ErasureCode {
  import opened Basics
  import opened Shards

  // parity(k, j, data) is parity shard j of the k data shards.  It does not depend on how many
  // parity shards are made.  rebuild(k, m, shards) fills in the missing ones of k + m shards.
  datatype Code = Code(
    parity: (nat, nat, seq<Shard>) -> Shard,
    rebuild: (nat, nat, seq<Option<Shard>>) -> Option<seq<Shard>>)

  // The arguments reedsolomon.New takes.
  predicate Supported(k: int, m: int) {
    k > 0 && m >= 0 && k + m <= 256
  }

  ghost predicate Uniform(data: seq<Shard>, n: nat) {
    forall i :: 0 <= i < |data| ==> |data[i]| == n
  }

  function CodewordShard(code: Code, k: nat, data: seq<Shard>, i: nat): Shard
    requires k <= |data|
  {
    if i < k then data[i] else code.parity(k, i - k, data)
  }

  // The shards present are shards of the codeword of data.
  ghost predicate Agrees(code: Code, k: nat, data: seq<Shard>, shards: seq<Option<Shard>>)
    requires k <= |data|
  {
    forall i :: 0 <= i < |shards| && shards[i].Some? ==> shards[i].value == CodewordShard(code, k, data, i)
  }

  function Present<T>(shards: seq<Option<T>>): set<nat> {
    set i: nat | i < |shards| && shards[i].Some?
  }

  // Any k shards of a codeword determine all of its data; fewer are reported as too few.
  ghost predicate Recovers(code: Code, k: nat, m: nat, data: seq<Shard>, shards: seq<Option<Shard>>)
    requires k <= |data|
  {
    && (|Present(shards)| < k ==> code.rebuild(k, m, shards).None?)
    && (|Present(shards)| >= k && Agrees(code, k, data, shards) ==>
          && code.rebuild(k, m, shards).Some?
          && |code.rebuild(k, m, shards).value| == k + m
          && forall i :: 0 <= i < k + m ==>
               code.rebuild(k, m, shards).value[i] == CodewordShard(code, k, data, i))
  }

  ghost predicate Contract(code: Code) {
    && (forall k: nat, j: nat, n: nat, data: seq<Shard> ::
          Supported(k, j + 1) && |data| == k && Uniform(data, n) ==> |code.parity(k, j, data)| == n)
    && (forall k: nat, m: nat, n: nat, data: seq<Shard>, shards: seq<Option<Shard>> ::
          Supported(k, m) && m > 0 && |data| == k && n > 0 && Uniform(data, n) && |shards| == k + m
          ==> Recovers(code, k, m, data, shards))
  }

  lemma ParityLength(code: Code, k: nat, j: nat, n: nat, data: seq<Shard>)
    requires Contract(code) && Supported(k, j + 1) && |data| == k && Uniform(data, n)
    ensures |code.parity(k, j, data)| == n
  {
  }

  lemma Rebuild(code: Code, k: nat, m: nat, n: nat, data: seq<Shard>, shards: seq<Option<Shard>>)
    requires Contract(code) && Supported(k, m) && m > 0 && |data| == k && n > 0 && Uniform(data, n)
    requires |shards| == k + m && |Present(shards)| >= k && Agrees(code, k, data, shards)
    ensures code.rebuild(k, m, shards).Some? && |code.rebuild(k, m, shards).value| == k + m
    ensures forall i :: 0 <= i < k + m ==>
      code.rebuild(k, m, shards).value[i] == CodewordShard(code, k, data, i)
  {
    assert Recovers(code, k, m, data, shards);
  }
}
