// fec/fec.go: padding, encoding and reconstruction over cached encoders.
module Fec {
  import opened Basics
  import opened Shards
  import opened ErasureCode
  import opened Sender
  import opened Receiver

  // An encoder instance of the library: reedsolomon.New(k, m).
  datatype Encoder = Encoder(k: nat, m: nat)

  class FEC {
    const code: Code
    var encoders: map<(int, int), Encoder>

    // A cached encoder is the one its key names.
    ghost predicate Valid()
      reads this
    {
      forall key :: key in encoders ==> Supported(key.0, key.1) && encoders[key] == Encoder(key.0, key.1)
    }

    constructor (code: Code)
      ensures Valid() && this.code == code && encoders == map[]
    {
      this.code := code;
      encoders := map[];
    }

    // The encoder for k data and m parity shards, made on first use and kept.
    method GetEncoder(k: int, m: int) returns (r: Result<Encoder>)
      requires Valid()
      modifies this
      ensures Valid()
      ensures r.Ok? <==> Supported(k, m)
      ensures r.Ok? ==> r.value == Encoder(k, m)
      ensures encoders == if r.Ok? then old(encoders)[(k, m) := Encoder(k, m)] else old(encoders)
    {
      if (k, m) in encoders {
        return Ok(encoders[(k, m)]);
      }
      if !Supported(k, m) {
        return Err;
      }
      var enc := Encoder(k, m);
      encoders := encoders[(k, m) := enc];
      return Ok(enc);
    }

    // The library's in-place encoding: the first k shards are data, the rest becomes parity.
    method FillParity(enc: Encoder, shards: array<Shard>)
      requires shards.Length == enc.k + enc.m
      modifies shards
      ensures shards[..enc.k] == old(shards[..enc.k])
      ensures forall j :: 0 <= j < enc.m ==> shards[enc.k + j] == code.parity(enc.k, j, old(shards[..enc.k]))
    {
      var data := shards[..enc.k];
      for j := 0 to enc.m
        invariant shards[..enc.k] == data
        invariant forall i :: 0 <= i < j ==> shards[enc.k + i] == code.parity(enc.k, i, data)
      {
        shards[enc.k + j] := code.parity(enc.k, j, data);
        assert shards[..enc.k] == data;
      }
    }

    method Encode(k: int, m: int, data: seq<Shard>) returns (r: Result<seq<Shard>>)
      requires Valid()
      modifies this
      ensures Valid()
      ensures r == Sender.Encode(code, k, m, data)
    {
      if m <= 0 {
        return Ok([]);
      }
      var enc := GetEncoder(k, m);
      if enc.Err? {
        return Err;
      }
      var maxLen := 0;
      for i := 0 to |data|
        invariant maxLen == Longest(data[..i])
      {
        assert data[..i + 1][..i] == data[..i];
        if |data[i]| > maxLen {
          maxLen := |data[i]|;
        }
      }
      assert data[..|data|] == data;
      if maxLen == 0 {
        maxLen := 1;
      }
      var shards: array<Shard> := new Shard[k + m](_ => []);
      for i := 0 to k
        modifies shards
        invariant forall j :: 0 <= j < i ==> shards[j] == PadAll(k, data)[j]
      {
        shards[i] := if i < |data| then Pad(data[i], maxLen) else Zeros(maxLen);
        assert i < |data| ==> |data[i]| <= maxLen by { if i < |data| { LongestBounds(data, i); } }
      }
      for i := 0 to m
        modifies shards
        invariant forall j :: 0 <= j < k ==> shards[j] == PadAll(k, data)[j]
      {
        shards[k + i] := Zeros(maxLen);
      }
      assert shards[..k] == PadAll(k, data);
      FillParity(enc.value, shards);
      var parity := shards[k..];
      assert parity == Sender.Encode(code, k, m, data).value;
      return Ok(parity);
    }

    // Missing shards are None; on success every one of them is filled in, in place.
    method Reconstruct(k: int, m: int, shards: array<Option<Shard>>) returns (ok: bool)
      requires Valid()
      modifies this, shards
      ensures Valid()
      ensures var full := Receiver.Reconstruct(code, k, m, old(shards[..]));
              && ok == full.Some?
              && (ok ==> forall i :: 0 <= i < shards.Length ==> shards[i] == Some(full.value[i]))
              && (!ok ==> shards[..] == old(shards[..]))
    {
      if m <= 0 {
        return false;
      }
      var enc := GetEncoder(k, m);
      if enc.Err? || shards.Length != k + m {
        return false;
      }
      var full := Receiver.Reconstruct(code, k, m, shards[..]);
      if full.None? {
        return false;
      }
      for i := 0 to shards.Length
        modifies shards
        invariant forall j :: 0 <= j < i ==> shards[j] == Some(full.value[j])
      {
        shards[i] := Some(full.value[i]);
      }
      return true;
    }
  }

  // ---- what Encode and Reconstruct come to

  // Every data shard is padded with zeros to the longest one, at least to one byte; shards that are not
  // there are zeros.
  lemma PadAllLayout(k: nat, data: seq<Shard>, i: nat)
    requires i < k
    ensures var n := PadLength(data);
            && n >= 1 && (forall j :: 0 <= j < |data| ==> |data[j]| <= n)
            && (n > 1 ==> exists j :: 0 <= j < |data| && |data[j]| == n)
            && |PadAll(k, data)[i]| == n
            && (i < |data| ==> PadAll(k, data)[i][..|data[i]|] == data[i])
            && (forall j :: (if i < |data| then |data[i]| else 0) <= j < n ==> PadAll(k, data)[i][j] == 0)
  {
    hide Longest;
    forall j | 0 <= j < |data|
      ensures |data[j]| <= PadLength(data)
    {
      LongestBounds(data, j);
    }
    if i < |data| {
      LongestBounds(data, i);
      PadLayout(data[i], PadLength(data));
    }
    if data != [] {
      var j := LongestAttained(data);
      assert PadLength(data) > 1 ==> |data[j]| == PadLength(data);
    } else {
      NoneLongest();
    }
  }

  lemma NoneLongest()
    ensures Longest([]) == 0
  {
  }

  // No parity asked for, none made; an error exactly for counts the library refuses; else m parity shards
  // of the padded data.
  lemma EncodeIs(code: Code, k: int, m: int, data: seq<Shard>)
    ensures var r := Sender.Encode(code, k, m, data);
            && (m <= 0 ==> r == Ok([]))
            && (r.Err? <==> m > 0 && (k <= 0 || k + m > 256))
            && (r.Ok? && m > 0 ==>
                  |r.value| == m && forall j :: 0 <= j < m ==> r.value[j] == code.parity(k, j, PadAll(k, data)))
  {
  }

  // Success exactly if parity exists, the library takes the counts, the slice has k + m entries and the
  // library can rebuild them.
  lemma ReconstructIs(code: Code, k: int, m: int, shards: seq<Option<Shard>>)
    ensures var r := Receiver.Reconstruct(code, k, m, shards);
            && (r.Some? <==>
                  && m > 0 && k > 0 && k + m <= 256 && |shards| == k + m
                  && code.rebuild(k, m, shards).Some? && |code.rebuild(k, m, shards).value| == k + m)
            && (r.Some? ==> r == code.rebuild(k, m, shards))
  {
  }
}
