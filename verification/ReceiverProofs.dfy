// A receive block against the block that was sent.
module ReceiverProofs {
  import opened Basics
  import opened Shards
  import opened ErasureCode
  import opened Sender
  import opened SenderProofs
  import opened Receiver

  // What slot i of the block holds, given the slots the network filled.
  ghost function SlotValue(c: Config, grp: Group, decoded: bool, filled: set<nat>, i: nat): Option<Shard>
    requires |grp.shards| == c.k
  {
    if i in filled then Some(Payload(c, grp, i))
    else if decoded && i < c.k then Some(Pad(grp.shards[i], PadLength(grp.shards)))
    else None
  }

  ghost predicate SlotsOk(c: Config, grp: Group, b: RxBlock, filled: set<nat>)
    requires |grp.shards| == c.k
  {
    && (forall i :: i in filled ==> i < |b.packets| && i < c.k + grp.m)
    && (forall i :: 0 <= i < |b.packets| ==> b.packets[i] == SlotValue(c, grp, b.decoded, filled, i))
  }

  ghost predicate Sized(c: Config, b: RxBlock) {
    && b.k == c.k && b.m >= 0 && |b.packets| == c.k + b.m <= 256
    && b.seqNums == SeqNums(c.k, b.groupID)
  }

  // The block invariant: as many slots as K + M, as many counted as the network filled, and
  // decoded exactly when K of them are there.
  ghost predicate BlockOk(c: Config, grp: Group, b: RxBlock, filled: set<nat>)
    requires |grp.shards| == c.k
  {
    && Sized(c, b)
    && SlotsOk(c, grp, b, filled)
    && b.receivedCnt == |filled|
    && (b.decoded <==> b.receivedCnt >= c.k)
  }

  lemma NewBlockOk(c: Config, grp: Group, id: U16)
    requires ConfigOk(c) && GroupOk(c, grp)
    ensures BlockOk(c, grp, NewBlock(c, id), {})
  {
  }

  // The slots the network has filled after packet idx arrived.
  ghost function FilledAfter(c: Config, b: RxBlock, filled: set<nat>, idx: nat): set<nat> {
    if b.decoded && idx < c.k then filled else filled + {idx}
  }

  // ---- lengths

  lemma PayloadLength(c: Config, grp: Group, i: nat)
    requires ConfigOk(c) && GroupOk(c, grp) && i < c.k + grp.m
    ensures 2 <= |Payload(c, grp, i)| <= PadLength(grp.shards) <= MaxPayload(c) + 2
    ensures i >= c.k ==> |Payload(c, grp, i)| == PadLength(grp.shards)
  {
    LongestBounds(grp.shards, 0);
    var j := LongestAttained(grp.shards);
    assert ShardOk(c, grp.shards[0]) && ShardOk(c, grp.shards[j]);
    if i < c.k {
      LongestBounds(grp.shards, i);
      assert ShardOk(c, grp.shards[i]);
    } else {
      PadAllUniform(c.k, grp.shards);
      ParityLength(c.code, c.k, i - c.k, PadLength(grp.shards), PadAll(c.k, grp.shards));
    }
  }

  lemma {:induction false} LongestSlotIs(slots: seq<Option<Shard>>, n: nat, w: nat)
    requires w < |slots| && slots[w].Some? && |slots[w].value| == n
    requires forall i :: 0 <= i < |slots| && slots[i].Some? ==> |slots[i].value| <= n
    ensures LongestSlot(slots) == n
  {
    var init := slots[..|slots| - 1];
    if w < |slots| - 1 {
      LongestSlotIs(init, n, w);
    } else {
      LongestSlotBounded(init, n);
    }
  }

  lemma LongestSlotBounded(slots: seq<Option<Shard>>, n: nat)
    requires forall i :: 0 <= i < |slots| && slots[i].Some? ==> |slots[i].value| <= n
    ensures LongestSlot(slots) <= n
  {
    if slots != [] {
      LongestSlotBounded(slots[..|slots| - 1], n);
    }
  }

  // ---- arrival

  lemma GrowOk(c: Config, grp: Group, b: RxBlock, filled: set<nat>, idx: nat)
    requires GroupOk(c, grp) && Sized(c, b) && SlotsOk(c, grp, b, filled) && idx < 32
    ensures var g := Grow(b, idx);
            && Sized(c, g) && SlotsOk(c, grp, g, filled) && idx < |g.packets|
            && g == b.(packets := g.packets, m := g.m)
  {
  }

  lemma PlaceOk(c: Config, grp: Group, b: RxBlock, filled: set<nat>, idx: nat)
    requires ConfigOk(c) && GroupOk(c, grp) && BlockOk(c, grp, b, filled) && idx < c.k + grp.m
    ensures var b', filled' := Place(b, idx, Payload(c, grp, idx)), FilledAfter(c, b, filled, idx);
            && Sized(c, b') && SlotsOk(c, grp, b', filled') && b'.receivedCnt == |filled'|
            && b'.decoded == b.decoded && b'.groupID == b.groupID && b'.lqrReported == b.lqrReported
  {
    hide Contract;
    GrowOk(c, grp, b, filled, idx);
    var g, filled' := Grow(b, idx), FilledAfter(c, b, filled, idx);
    assert g.packets[idx] == SlotValue(c, grp, b.decoded, filled, idx);
    if g.packets[idx].Some? {
      assert filled' == filled;
    } else {
      var b' := Place(b, idx, Payload(c, grp, idx));
      assert idx !in filled;
      forall i | 0 <= i < |b'.packets|
        ensures b'.packets[i] == SlotValue(c, grp, b.decoded, filled', i)
      {
        assert g.packets[i] == SlotValue(c, grp, b.decoded, filled, i);
      }
    }
  }

  // Fewer than K data shards among K or more: at least one is parity.
  lemma SomeParity(k: nat, filled: set<nat>, hole: nat) returns (w: nat)
    requires |filled| >= k && hole < k && hole !in filled
    ensures w in filled && w >= k
  {
    if forall i :: i in filled ==> i < k {
      AtMost(k, filled + {hole});
      assert false;
    }
    w :| w in filled && w >= k;
  }

  // Padding agreement: whichever shards arrived, the receiver pads to the sender's length.
  lemma PaddingAgreement(c: Config, grp: Group, b: RxBlock, filled: set<nat>)
    requires ConfigOk(c) && GroupOk(c, grp) && Sized(c, b) && SlotsOk(c, grp, b, filled) && !b.decoded
    requires |filled| >= c.k && !DataComplete(b)
    ensures exists w :: w in filled && w >= c.k
    ensures LongestSlot(b.packets) == PadLength(grp.shards) > 0
    ensures |b.packets| > c.k
  {
    var hole: nat :| hole < c.k && b.packets[hole].None?;
    var w := SomeParity(c.k, filled, hole);
    PayloadLength(c, grp, w);
    forall i | 0 <= i < |b.packets| && b.packets[i].Some?
      ensures |b.packets[i].value| <= PadLength(grp.shards)
    {
      PayloadLength(c, grp, i);
    }
    LongestSlotIs(b.packets, PadLength(grp.shards), w);
  }

  lemma PaddedSlots(c: Config, grp: Group, b: RxBlock, filled: set<nat>)
    requires ConfigOk(c) && GroupOk(c, grp) && Sized(c, b) && SlotsOk(c, grp, b, filled) && !b.decoded
    ensures Agrees(c.code, c.k, PadAll(c.k, grp.shards), PadSlots(b.packets, PadLength(grp.shards)))
    ensures Present(PadSlots(b.packets, PadLength(grp.shards))) == filled
  {
    var n, slots := PadLength(grp.shards), PadSlots(b.packets, PadLength(grp.shards));
    forall i | 0 <= i < |slots| && slots[i].Some?
      ensures slots[i].value == CodewordShard(c.code, c.k, PadAll(c.k, grp.shards), i)
    {
      PayloadLength(c, grp, i);
    }
  }

  // Reconstruction with the receiver's own parity count gives back every missing data shard,
  // padded as the sender padded it.
  lemma Reconstructs(c: Config, grp: Group, b: RxBlock, filled: set<nat>)
    requires ConfigOk(c) && GroupOk(c, grp) && Sized(c, b) && SlotsOk(c, grp, b, filled) && !b.decoded
    requires |filled| >= c.k && !DataComplete(b)
    ensures var r := Reconstruct(c.code, b.k, |b.packets| - b.k, PadSlots(b.packets, LongestSlot(b.packets)));
            && r.Some?
            && forall i :: 0 <= i < c.k ==> r.value[i] == Pad(grp.shards[i], PadLength(grp.shards))
  {
    PaddingAgreement(c, grp, b, filled);
    PaddedSlots(c, grp, b, filled);
    PadAllUniform(c.k, grp.shards);
    Rebuild(c.code, c.k, |b.packets| - c.k, PadLength(grp.shards), PadAll(c.k, grp.shards),
            PadSlots(b.packets, PadLength(grp.shards)));
  }

  lemma TryDecodeOk(c: Config, grp: Group, b: RxBlock, filled: set<nat>)
    requires ConfigOk(c) && GroupOk(c, grp) && Sized(c, b) && SlotsOk(c, grp, b, filled) && !b.decoded
    requires b.receivedCnt == |filled| >= c.k
    ensures BlockOk(c, grp, TryDecode(c, b), filled) && TryDecode(c, b).decoded
    ensures TryDecode(c, b).groupID == b.groupID && TryDecode(c, b).lqrReported == b.lqrReported
  {
    if !DataComplete(b) {
      PaddingAgreement(c, grp, b, filled);
      Reconstructs(c, grp, b, filled);
    }
  }

  // The arrival of any packet of the block keeps the block invariant.
  lemma ReceiveOk(c: Config, grp: Group, b: RxBlock, filled: set<nat>, idx: nat)
    requires ConfigOk(c) && GroupOk(c, grp) && BlockOk(c, grp, b, filled) && idx < c.k + grp.m
    ensures var b' := Receive(c, b, idx, Payload(c, grp, idx));
            && BlockOk(c, grp, b', FilledAfter(c, b, filled, idx))
            && b'.groupID == b.groupID && b'.lqrReported == b.lqrReported
            && (b.decoded ==> b'.decoded)
  {
    PlaceOk(c, grp, b, filled, idx);
    var b1 := Place(b, idx, Payload(c, grp, idx));
    if b1.receivedCnt >= b1.k && !b1.decoded {
      TryDecodeOk(c, grp, b1, FilledAfter(c, b, filled, idx));
    }
  }

  // Once decoded, the K data payloads never change: the writer may read them without the lock.
  lemma DecodedStable(c: Config, b: RxBlock, idx: nat, payload: Shard)
    requires b.decoded && b.k <= |b.packets| && DataComplete(b)
    ensures var b' := Receive(c, b, idx, payload);
            b'.decoded && b'.k == b.k && |b'.packets| >= |b.packets| && b'.packets[..b.k] == b.packets[..b.k]
  {
  }

  // What the writer takes from slot i of a decoded block is what the sender framed there.
  lemma SlotDelivers(c: Config, grp: Group, b: RxBlock, filled: set<nat>, i: nat)
    requires ConfigOk(c) && GroupOk(c, grp) && BlockOk(c, grp, b, filled) && b.decoded && i < c.k
    ensures i < |b.packets| && b.packets[i].Some? && Strip(b.packets[i].value) == Strip(grp.shards[i])
  {
    assert ShardOk(c, grp.shards[i]);
    StripPadded(grp.shards[i], PadLength(grp.shards));
  }

  // ---- loss reports

  lemma Expected(c: Config, grp: Group, b: RxBlock, filled: set<nat>)
    requires ConfigOk(c) && GroupOk(c, grp) && BlockOk(c, grp, b, filled)
    ensures c.k <= ExpectedTotal(b) <= 32
    ensures forall i :: i in filled ==> i < ExpectedTotal(b)
    ensures ExpectedTotal(b) > c.k ==> ExpectedTotal(b) - 1 in filled
  {
    LastFilledIs(b.packets);
    forall i | i in filled
      ensures i < ExpectedTotal(b)
    {
      assert b.packets[i] == SlotValue(c, grp, b.decoded, filled, i);
    }
    var last := LastFilled(b.packets);
    if last >= c.k {
      assert b.packets[last] == SlotValue(c, grp, b.decoded, filled, last);
    }
  }

  // The report counts exactly the expected packets that the network has not put in a slot,
  // and neither clamp of the count ever applies.
  lemma LossesCount(c: Config, grp: Group, b: RxBlock, filled: set<nat>)
    requires ConfigOk(c) && GroupOk(c, grp) && BlockOk(c, grp, b, filled)
    ensures Losses(b) == ExpectedTotal(b) - |filled| == |Upto(ExpectedTotal(b)) - filled|
    ensures Losses(b) == 0 ==> forall i: nat :: i < c.k ==> i in filled
  {
    Expected(c, grp, b, filled);
    var e := ExpectedTotal(b);
    AtMost(e, filled);
    if Losses(b) == 0 {
      assert Upto(e) - filled == {};
      forall i: nat | i < c.k
        ensures i in filled
      {
        assert i in Upto(e) && i !in Upto(e) - filled;
      }
    }
  }

  lemma LastFilledIs(slots: seq<Option<Shard>>)
    ensures -1 <= LastFilled(slots) < |slots|
    ensures LastFilled(slots) >= 0 ==> slots[LastFilled(slots)].Some?
    ensures forall i :: LastFilled(slots) < i < |slots| ==> slots[i].None?
  {
  }
}
