// Machine integers, optional values and error results shared by every module.
module Basics {
  type Byte = x: int | 0 <= x < 256
  type U16 = x: int | 0 <= x < 65536

  datatype Option<+T> = None | Some(value: T)

  datatype Result<+T> = Ok(value: T) | Err

  function Max(a: int, b: int): int {
    if a < b then b else a
  }

  function Min(a: int, b: int): int {
    if a < b then a else b
  }

  // The numbers below n.
  function Upto(n: nat): (s: set<nat>)
    ensures forall i: nat :: i in s <==> i < n
    ensures |s| == n
  {
    if n == 0 then {} else Upto(n - 1) + {n - 1}
  }

  // At most n different numbers below n.
  lemma AtMost(n: nat, s: set<nat>)
    requires forall i :: i in s ==> i < n
    ensures |s| <= n
    ensures |Upto(n) - s| == n - |s|
  {
    assert Upto(n) * s == s;
    assert |Upto(n) - s| == n - |s|;
  }

  lemma MulStep(n: nat, k: nat)
    ensures (n + 1) * k == n * k + k
  {
  }

  lemma MulMono(a: nat, b: nat, k: nat)
    requires a <= b
    ensures a * k <= b * k
  {
  }
}

// 16-bit wrapping counters.  Group numbers travel as U16; the proofs follow the
// unbounded number behind each of them.
module Serial {
  import opened Basics

  // Conversion of an unbounded counter to uint16: whole turns of the counter are taken off.
  function Wrap(n: int): U16
    decreases if n < 0 then 65536 - n else n
  {
    if n < 0 then Wrap(n + 65536) else if n < 65536 then n else Wrap(n - 65536)
  }

  lemma {:induction false} WrapIs(n: int)
    ensures Wrap(n) == n % 65536
    decreases if n < 0 then 65536 - n else n
  {
    if n < 0 {
      WrapIs(n + 65536);
    } else if n >= 65536 {
      WrapIs(n - 65536);
    }
  }

  // uint16 subtraction.
  function Sub(a: U16, b: U16): U16 {
    Wrap(a - b)
  }

  // The test `diff := a - b; diff > 0 && diff < 32768` used for every ordering decision.
  predicate Later(a: U16, b: U16) {
    0 < Sub(a, b) < 32768
  }

  // The group that a 16-bit number names, read from a base: the first one at or after w.
  function Forward(w: nat, id: U16): nat {
    w + Wrap(id - w)
  }

  // The group that a 16-bit number names, read backwards: the last one before s.
  function Backward(s: nat, id: U16): int {
    s - 1 - Wrap(s - 1 - id)
  }

  // Within one turn of the counter the wrapped test answers the unbounded question exactly
  // when the two numbers are at most half a turn apart.
  lemma LaterExact(p: int, q: int)
    requires -65536 < p - q < 65536
    ensures (Later(Wrap(p), Wrap(q)) <==> p > q) <==> -32768 <= p - q <= 32767
  {
    WrapDifference(p, q);
    if p < q {
      assert Sub(Wrap(p), Wrap(q)) == p - q + 65536;
    }
  }

  lemma WrapDifference(p: int, q: int)
    ensures Sub(Wrap(p), Wrap(q)) == Wrap(p - q)
  {
    hide Wrap;
    WrapTurns(p);
    WrapTurns(q);
    WrapSame(Wrap(p) - Wrap(q), p - q, q / 65536 - p / 65536);
  }

  // A number is its wrapped value and whole turns.
  lemma WrapTurns(n: int)
    ensures n == Wrap(n) + 65536 * (n / 65536)
  {
    hide Wrap;
    WrapIs(n);
  }

  lemma WrapSame(a: int, b: int, turns: int)
    requires a == b + 65536 * turns
    ensures Wrap(a) == Wrap(b)
  {
    hide Wrap;
    WrapIs(a);
    WrapIs(b);
  }

  lemma WrapSmall(n: int)
    requires 0 <= n < 65536
    ensures Wrap(n) == n
  {
  }

  lemma ForwardExact(w: nat, g: nat)
    requires w <= g < w + 65536
    ensures Forward(w, Wrap(g)) == g
  {
    hide Wrap;
    WrapShift(g, w);
    WrapSmall(g - w);
  }

  lemma WrapShift(g: int, w: int)
    ensures Wrap(Wrap(g) - w) == Wrap(g - w)
  {
    hide Wrap;
    WrapTurns(g);
    WrapSame(Wrap(g) - w, g - w, -(g / 65536));
  }

  lemma ForwardWraps(w: nat, id: U16)
    ensures Wrap(Forward(w, id)) == id
    ensures Forward(w, id) == w <==> id == Wrap(w)
  {
    hide Wrap;
    WrapTurns(id - w);
    WrapSame(Forward(w, id), id, -((id - w) / 65536));
    WrapSmall(id);
    if id == Wrap(w) {
      WrapShift(w, w);
      WrapSmall(0);
    }
  }

  lemma ForwardAtLeast(w: nat, id: U16)
    ensures Forward(w, id) >= w
  {
  }

  lemma DifferentNear(w: nat, g: nat)
    requires w < g <= w + 32767
    ensures Wrap(g) != Wrap(w)
  {
    ForwardExact(w, g);
    ForwardExact(w, w);
  }

  // Moving the base past a group changes no other group's reading.
  lemma ForwardAdvance(w: nat, id: U16)
    requires id != Wrap(w)
    ensures Forward(w + 1, id) == Forward(w, id)
  {
    hide Wrap;
    ForwardWraps(w, id);
    ForwardExact(w + 1, Forward(w, id));
  }

  lemma BackwardExact(s: nat, g: nat)
    requires g < s <= g + 65536
    ensures Backward(s, Wrap(g)) == g
  {
    hide Wrap;
    WrapTurns(g);
    WrapSame(s - 1 - Wrap(g), s - 1 - g, g / 65536);
    WrapSmall(s - 1 - g);
  }

  lemma BackwardWraps(s: nat, id: U16)
    ensures Backward(s, id) < s <= Backward(s, id) + 65536
    ensures Wrap(Backward(s, id)) == id
  {
    hide Wrap;
    WrapTurns(s - 1 - id);
    WrapSame(Backward(s, id), id, (s - 1 - id) / 65536);
    WrapSmall(id);
  }

  // The next number, as uint16 increments it.
  lemma WrapNext(n: int)
    ensures (Wrap(n) + 1) % 65536 == Wrap(n + 1)
  {
    hide Wrap;
    WrapTurns(n);
    WrapIs(Wrap(n) + 1);
    WrapSame(Wrap(n) + 1, n + 1, -(n / 65536));
  }
}
