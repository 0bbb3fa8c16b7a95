// proxy/client.go: stream-ID allocation.
module Client {
  import opened Basics

  const LAST_ID: int := 4095

  // The j-th identifier probed when the cursor stands at `start`.
  function Probe(start: nat, j: nat): nat
    requires j >= 1
  {
    (start + j - 1) % LAST_ID + 1
  }

  // Every identifier is in use.
  ghost predicate Exhausted(ids: set<U16>) {
    forall id: U16 :: 1 <= id <= LAST_ID ==> id in ids
  }

  lemma NotExhausted(ids: set<U16>, id: U16)
    requires 1 <= id <= LAST_ID && id !in ids
    ensures !Exhausted(ids)
  {
  }

  // The free identifier that comes next in numerical order after `last`, going on from 1 after 4095.
  ghost predicate FirstFree(ids: set<U16>, last: U16, id: U16) {
    && 1 <= id <= LAST_ID && id !in ids
    && forall other: U16 :: 1 <= other <= LAST_ID && other !in ids ==>
         if id > last then other <= last || other >= id else id <= other <= last
  }

  lemma NextFree(ids: set<U16>, last: U16, id: U16, probes: nat)
    requires last <= LAST_ID && 1 <= id <= LAST_ID && id !in ids && 1 <= probes <= LAST_ID
    requires id as int == Probe(last, probes) && forall j :: 1 <= j < probes ==> Probe(last, j) in ids
    ensures FirstFree(ids, last, id)
  {
    forall other: U16 | 1 <= other <= LAST_ID && other !in ids
      ensures if id > last then other <= last || other >= id else id <= other <= last
    {
      var j := ProbesTo(last, other);
      ProbeOrder(last, id, probes);
      ProbeOrder(last, other, j);
    }
  }

  // How many steps it is from `last` to an identifier.
  lemma ProbesTo(last: nat, id: nat) returns (j: nat)
    requires last <= LAST_ID && 1 <= id <= LAST_ID
    ensures 1 <= j <= LAST_ID && Probe(last, j) == id
  {
    if id > last {
      j := id - last;
    } else {
      j := id + LAST_ID - last;
      ModShift(1, id - 1);
    }
  }

  lemma ProbeOrder(last: nat, id: nat, j: nat)
    requires last <= LAST_ID && 1 <= id <= LAST_ID && 1 <= j <= LAST_ID && Probe(last, j) == id
    ensures j == if id > last then id - last else id + LAST_ID - last
  {
    if last + j - 1 >= LAST_ID {
      ModShift(1, last + j - 1 - LAST_ID);
    }
  }

  // One handed-out identifier and the number of probes made by then.
  datatype Issue = Issue(cursor: nat, id: nat)

  class ClientPEP<S> {
    var sessions: map<U16, S>
    var lastID: U16
    ghost var cursor: nat          // probes made so far
    ghost var issued: seq<Issue>   // identifiers handed out so far

    // The cursor is zero only before the first allocation, and then no session exists yet: sessions
    // are registered under identifiers that were handed out.
    ghost predicate Valid()
      reads this
    {
      && lastID as int == (if cursor == 0 then 0 else Probe(0, cursor))
      && (forall id :: id in sessions ==> 1 <= id <= LAST_ID)
      && (cursor == 0 ==> sessions == map[] && issued == [])
      && (forall i :: 0 <= i < |issued| ==>
            1 <= issued[i].cursor <= cursor && issued[i].id == Probe(0, issued[i].cursor))
      && (forall i, j :: 0 <= i < j < |issued| ==> issued[i].cursor < issued[j].cursor)
    }

    constructor ()
      ensures Valid() && sessions == map[] && lastID == 0 && issued == []
    {
      sessions, lastID, cursor, issued := map[], 0, 0, [];
    }

    // The first free identifier after the cursor, going round once; an error exactly when all 4095
    // are taken.
    method GetNextStreamID() returns (r: Result<U16>, ghost probes: nat)
      requires Valid()
      modifies this`lastID, this`cursor, this`issued
      ensures Valid()
      ensures 1 <= probes <= LAST_ID && cursor == old(cursor) + probes
      ensures r.Err? <==> Exhausted(sessions.Keys)
      ensures r.Err? ==> lastID == old(lastID) && probes == LAST_ID && issued == old(issued)
      ensures r.Ok? ==> 1 <= r.value <= LAST_ID && r.value !in sessions && lastID == r.value
      ensures r.Ok? ==> r.value as int == Probe(old(lastID), probes)
      ensures r.Ok? ==> FirstFree(sessions.Keys, old(lastID), r.value)
      ensures forall j :: 1 <= j < probes ==> Probe(old(lastID), j) in sessions
      ensures r.Ok? ==> issued == old(issued) + [Issue(cursor, r.value as nat)]
    {
      var start := lastID;
      probes := 0;
      while true
        invariant 0 <= probes < LAST_ID
        invariant probes > 0 ==> start != 0 && lastID as int == Probe(start, probes)
        invariant probes == 0 ==> lastID == start
        invariant cursor == old(cursor) + probes && issued == old(issued)
        invariant forall j :: 1 <= j <= probes ==> Probe(start, j) in sessions
        invariant lastID as int == (if cursor == 0 then 0 else Probe(0, cursor))
        decreases LAST_ID - probes
      {
        NextProbe(start, probes, lastID, cursor);
        lastID := lastID % LAST_ID + 1;
        probes, cursor := probes + 1, cursor + 1;
        if lastID !in sessions {
          NotExhausted(sessions.Keys, lastID);
          NextFree(sessions.Keys, start, lastID, probes);
          issued := issued + [Issue(cursor, lastID as nat)];
          return Ok(lastID), probes;
        }
        if lastID == start {
          FullCircle(start, probes);
          forall id: U16 | 1 <= id <= LAST_ID
            ensures id in sessions.Keys
          {
            var j := ProbesTo(start, id);
          }
          return Err, probes;
        }
        NotYetRound(start, probes);
      }
    }

    // A session is stored under an identifier that was handed out.
    method Register(id: U16, s: S)
      requires Valid() && exists i :: 0 <= i < |issued| && issued[i].id == id
      modifies this`sessions
      ensures Valid() && sessions == old(sessions)[id := s]
    {
      sessions := sessions[id := s];
    }

    method Remove(id: U16)
      requires Valid()
      modifies this`sessions
      ensures Valid() && sessions == old(sessions) - {id}
    {
      sessions := sessions - {id};
    }

    // An identifier comes back only after the cursor has gone round: two allocations give the same
    // one exactly when a positive multiple of 4095 probes lies between them.
    lemma ReusedAfterFullTurn(i: nat, j: nat)
      requires Valid() && i < j < |issued|
      ensures issued[j].cursor > issued[i].cursor
      ensures issued[i].id == issued[j].id <==> (issued[j].cursor - issued[i].cursor) % LAST_ID == 0
    {
      SameProbe(issued[i].cursor, issued[j].cursor);
    }
  }

  lemma NextProbe(start: nat, j: nat, last: nat, cursor: nat)
    requires last <= LAST_ID && last == (if cursor == 0 then 0 else Probe(0, cursor))
    requires if j == 0 then last == start else last == Probe(start, j)
    ensures last % LAST_ID + 1 == Probe(start, j + 1) == Probe(0, cursor + 1)
  {
    ProbeStep(start, j, last);
    ProbeStep(0, cursor, last);
  }

  lemma ProbeStep(start: nat, j: nat, last: nat)
    requires if j == 0 then last == start else last == Probe(start, j)
    ensures last % LAST_ID + 1 == Probe(start, j + 1)
  {
    if j > 0 {
      var q := (start + j - 1) / LAST_ID;
      assert start + j - 1 == LAST_ID * q + (last - 1);
      assert start + j == LAST_ID * q + last;
      ModShift(q, last);
    }
  }

  lemma ModShift(q: int, x: int)
    ensures (LAST_ID * q + x) % LAST_ID == x % LAST_ID
  {
  }

  // From an identifier that was handed out, the probing comes back to it after 4095 steps, not before.
  lemma FullCircle(start: nat, j: nat)
    requires 1 <= start <= LAST_ID && 1 <= j <= LAST_ID && Probe(start, j) == start
    ensures j == LAST_ID
  {
    if start + j - 1 >= LAST_ID {
      ModShift(1, start + j - 1 - LAST_ID);
    }
  }

  lemma NotYetRound(start: nat, j: nat)
    requires start == 0 || (1 <= start <= LAST_ID && 1 <= j <= LAST_ID && Probe(start, j) != start)
    ensures start != 0 ==> j < LAST_ID
  {
    if start != 0 && j == LAST_ID {
      ModShift(1, start - 1);
    }
  }

  lemma SameProbe(p: nat, q: nat)
    requires 1 <= p < q
    ensures Probe(0, p) == Probe(0, q) <==> (q - p) % LAST_ID == 0
  {
    var a, b, d := (p - 1) / LAST_ID, (q - 1) / LAST_ID, (q - p) / LAST_ID;
    assert p - 1 == LAST_ID * a + (p - 1) % LAST_ID && q - 1 == LAST_ID * b + (q - 1) % LAST_ID;
    assert q - p == LAST_ID * d + (q - p) % LAST_ID;
    assert q - p == LAST_ID * (b - a) + ((q - 1) % LAST_ID - (p - 1) % LAST_ID);
    if Probe(0, p) == Probe(0, q) {
      ModShift(b - a, 0);
    }
  }
}
