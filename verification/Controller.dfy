// The adaptive parity controller over sequences of loss reports.
module Controller {
  import opened Basics
  import opened Sender

  // A sequence of reports, each a block number and a loss count.
  function HandleAll(c: Config, t: Tx, reports: seq<(U16, Byte)>): Tx {
    if reports == [] then t
    else
      var last := reports[|reports| - 1];
      HandleLQR(c, HandleAll(c, t, reports[..|reports| - 1]), last.0, last.1)
  }

  ghost predicate Fresh(t: Tx, reports: seq<(U16, Byte)>) {
    && (forall i :: 0 <= i < |reports| ==> Accepts(t, reports[i].0))
    && (forall i, j :: 0 <= i < j < |reports| ==> reports[i].0 != reports[j].0)
  }

  lemma {:induction false} BlocksLeft(c: Config, t: Tx, reports: seq<(U16, Byte)>)
    ensures var after := HandleAll(c, t, reports).txBlocks;
            forall id :: id in t.txBlocks && (forall i :: 0 <= i < |reports| ==> reports[i].0 != id)
                         ==> id in after && after[id] == t.txBlocks[id]
  {
    hide Adapt;
    if reports != [] {
      var init := reports[..|reports| - 1];
      BlocksLeft(c, t, init);
      var last, t1 := reports[|reports| - 1], HandleAll(c, t, init);
      AdaptKeepsBlocks(c, t1, last.1);
    }
  }

  lemma AdaptKeepsBlocks(c: Config, t: Tx, losses: Byte)
    ensures Adapt(c, t, losses).txBlocks == t.txBlocks && Adapt(c, t, losses).pending == t.pending
  {
  }

  // From curM = m after a run of c clean reports, n more accepted clean reports take the parity
  // count down by one for every five of them, and never below zero.
  lemma {:induction false} CleanReports(c: Config, t: Tx, reports: seq<(U16, Byte)>)
    requires t.consecutiveOk < 5 && Fresh(t, reports) && forall i :: 0 <= i < |reports| ==> reports[i].1 == 0
    ensures HandleAll(c, t, reports).curM == Max(0, t.curM - (t.consecutiveOk + |reports|) / 5)
    ensures HandleAll(c, t, reports).consecutiveOk == (t.consecutiveOk + |reports|) % 5
  {
    if reports != [] {
      var init, last := reports[..|reports| - 1], reports[|reports| - 1];
      CleanReports(c, t, init);
      BlocksLeft(c, t, init);
      assert Accepts(HandleAll(c, t, init), last.0);
      FifthReport(t.consecutiveOk + |init|);
    }
  }

  lemma FifthReport(n: nat)
    ensures (n + 1) / 5 == (if n % 5 == 4 then n / 5 + 1 else n / 5)
    ensures (n + 1) % 5 == (if n % 5 == 4 then 0 else n % 5 + 1)
  {
  }

  // The highest loss count among the reports.
  function Worst(reports: seq<(U16, Byte)>): nat {
    if reports == [] then 0 else Max(Worst(reports[..|reports| - 1]), reports[|reports| - 1].1)
  }

  // Whatever the reports, the parity count stays between zero and its maximum, and never rises
  // above what it was or what the worst report asks for.
  lemma {:induction false} ParityRange(c: Config, t: Tx, reports: seq<(U16, Byte)>)
    requires t.curM <= c.m && t.consecutiveOk < 5
    ensures var t' := HandleAll(c, t, reports);
            && t'.curM <= c.m && t'.consecutiveOk < 5
            && t'.curM <= Max(t.curM, Worst(reports) + 1)
  {
    if reports != [] {
      ParityRange(c, t, reports[..|reports| - 1]);
    }
  }

  // One sequence of reports after another.
  lemma {:induction false} HandleBoth(c: Config, t: Tx, xs: seq<(U16, Byte)>, ys: seq<(U16, Byte)>)
    ensures HandleAll(c, HandleAll(c, t, xs), ys) == HandleAll(c, t, xs + ys)
  {
    hide HandleLQR;
    if ys == [] {
      assert xs + ys == xs;
    } else {
      HandleBoth(c, t, xs, ys[..|ys| - 1]);
      assert (xs + ys)[..|xs + ys| - 1] == xs + ys[..|ys| - 1];
    }
  }

  // The controller in closed form: after any history, a report with losses raises the parity count to the
  // losses and one more, within the maximum, and the clean reports after it take it down by one for every
  // five, counted afresh from that report.
  lemma LossThenClean(c: Config, t: Tx, before: seq<(U16, Byte)>, lossy: (U16, Byte), clean: seq<(U16, Byte)>)
    requires lossy.1 > 0 && forall i :: 0 <= i < |clean| ==> clean[i].1 == 0
    requires Fresh(HandleAll(c, t, before), [lossy] + clean)
    ensures var t' := HandleAll(c, t, before + [lossy] + clean);
            && t'.curM == Max(0, Max(HandleAll(c, t, before).curM, Min(lossy.1 as int + 1, c.m)) - |clean| / 5)
            && t'.consecutiveOk == |clean| % 5
  {
    var t0 := HandleAll(c, t, before);
    var all := [lossy] + clean;
    assert all[0] == lossy && Accepts(t0, lossy.0);
    assert (before + [lossy])[..|before|] == before;
    var t1 := HandleAll(c, t, before + [lossy]);
    assert t1 == HandleLQR(c, t0, lossy.0, lossy.1);
    HandleBoth(c, t, before + [lossy], clean);
    StillFresh(c, t0, lossy, clean);
    CleanReports(c, t1, clean);
  }

  lemma StillFresh(c: Config, t: Tx, first: (U16, Byte), rest: seq<(U16, Byte)>)
    requires Fresh(t, [first] + rest)
    ensures Fresh(HandleLQR(c, t, first.0, first.1), rest)
  {
    hide Adapt;
    AdaptKeepsBlocks(c, t, first.1);
    var all := [first] + rest;
    forall i | 0 <= i < |rest|
      ensures Accepts(HandleLQR(c, t, first.0, first.1), rest[i].0)
    {
      assert all[i + 1] == rest[i] && all[0] == first;
    }
    forall i, j | 0 <= i < j < |rest|
      ensures rest[i].0 != rest[j].0
    {
      assert all[i + 1] == rest[i] && all[j + 1] == rest[j];
    }
  }

  // A report is taken exactly if its block is tracked and not yet reported on; then that block, and no
  // other, is no longer tracked, and nothing else of the sender changes but the two counters.
  lemma ReportEffect(c: Config, t: Tx, group: U16, losses: Byte)
    ensures var t' := HandleLQR(c, t, group, losses);
            && (group in t.txBlocks && !t.txBlocks[group].lqrRecved ==> t'.txBlocks == t.txBlocks - {group})
            && (group !in t.txBlocks || t.txBlocks[group].lqrRecved ==> t' == t)
            && t'.pending == t.pending && t'.harqCache == t.harqCache
            && t'.nextGroupID == t.nextGroupID && t'.nextSeqNum == t.nextSeqNum
  {
  }

  // A report repeated by the network has no effect.
  lemma DuplicateReport(c: Config, t: Tx, group: U16, losses: Byte, again: Byte)
    ensures HandleLQR(c, HandleLQR(c, t, group, losses), group, again) == HandleLQR(c, t, group, losses)
  {
  }
}
