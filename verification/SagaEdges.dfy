/** Exactly when a run, with any overlap of requests, keeps to the designed status transitions. */
module SagaEdges {
  import opened Ids
  import opened OrderTable
  import opened Saga
  import opened SagaSafety
  import opened SagaResults
  import opened SagaSerial

  /** Every write of `Pay` and `Cancel` met a pending order. */
  predicate MetPending(landed: seq<Landing>) {
    forall k :: 0 <= k < |landed| && (landed[k].after.status == Paid || landed[k].after.status == Cancelled)
      ==> landed[k].before.status == PendingPayment
  }

  /** All writes so far followed the design, and no cancelled order carries a payment. */
  ghost predicate Designed(t: Table) {
    && EdgesOnly(t.landed)
    && forall id :: id in t.rows && t.rows[id].status == Cancelled ==> t.rows[id].tx.None?
  }

  /** The write of `Pay` or `Cancel` lands. */
  predicate LandsRequest(step: Step) {
    (step.PayRecord? || step.CancelRecord?) && step.fault != FailsBefore
  }

  predicate OrderIsPending(s: State, step: Step)
    requires Enabled(s, step) && (step.PayRecord? || step.CancelRecord?)
  {
    var id := s.requests[step.r].ord.id;
    id in s.table.rows && s.table.rows[id].status == PendingPayment
  }

  // ----- What each kind of step lands -----

  lemma RequestLands(s: State, step: Step)
    requires RowsOk(s.ledger, s.table.rows) && RequestsOk(s) && Enabled(s, step) && LandsRequest(step)
    ensures var upd, t := s.requests[step.r].ord, Apply(s, step).table;
            && Lands(s.table, t, upd.id)
            && t.rows[upd.id] == Patch(s.table.rows[upd.id], upd)
            && upd.status == (if step.PayRecord? then Paid else Cancelled)
            && (step.CancelRecord? ==> upd.tx.None?)
  {
    var q := s.requests[step.r];
    assert RequestOk(s.table, s.ledger, q);
    if step.PayRecord? {
      PaymentIsSafe(s, q);
    } else {
      CancellationIsSafe(s, q);
    }
    SafeWriteLands(s.ledger, s.table, q.ord, step.fault);
  }

  lemma CompletionLands(s: State, how: Handling)
    requires RowsOk(s.ledger, s.table.rows) && MessagesOk(s) && ShipsOk(s) && s.completion.next < |s.assembled|
    ensures var id, t := s.assembled[s.completion.next].order, CompleteNext(s, how).table;
            && id in s.table.rows && s.table.rows[id].tx.Some? && RowOk(s.ledger, id, s.table.rows[id])
            && (t == s.table || (Lands(s.table, t, id) && t.rows[id] == s.table.rows[id].(status := Completed)))
  {
    var id := s.assembled[s.completion.next].order;
    ShipNamesPaidOrder(s, s.completion.next);
    CompletionIsSafe(s, id);
    SafeWriteLands(s.ledger, s.table, Completion(id), FaultOf(how));
  }

  /** Only the writes of the three operations add to the history, and only a creation adds a row. */
  lemma OthersLandNothing(s: State, step: Step)
    requires RowsOk(s.ledger, s.table.rows) && RequestsOk(s)
    requires Enabled(s, step) && !LandsRequest(step) && !step.Complete?
    ensures Apply(s, step).table.landed == s.table.landed
    ensures forall id :: id in Apply(s, step).table.rows ==>
              var row := Apply(s, step).table.rows[id];
              row.status == PendingPayment || (id in s.table.rows && row == s.table.rows[id])
  {
    if step.PayRecord? || step.CancelRecord? {
      FailedRequestLandsNothing(s, step);
    }
  }

  lemma FailedRequestLandsNothing(s: State, step: Step)
    requires RowsOk(s.ledger, s.table.rows) && RequestsOk(s) && Enabled(s, step)
    requires (step.PayRecord? || step.CancelRecord?) && step.fault == FailsBefore
    ensures Apply(s, step).table == s.table
  {
    var q := s.requests[step.r];
    assert RequestOk(s.table, s.ledger, q);
    if step.PayRecord? {
      PaymentIsSafe(s, q);
    } else {
      CancellationIsSafe(s, q);
    }
    SafeWriteLands(s.ledger, s.table, q.ord, step.fault);
  }

  // ----- The history and the pending orders -----

  lemma MetPendingOneMore(landed: seq<Landing>, w: Landing)
    ensures MetPending(landed + [w]) <==>
              MetPending(landed)
              && (w.after.status == Paid || w.after.status == Cancelled ==> w.before.status == PendingPayment)
  {
    var all := landed + [w];
    assert all[|landed|] == w;
    if MetPending(all) {
      assert forall k :: 0 <= k < |landed| ==> landed[k] == all[k];
    }
  }

  lemma EdgesOneMore(landed: seq<Landing>, w: Landing)
    requires EdgesOnly(landed) && Edge(w.before.status, w.after.status)
    ensures EdgesOnly(landed + [w])
  {
    assert forall k :: 0 <= k < |landed| ==> (landed + [w])[k] == landed[k];
  }

  lemma StepMetPending(s: State, step: Step)
    requires Inv(s) && Enabled(s, step)
    ensures MetPending(Apply(s, step).table.landed) <==>
              MetPending(s.table.landed) && (LandsRequest(step) ==> OrderIsPending(s, step))
  {
    if LandsRequest(step) {
      RequestLands(s, step);
      var id := s.requests[step.r].ord.id;
      MetPendingOneMore(s.table.landed, Landing(id, s.table.rows[id], Apply(s, step).table.rows[id]));
    } else if step.Complete? {
      CompletionLands(s, step.how);
      var id := s.assembled[s.completion.next].order;
      if Apply(s, step).table != s.table {
        MetPendingOneMore(s.table.landed, Landing(id, s.table.rows[id], Apply(s, step).table.rows[id]));
      }
    } else {
      OthersLandNothing(s, step);
    }
  }

  lemma LandingKeepsDesign(t: Table, t': Table, id: Uuid)
    requires Designed(t) && Lands(t, t', id) && Edge(t.rows[id].status, t'.rows[id].status)
    requires t'.rows[id].status == Cancelled ==> t'.rows[id].tx.None?
    ensures Designed(t')
  {
    EdgesOneMore(t.landed, Landing(id, t.rows[id], t'.rows[id]));
  }

  lemma StepKeepsDesign(s: State, step: Step)
    requires Inv(s) && Enabled(s, step) && Designed(s.table) && (LandsRequest(step) ==> OrderIsPending(s, step))
    ensures Designed(Apply(s, step).table)
  {
    if LandsRequest(step) {
      RequestLands(s, step);
      var id := s.requests[step.r].ord.id;
      assert RowOk(s.ledger, id, s.table.rows[id]);
      LandingKeepsDesign(s.table, Apply(s, step).table, id);
    } else if step.Complete? {
      CompletionLands(s, step.how);
      if Apply(s, step).table != s.table {
        LandingKeepsDesign(s.table, Apply(s, step).table, s.assembled[s.completion.next].order);
      }
    } else {
      OthersLandNothing(s, step);
    }
  }

  lemma {:induction false} RunIsDesigned(s: State, steps: seq<Step>)
    requires Inv(s) && Legal(s, steps) && (MetPending(s.table.landed) ==> Designed(s.table))
    ensures MetPending(After(s, steps).table.landed) ==> Designed(After(s, steps).table)
    decreases |steps|
  {
    if steps != [] {
      StepKeepsInv(s, steps[0]);
      StepMetPending(s, steps[0]);
      if MetPending(Apply(s, steps[0]).table.landed) {
        StepKeepsDesign(s, steps[0]);
      }
      RunIsDesigned(Apply(s, steps[0]), steps[1..]);
    }
  }

  lemma EdgesMeetPending(landed: seq<Landing>)
    requires EdgesOnly(landed)
    ensures MetPending(landed)
  {
  }

  // ----- The run -----

  /** No write of `Pay` or `Cancel` that lands was raced by another write to its order. */
  ghost predicate NoRacedWrite(steps: seq<Step>)
    requires Legal(START, steps)
  {
    forall m :: 0 <= m < |steps| && LandsRequest(steps[m]) ==> !RacedWrite(steps, m)
  }

  ghost predicate RacedWrite(steps: seq<Step>, m: nat)
    requires Legal(START, steps) && m < |steps| && LandsRequest(steps[m])
  {
    PrefixIsLegal(START, steps, m);
    Raced(steps[..m], steps[m].r, At(steps, m).requests[steps[m].r].ord.id)
  }

  /** Step m found the order that it wrote pending. */
  predicate FoundPending(steps: seq<Step>, m: nat)
    requires Legal(START, steps) && m < |steps| && LandsRequest(steps[m])
  {
    PrefixIsLegal(START, steps, m);
    OrderIsPending(At(steps, m), steps[m])
  }

  lemma RacedExactlyWhenNotPending(steps: seq<Step>, m: nat)
    requires Legal(START, steps) && m < |steps| && LandsRequest(steps[m])
    ensures RacedWrite(steps, m) <==> !FoundPending(steps, m)
  {
    PrefixIsLegal(START, steps, m);
    StaleExactlyWhenRaced(steps[..m], steps[m].r);
  }

  lemma StepAtMetPending(steps: seq<Step>, n: nat)
    requires Legal(START, steps) && n < |steps|
    ensures MetPending(At(steps, n + 1).table.landed) <==>
              && MetPending(At(steps, n).table.landed)
              && (LandsRequest(steps[n]) ==> FoundPending(steps, n))
  {
    var s := At(steps, n);
    PrefixIsLegal(START, steps, n);
    PrefixKeepsInv(steps, n);
    assert At(steps, n + 1) == Apply(s, steps[n]);
    StepMetPending(s, steps[n]);
  }

  lemma {:induction false} MetPendingExactly(steps: seq<Step>, n: nat)
    requires Legal(START, steps) && n <= |steps|
    ensures MetPending(At(steps, n).table.landed)
       <==> forall m :: 0 <= m < n && LandsRequest(steps[m]) ==> FoundPending(steps, m)
  {
    if n == 0 {
      assert steps[..n] == [];
    } else {
      MetPendingExactly(steps, n - 1);
      StepAtMetPending(steps, n - 1);
    }
  }

  lemma UnracedExactly(steps: seq<Step>)
    requires Legal(START, steps)
    ensures NoRacedWrite(steps)
       <==> forall m :: 0 <= m < |steps| && LandsRequest(steps[m]) ==> FoundPending(steps, m)
  {
    forall m | 0 <= m < |steps| && LandsRequest(steps[m]) ensures RacedWrite(steps, m) <==> !FoundPending(steps, m) {
      RacedExactlyWhenNotPending(steps, m);
    }
  }

  /**
   The exact condition, for every run and any overlap: all writes follow the designed
   transitions if and only if no write of `Pay` or `Cancel` was raced, that is, no other step
   wrote the order between that request's read and its write.
   */
  lemma DesignedExactlyWhenUnraced(steps: seq<Step>)
    requires Legal(START, steps)
    ensures EdgesOnly(After(START, steps).table.landed) <==> NoRacedWrite(steps)
  {
    assert steps[..|steps|] == steps;
    MetPendingExactly(steps, |steps|);
    UnracedExactly(steps);
    StartIsGood();
    RunIsDesigned(START, steps);
    if EdgesOnly(After(START, steps).table.landed) {
      EdgesMeetPending(After(START, steps).table.landed);
    }
  }
}
