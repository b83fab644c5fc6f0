/** Exactly when an order is paid twice: when two of its payments overlap. */
module SagaDoublePay {
  import opened Ids
  import opened OrderTable
  import opened Saga
  import opened SagaSafety
  import opened SagaResults
  import opened SagaEdges

  /** The step writes a payment to its order. */
  predicate Pays(step: Step) {
    step.PayRecord? && step.fault != FailsBefore
  }

  ghost predicate PaysAt(steps: seq<Step>, m: nat, id: Uuid)
    requires Legal(START, steps)
  {
    && m < |steps| && Pays(steps[m]) && steps[m].r in At(steps, m).requests
    && At(steps, m).requests[steps[m].r].ord.id == id
  }

  /** One of the first n steps pays the order. */
  ghost predicate PaidBefore(steps: seq<Step>, n: nat, id: Uuid)
    requires Legal(START, steps)
  {
    exists k: nat :: k < n && PaysAt(steps, k, id)
  }

  /** Step n pays an order that an earlier step paid. */
  ghost predicate PaysAgain(steps: seq<Step>, n: nat)
    requires Legal(START, steps)
  {
    exists id :: PaidBefore(steps, n, id) && PaysAt(steps, n, id)
  }

  // ----- The history -----

  ghost predicate HasPaid(landed: seq<Landing>, id: Uuid) {
    exists a :: 0 <= a < |landed| && landed[a].id == id && landed[a].after.status == Paid
  }

  /** At most one write of each order set PAID. */
  predicate PaidOnce(landed: seq<Landing>) {
    forall a, b :: 0 <= a < b < |landed| && landed[a].id == landed[b].id ==>
      landed[a].after.status != Paid || landed[b].after.status != Paid
  }

  lemma PaidOneMore(landed: seq<Landing>, w: Landing, id: Uuid)
    ensures HasPaid(landed + [w], id) <==> HasPaid(landed, id) || (w.id == id && w.after.status == Paid)
    ensures PaidOnce(landed + [w]) <==> PaidOnce(landed) && (w.after.status == Paid ==> !HasPaid(landed, w.id))
  {
    var all := landed + [w];
    assert all[|landed|] == w;
    assert forall a :: 0 <= a < |landed| ==> all[a] == landed[a];
  }

  /** What a step adds to the writes that set PAID. */
  lemma StepPays(s: State, step: Step, id: Uuid)
    requires Inv(s) && Enabled(s, step)
    ensures var landed, landed' := s.table.landed, Apply(s, step).table.landed;
            if Pays(step) then
              var own := s.requests[step.r].ord.id;
              && |landed'| == |landed| + 1 && landed'[|landed|].id == own
              && (HasPaid(landed', id) <==> HasPaid(landed, id) || id == own)
              && (PaidOnce(landed') <==> PaidOnce(landed) && !HasPaid(landed, own))
            else (HasPaid(landed', id) <==> HasPaid(landed, id)) && (PaidOnce(landed') <==> PaidOnce(landed))
  {
    var t, t' := s.table, Apply(s, step).table;
    if LandsRequest(step) {
      RequestLands(s, step);
      var own := s.requests[step.r].ord.id;
      PaidOneMore(t.landed, Landing(own, t.rows[own], t'.rows[own]), id);
    } else if step.Complete? {
      CompletionLands(s, step.how);
      if t' != t {
        var own := s.assembled[s.completion.next].order;
        PaidOneMore(t.landed, Landing(own, t.rows[own], t'.rows[own]), id);
      }
    } else {
      OthersLandNothing(s, step);
    }
  }

  /** The n-th step pays no order, or its own. */
  lemma StepAtPays(steps: seq<Step>, n: nat, id: Uuid)
    requires Legal(START, steps) && n < |steps|
    ensures var landed, landed' := At(steps, n).table.landed, At(steps, n + 1).table.landed;
            && (HasPaid(landed', id) <==> HasPaid(landed, id) || PaysAt(steps, n, id))
            && (PaysAt(steps, n, id) ==>
                  && |landed'| == |landed| + 1 && landed'[|landed|].id == id
                  && (PaidOnce(landed') <==> PaidOnce(landed) && !HasPaid(landed, id)))
            && (!Pays(steps[n]) ==> (PaidOnce(landed') <==> PaidOnce(landed)))
  {
    PrefixIsLegal(START, steps, n);
    PrefixKeepsInv(steps, n);
    StepPays(At(steps, n), steps[n], id);
  }

  lemma {:induction false} HasPaidExactly(steps: seq<Step>, n: nat, id: Uuid)
    requires Legal(START, steps) && n <= |steps|
    ensures HasPaid(At(steps, n).table.landed, id) <==> PaidBefore(steps, n, id)
  {
    if n == 0 {
      assert steps[..n] == [];
    } else {
      HasPaidExactly(steps, n - 1, id);
      StepAtPays(steps, n - 1, id);
    }
  }

  /** The order a paying step pays. */
  lemma PayingStep(steps: seq<Step>, n: nat) returns (own: Uuid)
    requires Legal(START, steps) && n < |steps| && Pays(steps[n])
    ensures PaysAt(steps, n, own) && forall id :: PaysAt(steps, n, id) ==> id == own
  {
    PrefixIsLegal(START, steps, n);
    own := At(steps, n).requests[steps[n].r].ord.id;
  }

  lemma StepPaysOnce(steps: seq<Step>, n: nat)
    requires Legal(START, steps) && n < |steps|
    ensures PaidOnce(At(steps, n + 1).table.landed) <==> PaidOnce(At(steps, n).table.landed) && !PaysAgain(steps, n)
  {
    if Pays(steps[n]) {
      var own := PayingStep(steps, n);
      StepAtPays(steps, n, own);
      HasPaidExactly(steps, n, own);
    } else {
      StepAtPays(steps, n, NIL);
    }
  }

  lemma {:induction false} PaidOnceExactly(steps: seq<Step>, n: nat)
    requires Legal(START, steps) && n <= |steps|
    ensures PaidOnce(At(steps, n).table.landed) <==> forall m: nat :: m < n ==> !PaysAgain(steps, m)
  {
    if n == 0 {
      assert steps[..n] == [];
    } else {
      PaidOnceExactly(steps, n - 1);
      StepPaysOnce(steps, n - 1);
    }
  }

  // ----- What a request has not seen -----

  /** An order that some write reached is no longer pending. */
  ghost predicate WrittenIsNotPending(t: Table) {
    forall k :: 0 <= k < |t.landed| ==>
      t.landed[k].id in t.rows && t.rows[t.landed[k].id].status != PendingPayment
  }

  /** No write reached a request's order before the request read it. */
  ghost predicate ReadFirst(landed: seq<Landing>, q: Request) {
    q.readAt <= |landed| && forall k :: 0 <= k < q.readAt ==> landed[k].id != q.ord.id
  }

  ghost predicate AllReadFirst(s: State) {
    WrittenIsNotPending(s.table) && forall r :: r in s.requests ==> ReadFirst(s.table.landed, s.requests[r])
  }

  lemma MoveKeepsWritten(t: Table, t': Table)
    requires WrittenIsNotPending(t) && TableMoves(t, t')
    ensures WrittenIsNotPending(t') && t.landed <= t'.landed
  {
    if !RowsStay(t, t') {
      var id :| Lands(t, t', id);
      forall k | 0 <= k < |t'.landed|
        ensures t'.landed[k].id in t'.rows && t'.rows[t'.landed[k].id].status != PendingPayment
      {
        assert k < |t.landed| ==> t'.landed[k] == t.landed[k];
      }
    }
  }

  /** A request is opened on a pending order, and keeps its order and the time of its reading. */
  lemma StepKeepsReading(s: State, step: Step, r: nat)
    requires Enabled(s, step) && r in Apply(s, step).requests
    requires forall id :: id in s.table.rows ==> s.table.rows[id].id == id
    ensures var q := Apply(s, step).requests[r];
            || (r in s.requests && q.ord.id == s.requests[r].ord.id && q.readAt == s.requests[r].readAt)
            || (q.ord.id in s.table.rows && s.table.rows[q.ord.id].status == PendingPayment
                && q.readAt == |s.table.landed|)
  {
  }

  lemma StepKeepsReadFirst(s: State, step: Step)
    requires Inv(s) && Enabled(s, step) && AllReadFirst(s)
    ensures AllReadFirst(Apply(s, step))
  {
    var s' := Apply(s, step);
    StepKeepsInv(s, step);
    MoveKeepsWritten(s.table, s'.table);
    forall r | r in s'.requests ensures ReadFirst(s'.table.landed, s'.requests[r]) {
      RowIdsMatch(s);
      StepKeepsReading(s, step, r);
      LaterReadFirst(s, s'.requests[r], r, s'.table.landed);
    }
  }

  lemma RowIdsMatch(s: State)
    requires RowsOk(s.ledger, s.table.rows)
    ensures forall id :: id in s.table.rows ==> s.table.rows[id].id == id
  {
    forall id | id in s.table.rows ensures s.table.rows[id].id == id {
      assert RowOk(s.ledger, id, s.table.rows[id]);
    }
  }

  lemma LaterReadFirst(s: State, q: Request, r: nat, landed: seq<Landing>)
    requires AllReadFirst(s) && s.table.landed <= landed
    requires || (r in s.requests && q.ord.id == s.requests[r].ord.id && q.readAt == s.requests[r].readAt)
             || (q.ord.id in s.table.rows && s.table.rows[q.ord.id].status == PendingPayment
                 && q.readAt == |s.table.landed|)
    ensures ReadFirst(landed, q)
  {
    forall k | 0 <= k < q.readAt ensures landed[k].id != q.ord.id {
      assert landed[k] == s.table.landed[k];
    }
  }

  lemma {:induction false} RunKeepsReadFirst(s: State, steps: seq<Step>)
    requires Inv(s) && Legal(s, steps) && AllReadFirst(s)
    ensures AllReadFirst(After(s, steps))
    decreases |steps|
  {
    if steps != [] {
      StepKeepsInv(s, steps[0]);
      StepKeepsReadFirst(s, steps[0]);
      RunKeepsReadFirst(Apply(s, steps[0]), steps[1..]);
    }
  }

  // ----- The race -----

  /** Step m pays an order that another step paid between the read of its request and its write. */
  ghost predicate RacedByPayment(steps: seq<Step>)
    requires Legal(START, steps)
  {
    exists j: nat, k: nat, m: nat, id: Uuid ::
      && j < k < m < |steps| && PaysAt(steps, k, id) && PaysAt(steps, m, id)
      && LastOpened(steps[..m], steps[m].r, j)
  }

  /** The first of two payments landed after the request of the second had read the order. */
  lemma SecondHadRead(steps: seq<Step>, k: nat, m: nat, id: Uuid)
    requires Legal(START, steps) && k < m && PaysAt(steps, k, id) && PaysAt(steps, m, id)
    ensures At(steps, m).requests[steps[m].r].readAt <= |At(steps, k).table.landed|
  {
    PrefixIsLegal(START, steps, m);
    StartIsGood();
    RunKeepsReadFirst(START, steps[..m]);
    StepAtPays(steps, k, id);
    LandingsOnlyGrow(steps, k + 1, m);
    var i, landed := |At(steps, k).table.landed|, At(steps, m).table.landed;
    assert landed[i].id == id;
    assert ReadFirst(landed, At(steps, m).requests[steps[m].r]);
  }

  lemma TwiceMeansRaced(steps: seq<Step>, k: nat, m: nat, id: Uuid)
    requires Legal(START, steps) && k < m && PaysAt(steps, k, id) && PaysAt(steps, m, id)
    ensures RacedByPayment(steps)
  {
    SecondHadRead(steps, k, m, id);
    PrefixIsLegal(START, steps, m);
    var before := steps[..m];
    var j := OpeningIsRemembered(before, steps[m].r);
    assert before[..j] == steps[..j];
    assert before[j] == steps[j];
    if k < j {
      StepAtPays(steps, k, id);
      LandingsOnlyGrow(steps, k + 1, j);
    }
    assert j < k;
  }

  /**
   The exact condition for paying an order twice, in every run: at most one write per order sets
   PAID if and only if no payment was written between the read and the write of another
   payment of the same order.
   */
  lemma PaidOnceExactlyWhenUnraced(steps: seq<Step>)
    requires Legal(START, steps)
    ensures PaidOnce(After(START, steps).table.landed) <==> !RacedByPayment(steps)
  {
    assert steps[..|steps|] == steps;
    PaidOnceExactly(steps, |steps|);
    if m: nat :| m < |steps| && PaysAgain(steps, m) {
      var id :| PaidBefore(steps, m, id) && PaysAt(steps, m, id);
      var k: nat :| k < m && PaysAt(steps, k, id);
      TwiceMeansRaced(steps, k, m, id);
    }
    if RacedByPayment(steps) {
      RacedMeansAgain(steps);
    }
  }

  lemma RacedMeansAgain(steps: seq<Step>)
    requires Legal(START, steps) && RacedByPayment(steps)
    ensures exists m: nat :: m < |steps| && PaysAgain(steps, m)
  {
    var j: nat, k: nat, m: nat, id: Uuid :|
      && j < k < m < |steps| && PaysAt(steps, k, id) && PaysAt(steps, m, id)
      && LastOpened(steps[..m], steps[m].r, j);
    assert PaidBefore(steps, m, id);
    assert PaysAgain(steps, m);
  }
}
