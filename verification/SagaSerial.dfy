/**
 The saga when two requests on the same order never overlap. The Kafka stages stay
 asynchronous: they still fail, redeliver and interleave with everything.
 */
module SagaSerial {
  import opened Prelude
  import opened Ids
  import opened Payments
  import opened OrderTable
  import opened Kafka
  import opened Saga
  import opened SagaSafety
  import opened SagaResults

  ghost predicate NoRequestOn(s: State, id: Uuid) {
    forall r :: r in s.requests ==> s.requests[r].ord.id != id
  }

  /** A request begins only when no other request holds its order. */
  ghost predicate SerialEnabled(s: State, step: Step) {
    && Enabled(s, step)
    && match step
       case PayRead(_, id, _, _) => NoRequestOn(s, id)
       case CancelRead(_, id, _) => NoRequestOn(s, id)
       case _ => true
  }

  ghost predicate SerialLegal(s: State, steps: seq<Step>)
    decreases |steps|
  {
    steps == [] || (SerialEnabled(s, steps[0]) && SerialLegal(Apply(s, steps[0]), steps[1..]))
  }

  /** The transitions the design allows an UPDATE to make. */
  predicate Edge(from: Status, to: Status) {
    || (from == PendingPayment && (to == Paid || to == Cancelled))
    || (from == Paid && to == Completed)
    || (from == Completed && to == Completed)
  }

  /** Where a status may end up along allowed transitions. */
  predicate Reaches(from: Status, to: Status) {
    || from == to
    || (from == PendingPayment && to != Unset)
    || (from == Paid && to == Completed)
  }

  ghost predicate Named(paid: seq<PaidOrder>, id: Uuid) {
    exists i :: 0 <= i < |paid| && paid[i].order == id
  }

  /** While a request holds an order, nobody else has moved it. */
  ghost predicate HoldsOrder(s: State, q: Request)
    requires q.ord.id in s.table.rows
  {
    var row := s.table.rows[q.ord.id];
    if q.Announcing? then row == q.ord && !Named(s.paid, q.ord.id)
    else row.status == PendingPayment
  }

  ghost predicate OneRequestPerOrder(s: State) {
    forall r, r' :: r in s.requests && r' in s.requests && r != r' ==> s.requests[r].ord.id != s.requests[r'].ord.id
  }

  ghost predicate RequestsHold(s: State) {
    forall r :: r in s.requests ==>
      s.requests[r].ord.id in s.table.rows && HoldsOrder(s, s.requests[r])
      && (s.requests[r].Announcing? ==> s.requests[r].ord.status == Paid)
  }

  /** Orders that were never paid carry no payment and are named by no message. */
  ghost predicate UnpaidIsUnnamed(s: State) {
    forall id ::
      id in s.table.rows && (s.table.rows[id].status == PendingPayment || s.table.rows[id].status == Cancelled)
      ==> s.table.rows[id].tx.None? && !Named(s.paid, id)
  }

  /** One message per order, repeating the order's own payment. */
  ghost predicate MessagesMatch(s: State) {
    && (forall i, j :: 0 <= i < j < |s.paid| ==> s.paid[i].order != s.paid[j].order)
    && (forall i :: 0 <= i < |s.paid| ==>
          && s.paid[i].order in s.table.rows
          && s.table.rows[s.paid[i].order].tx == Some(s.paid[i].tx)
          && s.table.rows[s.paid[i].order].pm == Some(s.paid[i].pm))
  }

  ghost predicate EdgesOnly(landed: seq<Landing>) {
    forall k :: 0 <= k < |landed| ==> Edge(landed[k].before.status, landed[k].after.status)
  }

  ghost predicate CompletedStays(t: Table) {
    forall id :: CompletionLanded(t, id) ==> id in t.rows && t.rows[id].status == Completed
  }

  ghost predicate SerialInv(s: State) {
    Inv(s) && Separate(s)
  }

  /** What serial runs keep on top of the invariant of all runs. */
  ghost predicate Separate(s: State) {
    && OneRequestPerOrder(s)
    && RequestsHold(s)
    && UnpaidIsUnnamed(s)
    && MessagesMatch(s)
    && EdgesOnly(s.table.landed)
    && CompletedStays(s.table)
  }

  // ----- One write along an allowed transition -----

  /** An UPDATE along an allowed transition, which sets the payment only when it pays. */
  ghost predicate GoodLanding(t: Table, t': Table, id: Uuid) {
    && Lands(t, t', id)
    && Edge(t.rows[id].status, t'.rows[id].status)
    && (t.rows[id].status != PendingPayment || t'.rows[id].status == Cancelled ==>
          t'.rows[id].tx == t.rows[id].tx && t'.rows[id].pm == t.rows[id].pm)
  }

  lemma GoodLandingKeepsHistory(t: Table, t': Table, id: Uuid)
    requires EdgesOnly(t.landed) && CompletedStays(t) && GoodLanding(t, t', id)
    ensures EdgesOnly(t'.landed) && CompletedStays(t')
  {
    forall k | 0 <= k < |t'.landed| ensures Edge(t'.landed[k].before.status, t'.landed[k].after.status) {
      assert k < |t.landed| ==> t'.landed[k] == t.landed[k];
    }
    forall o | CompletionLanded(t', o) ensures o in t'.rows && t'.rows[o].status == Completed {
      var k :| 0 <= k < |t'.landed| && t'.landed[k].id == o && t'.landed[k].after.status == Completed;
      if k < |t.landed| {
        assert t'.landed[k] == t.landed[k];
        assert CompletionLanded(t, o);
      }
    }
  }

  /** The three parts of the invariant that speak of rows, after a write to one order that nobody else holds. */
  lemma GoodLandingKeepsSerial(s: State, s': State, id: Uuid)
    requires Separate(s) && GoodLanding(s.table, s'.table, id)
    requires s'.paid == s.paid
    requires forall r :: r in s'.requests && s'.requests[r].ord.id != id ==>
               r in s.requests && s'.requests[r] == s.requests[r]
    requires forall r :: r in s'.requests && s'.requests[r].ord.id == id ==>
               s'.requests[r].Announcing? && HoldsOrder(s', s'.requests[r]) && s'.requests[r].ord.status == Paid
    requires s.table.rows[id].status == PendingPayment ==> !Named(s.paid, id)
    ensures RequestsHold(s') && UnpaidIsUnnamed(s') && MessagesMatch(s')
    ensures EdgesOnly(s'.table.landed) && CompletedStays(s'.table)
  {
    GoodLandingKeepsHistory(s.table, s'.table, id);
    forall r | r in s'.requests
      ensures s'.requests[r].ord.id in s'.table.rows && HoldsOrder(s', s'.requests[r])
              && (s'.requests[r].Announcing? ==> s'.requests[r].ord.status == Paid)
    {
      if s'.requests[r].ord.id != id {
        assert HoldsOrder(s, s.requests[r]);
      }
    }
    forall i | 0 <= i < |s'.paid|
      ensures s'.paid[i].order in s'.table.rows
      ensures s'.table.rows[s'.paid[i].order].tx == Some(s'.paid[i].tx)
      ensures s'.table.rows[s'.paid[i].order].pm == Some(s'.paid[i].pm)
    {
      assert s.paid[i].order == id ==> Named(s.paid, id);
    }
  }

  // ----- Each step -----

  lemma SerialBegin(s: State, s': State, r: nat)
    requires Separate(s) && r !in s.requests && r in s'.requests
    requires s' == s.(requests := s.requests[r := s'.requests[r]])
    requires s'.requests[r].ord.id in s.table.rows && NoRequestOn(s, s'.requests[r].ord.id)
    requires !s'.requests[r].Announcing? && s.table.rows[s'.requests[r].ord.id].status == PendingPayment
    ensures Separate(s')
  {
    forall k | k in s'.requests && k != r ensures HoldsOrder(s', s'.requests[k]) {
      assert HoldsOrder(s, s.requests[k]);
    }
  }

  lemma SerialCreate(s: State, step: Step)
    requires Separate(s) && step.CreateOrder? && Enabled(s, step)
    ensures Separate(Apply(s, step))
  {
    var s' := Apply(s, step);
    assert !Named(s.paid, step.id);
    forall r | r in s'.requests ensures s'.requests[r].ord.id in s'.table.rows && HoldsOrder(s', s'.requests[r]) {
      assert HoldsOrder(s, s.requests[r]);
    }
    forall id | CompletionLanded(s'.table, id) ensures id in s'.table.rows && s'.table.rows[id].status == Completed {
      assert CompletionLanded(s.table, id);
    }
  }

  /** Steps that leave the table and the paid topic alone, and at most advance or drop one request. */
  lemma SerialQuiet(s: State, s': State, r: nat)
    requires Separate(s)
    requires s'.table == s.table && s'.paid == s.paid
    requires forall k :: k in s'.requests && k != r ==> k in s.requests && s'.requests[k] == s.requests[k]
    requires r in s'.requests ==> r in s.requests
    requires r in s'.requests && s'.requests[r] != s.requests[r] ==>
               s'.requests[r].ord.id == s.requests[r].ord.id
               && !s'.requests[r].Announcing? && !s.requests[r].Announcing?
    ensures Separate(s')
  {
    forall k | k in s'.requests
      ensures s'.requests[k].ord.id in s'.table.rows && HoldsOrder(s', s'.requests[k])
              && (s'.requests[k].Announcing? ==> s'.requests[k].ord.status == Paid)
    {
      assert HoldsOrder(s, s.requests[k]);
    }
  }

  /** The write of `Pay` lands on the pending row it read. */
  lemma PaymentLandsWell(s: State, q: Request, fault: DbFault)
    requires RowsOk(s.ledger, s.table.rows) && RequestOk(s.table, s.ledger, q)
    requires q.Recording? && s.table.rows[q.ord.id].status == PendingPayment && fault != FailsBefore
    ensures var (t, err) := AfterUpdate(s.table, q.ord, fault);
            && GoodLanding(s.table, t, q.ord.id) && t.rows[q.ord.id] == q.ord
            && (err.None? <==> fault == Healthy)
  {
    PaymentIsSafe(s, q);
    SafeWriteLands(s.ledger, s.table, q.ord, fault);
    assert RowOk(s.ledger, q.ord.id, s.table.rows[q.ord.id]);
  }

  /** What `RecordPayment` leaves when its write lands. */
  lemma RecordedState(s: State, r: nat, fault: DbFault)
    requires RowsOk(s.ledger, s.table.rows) && r in s.requests && RequestOk(s.table, s.ledger, s.requests[r])
    requires s.requests[r].Recording? && fault != FailsBefore
    ensures var q := s.requests[r];
            var requests := if fault == Healthy then s.requests[r := Announcing(q.ord, q.readAt)] else s.requests - {r};
            RecordPayment(s, r, fault) == s.(table := AfterUpdate(s.table, q.ord, fault).0, requests := requests)
  {
    PaymentIsSafe(s, s.requests[r]);
    SafeWriteLands(s.ledger, s.table, s.requests[r].ord, fault);
  }

  lemma SerialRecordLands(s: State, r: nat, fault: DbFault)
    requires Separate(s) && r in s.requests && s.requests[r].Recording? && fault != FailsBefore
    requires RowsOk(s.ledger, s.table.rows) && RequestOk(s.table, s.ledger, s.requests[r])
    ensures Separate(RecordPayment(s, r, fault))
  {
    var s' := RecordPayment(s, r, fault);
    var q := s.requests[r];
    assert HoldsOrder(s, q);
    RecordedState(s, r, fault);
    PaymentLandsWell(s, q, fault);
    StayApart(s, s', r);
    GoodLandingKeepsSerial(s, s', q.ord.id);
  }

  lemma StayApart(s: State, s': State, r: nat)
    requires OneRequestPerOrder(s) && r in s.requests
    requires forall k :: k in s'.requests && k != r ==> k in s.requests && s'.requests[k] == s.requests[k]
    requires r in s'.requests ==> s'.requests[r].ord.id == s.requests[r].ord.id
    ensures OneRequestPerOrder(s')
  {
  }

  lemma SerialRecord(s: State, r: nat, fault: DbFault)
    requires SerialInv(s) && r in s.requests && s.requests[r].Recording?
    ensures Separate(RecordPayment(s, r, fault))
  {
    assert RequestOk(s.table, s.ledger, s.requests[r]);
    if fault == FailsBefore {
      PaymentIsSafe(s, s.requests[r]);
      SerialQuiet(s, RecordPayment(s, r, fault), r);
    } else {
      SerialRecordLands(s, r, fault);
    }
  }

  lemma SerialCancel(s: State, r: nat, fault: DbFault)
    requires SerialInv(s) && r in s.requests && s.requests[r].Cancelling?
    ensures Separate(RecordCancel(s, r, fault))
  {
    var s' := RecordCancel(s, r, fault);
    var q := s.requests[r];
    assert RequestOk(s.table, s.ledger, q) && HoldsOrder(s, q);
    CancellationIsSafe(s, q);
    SafeWriteLands(s.ledger, s.table, q.ord, fault);
    if fault == FailsBefore {
      SerialQuiet(s, s', r);
    } else {
      assert GoodLanding(s.table, s'.table, q.ord.id);
      GoodLandingKeepsSerial(s, s', q.ord.id);
    }
  }

  lemma NamedAfterSend(s: State, s': State, m: PaidOrder, id: Uuid)
    requires s'.paid == s.paid + [m]
    ensures Named(s'.paid, id) <==> Named(s.paid, id) || id == m.order
  {
    if Named(s.paid, id) {
      var i :| 0 <= i < |s.paid| && s.paid[i].order == id;
      assert s'.paid[i].order == id;
    }
    assert s'.paid[|s.paid|].order == m.order;
  }

  /** The message of an order that is PAID, unnamed so far, and held by the one request that is done with it. */
  lemma SerialSend(s: State, s': State, r: nat, m: PaidOrder)
    requires Separate(s) && r in s.requests && s.requests[r].Announcing?
    requires s' == s.(requests := s.requests - {r}, paid := s.paid + [m])
    requires m.order == s.requests[r].ord.id
    requires Some(m.tx) == s.requests[r].ord.tx && Some(m.pm) == s.requests[r].ord.pm
    ensures Separate(s')
  {
    assert HoldsOrder(s, s.requests[r]);
    forall i, j | 0 <= i < j < |s'.paid| ensures s'.paid[i].order != s'.paid[j].order {
      assert s'.paid[i] == s.paid[i];
      if j == |s.paid| {
        assert s'.paid[i].order == m.order ==> Named(s.paid, m.order);
      }
    }
    forall k | k in s'.requests
      ensures s'.requests[k].ord.id in s'.table.rows && HoldsOrder(s', s'.requests[k])
              && (s'.requests[k].Announcing? ==> s'.requests[k].ord.status == Paid)
    {
      assert HoldsOrder(s, s.requests[k]);
      NamedAfterSend(s, s', m, s.requests[k].ord.id);
    }
    forall id |
      id in s'.table.rows && (s'.table.rows[id].status == PendingPayment || s'.table.rows[id].status == Cancelled)
      ensures s'.table.rows[id].tx.None? && !Named(s'.paid, id)
    {
      NamedAfterSend(s, s', m, id);
    }
  }

  lemma SerialAnnounce(s: State, r: nat, event: Uuid, send: SendFault)
    requires Separate(s) && r in s.requests && Announceable(s.requests[r])
    ensures Separate(AnnouncePayment(s, r, event, send))
  {
    var s' := AnnouncePayment(s, r, event, send);
    if send == NotSent {
      SerialQuiet(s, s', r);
    } else {
      SerialSend(s, s', r, PaidMessage(event, s.requests[r].ord));
    }
  }

  /** An order named by an assembled message was paid, and no request holds it any more. */
  lemma ShipIsPaid(s: State, j: nat)
    requires SerialInv(s) && j < |s.assembled|
    ensures var id := s.assembled[j].order;
            && Named(s.paid, id) && NoRequestOn(s, id)
            && id in s.table.rows && s.table.rows[id].tx.Some?
            && (s.table.rows[id].status == Paid || s.table.rows[id].status == Completed)
  {
    var id := s.assembled[j].order;
    assert Announced(s.paid, s.assembled[j]);
    var i :| 0 <= i < |s.paid| && s.assembled[j] == ShipFor(s.paid[i]);
    assert s.paid[i].order == id;
    ShipNamesPaidOrder(s, j);
    assert RowOk(s.ledger, id, s.table.rows[id]);
    forall r | r in s.requests ensures s.requests[r].ord.id != id {
      assert HoldsOrder(s, s.requests[r]);
    }
  }

  lemma SerialComplete(s: State, how: Handling)
    requires SerialInv(s) && s.completion.next < |s.assembled|
    ensures Separate(CompleteNext(s, how))
  {
    var s' := CompleteNext(s, how);
    var id := s.assembled[s.completion.next].order;
    ShipIsPaid(s, s.completion.next);
    CompletionIsSafe(s, id);
    SafeWriteLands(s.ledger, s.table, Completion(id), FaultOf(how));
    if s'.table == s.table {
      SerialQuiet(s, s', 0);
    } else {
      assert GoodLanding(s.table, s'.table, id);
      GoodLandingKeepsSerial(s, s', id);
    }
  }

  lemma SerialBeginStep(s: State, step: Step)
    requires SerialInv(s) && SerialEnabled(s, step) && (step.PayRead? || step.CancelRead?)
    ensures Separate(Apply(s, step))
  {
    var s' := Apply(s, step);
    if s' != s {
      SerialBegin(s, s', step.r);
    }
  }

  lemma SerialRequestStep(s: State, step: Step)
    requires Separate(s) && Enabled(s, step) && (step.PayCharge? || step.Abandon?)
    ensures Separate(Apply(s, step))
  {
    SerialQuiet(s, Apply(s, step), step.r);
  }

  lemma SerialStageStep(s: State, step: Step)
    requires Separate(s) && Enabled(s, step) && (step.Assemble? || IsOffsetStep(step))
    ensures Separate(Apply(s, step))
  {
    var s' := Apply(s, step);
    assert s'.table == s.table && s'.paid == s.paid && s'.requests == s.requests;
    SerialQuiet(s, s', 0);
  }

  lemma SerialStep(s: State, step: Step)
    requires SerialInv(s) && SerialEnabled(s, step)
    ensures SerialInv(Apply(s, step))
  {
    StepKeepsInv(s, step);
    SerialStepSeparate(s, step);
  }

  lemma SerialStepSeparate(s: State, step: Step)
    requires SerialInv(s) && SerialEnabled(s, step)
    ensures Separate(Apply(s, step))
  {
    match step
    case CreateOrder(_, _, _, _, _) => SerialCreate(s, step);
    case PayRead(_, _, _, _) => SerialBeginStep(s, step);
    case CancelRead(_, _, _) => SerialBeginStep(s, step);
    case PayRecord(r, fault) => SerialRecord(s, r, fault);
    case PayAnnounce(r, event, send) => SerialAnnounce(s, r, event, send);
    case CancelRecord(r, fault) => SerialCancel(s, r, fault);
    case Complete(how) => SerialComplete(s, how);
    case PayCharge(_, _, _) => SerialRequestStep(s, step);
    case Abandon(_) => SerialRequestStep(s, step);
    case _ => SerialStageStep(s, step);
  }

  lemma {:induction false} SerialRun(s: State, steps: seq<Step>)
    requires SerialInv(s) && SerialLegal(s, steps)
    ensures Legal(s, steps) && SerialInv(After(s, steps))
    decreases |steps|
  {
    if steps != [] {
      SerialStep(s, steps[0]);
      SerialRun(Apply(s, steps[0]), steps[1..]);
    }
  }

  // ----- The guarantees -----

  /**
   Without overlapping requests every UPDATE that ever lands moves its order along
   PENDING to PAID, PENDING to CANCELLED, PAID to COMPLETED or COMPLETED to COMPLETED.
   */
  lemma OnlyDesignedTransitions(steps: seq<Step>, k: nat)
    requires SerialLegal(START, steps)
    ensures Legal(START, steps)
    ensures k < |After(START, steps).table.landed| ==>
              var w := After(START, steps).table.landed[k]; Edge(w.before.status, w.after.status)
  {
    assert SerialInv(START);
    SerialRun(START, steps);
  }

  /** Statuses along a run: CANCELLED and COMPLETED are final, and PAID can only become COMPLETED. */
  lemma {:induction false} StatusFollowsDesign(s: State, steps: seq<Step>, id: Uuid)
    requires SerialInv(s) && SerialLegal(s, steps) && id in s.table.rows
    ensures Legal(s, steps) && id in After(s, steps).table.rows
    ensures Reaches(s.table.rows[id].status, After(s, steps).table.rows[id].status)
    decreases |steps|
  {
    if steps != [] {
      var s' := Apply(s, steps[0]);
      SerialStep(s, steps[0]);
      StepKeepsInv(s, steps[0]);
      StepReaches(s, steps[0], id);
      StatusFollowsDesign(s', steps[1..], id);
      SerialRun(s', steps[1..]);
      OrdersOnlyMoveForward(s', steps[1..], id);
      assert RowOk(After(s, steps).ledger, id, After(s, steps).table.rows[id]);
    }
  }

  lemma StepReaches(s: State, step: Step, id: Uuid)
    requires SerialInv(s) && SerialEnabled(s, step) && id in s.table.rows
    ensures id in Apply(s, step).table.rows
    ensures Reaches(s.table.rows[id].status, Apply(s, step).table.rows[id].status)
  {
    StepKeepsInv(s, step);
    SerialStepSeparate(s, step);
    TableReaches(s.table, Apply(s, step).table, id);
  }

  lemma TableReaches(t: Table, t': Table, id: Uuid)
    requires TableMoves(t, t') && EdgesOnly(t'.landed) && id in t.rows
    ensures id in t'.rows && Reaches(t.rows[id].status, t'.rows[id].status)
  {
    if !RowsStay(t, t') {
      var o :| Lands(t, t', o);
      var w := t'.landed[|t.landed|];
      assert Edge(w.before.status, w.after.status);
    }
  }

  /**
   A cancelled order carries no payment and no message on either topic names it, so it is
   never completed; a paid message repeats the payment its row still has, and is the only
   message of its order.
   */
  lemma CancelledIsNeverShipped(steps: seq<Step>, id: Uuid)
    requires SerialLegal(START, steps)
    ensures Legal(START, steps)
    ensures var s := After(START, steps);
            id in s.table.rows && s.table.rows[id].status == Cancelled ==>
              && s.table.rows[id].tx.None? && s.table.rows[id].pm.None?
              && (forall i :: 0 <= i < |s.paid| ==> s.paid[i].order != id)
              && (forall j :: 0 <= j < |s.assembled| ==> s.assembled[j].order != id)
              && (forall k :: 0 <= k < |s.table.landed| ==>
                    (s.table.landed[k].id == id ==> s.table.landed[k].after.status != Completed))
  {
    assert SerialInv(START);
    SerialRun(START, steps);
    var s := After(START, steps);
    if id in s.table.rows && s.table.rows[id].status == Cancelled {
      assert RowOk(s.ledger, id, s.table.rows[id]);
      forall j | 0 <= j < |s.assembled| ensures s.assembled[j].order != id {
        ShipIsPaid(s, j);
      }
      forall k | 0 <= k < |s.table.landed|
        ensures s.table.landed[k].id == id ==> s.table.landed[k].after.status != Completed
      {
        if s.table.landed[k].id == id && s.table.landed[k].after.status == Completed {
          assert CompletionLanded(s.table, id);
        }
      }
    }
  }

  lemma MessagesRepeatTheirRow(steps: seq<Step>, i: nat, j: nat)
    requires SerialLegal(START, steps)
    ensures Legal(START, steps)
    ensures var s := After(START, steps);
            && (i < |s.paid| ==>
                  && s.paid[i].order in s.table.rows
                  && var row := s.table.rows[s.paid[i].order];
                     row.tx == Some(s.paid[i].tx) && row.pm == Some(s.paid[i].pm) && row.user == s.paid[i].user)
            && (i < j < |s.paid| ==> s.paid[i].order != s.paid[j].order)
  {
    assert SerialInv(START);
    SerialRun(START, steps);
    var s := After(START, steps);
    if i < |s.paid| {
      assert MessageOk(s.table, s.ledger, s.paid[i]);
    }
  }

  /**
   Every assembled message the completion handler took to a nil result of its own has its order
   COMPLETED, for good.
   */
  lemma HandledShipsAreCompleted(steps: seq<Step>, i: nat)
    requires SerialLegal(START, steps)
    ensures Legal(START, steps)
    ensures var s := After(START, steps);
            i < |s.completion.deliveries| && s.completion.deliveries[i].raw == Nil ==>
              && s.completion.deliveries[i].offset < |s.assembled|
              && var id := s.assembled[s.completion.deliveries[i].offset].order;
                 id in s.table.rows && s.table.rows[id].status == Completed
  {
    assert SerialInv(START);
    SerialRun(START, steps);
    var s := After(START, steps);
    if i < |s.completion.deliveries| {
      assert DeliveryCompleted(s.table, s.assembled, s.completion.deliveries[i]);
    }
  }

  // ----- Why the requests must not overlap -----

  const RACE: seq<Step> := [
    CreateOrder(1, 2, [3], 100, Healthy),
    PayRead(0, 1, Card, false),
    CancelRead(1, 1, false),
    PayCharge(0, 7, Answered),
    PayRecord(0, Healthy),
    CancelRecord(1, Healthy),
    PayAnnounce(0, 8, Sent),
    Assemble(Succeeds),
    Complete(Succeeds)]

  const RACE_PENDING := Order(1, 2, [3], 100, None, None, PendingPayment)
  const RACE_PAID := WithPayment(RACE_PENDING, 7, Card)

  /** Both requests have read the pending order. */
  lemma RaceReads() returns (s: State)
    ensures Legal(START, RACE[..3]) && s == After(START, RACE[..3])
    ensures s.table == Table(map[1 := RACE_PENDING], []) && s.ledger == map[]
    ensures s.requests == map[0 := Charging(RACE_PENDING, 0, Card),
                              1 := Cancelling(RACE_PENDING.(status := Cancelled), 0)]
    ensures s.paid == [] && s.assembled == [] && s.assembly == NEW_GROUP && s.completion == NEW_GROUP
  {
    var s1 := Apply(START, RACE[0]);
    var s2 := Apply(s1, RACE[1]);
    s := Apply(s2, RACE[2]);
    Prepend(s2, RACE[2], []);
    Prepend(s1, RACE[1], [RACE[2]]);
    Prepend(START, RACE[0], [RACE[1], RACE[2]]);
    assert RACE[..3] == [RACE[0]] + ([RACE[1]] + ([RACE[2]] + []));
  }

  /** The requests have both read the pending order, and the payment has been charged. */
  lemma RaceOpens() returns (s: State)
    ensures Legal(START, RACE[..4]) && s == After(START, RACE[..4])
    ensures s.table == Table(map[1 := RACE_PENDING], [])
    ensures s.requests == map[0 := Recording(RACE_PAID, 0), 1 := Cancelling(RACE_PENDING.(status := Cancelled), 0)]
    ensures s.paid == [] && s.assembled == [] && s.assembly == NEW_GROUP && s.completion == NEW_GROUP
  {
    var s3 := RaceReads();
    ServeKeepsMeaning(1, 2, Card);
    s := Apply(s3, RACE[3]);
    Prepend(s3, RACE[3], []);
    assert RACE[3..4] == [RACE[3]] + [];
    assert RACE[..4] == RACE[..3] + RACE[3..4];
    RunsCompose(START, RACE[..3], RACE[3..4]);
  }

  /** The payment lands first, and the stale cancellation overwrites its status. */
  lemma RaceWrites(s: State) returns (s': State)
    requires s.table == Table(map[1 := RACE_PENDING], [])
    requires s.requests == map[0 := Recording(RACE_PAID, 0), 1 := Cancelling(RACE_PENDING.(status := Cancelled), 0)]
    requires s.paid == [] && s.assembled == [] && s.assembly == NEW_GROUP && s.completion == NEW_GROUP
    ensures Legal(s, RACE[4..6]) && s' == After(s, RACE[4..6])
    ensures s'.table.rows == map[1 := RACE_PAID.(status := Cancelled)] && |s'.table.landed| == 2
    ensures s'.requests == map[0 := Announcing(RACE_PAID, 0)]
    ensures s'.paid == [] && s'.assembled == [] && s'.assembly == NEW_GROUP && s'.completion == NEW_GROUP
  {
    var s5 := Apply(s, RACE[4]);
    assert s5.table.rows[1] == RACE_PAID;
    s' := Apply(s5, RACE[5]);
    Prepend(s5, RACE[5], []);
    Prepend(s, RACE[4], [RACE[5]]);
    assert RACE[4..6] == [RACE[4]] + ([RACE[5]] + []);
  }

  /** The message still goes out, and its ship is sent. */
  lemma RaceShips(s: State) returns (s': State)
    requires s.requests == map[0 := Announcing(RACE_PAID, 0)]
    requires s.paid == [] && s.assembled == [] && s.assembly == NEW_GROUP && s.completion == NEW_GROUP
    ensures Legal(s, RACE[6..8]) && s' == After(s, RACE[6..8])
    ensures s'.table == s.table && s'.assembled == [AssembledShip(8, 1, 2)] && s'.completion == NEW_GROUP
  {
    var s7 := Apply(s, RACE[6]);
    assert s7.paid == [PaidOrder(8, 1, 2, Card, 7)];
    s' := Apply(s7, RACE[7]);
    Prepend(s7, RACE[7], []);
    Prepend(s, RACE[6], [RACE[7]]);
    assert RACE[6..8] == [RACE[6]] + ([RACE[7]] + []);
  }

  /** The cancelled order is completed. */
  lemma RaceCompletes(s: State) returns (s': State)
    requires s.table.rows == map[1 := RACE_PAID.(status := Cancelled)] && |s.table.landed| == 2
    requires s.assembled == [AssembledShip(8, 1, 2)] && s.completion == NEW_GROUP
    ensures Legal(s, RACE[8..]) && s' == After(s, RACE[8..])
    ensures |s'.table.landed| == 3
    ensures s'.table.landed[2].before == RACE_PAID.(status := Cancelled)
    ensures s'.table.landed[2].after == RACE_PAID.(status := Completed)
  {
    s' := Apply(s, RACE[8]);
    Prepend(s, RACE[8], []);
    assert RACE[8..] == [RACE[8]] + [];
  }

  /** A `Pay` and a `Cancel` that overlap leave a cancelled order with a transaction, and it is then completed. */
  lemma OverlapCompletesCancelledOrder()
    ensures Legal(START, RACE)
    ensures exists k :: && 0 <= k < |After(START, RACE).table.landed|
                        && After(START, RACE).table.landed[k].before.status == Cancelled
                        && After(START, RACE).table.landed[k].before.tx.Some?
                        && After(START, RACE).table.landed[k].after.status == Completed
  {
    var s4 := RaceOpens();
    var s6 := RaceWrites(s4);
    var s8 := RaceShips(s6);
    var s' := RaceCompletes(s8);
    assert RACE[..6] == RACE[..4] + RACE[4..6];
    RunsCompose(START, RACE[..4], RACE[4..6]);
    assert RACE[..8] == RACE[..6] + RACE[6..8];
    RunsCompose(START, RACE[..6], RACE[6..8]);
    assert RACE == RACE[..8] + RACE[8..];
    RunsCompose(START, RACE[..8], RACE[8..]);
    assert s'.table.landed[2].after.status == Completed;
  }
}
