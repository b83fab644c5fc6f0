/**
 What each step of the saga may do and does, written out: when it can be taken, and the whole
 state it leaves, by how its I/O goes. `Inv` holds in every reachable state.
 */
module SagaSteps {
  import opened Prelude
  import opened Ids
  import opened Payments
  import opened OrderTable
  import opened Kafka
  import opened Saga
  import opened SagaSafety

  // ----- Requests -----

  /** A new order has exactly the given user, parts and price, is pending and has no payment. */
  lemma CreateStep(s: State, id: Uuid, user: Uuid, parts: seq<Uuid>, total: Int64, fault: DbFault)
    ensures var step := CreateOrder(id, user, parts, total, fault);
            && (Enabled(s, step) <==> id != NIL && id !in s.table.rows && user != NIL && |parts| > 0)
            && (Enabled(s, step) ==>
                  if total < 0 || fault == FailsBefore then Apply(s, step) == s
                  else Apply(s, step)
                       == s.(table := Table(
                               s.table.rows[id := Order(id, user, parts, total, None, None, PendingPayment)],
                               s.table.landed)))
  {
  }

  /** Only a pending order can be paid; the request keeps the row as read and changes nothing else. */
  lemma PayReadStep(s: State, r: nat, id: Uuid, pm: PaymentMethod, fails: bool)
    ensures var step := PayRead(r, id, pm, fails);
            && (Enabled(s, step) <==> r !in s.requests)
            && (Enabled(s, step) ==>
                  if !fails && id in s.table.rows && s.table.rows[id].status == PendingPayment
                  then Apply(s, step)
                       == s.(requests := s.requests[r := Charging(s.table.rows[id], |s.table.landed|, pm)])
                  else Apply(s, step) == s)
  {
  }

  /** A charge in the ledger that names this order, this user and this method. */
  predicate ChargeNames(charge: PayParams, ord: Order, pm: PaymentMethod) {
    && charge.order == Text(ord.id)
    && charge.user == Text(ord.user)
    && (pm == Card ==> charge.pm == MethodCard)
    && (pm == Sbp ==> charge.pm == MethodSbp)
    && (pm == CreditCard ==> charge.pm == MethodCreditCard)
    && (pm == InvestorMoney ==> charge.pm == MethodInvestorMoney)
  }

  /**
   The payment service charges when it is reached with a known method, for the order read. Only
   a readable answer lets the request go on, with the order as paid by this transaction.
   */
  lemma PayChargeStep(s: State, r: nat, tx: Uuid, reply: ChargeReply)
    ensures var step := PayCharge(r, tx, reply);
            && (Enabled(s, step) <==> r in s.requests && s.requests[r].Charging? && tx !in s.ledger)
            && (Enabled(s, step) ==>
                  var s', q := Apply(s, step), s.requests[r];
                  var charged := reply != Unreached && q.pm != Unknown;
                  && s' == s.(ledger := s'.ledger, requests := s'.requests)
                  && (!charged ==> s'.ledger == s.ledger)
                  && (charged ==> tx in s'.ledger && s'.ledger == s.ledger[tx := s'.ledger[tx]]
                                  && ChargeNames(s'.ledger[tx], q.ord, q.pm))
                  && s'.requests
                     == if charged && reply == Answered
                        then s.requests[r := Recording(q.ord.(tx := Some(tx), pm := Some(q.pm), status := Paid),
                                                       q.readAt)]
                        else s.requests - {r})
  {
    if r in s.requests && s.requests[r].Charging? {
      var q := s.requests[r];
      ServeKeepsMeaning(q.ord.id, q.ord.user, q.pm);
    }
  }

  /** The table after a write to one row, kept in the history. */
  function Written(t: Table, id: Uuid, row: Order): Table
    requires id in t.rows
  {
    Table(t.rows[id := row], t.landed + [Landing(id, t.rows[id], row)])
  }

  /** A write whose patch passes the guards and the constraints lands unless the database is down before it. */
  lemma PatchLands(t: Table, upd: Order, row: Order, fault: DbFault)
    requires upd.id in t.rows && row == Patch(t.rows[upd.id], upd)
    requires Guard(upd).None? && !PatchesNothing(upd) && Checks(row)
    ensures var (t', err) := AfterUpdate(t, upd, fault);
            && t' == (if fault == FailsBefore then t else Written(t, upd.id, row))
            && (err.None? <==> fault == Healthy)
  {
  }

  /** The write of `Pay` sets the payment and the status of its row, unless the database is down before it. */
  lemma PayRecordStep(s: State, r: nat, fault: DbFault)
    requires Inv(s)
    ensures var step := PayRecord(r, fault);
            && (Enabled(s, step) <==> r in s.requests && s.requests[r].Recording?)
            && (Enabled(s, step) ==>
                  var q := s.requests[r];
                  var id := q.ord.id;
                  && id in s.table.rows
                  && var row := s.table.rows[id].(tx := q.ord.tx, pm := q.ord.pm, status := Paid);
                     Apply(s, step)
                     == s.(table := if fault == FailsBefore then s.table else Written(s.table, id, row),
                           requests := if fault == Healthy then s.requests[r := Announcing(q.ord, q.readAt)]
                                       else s.requests - {r}))
  {
    if r in s.requests && s.requests[r].Recording? {
      var q := s.requests[r];
      assert RequestOk(s.table, s.ledger, q);
      var row := s.table.rows[q.ord.id];
      assert RowOk(s.ledger, q.ord.id, row);
      PatchLands(s.table, q.ord, row.(tx := q.ord.tx, pm := q.ord.pm, status := Paid), fault);
    }
  }

  /** The message repeats the request's order; the request ends whatever becomes of the send. */
  lemma PayAnnounceStep(s: State, r: nat, event: Uuid, send: SendFault)
    requires Inv(s)
    ensures var step := PayAnnounce(r, event, send);
            && (Enabled(s, step) <==>
                  && r in s.requests && s.requests[r].Announcing?
                  && forall i :: 0 <= i < |s.paid| ==> s.paid[i].event != event)
            && (Enabled(s, step) ==>
                  var ord := s.requests[r].ord;
                  && ord.tx.Some? && ord.pm.Some?
                  && Apply(s, step)
                     == s.(requests := s.requests - {r},
                           paid := if send == NotSent then s.paid
                                   else s.paid + [PaidOrder(event, ord.id, ord.user, ord.pm.value, ord.tx.value)]))
  {
    if r in s.requests {
      assert RequestOk(s.table, s.ledger, s.requests[r]);
    }
  }

  lemma CancelReadStep(s: State, r: nat, id: Uuid, fails: bool)
    ensures var step := CancelRead(r, id, fails);
            && (Enabled(s, step) <==> r !in s.requests)
            && (Enabled(s, step) ==>
                  if !fails && id in s.table.rows && s.table.rows[id].status == PendingPayment
                  then Apply(s, step)
                       == s.(requests := s.requests[r := Cancelling(s.table.rows[id].(status := Cancelled),
                                                                    |s.table.landed|)])
                  else Apply(s, step) == s)
  {
  }

  /** The write of `Cancel` sets the status alone, over whatever the row has become. */
  lemma CancelRecordStep(s: State, r: nat, fault: DbFault)
    requires Inv(s)
    ensures var step := CancelRecord(r, fault);
            && (Enabled(s, step) <==> r in s.requests && s.requests[r].Cancelling?)
            && (Enabled(s, step) ==>
                  var id := s.requests[r].ord.id;
                  && id in s.table.rows
                  && Apply(s, step)
                     == s.(table := if fault == FailsBefore then s.table
                                    else Written(s.table, id, s.table.rows[id].(status := Cancelled)),
                           requests := s.requests - {r}))
  {
    if r in s.requests && s.requests[r].Cancelling? {
      var q := s.requests[r];
      assert RequestOk(s.table, s.ledger, q);
      var row := s.table.rows[q.ord.id];
      assert RowOk(s.ledger, q.ord.id, row);
      PatchLands(s.table, q.ord, row.(status := Cancelled), fault);
    }
  }

  lemma AbandonStep(s: State, r: nat)
    ensures Enabled(s, Abandon(r)) <==> r in s.requests
    ensures Enabled(s, Abandon(r)) ==> Apply(s, Abandon(r)) == s.(requests := s.requests - {r})
  {
  }

  // ----- Handlers -----

  /** One handler call on the group: a success and a recovered panic move the mark, a failure does not. */
  predicate Handled(g: Group, g': Group, how: Handling) {
    && g' == g.(next := g'.next, mark := g'.mark, deliveries := g'.deliveries)
    && g'.next == g.next + 1
    && g'.mark == (if how == Succeeds || how == Panics then g.next + 1 else g.mark)
    && |g'.deliveries| == |g.deliveries| + 1 && g.deliveries <= g'.deliveries
    && var d := g'.deliveries[|g.deliveries|];
       && d.session == g.session && d.offset == g.next
       && (d.raw == Nil <==> how == Succeeds)
       && (d.raw == Panicked <==> how == Panics)
       && (d.returned == Nil <==> how == Succeeds || how == Panics)
       && d.returned != Panicked
  }

  /** A ship is sent for the next paid message when its handler succeeds or fails only after the send. */
  lemma AssembleStep(s: State, how: Handling)
    requires Inv(s)
    ensures var step := Assemble(how);
            && (Enabled(s, step) <==> s.assembly.next < |s.paid|)
            && (Enabled(s, step) ==>
                  var s', m := Apply(s, step), s.paid[s.assembly.next];
                  && s' == s.(assembled := s'.assembled, assembly := s'.assembly)
                  && s'.assembled == (if how == Succeeds || how == FailsLate
                                      then s.assembled + [AssembledShip(m.event, m.order, m.user)] else s.assembled)
                  && Handled(s.assembly, s'.assembly, how))
  {
  }

  /** The order of the next ship becomes COMPLETED when its handler succeeds or fails only after the write. */
  lemma CompleteStep(s: State, how: Handling)
    requires Inv(s)
    ensures var step := Complete(how);
            && (Enabled(s, step) <==> s.completion.next < |s.assembled|)
            && (Enabled(s, step) ==>
                  var s', id := Apply(s, step), s.assembled[s.completion.next].order;
                  && id in s.table.rows
                  && s' == s.(table := s'.table, completion := s'.completion)
                  && s'.table == (if how == Succeeds || how == FailsLate
                                  then Written(s.table, id, s.table.rows[id].(status := Completed)) else s.table)
                  && Handled(s.completion, s'.completion, how))
  {
    if s.completion.next < |s.assembled| {
      var id := s.assembled[s.completion.next].order;
      ShipNamesPaidOrder(s, s.completion.next);
      CompletionIsSafe(s, id);
      PatchLands(s.table, Completion(id), s.table.rows[id].(status := Completed), FaultOf(how));
    }
  }

  /** A commit stores the offset as far as the mark allows, and never moves back. */
  predicate Committed(g: Group, g': Group, offset: nat) {
    && g' == g.(committed := g'.committed)
    && g'.committed == if offset <= g.committed then g.committed else if offset <= g.mark then offset else g.mark
  }

  /** A new session begins again at the committed offset and keeps the history. */
  predicate Restarted(g: Group, g': Group) {
    g' == Group(g.committed, g.session + 1, g.committed, g.committed, g.committed, g.deliveries)
  }

  lemma OffsetSteps(s: State, offset: nat)
    requires Inv(s)
    ensures Enabled(s, AssemblyCommit(offset)) && Enabled(s, AssemblyRestart)
    ensures Enabled(s, CompletionCommit(offset)) && Enabled(s, CompletionRestart)
    ensures var s' := Apply(s, AssemblyCommit(offset));
            s' == s.(assembly := s'.assembly) && Committed(s.assembly, s'.assembly, offset)
    ensures var s' := Apply(s, CompletionCommit(offset));
            s' == s.(completion := s'.completion) && Committed(s.completion, s'.completion, offset)
    ensures var s' := Apply(s, AssemblyRestart);
            s' == s.(assembly := s'.assembly) && Restarted(s.assembly, s'.assembly)
    ensures var s' := Apply(s, CompletionRestart);
            s' == s.(completion := s'.completion) && Restarted(s.completion, s'.completion)
  {
  }
}
