/**
 What a caller of the order service is told, and what has changed by then, for every outcome of
 an operation that nobody disturbs. Nothing here is stated through the steps of the operation.
 */
module OrderAnswers {
  import opened Prelude
  import opened Ids
  import opened Payments
  import opened OrderTable
  import opened OrderService
  import opened Saga
  import opened SagaSafety
  import opened SagaSteps

  /** The answer of `Pay`, in the order in which its checks and calls come. */
  lemma PayAnswers(s: State, id: Uuid, pm: PaymentMethod, env: PayEnv)
    requires Inv(s)
    ensures var rows := s.table.rows;
            PayEffect(s, id, pm, env).1
            == if env.readFails then Failure(DatabaseDown)
               else if id !in rows then Failure(OrderNotFound)
               else if rows[id].status == Paid || rows[id].status == Cancelled then Failure(Conflict)
               else if rows[id].status == Completed then Failure(UnknownStatus)
               else if env.reply == Unreached || env.reply == AnswerLost || pm == Unknown then Failure(BadGateway)
               else if env.reply == AnswerUnreadable then Failure(TransactionUnreadable)
               else if env.record != Healthy then Failure(DatabaseDown)
               else if env.send != Sent then Failure(SendFailed)
               else Success(env.tx)
  {
    if id in s.table.rows {
      var ord := s.table.rows[id];
      assert RowOk(s.ledger, id, ord);
      ServeKeepsMeaning(ord.id, ord.user, pm);
      if ord.status == PendingPayment {
        PayWriteLands(s, id, pm, env);
      }
    }
  }

  /** A `Pay` that finds a payable order: the user is charged as soon as the service is reached with a known method. */
  predicate Charges(s: State, id: Uuid, pm: PaymentMethod, env: PayEnv) {
    && !env.readFails && id in s.table.rows && s.table.rows[id].status == PendingPayment
    && pm != Unknown && env.reply != Unreached
  }

  /**
   Everything a `Pay` changes: the ledger once it charges, the row once the answer is readable
   and the database up, and the topic once the write is acknowledged and the send not rejected.
   Refused before the charge, it changes nothing.
   */
  lemma PayChanges(s: State, id: Uuid, pm: PaymentMethod, env: PayEnv)
    requires Inv(s)
    ensures var s' := PayEffect(s, id, pm, env).0;
            if !Charges(s, id, pm, env) then s' == s
            else
              var row := s.table.rows[id];
              && s' == s.(ledger := s'.ledger, table := s'.table, paid := s'.paid)
              && env.tx in s'.ledger && s'.ledger == s.ledger[env.tx := s'.ledger[env.tx]]
              && ChargeNames(s'.ledger[env.tx], row, pm)
              && s'.table == (if env.reply == Answered && env.record != FailsBefore
                              then Written(s.table, id, row.(tx := Some(env.tx), pm := Some(pm), status := Paid))
                              else s.table)
              && s'.paid == (if env.reply == Answered && env.record == Healthy && env.send != NotSent
                             then s.paid + [PaidOrder(env.event, id, row.user, pm, env.tx)]
                             else s.paid)
  {
    if Charges(s, id, pm, env) {
      var row := s.table.rows[id];
      assert RowOk(s.ledger, id, row);
      ServeKeepsMeaning(row.id, row.user, pm);
      ServedPay(s, id, pm, env);
      WriteAndSendChange(s.(ledger := s.ledger[env.tx := Charge(row, pm).value]), id,
                         WithPayment(row, env.tx, pm), env);
    } else {
      RefusedPay(s, id, pm, env);
    }
  }

  lemma RefusedPay(s: State, id: Uuid, pm: PaymentMethod, env: PayEnv)
    requires !Charges(s, id, pm, env)
    ensures PayEffect(s, id, pm, env).0 == s
  {
    if id in s.table.rows {
      ServeKeepsMeaning(s.table.rows[id].id, s.table.rows[id].user, pm);
    }
  }

  lemma ServedPay(s: State, id: Uuid, pm: PaymentMethod, env: PayEnv)
    requires Charges(s, id, pm, env) && Charge(s.table.rows[id], pm).Success?
    ensures var row := s.table.rows[id];
            var s1 := s.(ledger := s.ledger[env.tx := Charge(row, pm).value]);
            PayEffect(s, id, pm, env).0
            == if env.reply == Answered then RecordAndAnnounce(s1, WithPayment(row, env.tx, pm), env).0 else s1
  {
  }

  lemma WriteAndSendChange(s: State, id: Uuid, paid: Order, env: PayEnv)
    requires id in s.table.rows && paid.id == id != NIL && paid.tx.Some? && paid.pm.Some? && paid.status == Paid
    requires Checks(paid) && Patch(s.table.rows[id], paid) == paid
    ensures RecordAndAnnounce(s, paid, env).0
         == s.(table := if env.record == FailsBefore then s.table else Written(s.table, id, paid),
               paid := if env.record == Healthy && env.send != NotSent
                       then s.paid + [PaidOrder(env.event, id, paid.user, paid.pm.value, paid.tx.value)]
                       else s.paid)
  {
    PatchLands(s.table, paid, paid, env.record);
  }

  /** The answer of `Cancel`, and the one write it makes. */
  lemma CancelAnswers(s: State, id: Uuid, readFails: bool, record: DbFault)
    requires Inv(s)
    ensures var (s', err) := CancelEffect(s, id, readFails, record);
            var rows := s.table.rows;
            && err == (if readFails then Some(DatabaseDown)
                       else if id !in rows then Some(OrderNotFound)
                       else if rows[id].status == Paid || rows[id].status == Completed then Some(Conflict)
                       else if rows[id].status == Cancelled then Some(UnknownStatus)
                       else if record != Healthy then Some(DatabaseDown)
                       else None)
            && s' == if !readFails && id in rows && rows[id].status == PendingPayment && record != FailsBefore
                     then s.(table := Written(s.table, id, rows[id].(status := Cancelled))) else s
  {
    if id in s.table.rows {
      var ord := s.table.rows[id];
      assert RowOk(s.ledger, id, ord);
      if ord.status == PendingPayment {
        PatchLands(s.table, ord.(status := Cancelled), ord.(status := Cancelled), record);
      }
    }
  }

  /**
   The API promises a conflict for any state in which an order cannot be paid. `Pay` answers an
   order that is no longer pending so exactly when it is not COMPLETED, and `Cancel` exactly when
   it is not CANCELLED; these two are reported as an unknown status.
   */
  lemma ConflictExactly(s: State, id: Uuid, pm: PaymentMethod, env: PayEnv, record: DbFault)
    requires Inv(s) && id in s.table.rows && s.table.rows[id].status != PendingPayment
    ensures !env.readFails ==>
              (PayEffect(s, id, pm, env).1 == Failure(Conflict) <==> s.table.rows[id].status != Completed)
    ensures CancelEffect(s, id, false, record).1 == Some(Conflict) <==> s.table.rows[id].status != Cancelled
  {
    PayAnswers(s, id, pm, env);
    CancelAnswers(s, id, false, record);
    assert RowOk(s.ledger, id, s.table.rows[id]);
  }

  /** The answer of `Complete`, on any table: it looks at no status, so even a cancelled order becomes COMPLETED. */
  lemma CompleteAnswers(t: Table, id: Uuid, fault: DbFault)
    ensures var (t', err) := AfterUpdate(t, Completion(id), fault);
            && err == (if id == NIL then Some(EmptyId)
                       else if fault == FailsBefore then Some(DatabaseDown)
                       else if id !in t.rows then Some(if fault == FailsAfter then DatabaseDown else OrderNotFound)
                       else if t.rows[id].total < 0 then Some(CheckViolation)
                       else if fault == FailsAfter then Some(DatabaseDown)
                       else None)
            && t' == if id != NIL && fault != FailsBefore && id in t.rows && t.rows[id].total >= 0
                     then Written(t, id, t.rows[id].(status := Completed)) else t
  {
  }
}
