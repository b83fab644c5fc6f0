/** What becomes of every charge, in every run: it is written, held by a request, or given up. */
module SagaCharges {
  import opened Prelude
  import opened Ids
  import opened OrderTable
  import opened Saga
  import opened SagaSafety

  /** Some write that landed carries the transaction. */
  ghost predicate Written(t: Table, tx: Uuid) {
    exists k :: 0 <= k < |t.landed| && t.landed[k].after.tx == Some(tx)
  }

  predicate Carries(q: Request, tx: Uuid) {
    q.Recording? && q.ord.tx == Some(tx)
  }

  /** A request is still about to write it. */
  ghost predicate Held(s: State, tx: Uuid) {
    exists r :: r in s.requests && Carries(s.requests[r], tx)
  }

  /**
   The charge a step gives up: its answer is lost or unreadable, the database is down before
   the write, or the request is abandoned with the transaction in hand.
   */
  function GivenUp(s: State, step: Step): set<Uuid>
    requires Enabled(s, step)
  {
    match step
    case PayCharge(r, tx, reply) =>
      if (reply == AnswerLost || reply == AnswerUnreadable) && Charge(s.requests[r].ord, s.requests[r].pm).Success?
      then {tx} else {}
    case PayRecord(r, fault) =>
      if fault == FailsBefore && s.requests[r].ord.tx.Some? then {s.requests[r].ord.tx.value} else {}
    case Abandon(r) =>
      if s.requests[r].Recording? && s.requests[r].ord.tx.Some? then {s.requests[r].ord.tx.value} else {}
    case _ => {}
  }

  function GivenUpAlong(s: State, steps: seq<Step>): set<Uuid>
    requires Legal(s, steps)
    decreases |steps|
  {
    if steps == [] then {} else GivenUp(s, steps[0]) + GivenUpAlong(Apply(s, steps[0]), steps[1..])
  }

  ghost predicate OneFate(s: State, lost: set<Uuid>, tx: Uuid) {
    ExactlyOne(Written(s.table, tx), Held(s, tx), tx in lost)
  }

  ghost predicate RowsAreWritten(t: Table) {
    forall id :: id in t.rows && t.rows[id].tx.Some? ==> Written(t, t.rows[id].tx.value)
  }

  ghost predicate OneHolder(s: State) {
    forall r, r' ::
      r in s.requests && r' in s.requests && r != r' && s.requests[r].Recording? && s.requests[r'].Recording?
      ==> s.requests[r].ord.tx != s.requests[r'].ord.tx
  }

  ghost predicate FatesKnown(s: State, lost: set<Uuid>) {
    && (forall tx :: tx in s.ledger ==> OneFate(s, lost, tx))
    && (forall tx :: tx !in s.ledger ==> !Written(s.table, tx) && !Held(s, tx) && tx !in lost)
    && RowsAreWritten(s.table)
    && OneHolder(s)
  }

  // ----- Writes -----

  lemma WrittenAfter(t: Table, t': Table, id: Uuid, tx: Uuid)
    requires Lands(t, t', id)
    ensures Written(t', tx) <==> Written(t, tx) || t'.rows[id].tx == Some(tx)
  {
    if Written(t, tx) {
      var k :| 0 <= k < |t.landed| && t.landed[k].after.tx == Some(tx);
      assert t'.landed[k] == t.landed[k];
    }
    assert t'.landed[|t.landed|].after == t'.rows[id];
  }

  lemma RowsStayWritten(t: Table, t': Table, id: Uuid)
    requires RowsAreWritten(t) && Lands(t, t', id)
    ensures RowsAreWritten(t')
  {
    forall o | o in t'.rows && t'.rows[o].tx.Some? ensures Written(t', t'.rows[o].tx.value) {
      WrittenAfter(t, t', id, t'.rows[o].tx.value);
    }
  }

  /** A write that sets no transaction says nothing new about any. */
  lemma NothingNewWritten(t: Table, t': Table, id: Uuid, tx: Uuid)
    requires RowsAreWritten(t) && Lands(t, t', id) && t'.rows[id].tx == t.rows[id].tx
    ensures Written(t', tx) <==> Written(t, tx)
  {
    WrittenAfter(t, t', id, tx);
  }

  // ----- Requests -----

  /** Who holds what does not change when only requests without a transaction come, go or change. */
  lemma SameHolders(s: State, s': State, r: nat, tx: Uuid)
    requires forall k :: k != r ==> (k in s.requests <==> k in s'.requests)
    requires forall k :: k != r && k in s.requests ==> s'.requests[k] == s.requests[k]
    requires r in s.requests ==> !Carries(s.requests[r], tx)
    requires r in s'.requests ==> !Carries(s'.requests[r], tx)
    ensures Held(s', tx) <==> Held(s, tx)
  {
    if Held(s, tx) {
      var k :| k in s.requests && Carries(s.requests[k], tx);
      assert k in s'.requests && Carries(s'.requests[k], tx);
    }
  }

  /** The holder of a transaction lets go of it. */
  lemma NobodyHolds(s: State, s': State, r: nat, tx: Uuid)
    requires OneHolder(s) && r in s.requests && Carries(s.requests[r], tx)
    requires forall k :: k != r && k in s'.requests ==> k in s.requests && s'.requests[k] == s.requests[k]
    requires r in s'.requests ==> !s'.requests[r].Recording?
    ensures Held(s, tx) && !Held(s', tx)
  {
  }

  // ----- Steps -----

  /** A step that leaves the ledger and what is written and held as it is. */
  lemma QuietStep(s: State, s': State, lost: set<Uuid>, r: nat)
    requires FatesKnown(s, lost) && s'.ledger == s.ledger
    requires forall tx :: Written(s'.table, tx) <==> Written(s.table, tx)
    requires RowsAreWritten(s'.table)
    requires forall k :: k != r ==> (k in s.requests <==> k in s'.requests)
    requires forall k :: k != r && k in s.requests ==> s'.requests[k] == s.requests[k]
    requires r in s.requests ==> !s.requests[r].Recording?
    requires r in s'.requests ==> !s'.requests[r].Recording?
    ensures FatesKnown(s', lost)
  {
    forall tx ensures Held(s', tx) <==> Held(s, tx) {
      SameHolders(s, s', r, tx);
    }
    assert forall tx :: OneFate(s', lost, tx) <==> OneFate(s, lost, tx);
  }

  /** The holder of a transaction ends, and either its write has landed or the charge is given up. */
  lemma HolderEnds(s: State, s': State, lost: set<Uuid>, lost': set<Uuid>, r: nat, held: Uuid)
    requires FatesKnown(s, lost) && s'.ledger == s.ledger && held in s.ledger
    requires r in s.requests && Carries(s.requests[r], held)
    requires forall k :: k != r ==> (k in s.requests <==> k in s'.requests)
    requires forall k :: k != r && k in s.requests ==> s'.requests[k] == s.requests[k]
    requires r in s'.requests ==> !s'.requests[r].Recording?
    requires forall tx :: tx != held ==>
               (Written(s'.table, tx) <==> Written(s.table, tx)) && (tx in lost' <==> tx in lost)
    requires Written(s'.table, held) <==> held !in lost'
    requires RowsAreWritten(s'.table)
    ensures FatesKnown(s', lost')
  {
    NobodyHolds(s, s', r, held);
    forall tx | tx != held ensures Held(s', tx) <==> Held(s, tx) {
      SameHolders(s, s', r, tx);
    }
    forall tx | tx in s'.ledger ensures OneFate(s', lost', tx) {
      assert OneFate(s, lost, tx);
    }
  }

  lemma ChargeKeepsFates(s: State, lost: set<Uuid>, r: nat, tx: Uuid, reply: ChargeReply)
    requires FatesKnown(s, lost) && r in s.requests && s.requests[r].Charging? && tx !in s.ledger
    ensures FatesKnown(ChargeFor(s, r, tx, reply), lost + GivenUp(s, PayCharge(r, tx, reply)))
  {
    var s' := ChargeFor(s, r, tx, reply);
    var lost' := lost + GivenUp(s, PayCharge(r, tx, reply));
    forall t | t != tx ensures Held(s', t) <==> Held(s, t) {
      SameHolders(s, s', r, t);
    }
    if r in s'.requests {
      assert Carries(s'.requests[r], tx);
      assert Held(s', tx);
      HeldTransactionIsKnown(s, lost);
    } else {
      SameHolders(s, s', r, tx);
    }
    forall t | t in s'.ledger ensures OneFate(s', lost', t) {
      if t != tx {
        assert OneFate(s, lost, t);
      }
    }
  }

  /** No request holds a transaction that the ledger does not know. */
  lemma HeldTransactionIsKnown(s: State, lost: set<Uuid>)
    requires FatesKnown(s, lost)
    ensures forall k :: k in s.requests && s.requests[k].Recording? && s.requests[k].ord.tx.Some?
              ==> s.requests[k].ord.tx.value in s.ledger
  {
    forall k | k in s.requests && s.requests[k].Recording? && s.requests[k].ord.tx.Some?
      ensures s.requests[k].ord.tx.value in s.ledger
    {
      var tx := s.requests[k].ord.tx.value;
      assert Carries(s.requests[k], tx) && Held(s, tx);
    }
  }

  /** A write that pays makes its own transaction written, and no other. */
  lemma PaymentWritten(t: Table, t': Table, id: Uuid, tx: Uuid)
    requires RowsAreWritten(t) && Lands(t, t', id) && t'.rows[id].tx == Some(tx)
    ensures RowsAreWritten(t') && forall u :: Written(t', u) <==> Written(t, u) || u == tx
  {
    RowsStayWritten(t, t', id);
    forall u ensures Written(t', u) <==> Written(t, u) || u == tx {
      WrittenAfter(t, t', id, u);
    }
  }

  lemma LandedRecordKeepsFates(s: State, lost: set<Uuid>, r: nat, fault: DbFault)
    requires FatesKnown(s, lost) && RowsOk(s.ledger, s.table.rows) && fault != FailsBefore
    requires r in s.requests && s.requests[r].Recording? && RequestOk(s.table, s.ledger, s.requests[r])
    ensures FatesKnown(RecordPayment(s, r, fault), lost)
  {
    var s', q := RecordPayment(s, r, fault), s.requests[r];
    var tx := q.ord.tx.value;
    PaymentIsSafe(s, q);
    SafeWriteLands(s.ledger, s.table, q.ord, fault);
    assert Carries(q, tx) && Held(s, tx) && OneFate(s, lost, tx);
    PaymentWritten(s.table, s'.table, q.ord.id, tx);
    HolderEnds(s, s', lost, lost, r, tx);
  }

  lemma FailedRecordKeepsFates(s: State, lost: set<Uuid>, r: nat)
    requires FatesKnown(s, lost) && RowsOk(s.ledger, s.table.rows)
    requires r in s.requests && s.requests[r].Recording? && RequestOk(s.table, s.ledger, s.requests[r])
    ensures FatesKnown(RecordPayment(s, r, FailsBefore), lost + {s.requests[r].ord.tx.value})
  {
    var s', q := RecordPayment(s, r, FailsBefore), s.requests[r];
    var tx := q.ord.tx.value;
    PaymentIsSafe(s, q);
    SafeWriteLands(s.ledger, s.table, q.ord, FailsBefore);
    assert Carries(q, tx) && Held(s, tx) && OneFate(s, lost, tx);
    HolderEnds(s, s', lost, lost + {tx}, r, tx);
  }

  lemma RecordKeepsFates(s: State, lost: set<Uuid>, r: nat, fault: DbFault)
    requires FatesKnown(s, lost) && RowsOk(s.ledger, s.table.rows)
    requires r in s.requests && s.requests[r].Recording? && RequestOk(s.table, s.ledger, s.requests[r])
    ensures FatesKnown(RecordPayment(s, r, fault), lost + GivenUp(s, PayRecord(r, fault)))
  {
    var given := GivenUp(s, PayRecord(r, fault));
    if fault == FailsBefore {
      assert given == {s.requests[r].ord.tx.value};
      FailedRecordKeepsFates(s, lost, r);
    } else {
      assert lost + given == lost;
      LandedRecordKeepsFates(s, lost, r, fault);
    }
  }

  lemma AbandonKeepsFates(s: State, lost: set<Uuid>, r: nat)
    requires FatesKnown(s, lost) && r in s.requests && RequestOk(s.table, s.ledger, s.requests[r])
    ensures FatesKnown(Drop(s, r), lost + GivenUp(s, Abandon(r)))
  {
    var q := s.requests[r];
    if q.Recording? {
      var tx := q.ord.tx.value;
      assert Carries(q, tx) && Held(s, tx) && OneFate(s, lost, tx);
      HolderEnds(s, Drop(s, r), lost, lost + {tx}, r, tx);
    } else {
      QuietStep(s, Drop(s, r), lost, r);
    }
  }

  lemma CancelKeepsFates(s: State, lost: set<Uuid>, r: nat, fault: DbFault)
    requires FatesKnown(s, lost) && RowsOk(s.ledger, s.table.rows)
    requires r in s.requests && s.requests[r].Cancelling? && RequestOk(s.table, s.ledger, s.requests[r])
    ensures FatesKnown(RecordCancel(s, r, fault), lost)
  {
    var s' := RecordCancel(s, r, fault);
    var q := s.requests[r];
    CancellationIsSafe(s, q);
    SafeWriteLands(s.ledger, s.table, q.ord, fault);
    WriteWithoutPayment(s.table, s'.table, q.ord.id);
    QuietStep(s, s', lost, r);
  }

  /** A write that keeps the row's transaction, or no write. */
  lemma WriteWithoutPayment(t: Table, t': Table, id: Uuid)
    requires RowsAreWritten(t) && (t' == t || (Lands(t, t', id) && t'.rows[id].tx == t.rows[id].tx))
    ensures RowsAreWritten(t') && forall tx :: Written(t', tx) <==> Written(t, tx)
  {
    if t' != t {
      RowsStayWritten(t, t', id);
      forall tx ensures Written(t', tx) <==> Written(t, tx) {
        NothingNewWritten(t, t', id, tx);
      }
    }
  }

  lemma CompleteKeepsFates(s: State, lost: set<Uuid>, how: Handling)
    requires FatesKnown(s, lost) && RowsOk(s.ledger, s.table.rows) && MessagesOk(s) && ShipsOk(s)
    requires s.completion.next < |s.assembled|
    ensures FatesKnown(CompleteNext(s, how), lost)
  {
    var s' := CompleteNext(s, how);
    var id := s.assembled[s.completion.next].order;
    ShipNamesPaidOrder(s, s.completion.next);
    CompletionIsSafe(s, id);
    SafeWriteLands(s.ledger, s.table, Completion(id), FaultOf(how));
    WriteWithoutPayment(s.table, s'.table, id);
    SameRequests(s, s', lost);
  }

  lemma SameRequests(s: State, s': State, lost: set<Uuid>)
    requires FatesKnown(s, lost) && s'.ledger == s.ledger && s'.requests == s.requests
    requires RowsAreWritten(s'.table) && forall tx :: Written(s'.table, tx) <==> Written(s.table, tx)
    ensures FatesKnown(s', lost)
  {
    assert forall tx :: Held(s', tx) <==> Held(s, tx);
    assert forall tx :: OneFate(s', lost, tx) <==> OneFate(s, lost, tx);
  }

  lemma CreateKeepsFates(s: State, lost: set<Uuid>, step: Step)
    requires FatesKnown(s, lost) && step.CreateOrder? && Enabled(s, step)
    ensures FatesKnown(Apply(s, step), lost)
  {
    var s' := Apply(s, step);
    assert s'.table.landed == s.table.landed;
    assert forall tx :: Written(s'.table, tx) <==> Written(s.table, tx);
    SameRequests(s, s', lost);
  }

  lemma ReadKeepsFates(s: State, lost: set<Uuid>, step: Step)
    requires FatesKnown(s, lost) && Enabled(s, step) && (step.PayRead? || step.CancelRead?)
    ensures FatesKnown(Apply(s, step), lost)
  {
    QuietStep(s, Apply(s, step), lost, step.r);
  }

  lemma AnnounceKeepsFates(s: State, lost: set<Uuid>, step: Step)
    requires FatesKnown(s, lost) && Enabled(s, step) && step.PayAnnounce?
    ensures FatesKnown(Apply(s, step), lost)
  {
    QuietStep(s, Apply(s, step), lost, step.r);
  }

  lemma RequestStepKeepsFates(s: State, lost: set<Uuid>, step: Step)
    requires Inv(s) && FatesKnown(s, lost) && Enabled(s, step)
    requires step.PayCharge? || step.PayRecord? || step.CancelRecord? || step.Abandon?
    ensures FatesKnown(Apply(s, step), lost + GivenUp(s, step))
  {
    assert RequestOk(s.table, s.ledger, s.requests[step.r]);
    match step
    case PayCharge(r, tx, reply) => ChargeKeepsFates(s, lost, r, tx, reply);
    case PayRecord(r, fault) => RecordKeepsFates(s, lost, r, fault);
    case CancelRecord(r, fault) =>
      assert lost + {} == lost;
      CancelKeepsFates(s, lost, r, fault);
    case Abandon(r) => AbandonKeepsFates(s, lost, r);
  }

  lemma StepKeepsFates(s: State, lost: set<Uuid>, step: Step)
    requires Inv(s) && FatesKnown(s, lost) && Enabled(s, step)
    ensures FatesKnown(Apply(s, step), lost + GivenUp(s, step))
  {
    assert lost + {} == lost;
    if step.PayCharge? || step.PayRecord? || step.CancelRecord? || step.Abandon? {
      RequestStepKeepsFates(s, lost, step);
    } else if step.PayRead? || step.CancelRead? {
      ReadKeepsFates(s, lost, step);
    } else if step.PayAnnounce? {
      AnnounceKeepsFates(s, lost, step);
    } else if step.CreateOrder? {
      CreateKeepsFates(s, lost, step);
    } else if step.Complete? {
      CompleteKeepsFates(s, lost, step.how);
    } else {
      SameRequests(s, Apply(s, step), lost);
    }
  }

  lemma {:induction false} RunKeepsFates(s: State, lost: set<Uuid>, steps: seq<Step>)
    requires Inv(s) && FatesKnown(s, lost) && Legal(s, steps)
    ensures FatesKnown(After(s, steps), lost + GivenUpAlong(s, steps))
    decreases |steps|
  {
    if steps == [] {
      assert lost + {} == lost;
    } else {
      var s', lost' := Apply(s, steps[0]), lost + GivenUp(s, steps[0]);
      StepKeepsInv(s, steps[0]);
      StepKeepsFates(s, lost, steps[0]);
      RunKeepsFates(s', lost', steps[1..]);
      UnionInStages(lost, GivenUp(s, steps[0]), GivenUpAlong(s', steps[1..]));
    }
  }

  /**
   In every reachable state every charge has exactly one of three fates: some write that landed
   carries it, one request is still about to write it, or it was given up, and then no row
   carries it.
   */
  lemma EveryChargeHasOneFate(steps: seq<Step>, tx: Uuid)
    requires Legal(START, steps) && tx in After(START, steps).ledger
    ensures var s := After(START, steps);
            && ExactlyOne(Written(s.table, tx), Held(s, tx), tx in GivenUpAlong(START, steps))
            && (!Written(s.table, tx) ==> forall id :: id in s.table.rows ==> s.table.rows[id].tx != Some(tx))
  {
    StartIsGood();
    RunKeepsFates(START, {}, steps);
    assert {} + GivenUpAlong(START, steps) == GivenUpAlong(START, steps);
    assert OneFate(After(START, steps), GivenUpAlong(START, steps), tx);
  }
}
