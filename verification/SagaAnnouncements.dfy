/**
 What becomes of the message of every payment that was written, in every run: it is on
 `order.paid`, a request is about to send it, or it was given up.
 */
module SagaAnnouncements {
  import opened Prelude
  import opened Ids
  import opened OrderTable
  import opened Saga
  import opened SagaSafety
  import opened SagaCharges

  ghost predicate OnTopic(paid: seq<PaidOrder>, tx: Uuid) {
    exists i :: 0 <= i < |paid| && paid[i].tx == tx
  }

  predicate Announces(q: Request, tx: Uuid) {
    q.Announcing? && q.ord.tx == Some(tx)
  }

  /** A request is about to send the payment's message. */
  ghost predicate ToSend(s: State, tx: Uuid) {
    exists r :: r in s.requests && Announces(s.requests[r], tx)
  }

  /**
   The payment whose message a step gives up: the send is rejected, the write is reported as
   failed although it landed, or the request is abandoned before the send.
   */
  function Unsent(s: State, step: Step): set<Uuid>
    requires Enabled(s, step)
  {
    match step
    case PayAnnounce(r, _, send) => if send == NotSent then {s.requests[r].ord.tx.value} else {}
    case PayRecord(r, fault) =>
      if fault == FailsAfter && s.requests[r].ord.tx.Some? then {s.requests[r].ord.tx.value} else {}
    case Abandon(r) =>
      if s.requests[r].Announcing? && s.requests[r].ord.tx.Some? then {s.requests[r].ord.tx.value} else {}
    case _ => {}
  }

  function UnsentAlong(s: State, steps: seq<Step>): set<Uuid>
    requires Legal(s, steps)
    decreases |steps|
  {
    if steps == [] then {} else Unsent(s, steps[0]) + UnsentAlong(Apply(s, steps[0]), steps[1..])
  }

  ghost predicate MessageFate(s: State, lost: set<Uuid>, tx: Uuid) {
    if Written(s.table, tx) then ExactlyOne(OnTopic(s.paid, tx), ToSend(s, tx), tx in lost)
    else !OnTopic(s.paid, tx) && !ToSend(s, tx) && tx !in lost
  }

  ghost predicate OneSender(s: State) {
    forall r, r' ::
      r in s.requests && r' in s.requests && r != r' && s.requests[r].Announcing? && s.requests[r'].Announcing?
      ==> s.requests[r].ord.tx != s.requests[r'].ord.tx
  }

  predicate OneMessage(paid: seq<PaidOrder>) {
    forall i, j :: 0 <= i < j < |paid| ==> paid[i].tx != paid[j].tx
  }

  ghost predicate MessageFates(s: State, lost: set<Uuid>) {
    (forall tx :: MessageFate(s, lost, tx)) && OneSender(s) && OneMessage(s.paid)
  }

  // ----- Requests -----

  /** Only request r comes, goes or changes, and it announces other payments at most. */
  lemma SameSenders(s: State, s': State, r: nat, tx: Uuid)
    requires forall k :: k != r ==> (k in s.requests <==> k in s'.requests)
    requires forall k :: k != r && k in s.requests ==> s'.requests[k] == s.requests[k]
    requires r in s.requests ==> !Announces(s.requests[r], tx)
    requires r in s'.requests ==> !Announces(s'.requests[r], tx)
    ensures ToSend(s', tx) <==> ToSend(s, tx)
  {
    if ToSend(s, tx) {
      var k :| k in s.requests && Announces(s.requests[k], tx);
      assert k in s'.requests && Announces(s'.requests[k], tx);
    }
  }

  lemma SameFate(s: State, s': State, lost: set<Uuid>, lost': set<Uuid>, tx: Uuid)
    requires MessageFate(s, lost, tx)
    requires Written(s'.table, tx) <==> Written(s.table, tx)
    requires OnTopic(s'.paid, tx) <==> OnTopic(s.paid, tx)
    requires ToSend(s', tx) <==> ToSend(s, tx)
    requires tx in lost' <==> tx in lost
    ensures MessageFate(s', lost', tx)
  {
  }

  /** A step that writes no payment, sends nothing, and neither begins nor ends an announcement. */
  lemma QuietStep(s: State, s': State, lost: set<Uuid>, r: nat)
    requires MessageFates(s, lost) && s'.paid == s.paid
    requires forall tx :: Written(s'.table, tx) <==> Written(s.table, tx)
    requires forall k :: k != r ==> (k in s.requests <==> k in s'.requests)
    requires forall k :: k != r && k in s.requests ==> s'.requests[k] == s.requests[k]
    requires r in s.requests ==> !s.requests[r].Announcing?
    requires r in s'.requests ==> !s'.requests[r].Announcing?
    ensures MessageFates(s', lost)
  {
    forall tx ensures MessageFate(s', lost, tx) {
      SameSenders(s, s', r, tx);
      SameFate(s, s', lost, lost, tx);
    }
  }

  // ----- The write of a payment -----

  /** A payment is written: its request is about to announce it, or has ended and gives its message up. */
  lemma WrittenKeepsFates(s: State, s': State, lost: set<Uuid>, lost': set<Uuid>, r: nat, tx: Uuid)
    requires MessageFates(s, lost) && s'.paid == s.paid && !Written(s.table, tx)
    requires forall t :: Written(s'.table, t) <==> Written(s.table, t) || t == tx
    requires r in s.requests && !s.requests[r].Announcing?
    requires forall k :: k != r ==> (k in s.requests <==> k in s'.requests)
    requires forall k :: k != r && k in s.requests ==> s'.requests[k] == s.requests[k]
    requires if r in s'.requests then Announces(s'.requests[r], tx) && lost' == lost else lost' == lost + {tx}
    ensures MessageFates(s', lost')
  {
    assert MessageFate(s, lost, tx);
    assert forall k :: k in s.requests ==> !Announces(s.requests[k], tx);
    forall t ensures MessageFate(s', lost', t) {
      if t != tx {
        SameSenders(s, s', r, t);
        SameFate(s, s', lost, lost', t);
      }
    }
  }

  /** A payment that a request still holds is not written yet. */
  lemma HeldIsUnwritten(s: State, given: set<Uuid>, r: nat)
    requires FatesKnown(s, given) && r in s.requests && s.requests[r].Recording? && s.requests[r].ord.tx.Some?
    requires s.requests[r].ord.tx.value in s.ledger
    ensures !Written(s.table, s.requests[r].ord.tx.value)
  {
    var tx := s.requests[r].ord.tx.value;
    assert Carries(s.requests[r], tx) && Held(s, tx) && OneFate(s, given, tx);
  }

  lemma LandedRecordKeepsFates(s: State, lost: set<Uuid>, r: nat, fault: DbFault)
    requires MessageFates(s, lost) && RowsAreWritten(s.table) && RowsOk(s.ledger, s.table.rows)
    requires r in s.requests && s.requests[r].Recording? && RequestOk(s.table, s.ledger, s.requests[r])
    requires !Written(s.table, s.requests[r].ord.tx.value) && fault != FailsBefore
    ensures MessageFates(RecordPayment(s, r, fault),
                         if fault == FailsAfter then lost + {s.requests[r].ord.tx.value} else lost)
  {
    var s', q := RecordPayment(s, r, fault), s.requests[r];
    var tx := q.ord.tx.value;
    PaymentIsSafe(s, q);
    SafeWriteLands(s.ledger, s.table, q.ord, fault);
    PaymentWritten(s.table, s'.table, q.ord.id, tx);
    WrittenKeepsFates(s, s', lost, if fault == FailsAfter then lost + {tx} else lost, r, tx);
  }

  lemma FailedRecordKeepsFates(s: State, lost: set<Uuid>, r: nat)
    requires MessageFates(s, lost) && RowsOk(s.ledger, s.table.rows)
    requires r in s.requests && s.requests[r].Recording? && RequestOk(s.table, s.ledger, s.requests[r])
    ensures MessageFates(RecordPayment(s, r, FailsBefore), lost)
  {
    PaymentIsSafe(s, s.requests[r]);
    SafeWriteLands(s.ledger, s.table, s.requests[r].ord, FailsBefore);
    QuietStep(s, RecordPayment(s, r, FailsBefore), lost, r);
  }

  // ----- The send -----

  /** The announcing request ends: its message is sent, or given up. */
  lemma SenderEnds(s: State, s': State, lost: set<Uuid>, lost': set<Uuid>, r: nat, tx: Uuid)
    requires MessageFates(s, lost) && r in s.requests && Announces(s.requests[r], tx)
    requires s'.requests == s.requests - {r} && s'.table == s.table
    requires forall t :: t != tx ==> (OnTopic(s'.paid, t) <==> OnTopic(s.paid, t)) && (t in lost' <==> t in lost)
    requires OnTopic(s'.paid, tx) <==> tx !in lost'
    requires OneMessage(s'.paid)
    ensures MessageFates(s', lost')
  {
    assert ToSend(s, tx) && MessageFate(s, lost, tx);
    forall t ensures MessageFate(s', lost', t) {
      if t != tx {
        SameSenders(s, s', r, t);
        SameFate(s, s', lost, lost', t);
      }
    }
  }

  lemma SentOneMore(paid: seq<PaidOrder>, m: PaidOrder, tx: Uuid)
    ensures OnTopic(paid + [m], tx) <==> OnTopic(paid, tx) || m.tx == tx
    ensures !OnTopic(paid, m.tx) && OneMessage(paid) ==> OneMessage(paid + [m])
  {
    var all := paid + [m];
    assert all[|paid|] == m;
    if OnTopic(paid, tx) {
      var i :| 0 <= i < |paid| && paid[i].tx == tx;
      assert all[i].tx == tx;
    }
    if !OnTopic(paid, m.tx) && OneMessage(paid) {
      forall i, j | 0 <= i < j < |all| ensures all[i].tx != all[j].tx {
        assert all[i] == paid[i];
      }
    }
  }

  lemma AnnounceKeepsFates(s: State, lost: set<Uuid>, r: nat, event: Uuid, send: SendFault)
    requires MessageFates(s, lost) && Enabled(s, PayAnnounce(r, event, send))
    ensures MessageFates(AnnouncePayment(s, r, event, send), lost + Unsent(s, PayAnnounce(r, event, send)))
  {
    var s', ord := AnnouncePayment(s, r, event, send), s.requests[r].ord;
    var tx := ord.tx.value;
    assert Announces(s.requests[r], tx) && ToSend(s, tx) && MessageFate(s, lost, tx);
    if send != NotSent {
      forall t ensures OnTopic(s'.paid, t) <==> OnTopic(s.paid, t) || t == tx {
        SentOneMore(s.paid, PaidMessage(event, ord), t);
      }
      SentOneMore(s.paid, PaidMessage(event, ord), tx);
    }
    SenderEnds(s, s', lost, lost + Unsent(s, PayAnnounce(r, event, send)), r, tx);
  }

  lemma AbandonKeepsFates(s: State, lost: set<Uuid>, r: nat)
    requires MessageFates(s, lost) && r in s.requests
    requires s.requests[r].Announcing? ==> s.requests[r].ord.tx.Some?
    ensures MessageFates(Drop(s, r), lost + Unsent(s, Abandon(r)))
  {
    if s.requests[r].Announcing? {
      var tx := s.requests[r].ord.tx.value;
      assert ToSend(s, tx) && MessageFate(s, lost, tx) by {
        assert Announces(s.requests[r], tx);
      }
      SenderEnds(s, Drop(s, r), lost, lost + {tx}, r, tx);
    } else {
      assert lost + {} == lost;
      QuietStep(s, Drop(s, r), lost, r);
    }
  }

  // ----- The other writes -----

  lemma CancelKeepsFates(s: State, lost: set<Uuid>, r: nat, fault: DbFault)
    requires MessageFates(s, lost) && RowsAreWritten(s.table) && RowsOk(s.ledger, s.table.rows)
    requires r in s.requests && s.requests[r].Cancelling? && RequestOk(s.table, s.ledger, s.requests[r])
    ensures MessageFates(RecordCancel(s, r, fault), lost)
  {
    var s', q := RecordCancel(s, r, fault), s.requests[r];
    CancellationIsSafe(s, q);
    SafeWriteLands(s.ledger, s.table, q.ord, fault);
    WriteWithoutPayment(s.table, s'.table, q.ord.id);
    QuietStep(s, s', lost, r);
  }

  lemma CompleteKeepsFates(s: State, lost: set<Uuid>, how: Handling)
    requires MessageFates(s, lost) && RowsAreWritten(s.table)
    requires RowsOk(s.ledger, s.table.rows) && MessagesOk(s) && ShipsOk(s) && s.completion.next < |s.assembled|
    ensures MessageFates(CompleteNext(s, how), lost)
  {
    var s' := CompleteNext(s, how);
    var id := s.assembled[s.completion.next].order;
    ShipNamesPaidOrder(s, s.completion.next);
    CompletionIsSafe(s, id);
    SafeWriteLands(s.ledger, s.table, Completion(id), FaultOf(how));
    WriteWithoutPayment(s.table, s'.table, id);
    SameRequests(s, s', lost);
  }

  lemma SameRequests(s: State, s': State, lost: set<Uuid>)
    requires MessageFates(s, lost) && s'.paid == s.paid && s'.requests == s.requests
    requires forall tx :: Written(s'.table, tx) <==> Written(s.table, tx)
    ensures MessageFates(s', lost)
  {
    forall tx ensures MessageFate(s', lost, tx) {
      assert ToSend(s', tx) <==> ToSend(s, tx);
      SameFate(s, s', lost, lost, tx);
    }
  }

  // ----- Runs -----

  lemma RecordStepKeepsFates(s: State, given: set<Uuid>, lost: set<Uuid>, step: Step)
    requires FatesKnown(s, given) && MessageFates(s, lost) && Enabled(s, step) && step.PayRecord?
    requires RowsOk(s.ledger, s.table.rows) && RequestsOk(s)
    ensures MessageFates(Apply(s, step), lost + Unsent(s, step))
  {
    var tx, unsent := s.requests[step.r].ord.tx, Unsent(s, step);
    assert RequestOk(s.table, s.ledger, s.requests[step.r]);
    assert unsent == if step.fault == FailsAfter then {tx.value} else {};
    if step.fault == FailsBefore {
      assert lost + unsent == lost;
      FailedRecordKeepsFates(s, lost, step.r);
    } else {
      assert lost + unsent == if step.fault == FailsAfter then lost + {tx.value} else lost;
      HeldIsUnwritten(s, given, step.r);
      LandedRecordKeepsFates(s, lost, step.r, step.fault);
    }
  }

  lemma EndStepKeepsFates(s: State, lost: set<Uuid>, step: Step)
    requires RequestsOk(s) && MessageFates(s, lost) && Enabled(s, step) && (step.PayAnnounce? || step.Abandon?)
    ensures MessageFates(Apply(s, step), lost + Unsent(s, step))
  {
    assert RequestOk(s.table, s.ledger, s.requests[step.r]);
    match step
    case PayAnnounce(r, event, send) => AnnounceKeepsFates(s, lost, r, event, send);
    case Abandon(r) => AbandonKeepsFates(s, lost, r);
  }

  lemma QuietRequestStep(s: State, lost: set<Uuid>, step: Step)
    requires MessageFates(s, lost) && Enabled(s, step) && (step.PayRead? || step.CancelRead? || step.PayCharge?)
    ensures MessageFates(Apply(s, step), lost)
  {
    QuietStep(s, Apply(s, step), lost, step.r);
  }

  lemma StageStepKeepsFates(s: State, lost: set<Uuid>, step: Step)
    requires MessageFates(s, lost) && Enabled(s, step) && (step.CreateOrder? || step.Assemble? || IsOffsetStep(step))
    ensures MessageFates(Apply(s, step), lost)
  {
    assert Apply(s, step).table.landed == s.table.landed;
    SameRequests(s, Apply(s, step), lost);
  }

  lemma StepKeepsMessageFates(s: State, given: set<Uuid>, lost: set<Uuid>, step: Step)
    requires Inv(s) && FatesKnown(s, given) && MessageFates(s, lost) && Enabled(s, step)
    ensures MessageFates(Apply(s, step), lost + Unsent(s, step))
  {
    assert lost + {} == lost;
    if step.PayRecord? {
      RecordStepKeepsFates(s, given, lost, step);
    } else if step.PayAnnounce? || step.Abandon? {
      EndStepKeepsFates(s, lost, step);
    } else if step.CancelRecord? {
      assert RequestOk(s.table, s.ledger, s.requests[step.r]);
      CancelKeepsFates(s, lost, step.r, step.fault);
    } else if step.Complete? {
      CompleteKeepsFates(s, lost, step.how);
    } else if step.PayRead? || step.CancelRead? || step.PayCharge? {
      QuietRequestStep(s, lost, step);
    } else {
      StageStepKeepsFates(s, lost, step);
    }
  }

  lemma {:induction false} RunKeepsMessageFates(s: State, given: set<Uuid>, lost: set<Uuid>, steps: seq<Step>)
    requires Inv(s) && FatesKnown(s, given) && MessageFates(s, lost) && Legal(s, steps)
    ensures MessageFates(After(s, steps), lost + UnsentAlong(s, steps))
    decreases |steps|
  {
    if steps == [] {
      assert lost + {} == lost;
    } else {
      var s' := Apply(s, steps[0]);
      StepKeepsInv(s, steps[0]);
      StepKeepsFates(s, given, steps[0]);
      StepKeepsMessageFates(s, given, lost, steps[0]);
      RunKeepsMessageFates(s', given + GivenUp(s, steps[0]), lost + Unsent(s, steps[0]), steps[1..]);
      UnionInStages(lost, Unsent(s, steps[0]), UnsentAlong(s', steps[1..]));
    }
  }

  /**
   In every reachable state every payment that was written has exactly one of three fates: one
   message on `order.paid` carries it, a request is about to send it, or it was given up and
   nobody will send it; and no message carries a payment that was not written.
   */
  lemma EveryPaymentHasOneFate(steps: seq<Step>, tx: Uuid)
    requires Legal(START, steps)
    ensures var s := After(START, steps);
            && OneMessage(s.paid)
            && if Written(s.table, tx)
               then ExactlyOne(OnTopic(s.paid, tx), ToSend(s, tx), tx in UnsentAlong(START, steps))
               else !OnTopic(s.paid, tx) && !ToSend(s, tx) && tx !in UnsentAlong(START, steps)
  {
    StartIsGood();
    RunKeepsMessageFates(START, {}, {}, steps);
    assert {} + UnsentAlong(START, steps) == UnsentAlong(START, steps);
    assert MessageFate(After(START, steps), UnsentAlong(START, steps), tx);
  }

  lemma {:induction false} UnsentStays(s: State, a: seq<Step>, b: seq<Step>)
    requires Legal(s, a + b)
    ensures Legal(s, a) && UnsentAlong(s, a) <= UnsentAlong(s, a + b)
    decreases |a|
  {
    if a != [] {
      assert (a + b)[0] == a[0] && (a + b)[1..] == a[1..] + b;
      UnsentStays(Apply(s, a[0]), a[1..], b);
    }
  }

  /** A message that was given up is never sent, whatever follows and however requests overlap. */
  lemma UnsentForever(a: seq<Step>, b: seq<Step>, tx: Uuid)
    requires Legal(START, a + b) && Legal(START, a) && tx in UnsentAlong(START, a)
    ensures !OnTopic(After(START, a + b).paid, tx)
  {
    UnsentStays(START, a, b);
    EveryPaymentHasOneFate(a + b, tx);
  }
}
