/**
 Paid orders that nobody announces. Nothing retries a message to `order.paid`, so an order whose
 message never went out stays PAID; requests on one order do not overlap here.
 */
module SagaStranded {
  import opened Prelude
  import opened Ids
  import opened OrderTable
  import opened Saga
  import opened SagaSafety
  import opened SagaSerial

  /** A request is about to send the order's message. */
  ghost predicate BeingAnnounced(s: State, id: Uuid) {
    exists r :: r in s.requests && s.requests[r].Announcing? && s.requests[r].ord.id == id
  }

  /**
   The order a step leaves without a message: the send is rejected, the write is reported as
   failed although it landed, or the request is abandoned before the send.
   */
  function Stranded(s: State, step: Step): set<Uuid>
    requires Enabled(s, step)
  {
    match step
    case PayAnnounce(r, _, send) => if send == NotSent then {s.requests[r].ord.id} else {}
    case PayRecord(r, fault) => if fault == FailsAfter then {s.requests[r].ord.id} else {}
    case Abandon(r) => if s.requests[r].Announcing? then {s.requests[r].ord.id} else {}
    case _ => {}
  }

  function StrandedAlong(s: State, steps: seq<Step>): set<Uuid>
    requires Legal(s, steps)
    decreases |steps|
  {
    if steps == [] then {} else Stranded(s, steps[0]) + StrandedAlong(Apply(s, steps[0]), steps[1..])
  }

  /** A paid order has its message, or a request about to send it, or is stranded; a stranded one is still PAID. */
  ghost predicate OrderFate(s: State, lost: set<Uuid>, id: Uuid) {
    if id in s.table.rows && (s.table.rows[id].status == Paid || s.table.rows[id].status == Completed)
    then
      && ExactlyOne(Named(s.paid, id), BeingAnnounced(s, id), id in lost)
      && (s.table.rows[id].status == Completed ==> Named(s.paid, id))
    else !Named(s.paid, id) && !BeingAnnounced(s, id) && id !in lost
  }

  ghost predicate OrderFates(s: State, lost: set<Uuid>) {
    forall id :: OrderFate(s, lost, id)
  }

  // ----- Steps -----

  /** A step that leaves an order's status, messages and announcer as they are leaves its fate. */
  lemma SameFate(s: State, s': State, lost: set<Uuid>, lost': set<Uuid>, id: Uuid)
    requires OrderFate(s, lost, id)
    requires id in s.table.rows ==> id in s'.table.rows && s'.table.rows[id].status == s.table.rows[id].status
    requires id !in s.table.rows && id in s'.table.rows ==> s'.table.rows[id].status == PendingPayment
    requires Named(s'.paid, id) <==> Named(s.paid, id)
    requires BeingAnnounced(s', id) <==> BeingAnnounced(s, id)
    requires id in lost' <==> id in lost
    ensures OrderFate(s', lost', id)
  {
  }

  /** Only request r comes, goes or changes, and it announces no other order than this one. */
  lemma SameAnnouncer(s: State, s': State, r: nat, id: Uuid)
    requires forall k :: k != r ==> (k in s.requests <==> k in s'.requests)
    requires forall k :: k != r && k in s.requests ==> s'.requests[k] == s.requests[k]
    requires r in s.requests ==> !s.requests[r].Announcing? || s.requests[r].ord.id != id
    requires r in s'.requests ==> !s'.requests[r].Announcing? || s'.requests[r].ord.id != id
    ensures BeingAnnounced(s', id) <==> BeingAnnounced(s, id)
  {
    if BeingAnnounced(s, id) {
      var k :| k in s.requests && s.requests[k].Announcing? && s.requests[k].ord.id == id;
      assert k in s'.requests && s'.requests[k] == s.requests[k];
    }
  }

  /** The one request on an order ends, so nobody announces it. */
  lemma NobodyAnnounces(s: State, s': State, r: nat)
    requires OneRequestPerOrder(s) && r in s.requests
    requires forall k :: k in s'.requests ==> k != r && k in s.requests && s'.requests[k] == s.requests[k]
    ensures !BeingAnnounced(s', s.requests[r].ord.id)
  {
  }

  /** Steps that move no row along, send nothing, and neither begin nor end an announcement. */
  lemma QuietStep(s: State, s': State, lost: set<Uuid>, r: nat)
    requires OrderFates(s, lost) && s'.paid == s.paid
    requires forall id :: id in s.table.rows ==>
               id in s'.table.rows && s'.table.rows[id].status == s.table.rows[id].status
    requires forall id :: id !in s.table.rows && id in s'.table.rows ==> s'.table.rows[id].status == PendingPayment
    requires forall k :: k != r ==> (k in s.requests <==> k in s'.requests)
    requires forall k :: k != r && k in s.requests ==> s'.requests[k] == s.requests[k]
    requires r in s.requests ==> !s.requests[r].Announcing?
    requires r in s'.requests ==> !s'.requests[r].Announcing?
    ensures OrderFates(s', lost)
  {
    forall id ensures OrderFate(s', lost, id) {
      assert OrderFate(s, lost, id);
      SameAnnouncer(s, s', r, id);
      SameFate(s, s', lost, lost, id);
    }
  }

  /** A pending order is paid: its request is about to announce it, or has ended and stranded it. */
  lemma PaidKeepsFates(s: State, s': State, lost: set<Uuid>, lost': set<Uuid>, r: nat)
    requires OrderFates(s, lost) && OneRequestPerOrder(s) && s'.paid == s.paid
    requires r in s.requests && !s.requests[r].Announcing?
    requires var id := s.requests[r].ord.id;
             && id in s.table.rows && s.table.rows[id].status == PendingPayment
             && id in s'.table.rows && s'.table.rows == s.table.rows[id := s'.table.rows[id]]
             && s'.table.rows[id].status == Paid
             && if r in s'.requests
                then s'.requests[r].Announcing? && s'.requests[r].ord.id == id && lost' == lost
                else lost' == lost + {id}
    requires forall k :: k != r ==> (k in s.requests <==> k in s'.requests)
    requires forall k :: k != r && k in s.requests ==> s'.requests[k] == s.requests[k]
    ensures OrderFates(s', lost')
  {
    forall id ensures OrderFate(s', lost', id) {
      assert OrderFate(s, lost, id);
      if id != s.requests[r].ord.id {
        SameAnnouncer(s, s', r, id);
        SameFate(s, s', lost, lost', id);
      } else if r !in s'.requests {
        NobodyAnnounces(s, s', r);
      }
    }
  }

  lemma RecordKeepsFates(s: State, lost: set<Uuid>, r: nat, fault: DbFault)
    requires OrderFates(s, lost) && Separate(s) && RowsOk(s.ledger, s.table.rows)
    requires r in s.requests && s.requests[r].Recording? && RequestOk(s.table, s.ledger, s.requests[r])
    requires fault != FailsBefore
    ensures OrderFates(RecordPayment(s, r, fault), lost + Stranded(s, PayRecord(r, fault)))
  {
    var q := s.requests[r];
    assert HoldsOrder(s, q);
    RecordedState(s, r, fault);
    PaymentLandsWell(s, q, fault);
    assert lost + {} == lost;
    PaidKeepsFates(s, RecordPayment(s, r, fault), lost, lost + Stranded(s, PayRecord(r, fault)), r);
  }

  lemma FailedRecordKeepsFates(s: State, lost: set<Uuid>, r: nat)
    requires OrderFates(s, lost) && RowsOk(s.ledger, s.table.rows)
    requires r in s.requests && s.requests[r].Recording? && RequestOk(s.table, s.ledger, s.requests[r])
    ensures OrderFates(RecordPayment(s, r, FailsBefore), lost)
  {
    PaymentIsSafe(s, s.requests[r]);
    SafeWriteLands(s.ledger, s.table, s.requests[r].ord, FailsBefore);
    QuietStep(s, RecordPayment(s, r, FailsBefore), lost, r);
  }

  /** The announcing request ends: its message is sent, or its order is stranded. */
  lemma AnnouncerEnds(s: State, s': State, lost: set<Uuid>, lost': set<Uuid>, r: nat)
    requires OrderFates(s, lost) && OneRequestPerOrder(s) && r in s.requests && s.requests[r].Announcing?
    requires s'.requests == s.requests - {r} && s'.table == s.table
    requires forall id :: id != s.requests[r].ord.id ==>
               (Named(s'.paid, id) <==> Named(s.paid, id)) && (id in lost' <==> id in lost)
    requires Named(s.paid, s.requests[r].ord.id) ==> Named(s'.paid, s.requests[r].ord.id)
    requires Named(s'.paid, s.requests[r].ord.id) <==> s.requests[r].ord.id !in lost'
    ensures OrderFates(s', lost')
  {
    var own := s.requests[r].ord.id;
    assert BeingAnnounced(s, own);
    NobodyAnnounces(s, s', r);
    forall id ensures OrderFate(s', lost', id) {
      assert OrderFate(s, lost, id);
      if id != own {
        SameAnnouncer(s, s', r, id);
        SameFate(s, s', lost, lost', id);
      }
    }
  }

  lemma AnnounceKeepsFates(s: State, lost: set<Uuid>, r: nat, event: Uuid, send: SendFault)
    requires OrderFates(s, lost) && OneRequestPerOrder(s) && r in s.requests && Announceable(s.requests[r])
    requires NewEvent(s.paid, event)
    ensures OrderFates(AnnouncePayment(s, r, event, send), lost + Stranded(s, PayAnnounce(r, event, send)))
  {
    var s', own := AnnouncePayment(s, r, event, send), s.requests[r].ord.id;
    assert BeingAnnounced(s, own);
    assert OrderFate(s, lost, own);
    if send != NotSent {
      forall id ensures Named(s'.paid, id) <==> Named(s.paid, id) || id == own {
        NamedAfterSend(s, s', PaidMessage(event, s.requests[r].ord), id);
      }
    }
    AnnouncerEnds(s, s', lost, lost + Stranded(s, PayAnnounce(r, event, send)), r);
  }

  lemma AbandonKeepsFates(s: State, lost: set<Uuid>, r: nat)
    requires OrderFates(s, lost) && OneRequestPerOrder(s) && r in s.requests
    ensures OrderFates(Drop(s, r), lost + Stranded(s, Abandon(r)))
  {
    if s.requests[r].Announcing? {
      assert BeingAnnounced(s, s.requests[r].ord.id);
      assert OrderFate(s, lost, s.requests[r].ord.id);
      AnnouncerEnds(s, Drop(s, r), lost, lost + Stranded(s, Abandon(r)), r);
    } else {
      assert lost + {} == lost;
      QuietStep(s, Drop(s, r), lost, r);
    }
  }

  /** A write to one order that nobody announces and that is stranded nowhere. */
  lemma WriteKeepsFates(s: State, s': State, lost: set<Uuid>, r: nat, id: Uuid)
    requires OrderFates(s, lost) && s'.paid == s.paid && Lands(s.table, s'.table, id)
    requires OrderFate(s', lost, id)
    requires forall k :: k != r ==> (k in s.requests <==> k in s'.requests)
    requires forall k :: k != r && k in s.requests ==> s'.requests[k] == s.requests[k]
    requires r in s.requests ==> !s.requests[r].Announcing?
    requires r in s'.requests ==> !s'.requests[r].Announcing?
    ensures OrderFates(s', lost)
  {
    forall o ensures OrderFate(s', lost, o) {
      if o != id {
        assert OrderFate(s, lost, o);
        SameAnnouncer(s, s', r, o);
        SameFate(s, s', lost, lost, o);
      }
    }
  }

  lemma CancelKeepsFates(s: State, lost: set<Uuid>, r: nat, fault: DbFault)
    requires OrderFates(s, lost) && Separate(s) && RowsOk(s.ledger, s.table.rows)
    requires r in s.requests && s.requests[r].Cancelling? && RequestOk(s.table, s.ledger, s.requests[r])
    ensures OrderFates(RecordCancel(s, r, fault), lost)
  {
    var s', q := RecordCancel(s, r, fault), s.requests[r];
    assert HoldsOrder(s, q);
    CancellationIsSafe(s, q);
    SafeWriteLands(s.ledger, s.table, q.ord, fault);
    if fault == FailsBefore {
      QuietStep(s, s', lost, r);
    } else {
      assert OrderFate(s, lost, q.ord.id);
      SameAnnouncer(s, s', r, q.ord.id);
      WriteKeepsFates(s, s', lost, r, q.ord.id);
    }
  }

  lemma CompleteKeepsFates(s: State, lost: set<Uuid>, how: Handling)
    requires OrderFates(s, lost) && SerialInv(s) && s.completion.next < |s.assembled|
    ensures OrderFates(CompleteNext(s, how), lost)
  {
    var s' := CompleteNext(s, how);
    var id := s.assembled[s.completion.next].order;
    ShipIsPaid(s, s.completion.next);
    CompletionIsSafe(s, id);
    SafeWriteLands(s.ledger, s.table, Completion(id), FaultOf(how));
    assert OrderFate(s, lost, id);
    assert BeingAnnounced(s', id) <==> BeingAnnounced(s, id);
    if s'.table == s.table {
      SameRequests(s, s', lost);
    } else {
      CompletionKeepsFates(s, s', lost, id);
    }
  }

  lemma CompletionKeepsFates(s: State, s': State, lost: set<Uuid>, id: Uuid)
    requires OrderFates(s, lost) && s'.paid == s.paid && s'.requests == s.requests
    requires Lands(s.table, s'.table, id) && Named(s.paid, id) && s'.table.rows[id].status == Completed
    requires s.table.rows[id].status == Paid || s.table.rows[id].status == Completed
    ensures OrderFates(s', lost)
  {
    forall o ensures OrderFate(s', lost, o) {
      assert OrderFate(s, lost, o);
      assert BeingAnnounced(s', o) <==> BeingAnnounced(s, o);
    }
  }

  lemma SameRequests(s: State, s': State, lost: set<Uuid>)
    requires OrderFates(s, lost) && s'.paid == s.paid && s'.requests == s.requests
    requires forall id :: id in s.table.rows ==>
               id in s'.table.rows && s'.table.rows[id].status == s.table.rows[id].status
    requires forall id :: id !in s.table.rows && id in s'.table.rows ==> s'.table.rows[id].status == PendingPayment
    ensures OrderFates(s', lost)
  {
    forall id ensures OrderFate(s', lost, id) {
      assert OrderFate(s, lost, id);
      assert BeingAnnounced(s', id) <==> BeingAnnounced(s, id);
    }
  }

  lemma RecordStepKeepsFates(s: State, lost: set<Uuid>, step: Step)
    requires OrderFates(s, lost) && SerialInv(s) && Enabled(s, step) && step.PayRecord?
    ensures OrderFates(Apply(s, step), lost + Stranded(s, step))
  {
    assert RequestOk(s.table, s.ledger, s.requests[step.r]);
    if step.fault == FailsBefore {
      assert lost + {} == lost;
      FailedRecordKeepsFates(s, lost, step.r);
    } else {
      RecordKeepsFates(s, lost, step.r, step.fault);
    }
  }

  lemma CancelStepKeepsFates(s: State, lost: set<Uuid>, step: Step)
    requires OrderFates(s, lost) && SerialInv(s) && Enabled(s, step) && step.CancelRecord?
    ensures OrderFates(Apply(s, step), lost)
  {
    assert RequestOk(s.table, s.ledger, s.requests[step.r]);
    CancelKeepsFates(s, lost, step.r, step.fault);
  }

  lemma EndStepKeepsFates(s: State, lost: set<Uuid>, step: Step)
    requires OrderFates(s, lost) && OneRequestPerOrder(s) && Enabled(s, step) && (step.PayAnnounce? || step.Abandon?)
    ensures OrderFates(Apply(s, step), lost + Stranded(s, step))
  {
    match step
    case PayAnnounce(r, event, send) => AnnounceKeepsFates(s, lost, r, event, send);
    case Abandon(r) => AbandonKeepsFates(s, lost, r);
  }

  lemma QuietRequestStep(s: State, lost: set<Uuid>, step: Step)
    requires OrderFates(s, lost) && Enabled(s, step) && (step.PayRead? || step.CancelRead? || step.PayCharge?)
    ensures OrderFates(Apply(s, step), lost)
  {
    QuietStep(s, Apply(s, step), lost, step.r);
  }

  /** Steps of the Kafka stages, and the creation of an order. */
  lemma StageStepKeepsFates(s: State, lost: set<Uuid>, step: Step)
    requires OrderFates(s, lost) && Enabled(s, step) && (step.CreateOrder? || step.Assemble? || IsOffsetStep(step))
    ensures OrderFates(Apply(s, step), lost)
  {
    SameRequests(s, Apply(s, step), lost);
  }

  lemma StepKeepsFates(s: State, lost: set<Uuid>, step: Step)
    requires OrderFates(s, lost) && SerialInv(s) && SerialEnabled(s, step)
    ensures OrderFates(Apply(s, step), lost + Stranded(s, step))
  {
    assert lost + {} == lost;
    if step.PayRecord? {
      RecordStepKeepsFates(s, lost, step);
    } else if step.CancelRecord? {
      CancelStepKeepsFates(s, lost, step);
    } else if step.PayAnnounce? || step.Abandon? {
      EndStepKeepsFates(s, lost, step);
    } else if step.PayRead? || step.CancelRead? || step.PayCharge? {
      QuietRequestStep(s, lost, step);
    } else if step.Complete? {
      CompleteKeepsFates(s, lost, step.how);
    } else {
      StageStepKeepsFates(s, lost, step);
    }
  }

  lemma {:induction false} RunKeepsFates(s: State, lost: set<Uuid>, steps: seq<Step>)
    requires OrderFates(s, lost) && SerialInv(s) && SerialLegal(s, steps)
    ensures Legal(s, steps) && OrderFates(After(s, steps), lost + StrandedAlong(s, steps))
    decreases |steps|
  {
    if steps == [] {
      assert lost + {} == lost;
    } else {
      var s', lost' := Apply(s, steps[0]), lost + Stranded(s, steps[0]);
      SerialStep(s, steps[0]);
      StepKeepsFates(s, lost, steps[0]);
      RunKeepsFates(s', lost', steps[1..]);
      UnionInStages(lost, Stranded(s, steps[0]), StrandedAlong(s', steps[1..]));
    }
  }

  /**
   Exactly the orders that stay PAID without a message and without a request that could still
   send one: those some step of the run has stranded.
   */
  lemma StrandedExactly(steps: seq<Step>, id: Uuid)
    requires SerialLegal(START, steps)
    ensures Legal(START, steps)
    ensures var s := After(START, steps);
            id in StrandedAlong(START, steps) <==>
              id in s.table.rows && s.table.rows[id].status == Paid && !Named(s.paid, id) && !BeingAnnounced(s, id)
  {
    assert SerialInv(START);
    assert OrderFates(START, {});
    RunKeepsFates(START, {}, steps);
    assert {} + StrandedAlong(START, steps) == StrandedAlong(START, steps);
    assert OrderFate(After(START, steps), StrandedAlong(START, steps), id);
  }

  lemma {:induction false} StrandedStays(s: State, a: seq<Step>, b: seq<Step>)
    requires Legal(s, a + b)
    ensures Legal(s, a) && StrandedAlong(s, a) <= StrandedAlong(s, a + b)
    decreases |a|
  {
    if a != [] {
      assert (a + b)[0] == a[0] && (a + b)[1..] == a[1..] + b;
      StrandedStays(Apply(s, a[0]), a[1..], b);
    }
  }

  /** Such an order never gets its message, and stays PAID whatever follows. */
  lemma StrandedForever(a: seq<Step>, b: seq<Step>, id: Uuid)
    requires SerialLegal(START, a + b) && Legal(START, a) && id in StrandedAlong(START, a)
    ensures Legal(START, a + b)
    ensures var s := After(START, a + b);
            id in s.table.rows && s.table.rows[id].status == Paid && !Named(s.paid, id)
  {
    StrandedExactly(a + b, id);
    StrandedStays(START, a, b);
  }
}
