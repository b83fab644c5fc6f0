/**
 The order saga as one shared state and the steps that change it. Every request is split at
 its I/O points, so any other step may run between two steps of a request; nothing locks a row.
 A step's arguments say how its I/O goes: a call can fail before or after taking effect, a
 handler can fail or panic, a message can be redelivered, and a request can stop anywhere.
 */
module Saga {
  import opened Prelude
  import opened Ids
  import opened Payments
  import opened OrderTable
  import opened Kafka

  /** A message on the topic `order.paid`. */
  datatype PaidOrder = PaidOrder(event: Uuid, order: Uuid, user: Uuid, pm: PaymentMethod, tx: Uuid)

  /** A message on the topic `order.assembled`. */
  datatype AssembledShip = AssembledShip(event: Uuid, order: Uuid, user: Uuid)

  /**
   An in-flight request: the order it holds in memory and, for the proofs, how many writes had
   landed when it read that order. The constructor names the I/O that comes next.
   */
  datatype Request =
    | Charging(ord: Order, readAt: nat, pm: PaymentMethod)
    | Recording(ord: Order, readAt: nat)
    | Announcing(ord: Order, readAt: nat)
    | Cancelling(ord: Order, readAt: nat)

  /** The table, the payment service's ledger by transaction id, the requests, the topics and their consumers. */
  datatype State = State(
    table: Table,
    ledger: map<Uuid, PayParams>,
    requests: map<nat, Request>,
    paid: seq<PaidOrder>,
    assembled: seq<AssembledShip>,
    assembly: Group,
    completion: Group)

  const START := State(Table(map[], []), map[], map[], [], [], NEW_GROUP, NEW_GROUP)

  /** How the payment call goes: it never arrives, it is answered, or its answer is lost or not a UUID. */
  datatype ChargeReply = Unreached | Answered | AnswerLost | AnswerUnreadable

  /** How a send goes: acknowledged, rejected, or stored by the broker but reported as failed. */
  datatype SendFault = Sent | NotSent | SentUnacknowledged

  /** How a handler call goes; a message that cannot be parsed or a done context fails early. */
  datatype Handling = Succeeds | FailsEarly | FailsLate | Panics

  datatype Step =
    | CreateOrder(id: Uuid, user: Uuid, parts: seq<Uuid>, total: Int64, fault: DbFault)
    | PayRead(r: nat, id: Uuid, pm: PaymentMethod, fails: bool)
    | PayCharge(r: nat, tx: Uuid, reply: ChargeReply)
    | PayRecord(r: nat, fault: DbFault)
    | PayAnnounce(r: nat, event: Uuid, send: SendFault)
    | CancelRead(r: nat, id: Uuid, fails: bool)
    | CancelRecord(r: nat, fault: DbFault)
    | Abandon(r: nat)
    | Assemble(how: Handling)
    | Complete(how: Handling)
    | AssemblyCommit(offset: nat)
    | AssemblyRestart
    | CompletionCommit(offset: nat)
    | CompletionRestart

  // ----- The order service -----

  function NewOrder(user: Uuid, parts: seq<Uuid>, total: Int64): Order {
    Order(NIL, user, parts, total, None, None, PendingPayment)
  }

  function Create(s: State, id: Uuid, user: Uuid, parts: seq<Uuid>, total: Int64, fault: DbFault): State {
    s.(table := AfterInsert(s.table, id, NewOrder(user, parts, total), fault).0)
  }

  /** The read of `Pay` and its check that the order is still to be paid. */
  function ReadForPay(t: Table, id: Uuid, fails: bool): Result<Order, OrderError> {
    match ById(t, id, fails)
    case Failure(e) => Failure(e)
    case Success(ord) =>
      match ord.status
      case PendingPayment => Success(ord)
      case Paid => Failure(Conflict)
      case Cancelled => Failure(Conflict)
      case _ => Failure(UnknownStatus)
  }

  function BeginPay(s: State, r: nat, id: Uuid, pm: PaymentMethod, fails: bool): State {
    match ReadForPay(s.table, id, fails)
    case Failure(_) => s
    case Success(ord) => s.(requests := s.requests[r := Charging(ord, |s.table.landed|, pm)])
  }

  /** The payment service's side of the call, made for the order and its own user. */
  function Charge(ord: Order, pm: PaymentMethod): Result<PayParams, PaymentError> {
    Serve(Some(PayOrderParamsToPB(ord.id, ord.user, pm)))
  }

  function WithPayment(ord: Order, tx: Uuid, pm: PaymentMethod): Order {
    ord.(tx := Some(tx), pm := Some(pm), status := Paid)
  }

  function Drop(s: State, r: nat): State {
    s.(requests := s.requests - {r})
  }

  function ChargeFor(s: State, r: nat, tx: Uuid, reply: ChargeReply): State
    requires r in s.requests && s.requests[r].Charging?
  {
    var q := s.requests[r];
    var charge := Charge(q.ord, q.pm);
    if reply == Unreached || charge.Failure? then Drop(s, r)
    else
      var s' := s.(ledger := s.ledger[tx := charge.value]);
      if reply == Answered then
        s'.(requests := s'.requests[r := Recording(WithPayment(q.ord, tx, q.pm), q.readAt)])
      else Drop(s', r)
  }

  function RecordPayment(s: State, r: nat, fault: DbFault): State
    requires r in s.requests && s.requests[r].Recording?
  {
    var q := s.requests[r];
    var (t, err) := AfterUpdate(s.table, q.ord, fault);
    if err.Some? then Drop(s, r).(table := t)
    else s.(table := t, requests := s.requests[r := Announcing(q.ord, q.readAt)])
  }

  predicate Announceable(q: Request) {
    q.Announcing? && q.ord.tx.Some? && q.ord.pm.Some?
  }

  function PaidMessage(event: Uuid, ord: Order): PaidOrder
    requires ord.tx.Some? && ord.pm.Some?
  {
    PaidOrder(event, ord.id, ord.user, ord.pm.value, ord.tx.value)
  }

  function AnnouncePayment(s: State, r: nat, event: Uuid, send: SendFault): State
    requires r in s.requests && Announceable(s.requests[r])
  {
    var s' := Drop(s, r);
    if send == NotSent then s' else s'.(paid := s.paid + [PaidMessage(event, s.requests[r].ord)])
  }

  /** The read of `Cancel` and its check that the order may still be cancelled. */
  function ReadForCancel(t: Table, id: Uuid, fails: bool): Result<Order, OrderError> {
    match ById(t, id, fails)
    case Failure(e) => Failure(e)
    case Success(ord) =>
      match ord.status
      case PendingPayment => Success(ord.(status := Cancelled))
      case Paid => Failure(Conflict)
      case Completed => Failure(Conflict)
      case _ => Failure(UnknownStatus)
  }

  function BeginCancel(s: State, r: nat, id: Uuid, fails: bool): State {
    match ReadForCancel(s.table, id, fails)
    case Failure(_) => s
    case Success(ord) => s.(requests := s.requests[r := Cancelling(ord, |s.table.landed|)])
  }

  function RecordCancel(s: State, r: nat, fault: DbFault): State
    requires r in s.requests && s.requests[r].Cancelling?
  {
    Drop(s, r).(table := AfterUpdate(s.table, s.requests[r].ord, fault).0)
  }

  /** `Complete` writes blindly: an order with only an id and a status. */
  function Completion(id: Uuid): Order {
    Order(id, NIL, [], 0, None, None, Completed)
  }

  // ----- The handlers behind the two consumers -----

  function ShipFor(m: PaidOrder): AssembledShip {
    AssembledShip(m.event, m.order, m.user)
  }

  function Raw(how: Handling): HandlerResult {
    match how
    case Succeeds => Nil
    case Panics => Panicked
    case _ => Failed
  }

  /** The assembly service handles its next paid message. */
  function AssembleNext(s: State, how: Handling): State
    requires s.assembly.next < |s.paid|
  {
    s.(assembled := if how == Succeeds || how == FailsLate
                    then s.assembled + [ShipFor(s.paid[s.assembly.next])] else s.assembled,
       assembly := Deliver(s.assembly, Raw(how), Recovered(Raw(how))))
  }

  function FaultOf(how: Handling): DbFault {
    match how
    case Succeeds => Healthy
    case FailsLate => FailsAfter
    case _ => FailsBefore
  }

  /** The result of the order service's handler: `Complete`'s error becomes its own. */
  function CompletionResult(t: Table, id: Uuid, how: Handling): HandlerResult {
    if how == Panics then Panicked
    else if AfterUpdate(t, Completion(id), FaultOf(how)).1.Some? then Failed else Nil
  }

  /** The order service handles its next assembled message. */
  function CompleteNext(s: State, how: Handling): State
    requires s.completion.next < |s.assembled|
  {
    var id := s.assembled[s.completion.next].order;
    var raw := CompletionResult(s.table, id, how);
    s.(table := if how == Panics then s.table else AfterUpdate(s.table, Completion(id), FaultOf(how)).0,
       completion := Deliver(s.completion, raw, Recovered(raw)))
  }

  // ----- Runs -----

  /** The id drawn for a message is not that of an earlier one. */
  predicate NewEvent(paid: seq<PaidOrder>, event: Uuid) {
    forall i :: 0 <= i < |paid| ==> paid[i].event != event
  }

  predicate Enabled(s: State, step: Step) {
    match step
    case CreateOrder(id, user, parts, _, _) => id != NIL && id !in s.table.rows && user != NIL && parts != []
    case PayRead(r, _, _, _) => r !in s.requests
    case PayCharge(r, tx, _) => r in s.requests && s.requests[r].Charging? && tx !in s.ledger
    case PayRecord(r, _) => r in s.requests && s.requests[r].Recording?
    case PayAnnounce(r, event, _) => r in s.requests && Announceable(s.requests[r]) && NewEvent(s.paid, event)
    case CancelRead(r, _, _) => r !in s.requests
    case CancelRecord(r, _) => r in s.requests && s.requests[r].Cancelling?
    case Abandon(r) => r in s.requests
    case Assemble(_) => s.assembly.next < |s.paid|
    case Complete(_) => s.completion.next < |s.assembled|
    case AssemblyCommit(_) => true
    case AssemblyRestart => true
    case CompletionCommit(_) => true
    case CompletionRestart => true
  }

  function Apply(s: State, step: Step): State
    requires Enabled(s, step)
  {
    match step
    case CreateOrder(id, user, parts, total, fault) => Create(s, id, user, parts, total, fault)
    case PayRead(r, id, pm, fails) => BeginPay(s, r, id, pm, fails)
    case PayCharge(r, tx, reply) => ChargeFor(s, r, tx, reply)
    case PayRecord(r, fault) => RecordPayment(s, r, fault)
    case PayAnnounce(r, event, send) => AnnouncePayment(s, r, event, send)
    case CancelRead(r, id, fails) => BeginCancel(s, r, id, fails)
    case CancelRecord(r, fault) => RecordCancel(s, r, fault)
    case Abandon(r) => Drop(s, r)
    case Assemble(how) => AssembleNext(s, how)
    case Complete(how) => CompleteNext(s, how)
    case AssemblyCommit(offset) => s.(assembly := Commit(s.assembly, offset))
    case AssemblyRestart => s.(assembly := Restart(s.assembly))
    case CompletionCommit(offset) => s.(completion := Commit(s.completion, offset))
    case CompletionRestart => s.(completion := Restart(s.completion))
  }

  /** Every step of the sequence can be taken in turn. */
  predicate Legal(s: State, steps: seq<Step>)
    decreases |steps|
  {
    steps == [] || (Enabled(s, steps[0]) && Legal(Apply(s, steps[0]), steps[1..]))
  }

  function After(s: State, steps: seq<Step>): State
    requires Legal(s, steps)
    decreases |steps|
  {
    if steps == [] then s else After(Apply(s, steps[0]), steps[1..])
  }

  lemma Prepend(s: State, step: Step, rest: seq<Step>)
    requires Enabled(s, step) && Legal(Apply(s, step), rest)
    ensures Legal(s, [step] + rest) && After(s, [step] + rest) == After(Apply(s, step), rest)
  {
    assert ([step] + rest)[1..] == rest;
  }
}
