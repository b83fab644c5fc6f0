/**
 The services' own operations, written as they run: each reads, calls, writes and sends step by
 step and may fail at each of those points. Every operation is proved to do exactly what its
 steps of the saga do when nothing comes in between, so all that is proved of interleaved runs
 holds of these methods.
 */
module OrderService {
  import opened Prelude
  import opened Ids
  import opened Payments
  import opened OrderTable
  import opened Kafka
  import opened PartsQuery
  import opened InventoryApi
  import opened OrderCreate
  import opened Saga
  import opened SagaSafety

  /** How the I/O of one `Pay` goes, and the ids that come from outside. */
  datatype PayEnv = PayEnv(readFails: bool, tx: Uuid, reply: ChargeReply, record: DbFault, event: Uuid, send: SendFault)

  /** The state after a whole `Pay`, and its answer. */
  function PayEffect(s: State, id: Uuid, pm: PaymentMethod, env: PayEnv): (State, Result<Uuid, OrderError>) {
    match ReadForPay(s.table, id, env.readFails)
    case Failure(e) => (s, Failure(e))
    case Success(ord) =>
      ChargeRecordAnnounce(s, ord, pm, env)
  }

  function ChargeRecordAnnounce(s: State, ord: Order, pm: PaymentMethod, env: PayEnv)
    : (State, Result<Uuid, OrderError>)
  {
    var charge := Charge(ord, pm);
    if env.reply == Unreached || charge.Failure? then (s, Failure(BadGateway))
    else
      var s1 := s.(ledger := s.ledger[env.tx := charge.value]);
      if env.reply == AnswerLost then (s1, Failure(BadGateway))
      else if env.reply == AnswerUnreadable then (s1, Failure(TransactionUnreadable))
      else RecordAndAnnounce(s1, WithPayment(ord, env.tx, pm), env)
  }

  function RecordAndAnnounce(s: State, ord: Order, env: PayEnv): (State, Result<Uuid, OrderError>)
    requires ord.tx.Some? && ord.pm.Some?
  {
    var (t, err) := AfterUpdate(s.table, ord, env.record);
    var s' := s.(table := t);
    if err.Some? then (s', Failure(err.value))
    else if env.send == NotSent then (s', Failure(SendFailed))
    else
      (s'.(paid := s.paid + [PaidMessage(env.event, ord)]),
       if env.send == Sent then Success(ord.tx.value) else Failure(SendFailed))
  }

  /** The state after a whole `Cancel`, and its answer. */
  function CancelEffect(s: State, id: Uuid, readFails: bool, record: DbFault): (State, Option<OrderError>) {
    match ReadForCancel(s.table, id, readFails)
    case Failure(e) => (s, Some(e))
    case Success(ord) =>
      var (t, err) := AfterUpdate(s.table, ord, record);
      (s.(table := t), err)
  }

  // ----- An operation on its own is a run of the saga -----

  predicate PayStepOf(step: Step, r: nat) {
    (step.PayRead? || step.PayCharge? || step.PayRecord? || step.PayAnnounce?) && step.r == r
  }

  predicate PayStepsOf(steps: seq<Step>, r: nat) {
    forall k :: 0 <= k < |steps| ==> PayStepOf(steps[k], r)
  }

  function Holding(s: State, r: nat, q: Request): State {
    s.(requests := s.requests[r := q])
  }

  lemma Released(s: State, r: nat, q: Request)
    requires r !in s.requests
    ensures Drop(Holding(s, r, q), r) == s
  {
    assert s.requests[r := q] - {r} == s.requests;
  }

  lemma AnnounceRun(s: State, r: nat, ord: Order, at: nat, env: PayEnv) returns (steps: seq<Step>)
    requires r !in s.requests && ord.tx.Some? && ord.pm.Some? && NewEvent(s.paid, env.event)
    ensures Legal(Holding(s, r, Announcing(ord, at)), steps) && PayStepsOf(steps, r) && |steps| == 1
    ensures After(Holding(s, r, Announcing(ord, at)), steps)
         == if env.send == NotSent then s else s.(paid := s.paid + [PaidMessage(env.event, ord)])
  {
    var step := PayAnnounce(r, env.event, env.send);
    steps := [step] + [];
    Released(s, r, Announcing(ord, at));
    Prepend(Holding(s, r, Announcing(ord, at)), step, []);
  }

  lemma RecordRun(s: State, r: nat, ord: Order, at: nat, env: PayEnv) returns (steps: seq<Step>)
    requires r !in s.requests && ord.tx.Some? && ord.pm.Some? && NewEvent(s.paid, env.event)
    ensures Legal(Holding(s, r, Recording(ord, at)), steps) && PayStepsOf(steps, r) && |steps| <= 2
    ensures After(Holding(s, r, Recording(ord, at)), steps) == RecordAndAnnounce(s, ord, env).0
  {
    var h := Holding(s, r, Recording(ord, at));
    var step := PayRecord(r, env.record);
    var (t, err) := AfterUpdate(s.table, ord, env.record);
    var rest := [];
    if err.None? {
      rest := AnnounceRun(s.(table := t), r, ord, at, env);
      assert Apply(h, step) == Holding(s.(table := t), r, Announcing(ord, at));
    } else {
      Released(s.(table := t), r, Recording(ord, at));
    }
    Prepend(h, step, rest);
    steps := [step] + rest;
  }

  lemma ChargeRun(s: State, r: nat, ord: Order, at: nat, pm: PaymentMethod, env: PayEnv) returns (steps: seq<Step>)
    requires r !in s.requests && env.tx !in s.ledger && NewEvent(s.paid, env.event)
    ensures Legal(Holding(s, r, Charging(ord, at, pm)), steps) && PayStepsOf(steps, r) && |steps| <= 3
    ensures After(Holding(s, r, Charging(ord, at, pm)), steps) == ChargeRecordAnnounce(s, ord, pm, env).0
  {
    var h := Holding(s, r, Charging(ord, at, pm));
    var step := PayCharge(r, env.tx, env.reply);
    var charge := Charge(ord, pm);
    var rest := [];
    Released(s, r, Charging(ord, at, pm));
    if charge.Success? && env.reply == Answered {
      var s1 := s.(ledger := s.ledger[env.tx := charge.value]);
      var paid := WithPayment(ord, env.tx, pm);
      rest := RecordRun(s1, r, paid, at, env);
      assert Apply(h, step) == Holding(s1, r, Recording(paid, at));
    }
    Prepend(h, step, rest);
    steps := [step] + rest;
  }

  /** A `Pay` on its own takes one to four of its own steps, and ends where they do. */
  lemma PayIsRun(s: State, r: nat, id: Uuid, pm: PaymentMethod, env: PayEnv) returns (steps: seq<Step>)
    requires r !in s.requests && env.tx !in s.ledger && NewEvent(s.paid, env.event)
    ensures Legal(s, steps) && PayStepsOf(steps, r) && 1 <= |steps| <= 4
    ensures After(s, steps) == PayEffect(s, id, pm, env).0
  {
    var step := PayRead(r, id, pm, env.readFails);
    var rest := [];
    match ReadForPay(s.table, id, env.readFails) {
      case Failure(_) =>
      case Success(ord) => rest := ChargeRun(s, r, ord, |s.table.landed|, pm, env);
    }
    Prepend(s, step, rest);
    steps := [step] + rest;
  }

  /** A `Cancel` on its own takes one or two steps. */
  lemma CancelIsRun(s: State, r: nat, id: Uuid, readFails: bool, record: DbFault) returns (steps: seq<Step>)
    requires r !in s.requests
    ensures Legal(s, steps) && 1 <= |steps| <= 2
    ensures steps == [CancelRead(r, id, readFails), CancelRecord(r, record)][..|steps|]
    ensures After(s, steps) == CancelEffect(s, id, readFails, record).0
  {
    var read, write := CancelRead(r, id, readFails), CancelRecord(r, record);
    var rest := [];
    match ReadForCancel(s.table, id, readFails) {
      case Failure(_) =>
      case Success(ord) =>
        rest := [write] + [];
        Released(s.(table := AfterUpdate(s.table, ord, record).0), r, Cancelling(ord, |s.table.landed|));
        Prepend(Apply(s, read), write, []);
    }
    Prepend(s, read, rest);
    steps := [read] + rest;
  }

  // ----- What the operations promise -----

  /**
   `Pay` succeeds exactly when the order is pending, the method is known and every call works.
   Then the order is PAID with the new transaction and the requested method, and one message
   with the same data is on `order.paid`.
   */
  lemma PaySucceedsExactly(s: State, id: Uuid, pm: PaymentMethod, env: PayEnv)
    requires Inv(s) && env.tx !in s.ledger
    ensures var (s', res) := PayEffect(s, id, pm, env);
            && (res.Success? <==>
                  && id in s.table.rows && !env.readFails && s.table.rows[id].status == PendingPayment
                  && pm != Unknown && env.reply == Answered && env.record == Healthy && env.send == Sent)
            && (res.Success? ==>
                  && res.value == env.tx
                  && s'.table.rows == s.table.rows[id := WithPayment(s.table.rows[id], env.tx, pm)]
                  && s'.paid == s.paid + [PaidOrder(env.event, id, s.table.rows[id].user, pm, env.tx)]
                  && s'.ledger.Keys == s.ledger.Keys + {env.tx})
  {
    ChargedExactly(s, id, pm, env);
    if env.tx in PayEffect(s, id, pm, env).0.ledger && env.reply == Answered {
      AnsweredPay(s, id, pm, env);
      PayWriteLands(s, id, pm, env);
    } else {
      UnansweredPay(s, id, pm, env);
    }
  }

  lemma PayLeavesTheRest(s: State, id: Uuid, pm: PaymentMethod, env: PayEnv)
    ensures var s' := PayEffect(s, id, pm, env).0;
            s' == s.(table := s'.table, ledger := s'.ledger, paid := s'.paid)
  {
  }

  /** The write of a `Pay` on its own patches the pending row it read. */
  lemma PayWriteLands(s: State, id: Uuid, pm: PaymentMethod, env: PayEnv)
    requires Inv(s) && id in s.table.rows && s.table.rows[id].status == PendingPayment
    ensures var paid := WithPayment(s.table.rows[id], env.tx, pm);
            var (t, err) := AfterUpdate(s.table, paid, env.record);
            && (err == if env.record == Healthy then None else Some(DatabaseDown))
            && t.rows == if env.record == FailsBefore then s.table.rows else s.table.rows[id := paid]
  {
    var ord := s.table.rows[id];
    assert RowOk(s.ledger, id, ord);
    assert Patch(ord, WithPayment(ord, env.tx, pm)) == WithPayment(ord, env.tx, pm);
  }

  /**
   A `Pay` on its own charges the user exactly when it reaches the payment service for a pending
   order with a known method.
   */
  lemma ChargedExactly(s: State, id: Uuid, pm: PaymentMethod, env: PayEnv)
    requires Inv(s) && env.tx !in s.ledger
    ensures env.tx in PayEffect(s, id, pm, env).0.ledger <==>
              && id in s.table.rows && !env.readFails && s.table.rows[id].status == PendingPayment
              && pm != Unknown && env.reply != Unreached
  {
    ChargedWhenServed(s, id, pm, env);
    if id in s.table.rows {
      ServeKeepsMeaning(s.table.rows[id].id, s.table.rows[id].user, pm);
    }
  }

  lemma ChargedWhenServed(s: State, id: Uuid, pm: PaymentMethod, env: PayEnv)
    requires env.tx !in s.ledger
    ensures env.tx in PayEffect(s, id, pm, env).0.ledger <==>
              && id in s.table.rows && !env.readFails && s.table.rows[id].status == PendingPayment
              && Charge(s.table.rows[id], pm).Success? && env.reply != Unreached
  {
  }

  /**
   The exact ways in which a `Pay` on its own charges the user without leaving the order paid:
   the answer of the payment service is lost or unreadable, or the database is down before
   the write.
   */
  lemma ChargedButUnpaid(s: State, id: Uuid, pm: PaymentMethod, env: PayEnv)
    requires Inv(s) && env.tx !in s.ledger && env.tx in PayEffect(s, id, pm, env).0.ledger
    ensures var rows := PayEffect(s, id, pm, env).0.table.rows;
            && id in rows
            && (rows[id].status == PendingPayment <==>
                  env.reply == AnswerLost || env.reply == AnswerUnreadable || env.record == FailsBefore)
            && (rows[id].status != PendingPayment ==> rows[id] == WithPayment(s.table.rows[id], env.tx, pm))
  {
    ChargedExactly(s, id, pm, env);
    PayWriteLands(s, id, pm, env);
  }

  /**
   A `Pay` on its own puts a message on `order.paid` exactly when the order has been charged
   and written and the send is not rejected; the message repeats the row as it now is, and
   the caller is told of a failure if the broker's answer is missing although it is there.
   */
  lemma AnnouncedExactly(s: State, id: Uuid, pm: PaymentMethod, env: PayEnv)
    requires Inv(s) && env.tx !in s.ledger
    ensures var (s', res) := PayEffect(s, id, pm, env);
            && (s'.paid != s.paid <==>
                  env.tx in s'.ledger && env.reply == Answered && env.record == Healthy && env.send != NotSent)
            && (s'.paid != s.paid ==>
                  && id in s'.table.rows && s'.table.rows[id].status == Paid
                  && s'.paid == s.paid + [PaidOrder(env.event, id, s'.table.rows[id].user, pm, env.tx)]
                  && s'.table.rows[id].tx == Some(env.tx) && s'.table.rows[id].pm == Some(pm)
                  && (res.Success? <==> env.send == Sent))
  {
    ChargedExactly(s, id, pm, env);
    if env.tx in PayEffect(s, id, pm, env).0.ledger && env.reply == Answered {
      AnsweredPay(s, id, pm, env);
      PayWriteLands(s, id, pm, env);
    } else {
      UnansweredPay(s, id, pm, env);
    }
  }

  /** Once the payment is answered, the write and the send remain. */
  lemma AnsweredPay(s: State, id: Uuid, pm: PaymentMethod, env: PayEnv)
    requires env.tx !in s.ledger && env.tx in PayEffect(s, id, pm, env).0.ledger && env.reply == Answered
    ensures id in s.table.rows && s.table.rows[id].status == PendingPayment
    ensures var ord := s.table.rows[id];
            && Charge(ord, pm).Success?
            && PayEffect(s, id, pm, env)
               == RecordAndAnnounce(s.(ledger := s.ledger[env.tx := Charge(ord, pm).value]),
                                    WithPayment(ord, env.tx, pm), env)
  {
  }

  lemma UnansweredPay(s: State, id: Uuid, pm: PaymentMethod, env: PayEnv)
    requires env.tx !in PayEffect(s, id, pm, env).0.ledger || env.reply != Answered
    requires env.tx !in s.ledger
    ensures PayEffect(s, id, pm, env).0.paid == s.paid && PayEffect(s, id, pm, env).1.Failure?
  {
  }

  /**
   `Cancel` succeeds exactly when the order is pending and the database works; otherwise a paid
   order is a conflict and stays as it is.
   */
  lemma CancelExactly(s: State, id: Uuid, readFails: bool, record: DbFault)
    requires Inv(s)
    ensures var (s', err) := CancelEffect(s, id, readFails, record);
            && (err.None? <==>
                  id in s.table.rows && !readFails && s.table.rows[id].status == PendingPayment && record == Healthy)
            && (err.None? ==> s'.table.rows == s.table.rows[id := s.table.rows[id].(status := Cancelled)])
            && (id in s.table.rows && !readFails
                && (s.table.rows[id].status == Paid || s.table.rows[id].status == Completed) ==>
                  err == Some(Conflict) && s' == s)
            && s' == s.(table := s'.table)
  {
    if id in s.table.rows && !readFails && s.table.rows[id].status == PendingPayment {
      var ord := s.table.rows[id];
      assert RowOk(s.ledger, id, ord);
      assert Patch(ord, ord.(status := Cancelled)) == ord.(status := Cancelled);
    }
  }

  // ----- The operations, step by step -----

  class Services {
    const repo: OrderRepository
    const inventory: PartRepository
    var ledger: map<Uuid, PayParams>
    var requests: map<nat, Request>
    var paid: seq<PaidOrder>
    var assembled: seq<AssembledShip>
    var assembly: Group
    var completion: Group

    constructor ()
      ensures State() == START && fresh(repo) && fresh(inventory) && inventory.docs == []
    {
      repo := new OrderRepository();
      inventory := new PartRepository();
      ledger, requests, paid, assembled := map[], map[], [], [];
      assembly, completion := NEW_GROUP, NEW_GROUP;
    }

    ghost function State(): State
      reads this, repo
    {
      Saga.State.State(repo.Contents(), ledger, requests, paid, assembled, assembly, completion)
    }

    method Create(user: Uuid, ids: seq<Uuid>, undelivered: bool, read: ReadFault, newId: Uuid, fault: DbFault)
      returns (res: Result<(Uuid, Int64), OrderError>)
      requires Collection(inventory.docs)
      requires newId != NIL && newId !in repo.rows
      modifies repo
      ensures match Quote(inventory.docs, user, ids, undelivered || !read.ReadWorks?)
              case Failure(e) => State() == old(State()) && res == Failure(e)
              case Success(total) =>
                && Enabled(old(State()), CreateOrder(newId, user, ids, total, fault))
                && State() == Apply(old(State()), CreateOrder(newId, user, ids, total, fault))
                && res == match AfterInsert(old(repo.Contents()), newId, NewOrder(user, ids, total), fault).1
                          case None => Success((newId, total))
                          case Some(e) => Failure(e)
    {
      if user == NIL || |ids| == 0 {
        return Failure(Validation);
      }
      var texts := Texts(ids);
      var answer := ListParts(inventory, ByIds(texts), undelivered, read);
      if answer.Failure? {
        return Failure(BadGateway);
      }
      var parts := answer.value;
      if |parts| != |ids| {
        return Failure(PartNotFound);
      }

      var total, ended := PriceParts(parts);
      if |ended| > 0 {
        return Failure(PartsOutOfStock(ended));
      }

      var created := repo.Create(newId, NewOrder(user, ids, total), fault);
      match created
      case Failure(e) => res := Failure(e);
      case Success(id) => res := Success((id, total));
    }

    method Pay(id: Uuid, pm: PaymentMethod, env: PayEnv) returns (res: Result<Uuid, OrderError>)
      requires env.tx !in ledger
      modifies this`ledger, this`paid, repo
      ensures (State(), res) == PayEffect(old(State()), id, pm, env)
    {
      var read := repo.OrderById(id, env.readFails);
      if read.Failure? {
        return Failure(read.error);
      }
      var ord := read.value;
      match ord.status {
        case PendingPayment =>
        case Paid => return Failure(Conflict);
        case Cancelled => return Failure(Conflict);
        case _ => return Failure(UnknownStatus);
      }

      var charge := Charge(ord, pm);
      if env.reply == Unreached || charge.Failure? {
        return Failure(BadGateway);
      }
      ledger := ledger[env.tx := charge.value];
      if env.reply == AnswerLost {
        return Failure(BadGateway);
      }
      if env.reply == AnswerUnreadable {
        return Failure(TransactionUnreadable);
      }

      ord := ord.(tx := Some(env.tx), pm := Some(pm), status := Paid);
      var err := repo.Update(ord, env.record);
      if err.Some? {
        return Failure(err.value);
      }
      var sent := SendOrderPaid(PaidOrder(env.event, ord.id, ord.user, ord.pm.value, ord.tx.value), env.send);
      res := if sent then Success(env.tx) else Failure(SendFailed);
    }

    /** The producer of `order.paid`. */
    method SendOrderPaid(event: PaidOrder, send: SendFault) returns (ok: bool)
      modifies this`paid
      ensures paid == if send == NotSent then old(paid) else old(paid) + [event]
      ensures ok <==> send == Sent
    {
      if send != NotSent {
        paid := paid + [event];
      }
      ok := send == Sent;
    }

    method Cancel(id: Uuid, readFails: bool, record: DbFault) returns (err: Option<OrderError>)
      modifies repo
      ensures (State(), err) == CancelEffect(old(State()), id, readFails, record)
    {
      var read := repo.OrderById(id, readFails);
      if read.Failure? {
        return Some(read.error);
      }
      var ord := read.value;
      match ord.status
      case PendingPayment =>
        ord := ord.(status := Cancelled);
        err := repo.Update(ord, record);
      case Paid => err := Some(Conflict);
      case Completed => err := Some(Conflict);
      case _ => err := Some(UnknownStatus);
    }

    method CompleteOrder(id: Uuid, fault: DbFault) returns (err: Option<OrderError>)
      modifies repo
      ensures (repo.Contents(), err) == AfterUpdate(old(repo.Contents()), Completion(id), fault)
    {
      err := repo.Update(Order(id, NIL, [], 0, None, None, Completed), fault);
    }

    /** The handler of `order.assembled`. */
    method ShipAssembledHandler(msg: AssembledShip, how: Handling) returns (raw: HandlerResult)
      modifies repo
      ensures raw == CompletionResult(old(repo.Contents()), msg.order, how)
      ensures raw == Panicked <==> how == Panics
      ensures raw == Nil <==>
                && how == Succeeds && msg.order != NIL && msg.order in old(repo.rows)
                && old(repo.rows)[msg.order].total >= 0
      ensures repo.Contents() == if how == Panics then old(repo.Contents())
                                 else AfterUpdate(old(repo.Contents()), Completion(msg.order), FaultOf(how)).0
    {
      if how == Panics {
        return Panicked;
      }
      var err := CompleteOrder(msg.order, FaultOf(how));
      raw := if err.Some? then Failed else Nil;
    }

    /** The handler of `order.paid`: it fails before the ship is sent, sends it, or sends it without being told so. */
    method PaidOrderHandler(msg: PaidOrder, how: Handling) returns (raw: HandlerResult)
      modifies this`assembled
      ensures raw == Raw(how)
      ensures assembled == if how == Succeeds || how == FailsLate then old(assembled) + [ShipFor(msg)]
                           else old(assembled)
    {
      if how == Panics {
        return Panicked;
      }
      if how == FailsEarly {
        return Failed;
      }
      assembled := assembled + [AssembledShip(msg.event, msg.order, msg.user)];
      raw := if how == Succeeds then Nil else Failed;
    }

    /** One turn of the assembly service's claim loop. */
    method HandlePaid(how: Handling)
      requires assembly.next < |paid|
      modifies this`assembled, this`assembly
      ensures State() == Apply(old(State()), Assemble(how))
    {
      var raw := PaidOrderHandler(paid[assembly.next], how);
      assembly := Deliver(assembly, raw, Recovered(raw));
    }

    /** One turn of the order service's claim loop. */
    method HandleAssembled(how: Handling)
      requires completion.next < |assembled|
      modifies repo, this`completion
      ensures State() == Apply(old(State()), Complete(how))
    {
      var raw := ShipAssembledHandler(assembled[completion.next], how);
      completion := Deliver(completion, raw, Recovered(raw));
    }
  }
}
