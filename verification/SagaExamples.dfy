/**
 Concrete runs of what can go wrong: a charge whose order stays unpaid, an order paid twice, a
 paid order without a message, and a message that is committed although its ship was never sent.
 */
module SagaExamples {
  import opened Ids
  import opened Payments
  import opened OrderTable
  import opened Kafka
  import opened Saga
  import opened SagaSafety
  import opened SagaResults
  import opened OrderService

  const USER: Uuid := 2
  const PART: Uuid := 3

  lemma Created(s: State, id: Uuid)
    requires Inv(s) && id != NIL && id !in s.table.rows
    ensures var step := CreateOrder(id, USER, [PART], 100, Healthy);
            && Enabled(s, step) && Inv(Apply(s, step))
            && var row := NewOrder(USER, [PART], 100).(id := id);
               Apply(s, step) == s.(table := Table(s.table.rows[id := row], s.table.landed))
  {
    StepKeepsInv(s, CreateOrder(id, USER, [PART], 100, Healthy));
  }

  /** A pending order is paid for, and nothing fails. */
  lemma PayRun(s: State, id: Uuid, tx: Uuid, event: Uuid) returns (steps: seq<Step>)
    requires Inv(s) && s.requests == map[] && tx !in s.ledger && NewEvent(s.paid, event)
    requires id in s.table.rows && s.table.rows[id].status == PendingPayment && s.table.rows[id].user == USER
    ensures Legal(s, steps)
    ensures var s' := After(s, steps);
            && s'.requests == map[] && s'.table.rows.Keys == s.table.rows.Keys
            && s'.ledger.Keys == s.ledger.Keys + {tx}
            && s'.paid == s.paid + [PaidOrder(event, id, USER, Card, tx)]
            && s'.assembled == s.assembled && s'.assembly == s.assembly
  {
    var env := PayEnv(false, tx, Answered, Healthy, event, Sent);
    PaySucceedsExactly(s, id, Card, env);
    PayLeavesTheRest(s, id, Card, env);
    steps := PayIsRun(s, 0, id, Card, env);
  }

  /** An order is created and paid for, and nothing fails. */
  lemma PaidOrderRun(s: State, id: Uuid, tx: Uuid, event: Uuid) returns (steps: seq<Step>)
    requires Inv(s) && s.requests == map[] && id != NIL && id !in s.table.rows && tx !in s.ledger
    requires NewEvent(s.paid, event)
    ensures Legal(s, steps)
    ensures var s' := After(s, steps);
            && s'.requests == map[] && s'.table.rows.Keys == s.table.rows.Keys + {id}
            && s'.ledger.Keys == s.ledger.Keys + {tx}
            && s'.paid == s.paid + [PaidOrder(event, id, USER, Card, tx)]
            && s'.assembled == s.assembled && s'.assembly == s.assembly
  {
    var create := CreateOrder(id, USER, [PART], 100, Healthy);
    Created(s, id);
    var pay := PayRun(Apply(s, create), id, tx, event);
    Prepend(s, create, pay);
    steps := [create] + pay;
  }

  /** The handler fails on the message at `next`, works on the one behind it, and both are committed. */
  lemma PassOverRun(s: State) returns (steps: seq<Step>)
    requires s.assembly == NEW_GROUP && |s.paid| == 2 && s.assembled == []
    ensures Legal(s, steps)
    ensures After(s, steps) == s.(assembled := [ShipFor(s.paid[1])], assembly := After(s, steps).assembly)
    ensures After(s, steps).assembly.committed == 2
  {
    var fail, work, commit := Assemble(FailsEarly), Assemble(Succeeds), AssemblyCommit(2);
    var s1 := Apply(s, fail);
    var s2 := Apply(s1, work);
    Prepend(s2, commit, []);
    Prepend(s1, work, [commit] + []);
    Prepend(s, fail, [work] + ([commit] + []));
    steps := [fail] + ([work] + ([commit] + []));
  }

  lemma OnePaidOrder() returns (steps: seq<Step>)
    ensures Legal(START, steps)
    ensures var s := After(START, steps);
            && Inv(s) && s.requests == map[] && s.table.rows.Keys == {1} && s.ledger.Keys == {7}
            && s.paid == [PaidOrder(8, 1, USER, Card, 7)] && s.assembled == [] && s.assembly == NEW_GROUP
  {
    StartIsGood();
    steps := PaidOrderRun(START, 1, 7, 8);
    RunKeepsInv(START, steps);
  }

  lemma TwoPaidOrders() returns (steps: seq<Step>)
    ensures Legal(START, steps)
    ensures var s := After(START, steps);
            && s.paid == [PaidOrder(8, 1, USER, Card, 7), PaidOrder(10, 4, USER, Card, 9)]
            && s.assembled == [] && s.assembly == NEW_GROUP
  {
    var a := OnePaidOrder();
    var b := PaidOrderRun(After(START, a), 4, 9, 10);
    RunsCompose(START, a, b);
    steps := a + b;
  }

  /** A failed message is passed over: both messages are committed, and the first order gets no ship. */
  lemma FailedMessageIsLost() returns (steps: seq<Step>)
    ensures Legal(START, steps)
    ensures var s := After(START, steps);
            && s.assembly.committed == 2 && |s.paid| == 2 && s.paid[0].order != s.paid[1].order
            && ShipFor(s.paid[0]) !in s.assembled && ShipFor(s.paid[1]) in s.assembled
  {
    var a := TwoPaidOrders();
    var b := PassOverRun(After(START, a));
    RunsCompose(START, a, b);
    steps := a + b;
  }

  lemma PanicRun(s: State) returns (steps: seq<Step>)
    requires s.assembly == NEW_GROUP && |s.paid| == 1
    ensures Legal(s, steps)
    ensures After(s, steps) == s.(assembly := After(s, steps).assembly) && After(s, steps).assembly.committed == 1
  {
    var panic, commit := Assemble(Panics), AssemblyCommit(1);
    Prepend(Apply(s, panic), commit, []);
    Prepend(s, panic, [commit] + []);
    steps := [panic] + ([commit] + []);
  }

  /** A handler that panics once is enough: the recovered panic acknowledges the message. */
  lemma PanickedMessageIsLost() returns (steps: seq<Step>)
    ensures Legal(START, steps)
    ensures var s := After(START, steps);
            s.assembly.committed == 1 && |s.paid| == 1 && ShipFor(s.paid[0]) !in s.assembled
  {
    var a := OnePaidOrder();
    var b := PanicRun(After(START, a));
    RunsCompose(START, a, b);
    steps := a + b;
  }

  /** The state after a `Pay` on the first order of the system, run on its own. */
  lemma FirstPay(env: PayEnv) returns (s: State, steps: seq<Step>)
    requires env.tx !in START.ledger
    ensures Inv(s) && s.requests == map[] && s.paid == [] && s.ledger == map[]
    ensures 1 in s.table.rows && s.table.rows[1].status == PendingPayment
    ensures Legal(START, steps) && After(START, steps) == PayEffect(s, 1, Card, env).0
  {
    var create := CreateOrder(1, USER, [PART], 100, Healthy);
    StartIsGood();
    Created(START, 1);
    s := Apply(START, create);
    var pay := PayIsRun(s, 0, 1, Card, env);
    Prepend(START, create, pay);
    steps := [create] + pay;
  }

  /** The answer of the payment service is lost: the user has been charged, and the order is still pending. */
  lemma ChargedOrderStaysPending() returns (steps: seq<Step>)
    ensures Legal(START, steps)
    ensures var s := After(START, steps);
            7 in s.ledger && 1 in s.table.rows && s.table.rows[1].status == PendingPayment && s.requests == map[]
  {
    var env := PayEnv(false, 7, AnswerLost, Healthy, 8, Sent);
    var s;
    s, steps := FirstPay(env);
    ChargedExactly(s, 1, Card, env);
    ChargedButUnpaid(s, 1, Card, env);
    PayLeavesTheRest(s, 1, Card, env);
  }

  /** The send is rejected: the order is PAID, nobody will announce it, and its message is not on the topic. */
  lemma PaidOrderHasNoMessage() returns (steps: seq<Step>)
    ensures Legal(START, steps)
    ensures var s := After(START, steps);
            1 in s.table.rows && s.table.rows[1].status == Paid && s.paid == [] && s.requests == map[]
  {
    var env := PayEnv(false, 7, Answered, Healthy, 8, NotSent);
    var s;
    s, steps := FirstPay(env);
    ChargedExactly(s, 1, Card, env);
    ChargedButUnpaid(s, 1, Card, env);
    AnnouncedExactly(s, 1, Card, env);
    PayLeavesTheRest(s, 1, Card, env);
  }

  const FIRST_ORDER := NewOrder(USER, [PART], 100).(id := 1)

  lemma BothRead(s: State) returns (steps: seq<Step>)
    requires s.table == Table(map[1 := FIRST_ORDER], []) && s.requests == map[]
    ensures Legal(s, steps)
    ensures After(s, steps) == s.(requests := map[0 := Charging(FIRST_ORDER, 0, Card),
                                                  1 := Charging(FIRST_ORDER, 0, Card)])
  {
    var a, b := PayRead(0, 1, Card, false), PayRead(1, 1, Card, false);
    Prepend(Apply(s, a), b, []);
    Prepend(s, a, [b] + []);
    steps := [a] + ([b] + []);
  }

  lemma BothCharged(s: State) returns (steps: seq<Step>)
    requires s.requests == map[0 := Charging(FIRST_ORDER, 0, Card), 1 := Charging(FIRST_ORDER, 0, Card)]
    requires s.ledger == map[]
    ensures Legal(s, steps)
    ensures After(s, steps) == s.(ledger := After(s, steps).ledger,
                                  requests := map[0 := Recording(WithPayment(FIRST_ORDER, 7, Card), 0),
                                                  1 := Recording(WithPayment(FIRST_ORDER, 9, Card), 0)])
    ensures After(s, steps).ledger.Keys == {7, 9}
  {
    ServeKeepsMeaning(1, USER, Card);
    var a, b := PayCharge(0, 7, Answered), PayCharge(1, 9, Answered);
    Prepend(Apply(s, a), b, []);
    Prepend(s, a, [b] + []);
    steps := [a] + ([b] + []);
  }

  lemma BothRecorded(s: State) returns (steps: seq<Step>)
    requires s.table == Table(map[1 := FIRST_ORDER], [])
    requires s.requests == map[0 := Recording(WithPayment(FIRST_ORDER, 7, Card), 0),
                               1 := Recording(WithPayment(FIRST_ORDER, 9, Card), 0)]
    ensures Legal(s, steps)
    ensures After(s, steps).ledger == s.ledger
    ensures After(s, steps).table.landed
         == [Landing(1, FIRST_ORDER, WithPayment(FIRST_ORDER, 7, Card)),
             Landing(1, WithPayment(FIRST_ORDER, 7, Card), WithPayment(FIRST_ORDER, 9, Card))]
  {
    var a, b := PayRecord(0, Healthy), PayRecord(1, Healthy);
    var s1 := Apply(s, a);
    assert s1.table.rows[1] == WithPayment(FIRST_ORDER, 7, Card);
    Prepend(s1, b, []);
    Prepend(s, a, [b] + []);
    steps := [a] + ([b] + []);
  }

  /** Two payments of one order overlap: both are charged and written, and the second replaces the first. */
  lemma OrderIsPaidTwice() returns (steps: seq<Step>)
    ensures Legal(START, steps)
    ensures var s := After(START, steps);
            && s.ledger.Keys == {7, 9} && |s.table.landed| == 2
            && s.table.landed[0].id == s.table.landed[1].id == 1
            && s.table.landed[0].after == WithPayment(FIRST_ORDER, 7, Card)
            && s.table.landed[1].after == WithPayment(FIRST_ORDER, 9, Card)
  {
    var create := CreateOrder(1, USER, [PART], 100, Healthy);
    StartIsGood();
    Created(START, 1);
    var s1 := Apply(START, create);
    var a := BothRead(s1);
    var b := BothCharged(After(s1, a));
    RunsCompose(s1, a, b);
    var c := BothRecorded(After(s1, a + b));
    RunsCompose(s1, a + b, c);
    Prepend(START, create, a + b + c);
    steps := [create] + (a + b + c);
  }
}
