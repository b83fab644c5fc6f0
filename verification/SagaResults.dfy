/** The saga's guarantees over whole runs, in every interleaving. */
module SagaResults {
  import opened Prelude
  import opened Ids
  import opened Payments
  import opened OrderTable
  import opened Kafka
  import opened Saga
  import opened SagaSafety

  // ----- Runs, split and joined -----

  lemma {:induction false} RunsCompose(s: State, a: seq<Step>, b: seq<Step>)
    ensures Legal(s, a + b) <==> Legal(s, a) && Legal(After(s, a), b)
    ensures Legal(s, a + b) ==> After(s, a + b) == After(After(s, a), b)
    decreases |a|
  {
    if a == [] {
      assert a + b == b;
    } else {
      assert (a + b)[0] == a[0] && (a + b)[1..] == a[1..] + b;
      if Enabled(s, a[0]) {
        RunsCompose(Apply(s, a[0]), a[1..], b);
      }
    }
  }

  lemma PrefixIsLegal(s: State, steps: seq<Step>, n: nat)
    requires Legal(s, steps) && n <= |steps|
    ensures Legal(s, steps[..n])
    ensures n < |steps| ==> Enabled(After(s, steps[..n]), steps[n])
    ensures n < |steps| ==> Legal(s, steps[..n + 1])
    ensures n < |steps| ==> After(s, steps[..n + 1]) == Apply(After(s, steps[..n]), steps[n])
  {
    assert steps == steps[..n] + steps[n..];
    RunsCompose(s, steps[..n], steps[n..]);
    if n < |steps| {
      var s' := After(s, steps[..n]);
      assert steps[n..][0] == steps[n];
      assert steps[..n + 1] == steps[..n] + [steps[n]];
      assert Legal(Apply(s', steps[n]), []);
      assert Legal(s', [steps[n]]);
      RunsCompose(s, steps[..n], [steps[n]]);
      assert After(s', [steps[n]]) == Apply(s', steps[n]);
    }
  }

  /** The state after the first n steps of a run from the start. */
  function At(steps: seq<Step>, n: nat): State
    requires Legal(START, steps) && n <= |steps|
  {
    PrefixIsLegal(START, steps, n);
    After(START, steps[..n])
  }

  // ----- Payment data -----

  /**
   In every reachable state an order that is PAID or COMPLETED has a transaction id and a
   payment method; and whenever a row has either of them, it has both, they come from one and
   the same charge, made for that order and its own user, and the method is known.
   */
  lemma PaymentDataIsWhole(steps: seq<Step>, id: Uuid)
    requires Legal(START, steps) && id in After(START, steps).table.rows
    ensures var s := After(START, steps);
            var row := s.table.rows[id];
            && (row.status == Paid || row.status == Completed ==> row.tx.Some? && row.pm.Some?)
            && (row.tx.Some? <==> row.pm.Some?)
            && (row.tx.Some? ==>
                  && row.pm.value != Unknown
                  && row.tx.value in s.ledger
                  && var charge := s.ledger[row.tx.value];
                     charge.order == Text(id) && charge.user == Text(row.user) && SameMethod(row.pm.value, charge.pm))
            && (row.status == PendingPayment ==> row.tx.None? && row.pm.None?)
  {
    StartIsGood();
    RunKeepsInv(START, steps);
  }

  /**
   The order is still there, with its user, parts and price; it is not pending again, and it
   has not lost its payment.
   */
  predicate MovedForward(t: Table, t': Table, id: Uuid)
    requires id in t.rows
  {
    && id in t'.rows
    && SameOrder(t.rows[id], t'.rows[id])
    && (t.rows[id].status != PendingPayment ==> t'.rows[id].status != PendingPayment)
    && (t.rows[id].tx.Some? ==> t'.rows[id].tx.Some?)
  }

  lemma MoveIsForward(t: Table, t': Table, id: Uuid)
    requires TableMoves(t, t') && id in t.rows
    ensures MovedForward(t, t', id)
  {
    if !RowsStay(t, t') {
      var o :| Lands(t, t', o);
    }
  }

  /**
   Along any run an order keeps its user, parts and price, never becomes pending again once it
   has left that status, and never loses its payment data.
   */
  lemma {:induction false} OrdersOnlyMoveForward(s: State, steps: seq<Step>, id: Uuid)
    requires Inv(s) && Legal(s, steps) && id in s.table.rows
    ensures MovedForward(s.table, After(s, steps).table, id)
    decreases |steps|
  {
    if steps != [] {
      StepKeepsInv(s, steps[0]);
      MoveIsForward(s.table, Apply(s, steps[0]).table, id);
      OrdersOnlyMoveForward(Apply(s, steps[0]), steps[1..], id);
    }
  }

  /** The order a step would patch, if it is an UPDATE. */
  function Patches(s: State, step: Step): Option<(Order, DbFault)>
    requires Enabled(s, step)
  {
    match step
    case PayRecord(r, fault) => Some((s.requests[r].ord, fault))
    case CancelRecord(r, fault) => Some((s.requests[r].ord, fault))
    case Complete(how) =>
      if how == Panics then None else Some((Completion(s.assembled[s.completion.next].order), FaultOf(how)))
    case _ => None
  }

  /**
   No UPDATE the services send is ever refused by the repository's guards, by the table's
   CHECK constraints or for want of a row: it fails only if the database does.
   */
  lemma WritesAreNeverRefused(steps: seq<Step>, step: Step)
    requires Legal(START, steps) && Enabled(After(START, steps), step)
    requires Patches(After(START, steps), step).Some?
    ensures var s := After(START, steps);
            var (upd, fault) := Patches(s, step).value;
            var (t, err) := AfterUpdate(s.table, upd, fault);
            && (err == if fault == Healthy then None else Some(DatabaseDown))
            && (forall id :: id in t.rows ==> Checks(t.rows[id]))
  {
    StartIsGood();
    RunKeepsInv(START, steps);
    var s := After(START, steps);
    var (upd, fault) := Patches(s, step).value;
    match step {
      case PayRecord(r, _) => PaymentIsSafe(s, s.requests[r]);
      case CancelRecord(r, _) => CancellationIsSafe(s, s.requests[r]);
      case Complete(how) =>
        ShipNamesPaidOrder(s, s.completion.next);
        CompletionIsSafe(s, upd.id);
    }
    SafeWriteLands(s.ledger, s.table, upd, fault);
    forall id | id in AfterUpdate(s.table, upd, fault).0.rows
      ensures Checks(AfterUpdate(s.table, upd, fault).0.rows[id])
    {
      assert RowOk(s.ledger, id, AfterUpdate(s.table, upd, fault).0.rows[id]);
    }
  }

  // ----- Charges -----

  /** The charge was made for an order that exists, and for that order's own user. */
  ghost predicate OwnedCharge(rows: map<Uuid, Order>, charge: PayParams) {
    exists id :: id in rows && charge.order == Text(id) && charge.user == Text(rows[id].user)
  }

  ghost predicate LedgerOk(s: State) {
    forall tx :: tx in s.ledger ==> OwnedCharge(s.table.rows, s.ledger[tx])
  }

  /** A step adds at most one charge, for the order of the request that makes it. */
  lemma NewCharge(s: State, step: Step, tx: Uuid)
    requires Inv(s) && Enabled(s, step) && tx in Apply(s, step).ledger && tx !in s.ledger
    ensures OwnedCharge(s.table.rows, Apply(s, step).ledger[tx])
  {
    var q := s.requests[step.r];
    assert RequestOk(s.table, s.ledger, q);
    ServeKeepsMeaning(q.ord.id, q.ord.user, q.pm);
    assert s.table.rows[q.ord.id].user == q.ord.user;
  }

  lemma StepKeepsLedgerOk(s: State, step: Step)
    requires Inv(s) && LedgerOk(s) && Enabled(s, step)
    ensures LedgerOk(Apply(s, step))
  {
    var s' := Apply(s, step);
    StepKeepsInv(s, step);
    forall tx | tx in s'.ledger ensures OwnedCharge(s'.table.rows, s'.ledger[tx]) {
      if tx !in s.ledger {
        NewCharge(s, step, tx);
      } else {
        assert OwnedCharge(s.table.rows, s.ledger[tx]);
      }
      var id :| && id in s.table.rows
                && s'.ledger[tx].order == Text(id) && s'.ledger[tx].user == Text(s.table.rows[id].user);
      MoveIsForward(s.table, s'.table, id);
    }
  }

  /** In every reachable state every charge in the ledger names an existing order and its own user. */
  lemma {:induction false} ChargesAreOwned(s: State, steps: seq<Step>)
    requires Inv(s) && LedgerOk(s) && Legal(s, steps)
    ensures LedgerOk(After(s, steps))
    decreases |steps|
  {
    if steps != [] {
      StepKeepsInv(s, steps[0]);
      StepKeepsLedgerOk(s, steps[0]);
      ChargesAreOwned(Apply(s, steps[0]), steps[1..]);
    }
  }

  // ----- Topics -----

  /** Every assembled message repeats the event, order and user of a paid message, whose charge is in the ledger. */
  lemma ShipsAreTraceable(steps: seq<Step>, j: nat)
    requires Legal(START, steps) && j < |After(START, steps).assembled|
    ensures var s := After(START, steps);
            exists i :: && 0 <= i < |s.paid|
                        && s.assembled[j] == AssembledShip(s.paid[i].event, s.paid[i].order, s.paid[i].user)
                        && PaidBy(s.ledger, s.assembled[j].order, s.assembled[j].user, s.paid[i].tx, s.paid[i].pm)
                        && s.assembled[j].order in s.table.rows
                        && s.table.rows[s.assembled[j].order].user == s.assembled[j].user
  {
    StartIsGood();
    RunKeepsInv(START, steps);
    var s := After(START, steps);
    assert Announced(s.paid, s.assembled[j]);
    var i :| 0 <= i < |s.paid| && s.assembled[j] == ShipFor(s.paid[i]);
    assert MessageOk(s.table, s.ledger, s.paid[i]);
  }

  /** No call of the handler for this offset returned nil. */
  predicate NoneSucceeded(ds: seq<Delivery>, o: nat) {
    forall i :: 0 <= i < |ds| && ds[i].offset == o ==> ds[i].raw != Nil
  }

  ghost predicate SomePanicked(ds: seq<Delivery>, o: nat) {
    exists i :: 0 <= i < |ds| && ds[i].offset == o && ds[i].raw == Panicked
  }

  /**
   Below the committed offset of `order.paid`, a message that has no ship on `order.assembled`
   was delivered and every call of its handler failed or panicked; and either one of them
   panicked, or none was acknowledged and a later success of a session passed over it.
   */
  lemma CommittedPaymentsAreAssembled(steps: seq<Step>, o: nat)
    requires Legal(START, steps) && o < After(START, steps).assembly.committed
    ensures var s := After(START, steps);
            && o < |s.paid|
            && var ds := s.assembly.deliveries;
               ShipFor(s.paid[o]) !in s.assembled ==>
                 && Seen(ds, o) && NoneSucceeded(ds, o)
                 && (SomePanicked(ds, o) || (!Acknowledged(ds, o) && PassedOver(ds, o)))
  {
    StartIsGood();
    RunKeepsInv(START, steps);
    var s := After(START, steps);
    var ds := s.assembly.deliveries;
    if ShipFor(s.paid[o]) !in s.assembled {
      forall i | 0 <= i < |ds| && ds[i].offset == o ensures ds[i].raw != Nil {
        assert DeliveryBuilt(s.paid, s.assembled, ds[i]);
      }
      if Acknowledged(ds, o) {
        var i :| 0 <= i < |ds| && ds[i].offset == o && ds[i].returned == Nil;
        assert DeliveryBuilt(s.paid, s.assembled, ds[i]);
        assert SomePanicked(ds, o);
      }
    }
  }

  // ----- Races -----

  predicate Opens(step: Step, r: nat) {
    (step.PayRead? || step.CancelRead?) && step.r == r
  }

  ghost predicate LastOpened(steps: seq<Step>, r: nat, j: nat) {
    && j < |steps|
    && Opens(steps[j], r)
    && forall m :: j < m < |steps| ==> !Opens(steps[m], r)
  }

  /** Step k of the run writes the order's row. */
  ghost predicate WritesOrder(steps: seq<Step>, k: nat, id: Uuid)
    requires Legal(START, steps) && k < |steps|
  {
    Lands(At(steps, k).table, At(steps, k + 1).table, id)
  }

  /** A request remembers how many writes had landed when it was opened, until it ends. */
  lemma StepRemembersOpening(s: State, step: Step, r: nat)
    requires Enabled(s, step) && r in Apply(s, step).requests
    ensures var q := Apply(s, step).requests[r];
            if Opens(step, r) then q.readAt == |s.table.landed|
            else r in s.requests && s.requests[r].readAt == q.readAt
  {
  }

  /** What each in-flight request remembers: the number of writes that had landed when it was last opened. */
  lemma {:induction false} OpeningIsRemembered(steps: seq<Step>, r: nat) returns (j: nat)
    requires Legal(START, steps) && r in After(START, steps).requests
    ensures LastOpened(steps, r, j)
    ensures |At(steps, j).table.landed| == After(START, steps).requests[r].readAt
    decreases |steps|
  {
    var n := |steps| - 1;
    PrefixIsLegal(START, steps, n);
    var before := steps[..n];
    assert steps[..n + 1] == steps;
    StepRemembersOpening(At(steps, n), steps[n], r);
    if Opens(steps[n], r) {
      j := n;
    } else {
      j := OpeningIsRemembered(before, r);
      assert before[..j] == steps[..j];
    }
  }

  lemma LandingsOnlyGrow(steps: seq<Step>, m: nat, n: nat)
    requires Legal(START, steps) && m <= n <= |steps|
    ensures At(steps, m).table.landed <= At(steps, n).table.landed
    decreases n
  {
    if m < n {
      LandingsOnlyGrow(steps, m, n - 1);
      PrefixIsLegal(START, steps, n - 1);
      PrefixKeepsInv(steps, n - 1);
      StepKeepsInv(At(steps, n - 1), steps[n - 1]);
    }
  }

  lemma PrefixKeepsInv(steps: seq<Step>, n: nat)
    requires Legal(START, steps) && n <= |steps|
    ensures Inv(At(steps, n))
  {
    StartIsGood();
    PrefixIsLegal(START, steps, n);
    RunKeepsInv(START, steps[..n]);
  }

  /** A step lands at most one write. */
  lemma NewLanding(t: Table, t': Table, k: nat)
    requires TableMoves(t, t') && |t.landed| <= k < |t'.landed|
    ensures |t.landed| == k && Lands(t, t', t'.landed[k].id)
  {
    var id :| Lands(t, t', id);
  }

  /** The last step either finds the write in the history, or lands it. */
  lemma LastStepLands(steps: seq<Step>, n: nat, k: nat)
    requires Legal(START, steps) && 0 < n <= |steps| && k < |At(steps, n).table.landed|
    ensures if k < |At(steps, n - 1).table.landed| then At(steps, n - 1).table.landed[k] == At(steps, n).table.landed[k]
            else |At(steps, n - 1).table.landed| == k && WritesOrder(steps, n - 1, At(steps, n).table.landed[k].id)
  {
    PrefixIsLegal(START, steps, n - 1);
    PrefixKeepsInv(steps, n - 1);
    LandingsOnlyGrow(steps, n - 1, n);
    if |At(steps, n - 1).table.landed| <= k {
      StepKeepsInv(At(steps, n - 1), steps[n - 1]);
      NewLanding(At(steps, n - 1).table, At(steps, n).table, k);
    }
  }

  /** Each landed write was landed by some step of the run. */
  lemma {:induction false} LandingHasStep(steps: seq<Step>, j: nat, n: nat, k: nat) returns (m: nat)
    requires Legal(START, steps) && j <= n <= |steps|
    requires |At(steps, j).table.landed| <= k < |At(steps, n).table.landed|
    ensures j <= m < n
    ensures WritesOrder(steps, m, At(steps, n).table.landed[k].id)
    ensures |At(steps, m).table.landed| == k
    decreases n
  {
    LastStepLands(steps, n, k);
    if k < |At(steps, n - 1).table.landed| {
      m := LandingHasStep(steps, j, n - 1, k);
    } else {
      m := n - 1;
    }
  }

  /** Nothing lands while a request is being opened. */
  lemma OpeningLandsNothing(s: State, step: Step)
    requires Enabled(s, step) && (step.PayRead? || step.CancelRead?)
    ensures Apply(s, step).table == s.table
  {
  }

  /** Some step after the request's opening wrote the order. */
  ghost predicate Raced(steps: seq<Step>, r: nat, id: Uuid)
    requires Legal(START, steps)
  {
    exists j: nat, k: nat :: LastOpened(steps, r, j) && j < k < |steps| && WritesOrder(steps, k, id)
  }

  lemma OvertakenMeansRaced(steps: seq<Step>, r: nat)
    requires Legal(START, steps) && r in After(START, steps).requests
    requires Overtaken(After(START, steps).table, After(START, steps).requests[r])
    ensures Raced(steps, r, After(START, steps).requests[r].ord.id)
  {
    var n := |steps|;
    assert steps[..n] == steps;
    var q := After(START, steps).requests[r];
    var landed := After(START, steps).table.landed;
    var j := OpeningIsRemembered(steps, r);
    var i :| q.readAt <= i < |landed| && landed[i].id == q.ord.id;
    var k := LandingHasStep(steps, j, n, i);
    if k == j {
      PrefixIsLegal(START, steps, j);
      OpeningLandsNothing(At(steps, j), steps[j]);
      assert false;
    }
    assert LastOpened(steps, r, j) && j < k < |steps| && WritesOrder(steps, k, q.ord.id);
  }

  lemma RacedMeansOvertaken(steps: seq<Step>, r: nat)
    requires Legal(START, steps) && r in After(START, steps).requests
    requires Raced(steps, r, After(START, steps).requests[r].ord.id)
    ensures Overtaken(After(START, steps).table, After(START, steps).requests[r])
  {
    var n := |steps|;
    assert steps[..n] == steps;
    var q := After(START, steps).requests[r];
    var landed := After(START, steps).table.landed;
    var j: nat, k: nat :| LastOpened(steps, r, j) && j < k < |steps| && WritesOrder(steps, k, q.ord.id);
    var j' := OpeningIsRemembered(steps, r);
    assert j' == j;
    var t, t' := At(steps, k).table, At(steps, k + 1).table;
    LandingsOnlyGrow(steps, j, k);
    LandingsOnlyGrow(steps, k + 1, n);
    assert t'.landed[|t.landed|].id == q.ord.id;
    assert landed[|t.landed|] == t'.landed[|t.landed|];
  }

  /**
   The exact condition for a stale write. When the write of `Pay` or `Cancel` is next, the
   order is no longer pending if and only if some other step wrote that order after this
   request was opened.
   */
  lemma StaleExactlyWhenRaced(steps: seq<Step>, r: nat)
    requires Legal(START, steps)
    requires r in After(START, steps).requests
    requires var q := After(START, steps).requests[r]; q.Recording? || q.Cancelling?
    ensures var s := After(START, steps);
            var id := s.requests[r].ord.id;
            && id in s.table.rows
            && (s.table.rows[id].status != PendingPayment <==> Raced(steps, r, id))
  {
    StartIsGood();
    RunKeepsInv(START, steps);
    var s := After(START, steps);
    var q := s.requests[r];
    assert RequestOk(s.table, s.ledger, q);
    if Overtaken(s.table, q) {
      OvertakenMeansRaced(steps, r);
    }
    if Raced(steps, r, q.ord.id) {
      RacedMeansOvertaken(steps, r);
    }
  }
}
