/** What every interleaving of the saga's steps keeps, with any failures and redeliveries. */
module SagaSafety {
  import opened Prelude
  import opened Ids
  import opened Payments
  import opened OrderTable
  import opened Kafka
  import opened Saga

  // ----- The invariant -----

  /** The payment data was issued by one charge, for this order, its user and this method. */
  predicate PaidBy(ledger: map<Uuid, PayParams>, order: Uuid, user: Uuid, tx: Uuid, pm: PaymentMethod) {
    && tx in ledger
    && ledger[tx].order == Text(order)
    && ledger[tx].user == Text(user)
    && SameMethod(pm, ledger[tx].pm)
  }

  predicate Charged(ledger: map<Uuid, PayParams>, ord: Order) {
    ord.tx.Some? && ord.pm.Some? && PaidBy(ledger, ord.id, ord.user, ord.tx.value, ord.pm.value)
  }

  predicate RowOk(ledger: map<Uuid, PayParams>, id: Uuid, row: Order) {
    && row.id == id != NIL
    && row.status != Unset
    && row.total >= 0
    && (row.tx.Some? || row.pm.Some? ==> Charged(ledger, row))
    && (row.status == PendingPayment ==> row.tx.None?)
    && (row.status == Paid || row.status == Completed ==> row.tx.Some?)
  }

  ghost predicate RowsOk(ledger: map<Uuid, PayParams>, rows: map<Uuid, Order>) {
    forall id :: id in rows ==> RowOk(ledger, id, rows[id])
  }

  /** What `Create` fixed for good: the id, the user, the parts and the price. */
  predicate SameOrder(a: Order, b: Order) {
    a.id == b.id && a.user == b.user && a.parts == b.parts && a.total == b.total
  }

  /** Some write to the request's order landed after the request read it. */
  ghost predicate Overtaken(t: Table, q: Request) {
    exists k :: q.readAt <= k < |t.landed| && t.landed[k].id == q.ord.id
  }

  /** The row still shows the PENDING_PAYMENT that the request saw, unless another write came in between. */
  ghost predicate FreshUnlessOvertaken(t: Table, q: Request)
    requires q.ord.id in t.rows
  {
    t.rows[q.ord.id].status != PendingPayment <==> Overtaken(t, q)
  }

  ghost predicate RequestOk(t: Table, ledger: map<Uuid, PayParams>, q: Request) {
    && q.ord.id in t.rows
    && SameOrder(q.ord, t.rows[q.ord.id])
    && q.readAt <= |t.landed|
    && match q
       case Charging(ord, _, _) =>
         ord.status == PendingPayment && ord.tx.None? && ord.pm.None? && FreshUnlessOvertaken(t, q)
       case Recording(ord, _) =>
         ord.status == Paid && Charged(ledger, ord) && FreshUnlessOvertaken(t, q)
       case Announcing(ord, _) =>
         Charged(ledger, ord) && t.rows[ord.id].tx.Some?
       case Cancelling(ord, _) =>
         ord.status == Cancelled && ord.tx.None? && ord.pm.None? && FreshUnlessOvertaken(t, q)
  }

  ghost predicate RequestsOk(s: State) {
    forall r :: r in s.requests ==> RequestOk(s.table, s.ledger, s.requests[r])
  }

  predicate MessageOk(t: Table, ledger: map<Uuid, PayParams>, m: PaidOrder) {
    && m.order in t.rows
    && t.rows[m.order].user == m.user
    && t.rows[m.order].tx.Some?
    && PaidBy(ledger, m.order, m.user, m.tx, m.pm)
  }

  ghost predicate MessagesOk(s: State) {
    forall i :: 0 <= i < |s.paid| ==> MessageOk(s.table, s.ledger, s.paid[i])
  }

  ghost predicate Announced(paid: seq<PaidOrder>, ship: AssembledShip) {
    exists i :: 0 <= i < |paid| && ship == ShipFor(paid[i])
  }

  ghost predicate ShipsOk(s: State) {
    forall j :: 0 <= j < |s.assembled| ==> Announced(s.paid, s.assembled[j])
  }

  /** A call of the assembly handler that itself returned nil has put its ship on the topic. */
  ghost predicate AssemblyOk(s: State) {
    && GroupInv(s.assembly)
    && s.assembly.next <= |s.paid|
    && forall i :: 0 <= i < |s.assembly.deliveries| ==>
         DeliveryBuilt(s.paid, s.assembled, s.assembly.deliveries[i])
  }

  predicate DeliveryBuilt(paid: seq<PaidOrder>, assembled: seq<AssembledShip>, d: Delivery) {
    && d.offset < |paid|
    && d.returned == Recovered(d.raw)
    && (d.raw == Nil ==> ShipFor(paid[d.offset]) in assembled)
  }

  ghost predicate CompletionLanded(t: Table, id: Uuid) {
    exists k :: 0 <= k < |t.landed| && t.landed[k].id == id && t.landed[k].after.status == Completed
  }

  /** A call of the completion handler that itself returned nil has written COMPLETED. */
  ghost predicate CompletionOk(s: State) {
    && GroupInv(s.completion)
    && s.completion.next <= |s.assembled|
    && forall i :: 0 <= i < |s.completion.deliveries| ==>
         DeliveryCompleted(s.table, s.assembled, s.completion.deliveries[i])
  }

  ghost predicate DeliveryCompleted(t: Table, assembled: seq<AssembledShip>, d: Delivery) {
    && d.offset < |assembled|
    && d.returned == Recovered(d.raw)
    && (d.raw == Nil ==> CompletionLanded(t, assembled[d.offset].order))
  }

  ghost predicate Inv(s: State) {
    && RowsOk(s.ledger, s.table.rows)
    && RequestsOk(s)
    && MessagesOk(s)
    && ShipsOk(s)
    && AssemblyOk(s)
    && CompletionOk(s)
  }

  // ----- How the shared state may change in one step -----

  /** No UPDATE lands; rows may only be added. */
  ghost predicate RowsStay(t: Table, t': Table) {
    && t'.landed == t.landed
    && forall id :: id in t.rows ==> id in t'.rows && t'.rows[id] == t.rows[id]
  }

  /** One UPDATE lands: it never brings back PENDING_PAYMENT, never clears the transaction, never changes the order. */
  ghost predicate OneLands(t: Table, t': Table) {
    exists id :: Lands(t, t', id)
  }

  ghost predicate Lands(t: Table, t': Table, id: Uuid) {
    && id in t.rows && id in t'.rows
    && t'.rows == t.rows[id := t'.rows[id]]
    && t'.landed == t.landed + [Landing(id, t.rows[id], t'.rows[id])]
    && SameOrder(t.rows[id], t'.rows[id])
    && t'.rows[id].status != PendingPayment
    && (t.rows[id].tx.Some? ==> t'.rows[id].tx.Some?)
  }

  ghost predicate TableMoves(t: Table, t': Table) {
    RowsStay(t, t') || OneLands(t, t')
  }

  ghost predicate LedgerGrows(l: map<Uuid, PayParams>, l': map<Uuid, PayParams>) {
    forall tx :: tx in l ==> tx in l' && l'[tx] == l[tx]
  }

  lemma RequestSurvives(t: Table, t': Table, l: map<Uuid, PayParams>, l': map<Uuid, PayParams>, q: Request)
    requires RequestOk(t, l, q) && TableMoves(t, t') && LedgerGrows(l, l')
    ensures RequestOk(t', l', q)
  {
    if RowsStay(t, t') {
    } else {
      var id :| Lands(t, t', id);
      if Overtaken(t, q) {
        var k :| q.readAt <= k < |t.landed| && t.landed[k].id == q.ord.id;
        assert t'.landed[k] == t.landed[k];
      }
      if Overtaken(t', q) {
        var k :| q.readAt <= k < |t'.landed| && t'.landed[k].id == q.ord.id;
        assert k < |t.landed| ==> t.landed[k] == t'.landed[k];
      }
      if q.ord.id == id {
        assert t'.landed[|t.landed|].id == id;
        assert Overtaken(t', q);
      }
    }
  }

  lemma MessageSurvives(t: Table, t': Table, l: map<Uuid, PayParams>, l': map<Uuid, PayParams>, m: PaidOrder)
    requires MessageOk(t, l, m) && TableMoves(t, t') && LedgerGrows(l, l')
    ensures MessageOk(t', l', m)
  {
    if !RowsStay(t, t') {
      var id :| Lands(t, t', id);
    }
  }

  lemma CompletionSurvives(t: Table, t': Table, id: Uuid)
    requires CompletionLanded(t, id) && TableMoves(t, t')
    ensures CompletionLanded(t', id)
  {
    var k :| 0 <= k < |t.landed| && t.landed[k].id == id && t.landed[k].after.status == Completed;
    if !RowsStay(t, t') {
      var id' :| Lands(t, t', id');
      assert t'.landed[k] == t.landed[k];
    }
  }

  /** Everything the topics and their consumers rely on stays true when the table and the ledger move. */
  lemma TopicsSurvive(s: State, s': State)
    requires MessagesOk(s) && ShipsOk(s) && AssemblyOk(s) && CompletionOk(s)
    requires TableMoves(s.table, s'.table) && LedgerGrows(s.ledger, s'.ledger)
    requires s'.paid == s.paid && s'.assembled == s.assembled
    requires s'.assembly == s.assembly && s'.completion == s.completion
    ensures MessagesOk(s') && ShipsOk(s') && AssemblyOk(s') && CompletionOk(s')
  {
    forall i | 0 <= i < |s'.paid| ensures MessageOk(s'.table, s'.ledger, s'.paid[i]) {
      MessageSurvives(s.table, s'.table, s.ledger, s'.ledger, s.paid[i]);
    }
    forall i | 0 <= i < |s'.completion.deliveries|
      ensures DeliveryCompleted(s'.table, s'.assembled, s'.completion.deliveries[i])
    {
      var d := s.completion.deliveries[i];
      assert DeliveryCompleted(s.table, s.assembled, d);
      if d.raw == Nil {
        CompletionSurvives(s.table, s'.table, s.assembled[d.offset].order);
      }
    }
  }

  lemma OthersSurvive(s: State, s': State, r: nat)
    requires RequestsOk(s)
    requires TableMoves(s.table, s'.table) && LedgerGrows(s.ledger, s'.ledger)
    requires forall k :: k in s'.requests && k != r ==> k in s.requests && s'.requests[k] == s.requests[k]
    requires r in s'.requests ==> RequestOk(s'.table, s'.ledger, s'.requests[r])
    ensures RequestsOk(s')
  {
    forall k | k in s'.requests ensures RequestOk(s'.table, s'.ledger, s'.requests[k]) {
      if k != r {
        RequestSurvives(s.table, s'.table, s.ledger, s'.ledger, s.requests[k]);
      }
    }
  }

  // ----- Writes -----

  /** The patch leaves a good row, of the same order, no longer pending. */
  ghost predicate SafeWrite(ledger: map<Uuid, PayParams>, t: Table, upd: Order) {
    && upd.id in t.rows
    && Guard(upd).None? && !PatchesNothing(upd)
    && var row' := Patch(t.rows[upd.id], upd);
       && RowOk(ledger, upd.id, row')
       && SameOrder(t.rows[upd.id], row')
       && row'.status == upd.status != PendingPayment
       && (t.rows[upd.id].tx.Some? ==> row'.tx.Some?)
  }

  /** A safe write is never refused: it lands unless the database is down before it, and then nothing changes. */
  lemma SafeWriteLands(ledger: map<Uuid, PayParams>, t: Table, upd: Order, fault: DbFault)
    requires RowsOk(ledger, t.rows) && SafeWrite(ledger, t, upd)
    ensures var (t', err) := AfterUpdate(t, upd, fault);
            && RowsOk(ledger, t'.rows)
            && TableMoves(t, t')
            && (err.None? <==> fault == Healthy)
            && (fault == FailsBefore ==> t' == t)
            && (fault != FailsBefore ==> Lands(t, t', upd.id) && t'.rows[upd.id] == Patch(t.rows[upd.id], upd))
  {
    var (t', err) := AfterUpdate(t, upd, fault);
    if fault != FailsBefore {
      var row' := Patch(t.rows[upd.id], upd);
      assert Checks(row');
      assert t'.rows == t.rows[upd.id := row'];
      assert Lands(t, t', upd.id);
    }
  }

  lemma PaymentIsSafe(s: State, q: Request)
    requires RowsOk(s.ledger, s.table.rows) && RequestOk(s.table, s.ledger, q) && q.Recording?
    ensures SafeWrite(s.ledger, s.table, q.ord)
  {
  }

  lemma CancellationIsSafe(s: State, q: Request)
    requires RowsOk(s.ledger, s.table.rows) && RequestOk(s.table, s.ledger, q) && q.Cancelling?
    ensures SafeWrite(s.ledger, s.table, q.ord)
  {
  }

  lemma CompletionIsSafe(s: State, id: Uuid)
    requires RowsOk(s.ledger, s.table.rows)
    requires id in s.table.rows && s.table.rows[id].tx.Some?
    ensures SafeWrite(s.ledger, s.table, Completion(id))
  {
  }

  /** The order named by an assembled message exists and carries its payment. */
  lemma ShipNamesPaidOrder(s: State, j: nat)
    requires MessagesOk(s) && ShipsOk(s) && j < |s.assembled|
    ensures s.assembled[j].order in s.table.rows
    ensures s.table.rows[s.assembled[j].order].tx.Some?
    ensures s.table.rows[s.assembled[j].order].user == s.assembled[j].user
  {
    assert Announced(s.paid, s.assembled[j]);
    var i :| 0 <= i < |s.paid| && s.assembled[j] == ShipFor(s.paid[i]);
    assert MessageOk(s.table, s.ledger, s.paid[i]);
  }

  // ----- Each step keeps the invariant -----

  lemma CreateKeepsInv(s: State, id: Uuid, user: Uuid, parts: seq<Uuid>, total: Int64, fault: DbFault)
    requires Inv(s) && id != NIL && id !in s.table.rows
    ensures Inv(Create(s, id, user, parts, total, fault))
    ensures TableMoves(s.table, Create(s, id, user, parts, total, fault).table)
  {
    var s' := Create(s, id, user, parts, total, fault);
    assert RowsStay(s.table, s'.table);
    TopicsSurvive(s, s');
    forall r | r in s'.requests ensures RequestOk(s'.table, s'.ledger, s'.requests[r]) {
      RequestSurvives(s.table, s'.table, s.ledger, s'.ledger, s.requests[r]);
    }
  }

  /** A request that begins has just seen a pending row, which nobody has touched since. */
  lemma BeginKeepsInv(s: State, s': State, r: nat, q: Request)
    requires Inv(s) && r !in s.requests
    requires s' == s.(requests := s.requests[r := q])
    requires q.ord.id in s.table.rows && q.readAt == |s.table.landed|
    requires var row := s.table.rows[q.ord.id];
             row.status == PendingPayment
             && ((q.Charging? && q.ord == row) || (q.Cancelling? && q.ord == row.(status := Cancelled)))
    ensures Inv(s')
  {
    assert RowOk(s.ledger, q.ord.id, s.table.rows[q.ord.id]);
    assert RowsStay(s.table, s'.table);
    OthersSurvive(s, s', r);
    TopicsSurvive(s, s');
  }

  lemma ChargeKeepsInv(s: State, r: nat, tx: Uuid, reply: ChargeReply)
    requires Inv(s) && r in s.requests && s.requests[r].Charging? && tx !in s.ledger
    ensures Inv(ChargeFor(s, r, tx, reply))
    ensures LedgerGrows(s.ledger, ChargeFor(s, r, tx, reply).ledger)
  {
    var s' := ChargeFor(s, r, tx, reply);
    var q := s.requests[r];
    assert RequestOk(s.table, s.ledger, q);
    ServeKeepsMeaning(q.ord.id, q.ord.user, q.pm);
    assert RowsStay(s.table, s'.table);
    assert LedgerGrows(s.ledger, s'.ledger);
    if r in s'.requests {
      var q' := s'.requests[r];
      assert Charged(s'.ledger, q'.ord);
      assert Overtaken(s.table, q) <==> Overtaken(s'.table, q');
    }
    forall id | id in s'.table.rows ensures RowOk(s'.ledger, id, s'.table.rows[id]) {
      assert RowOk(s.ledger, id, s.table.rows[id]);
    }
    OthersSurvive(s, s', r);
    TopicsSurvive(s, s');
  }

  lemma RecordKeepsInv(s: State, r: nat, fault: DbFault)
    requires Inv(s) && r in s.requests && s.requests[r].Recording?
    ensures Inv(RecordPayment(s, r, fault))
    ensures TableMoves(s.table, RecordPayment(s, r, fault).table)
  {
    var s' := RecordPayment(s, r, fault);
    var q := s.requests[r];
    assert RequestOk(s.table, s.ledger, q);
    PaymentIsSafe(s, q);
    SafeWriteLands(s.ledger, s.table, q.ord, fault);
    OthersSurvive(s, s', r);
    TopicsSurvive(s, s');
  }

  lemma AnnounceKeepsInv(s: State, r: nat, event: Uuid, send: SendFault)
    requires Inv(s) && r in s.requests && Announceable(s.requests[r])
    ensures Inv(AnnouncePayment(s, r, event, send))
  {
    var s' := AnnouncePayment(s, r, event, send);
    var q := s.requests[r];
    assert RequestOk(s.table, s.ledger, q);
    assert RowsStay(s.table, s'.table);
    OthersSurvive(s, s', r);
    assert q.Announcing?;
    forall i | 0 <= i < |s'.paid| ensures MessageOk(s'.table, s'.ledger, s'.paid[i]) {
      if i < |s.paid| {
        assert s'.paid[i] == s.paid[i];
      }
    }
    PaidGrows(s, s');
  }

  /** Appending to the paid topic changes nothing that was said about older messages. */
  lemma PaidGrows(s: State, s': State)
    requires ShipsOk(s) && AssemblyOk(s)
    requires s.paid <= s'.paid && s'.assembled == s.assembled && s'.assembly == s.assembly
    ensures ShipsOk(s') && AssemblyOk(s')
  {
    forall j | 0 <= j < |s'.assembled| ensures Announced(s'.paid, s'.assembled[j]) {
      assert Announced(s.paid, s.assembled[j]);
      var i :| 0 <= i < |s.paid| && s.assembled[j] == ShipFor(s.paid[i]);
      assert s'.paid[i] == s.paid[i];
    }
    forall i | 0 <= i < |s'.assembly.deliveries|
      ensures DeliveryBuilt(s'.paid, s'.assembled, s'.assembly.deliveries[i])
    {
      assert DeliveryBuilt(s.paid, s.assembled, s.assembly.deliveries[i]);
    }
  }

  lemma CancelKeepsInv(s: State, r: nat, fault: DbFault)
    requires Inv(s) && r in s.requests && s.requests[r].Cancelling?
    ensures Inv(RecordCancel(s, r, fault))
    ensures TableMoves(s.table, RecordCancel(s, r, fault).table)
  {
    var s' := RecordCancel(s, r, fault);
    var q := s.requests[r];
    assert RequestOk(s.table, s.ledger, q);
    CancellationIsSafe(s, q);
    SafeWriteLands(s.ledger, s.table, q.ord, fault);
    OthersSurvive(s, s', r);
    TopicsSurvive(s, s');
  }

  lemma AssembleKeepsInv(s: State, how: Handling)
    requires Inv(s) && s.assembly.next < |s.paid|
    ensures Inv(AssembleNext(s, how))
  {
    var s' := AssembleNext(s, how);
    var m := s.paid[s.assembly.next];
    DeliverKeepsInv(s.assembly, Raw(how), Recovered(Raw(how)));
    assert s.assembled <= s'.assembled;
    forall j | 0 <= j < |s'.assembled| ensures Announced(s'.paid, s'.assembled[j]) {
      if j < |s.assembled| {
        assert s'.assembled[j] == s.assembled[j];
      } else {
        assert s'.assembled[j] == ShipFor(m);
      }
    }
    forall i | 0 <= i < |s'.assembly.deliveries|
      ensures DeliveryBuilt(s'.paid, s'.assembled, s'.assembly.deliveries[i])
    {
      if i < |s.assembly.deliveries| {
        assert DeliveryBuilt(s.paid, s.assembled, s.assembly.deliveries[i]);
      } else if Raw(how) == Nil {
        assert s'.assembled[|s.assembled|] == ShipFor(m);
      }
    }
    forall i | 0 <= i < |s'.completion.deliveries|
      ensures DeliveryCompleted(s'.table, s'.assembled, s'.completion.deliveries[i])
    {
      assert DeliveryCompleted(s.table, s.assembled, s.completion.deliveries[i]);
    }
  }

  lemma CompleteKeepsInv(s: State, how: Handling)
    requires Inv(s) && s.completion.next < |s.assembled|
    ensures Inv(CompleteNext(s, how))
    ensures TableMoves(s.table, CompleteNext(s, how).table)
  {
    var s' := CompleteNext(s, how);
    var id := s.assembled[s.completion.next].order;
    var raw := CompletionResult(s.table, id, how);
    ShipNamesPaidOrder(s, s.completion.next);
    CompletionIsSafe(s, id);
    SafeWriteLands(s.ledger, s.table, Completion(id), FaultOf(how));
    assert TableMoves(s.table, s'.table);
    forall r | r in s'.requests ensures RequestOk(s'.table, s'.ledger, s'.requests[r]) {
      RequestSurvives(s.table, s'.table, s.ledger, s'.ledger, s.requests[r]);
    }
    TopicsSurvive(s, s'.(completion := s.completion));
    DeliverKeepsInv(s.completion, raw, Recovered(raw));
    if raw == Nil {
      assert Lands(s.table, s'.table, id);
      assert s'.table.landed[|s.table.landed|].after.status == Completed;
      assert CompletionLanded(s'.table, id);
    }
    forall i | 0 <= i < |s'.completion.deliveries|
      ensures DeliveryCompleted(s'.table, s'.assembled, s'.completion.deliveries[i])
    {
      if i < |s.completion.deliveries| {
        assert s'.completion.deliveries[i] == s.completion.deliveries[i];
      }
    }
  }

  lemma OffsetsKeepInv(s: State, s': State)
    requires Inv(s)
    requires s' == s.(assembly := s'.assembly, completion := s'.completion)
    requires s'.assembly == s.assembly || s'.assembly == Restart(s.assembly)
             || exists o: nat :: s'.assembly == Commit(s.assembly, o)
    requires s'.completion == s.completion || s'.completion == Restart(s.completion)
             || exists o: nat :: s'.completion == Commit(s.completion, o)
    ensures Inv(s')
  {
    RestartKeepsInv(s.assembly);
    RestartKeepsInv(s.completion);
    forall o: nat ensures GroupInv(Commit(s.assembly, o)) && GroupInv(Commit(s.completion, o)) {
      CommitKeepsInv(s.assembly, o);
      CommitKeepsInv(s.completion, o);
    }
  }

  /** The step keeps the invariant; rows only move forward and charges are never forgotten. */
  ghost predicate StepIsSafe(s: State, s': State) {
    Inv(s') && TableMoves(s.table, s'.table) && LedgerGrows(s.ledger, s'.ledger)
  }

  lemma ReadIsSafe(s: State, step: Step)
    requires Inv(s) && Enabled(s, step) && (step.PayRead? || step.CancelRead?)
    ensures StepIsSafe(s, Apply(s, step))
  {
    var s' := Apply(s, step);
    assert RowsStay(s.table, s'.table);
    if s' != s {
      BeginKeepsInv(s, s', step.r, s'.requests[step.r]);
    }
  }

  lemma ChargeStepIsSafe(s: State, step: Step)
    requires Inv(s) && Enabled(s, step) && step.PayCharge?
    ensures StepIsSafe(s, Apply(s, step))
  {
    assert RowsStay(s.table, Apply(s, step).table);
    ChargeKeepsInv(s, step.r, step.tx, step.reply);
  }

  lemma PayStepIsSafe(s: State, step: Step)
    requires Inv(s) && Enabled(s, step) && (step.PayRecord? || step.PayAnnounce?)
    ensures StepIsSafe(s, Apply(s, step))
  {
    match step
    case PayRecord(r, fault) => RecordKeepsInv(s, r, fault);
    case PayAnnounce(r, event, send) =>
      assert RowsStay(s.table, Apply(s, step).table);
      AnnounceKeepsInv(s, r, event, send);
  }

  lemma CancelStepIsSafe(s: State, step: Step)
    requires Inv(s) && Enabled(s, step) && (step.CancelRecord? || step.Abandon?)
    ensures StepIsSafe(s, Apply(s, step))
  {
    var s' := Apply(s, step);
    match step
    case CancelRecord(r, fault) => CancelKeepsInv(s, r, fault);
    case Abandon(r) =>
      assert RowsStay(s.table, s'.table);
      OthersSurvive(s, s', r);
  }

  predicate IsOffsetStep(step: Step) {
    step.AssemblyCommit? || step.AssemblyRestart? || step.CompletionCommit? || step.CompletionRestart?
  }

  lemma OffsetStepIsSafe(s: State, step: Step)
    requires Inv(s) && Enabled(s, step) && IsOffsetStep(step)
    ensures StepIsSafe(s, Apply(s, step))
  {
    var s' := Apply(s, step);
    assert RowsStay(s.table, s'.table);
    OffsetsKeepInv(s, s');
  }

  lemma StageStepIsSafe(s: State, step: Step)
    requires Inv(s) && Enabled(s, step) && (step.Assemble? || step.Complete?)
    ensures StepIsSafe(s, Apply(s, step))
  {
    match step
    case Assemble(how) =>
      assert RowsStay(s.table, Apply(s, step).table);
      AssembleKeepsInv(s, how);
    case Complete(how) => CompleteKeepsInv(s, how);
  }

  lemma CreateStepIsSafe(s: State, step: Step)
    requires Inv(s) && Enabled(s, step) && step.CreateOrder?
    ensures StepIsSafe(s, Apply(s, step))
  {
    CreateKeepsInv(s, step.id, step.user, step.parts, step.total, step.fault);
  }

  lemma StepKeepsInv(s: State, step: Step)
    requires Inv(s) && Enabled(s, step)
    ensures Inv(Apply(s, step))
    ensures TableMoves(s.table, Apply(s, step).table)
    ensures LedgerGrows(s.ledger, Apply(s, step).ledger)
  {
    if step.CreateOrder? {
      CreateStepIsSafe(s, step);
    } else if step.PayRead? || step.CancelRead? {
      ReadIsSafe(s, step);
    } else if step.CancelRecord? || step.Abandon? {
      CancelStepIsSafe(s, step);
    } else if step.Assemble? || step.Complete? {
      StageStepIsSafe(s, step);
    } else if IsOffsetStep(step) {
      OffsetStepIsSafe(s, step);
    } else if step.PayCharge? {
      ChargeStepIsSafe(s, step);
    } else {
      PayStepIsSafe(s, step);
    }
  }

  lemma StartIsGood()
    ensures Inv(START)
  {
  }

  lemma {:induction false} RunKeepsInv(s: State, steps: seq<Step>)
    requires Inv(s) && Legal(s, steps)
    ensures Inv(After(s, steps))
    decreases |steps|
  {
    if steps != [] {
      StepKeepsInv(s, steps[0]);
      RunKeepsInv(Apply(s, steps[0]), steps[1..]);
    }
  }
}
