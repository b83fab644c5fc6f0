/** What is left on the two topics decides, whatever the order of handling, which orders end up COMPLETED. */
module SagaDrain {
  import opened Ids
  import opened OrderTable
  import opened Saga
  import opened SagaSafety

  /** The rows with the given orders' status set, and nothing else. */
  function CompleteAll(rows: map<Uuid, Order>, ids: set<Uuid>): map<Uuid, Order> {
    map id | id in rows :: if id in ids then rows[id].(status := Completed) else rows[id]
  }

  // ----- Deliveries of assembled messages on their own -----

  /** A blind completion of each id in turn; a write may be reported as failed after it landed. */
  function CompleteEach(t: Table, ids: seq<(Uuid, DbFault)>): Table {
    if ids == [] then t
    else
      var rest := CompleteEach(t, ids[..|ids| - 1]);
      AfterUpdate(rest, Completion(ids[|ids| - 1].0), ids[|ids| - 1].1).0
  }

  /** The ids whose completion reached the database. */
  function Reached(ids: seq<(Uuid, DbFault)>): set<Uuid> {
    set k | 0 <= k < |ids| && ids[k].1 != FailsBefore :: ids[k].0
  }

  /**
   The table after any deliveries depends only on the set of orders that were reached, not on
   the order of the deliveries or on repetitions, and only statuses change.
   */
  lemma {:induction false} DeliveriesDependOnSet(t: Table, ids: seq<(Uuid, DbFault)>)
    requires NIL !in t.rows && forall id :: id in t.rows ==> t.rows[id].id == id && t.rows[id].total >= 0
    ensures CompleteEach(t, ids).rows == CompleteAll(t.rows, Reached(ids))
  {
    if ids == [] {
      assert CompleteAll(t.rows, {}) == t.rows;
    } else {
      var n := |ids| - 1;
      var rest, last := ids[..n], ids[n];
      DeliveriesDependOnSet(t, rest);
      var mid, end := CompleteEach(t, rest), CompleteEach(t, ids);
      ReachedLast(ids);
      var goal := CompleteAll(t.rows, Reached(ids));
      if last.0 in t.rows && last.1 != FailsBefore {
        assert end.rows == mid.rows[last.0 := mid.rows[last.0].(status := Completed)];
      } else {
        assert end.rows == mid.rows;
      }
      assert end.rows.Keys == goal.Keys;
      forall id | id in goal ensures end.rows[id] == goal[id] {
      }
    }
  }

  lemma ReachedLast(ids: seq<(Uuid, DbFault)>)
    requires ids != []
    ensures var n := |ids| - 1;
            Reached(ids) == Reached(ids[..n]) + if ids[n].1 != FailsBefore then {ids[n].0} else {}
  {
    var n := |ids| - 1;
    var all, some := Reached(ids), Reached(ids[..n]);
    forall id ensures id in all <==> id in some || (ids[n].1 != FailsBefore && id == ids[n].0) {
      if id in all {
        var k :| 0 <= k < |ids| && ids[k].1 != FailsBefore && ids[k].0 == id;
        assert k < n ==> ids[..n][k] == ids[k];
      }
      if id in some {
        var k :| 0 <= k < n && ids[..n][k].1 != FailsBefore && ids[..n][k].0 == id;
        assert ids[k].0 == id;
      }
    }
  }

  // ----- Draining both topics -----

  /** A handler call that works. */
  predicate Works(step: Step) {
    step == Assemble(Succeeds) || step == Complete(Succeeds)
  }

  function UnreadPaid(s: State): set<Uuid> {
    set i | s.assembly.next <= i < |s.paid| :: s.paid[i].order
  }

  function UnreadShips(s: State): set<Uuid> {
    set j | s.completion.next <= j < |s.assembled| :: s.assembled[j].order
  }

  /** The orders named by a message that is still to be read on either topic. */
  function Unread(s: State): set<Uuid> {
    UnreadPaid(s) + UnreadShips(s)
  }

  predicate Drained(s: State) {
    s.assembly.next >= |s.paid| && s.completion.next >= |s.assembled|
  }

  /** Handler calls still to be made: a paid message costs two, an assembled message one. */
  function Work(s: State): int {
    2 * (|s.paid| - s.assembly.next) + (|s.assembled| - s.completion.next)
  }

  function CompletedOrders(rows: map<Uuid, Order>): set<Uuid> {
    set id | id in rows && rows[id].status == Completed
  }

  lemma AssembleKeepsGoal(s: State)
    requires s.completion.next <= |s.assembled| && s.assembly.next < |s.paid|
    ensures var s' := AssembleNext(s, Succeeds);
            Work(s') == Work(s) - 1 && Unread(s') == Unread(s) && s'.table == s.table
  {
    var s' := AssembleNext(s, Succeeds);
    var n, m := s.assembly.next, |s.assembled|;
    assert forall j :: 0 <= j < m ==> s'.assembled[j] == s.assembled[j];
    forall id ensures id in Unread(s) <==> id in Unread(s') {
      if i :| s.assembly.next <= i < |s.paid| && s.paid[i].order == id {
        if i == n {
          assert s'.assembled[m].order == id;
          assert id in UnreadShips(s');
        } else {
          assert id in UnreadPaid(s');
        }
      }
      if j :| s.completion.next <= j < |s.assembled| && s.assembled[j].order == id {
        assert s'.assembled[j].order == id;
        assert id in UnreadShips(s');
      }
      if id in UnreadShips(s') {
        var j :| s'.completion.next <= j < |s'.assembled| && s'.assembled[j].order == id;
        if j == m {
          assert s.paid[n].order == id;
          assert id in UnreadPaid(s);
        } else {
          assert id in UnreadShips(s);
        }
      }
    }
  }

  /** What a working completion changes. */
  lemma CompletionEffect(s: State)
    requires Inv(s) && s.completion.next < |s.assembled|
    ensures var s' := CompleteNext(s, Succeeds);
            var id := s.assembled[s.completion.next].order;
            && id in s.table.rows
            && s'.table.rows == s.table.rows[id := s.table.rows[id].(status := Completed)]
            && s'.paid == s.paid && s'.assembled == s.assembled && s'.assembly == s.assembly
            && s'.completion.next == s.completion.next + 1
  {
    var id := s.assembled[s.completion.next].order;
    ShipNamesPaidOrder(s, s.completion.next);
    CompletionIsSafe(s, id);
    SafeWriteLands(s.ledger, s.table, Completion(id), Healthy);
  }

  lemma UnreadAfterCompletion(s: State, s': State)
    requires s.completion.next < |s.assembled|
    requires s'.paid == s.paid && s'.assembled == s.assembled && s'.assembly == s.assembly
    requires s'.completion.next == s.completion.next + 1
    ensures Unread(s) == Unread(s') + {s.assembled[s.completion.next].order}
  {
    var id := s.assembled[s.completion.next].order;
    assert UnreadPaid(s') == UnreadPaid(s);
    forall o ensures o in UnreadShips(s) <==> o in UnreadShips(s') || o == id {
      if o in UnreadShips(s) {
        var j :| s.completion.next <= j < |s.assembled| && s.assembled[j].order == o;
      }
    }
  }

  lemma CompleteKeepsGoal(s: State)
    requires Inv(s) && s.completion.next < |s.assembled|
    ensures var s' := CompleteNext(s, Succeeds);
            && Work(s') == Work(s) - 1
            && CompleteAll(s'.table.rows, Unread(s')) == CompleteAll(s.table.rows, Unread(s))
  {
    CompletionEffect(s);
    var s' := CompleteNext(s, Succeeds);
    UnreadAfterCompletion(s, s');
    OneThenTheRest(s.table.rows, s.assembled[s.completion.next].order, Unread(s'));
  }

  lemma OneThenTheRest(rows: map<Uuid, Order>, id: Uuid, ids: set<Uuid>)
    requires id in rows
    ensures CompleteAll(rows[id := rows[id].(status := Completed)], ids) == CompleteAll(rows, ids + {id})
  {
  }

  /** One call that works is one unit of work and leaves the outcome as it was. */
  lemma WorkingStep(s: State, step: Step)
    requires Inv(s) && Enabled(s, step) && Works(step)
    ensures var s' := Apply(s, step);
            && Work(s') == Work(s) - 1
            && CompleteAll(s'.table.rows, Unread(s')) == CompleteAll(s.table.rows, Unread(s))
  {
    if step.Assemble? {
      AssembleKeepsGoal(s);
    } else {
      CompleteKeepsGoal(s);
    }
  }

  lemma DrainedHasNoWork(s: State)
    requires Inv(s)
    ensures Drained(s) <==> Work(s) == 0
    ensures Drained(s) ==> CompleteAll(s.table.rows, Unread(s)) == s.table.rows
  {
    if Drained(s) {
      assert Unread(s) == {};
    }
  }

  /**
   From any state the system can be in, let the two consumers work without failures in any
   interleaving. Each call is one unit of work, so the topics are drained after exactly
   `Work(s)` calls and never later; and then every order is as it was, except that those
   named in unread messages are COMPLETED.
   */
  lemma {:induction false} DrainCompletesExactlyTheUnread(s: State, steps: seq<Step>)
    requires Inv(s) && Legal(s, steps) && forall k :: 0 <= k < |steps| ==> Works(steps[k])
    ensures |steps| <= Work(s)
    ensures |steps| == Work(s) <==> Drained(After(s, steps))
    ensures Drained(After(s, steps)) ==> After(s, steps).table.rows == CompleteAll(s.table.rows, Unread(s))
    decreases |steps|
  {
    if steps == [] {
      DrainedHasNoWork(s);
    } else {
      FirstCall(s, steps);
      DrainCompletesExactlyTheUnread(Apply(s, steps[0]), steps[1..]);
    }
  }

  lemma FirstCall(s: State, steps: seq<Step>)
    requires Inv(s) && Legal(s, steps) && steps != [] && forall k :: 0 <= k < |steps| ==> Works(steps[k])
    ensures var s' := Apply(s, steps[0]);
            && Inv(s') && Legal(s', steps[1..]) && Work(s') == Work(s) - 1
            && CompleteAll(s'.table.rows, Unread(s')) == CompleteAll(s.table.rows, Unread(s))
    ensures forall k :: 0 <= k < |steps[1..]| ==> Works(steps[1..][k])
  {
    assert Works(steps[0]);
    StepKeepsInv(s, steps[0]);
    WorkingStep(s, steps[0]);
  }

  /** Working consumers are never stuck before the topics are drained. */
  lemma DrainIsPossible(s: State) returns (steps: seq<Step>)
    requires Inv(s)
    ensures Legal(s, steps) && forall k :: 0 <= k < |steps| ==> Works(steps[k])
    ensures Drained(After(s, steps))
    ensures CompletedOrders(After(s, steps).table.rows) == CompletedOrders(s.table.rows) + Unread(s)
  {
    steps := DrainSteps(s);
    DrainCompletesExactlyTheUnread(s, steps);
    UnreadExist(s);
  }

  lemma AllWork(step: Step, rest: seq<Step>)
    requires Works(step) && forall k :: 0 <= k < |rest| ==> Works(rest[k])
    ensures forall k :: 0 <= k < |[step] + rest| ==> Works(([step] + rest)[k])
  {
  }

  /** The next call of a working consumer. */
  lemma NextCall(s: State) returns (step: Step)
    requires Inv(s) && !Drained(s)
    ensures Enabled(s, step) && Works(step) && Inv(Apply(s, step)) && Work(Apply(s, step)) < Work(s)
  {
    step := if s.assembly.next < |s.paid| then Assemble(Succeeds) else Complete(Succeeds);
    StepKeepsInv(s, step);
    WorkingStep(s, step);
  }

  lemma {:induction false} DrainSteps(s: State) returns (steps: seq<Step>)
    requires Inv(s)
    ensures Legal(s, steps) && forall k :: 0 <= k < |steps| ==> Works(steps[k])
    ensures Drained(After(s, steps))
    decreases Work(s)
  {
    if Drained(s) {
      return [];
    }
    var step := NextCall(s);
    var rest := DrainSteps(Apply(s, step));
    Prepend(s, step, rest);
    AllWork(step, rest);
    steps := [step] + rest;
  }

  lemma UnreadExist(s: State)
    requires Inv(s)
    ensures Unread(s) <= s.table.rows.Keys
  {
    forall id | id in Unread(s) ensures id in s.table.rows {
      if i :| s.assembly.next <= i < |s.paid| && s.paid[i].order == id {
        assert MessageOk(s.table, s.ledger, s.paid[i]);
      } else {
        var j :| s.completion.next <= j < |s.assembled| && s.assembled[j].order == id;
        ShipNamesPaidOrder(s, j);
      }
    }
  }
}
