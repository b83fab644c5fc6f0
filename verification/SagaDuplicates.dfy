/**
 When the same ship is sent twice. Consumers are asked to deduplicate by event id and none does,
 so a paid message that is delivered again after its ship went out sends the ship again.
 */
module SagaDuplicates {
  import opened Prelude
  import opened Kafka
  import opened Saga
  import opened SagaResults
  import opened SagaExamples

  /** The step puts a ship on `order.assembled`. */
  predicate Sends(step: Step) {
    step == Assemble(Succeeds) || step == Assemble(FailsLate)
  }

  /** The offsets of the paid messages whose ship the first n steps sent, in the order of sending. */
  function SentOffsets(steps: seq<Step>, n: nat): seq<nat>
    requires Legal(START, steps) && n <= |steps|
  {
    if n == 0 then []
    else SentOffsets(steps, n - 1) + if Sends(steps[n - 1]) then [At(steps, n - 1).assembly.next] else []
  }

  // ----- The topic and the offsets -----

  predicate EventsDiffer(paid: seq<PaidOrder>) {
    forall i, j :: 0 <= i < j < |paid| ==> paid[i].event != paid[j].event
  }

  predicate ShipsMatch(s: State, offsets: seq<nat>) {
    && |s.assembled| == |offsets|
    && forall j :: 0 <= j < |offsets| ==> offsets[j] < |s.paid| && s.assembled[j] == ShipFor(s.paid[offsets[j]])
  }

  lemma StepKeepsEvents(s: State, step: Step)
    requires Enabled(s, step) && EventsDiffer(s.paid)
    ensures EventsDiffer(Apply(s, step).paid) && s.paid <= Apply(s, step).paid
  {
  }

  lemma StepKeepsMatch(s: State, step: Step, offsets: seq<nat>)
    requires Enabled(s, step) && ShipsMatch(s, offsets) && s.paid <= Apply(s, step).paid
    ensures ShipsMatch(Apply(s, step), offsets + if Sends(step) then [s.assembly.next] else [])
  {
    var s' := Apply(s, step);
    if Sends(step) {
      assert s'.assembled == s.assembled + [ShipFor(s.paid[s.assembly.next])];
    } else {
      assert s'.assembled == s.assembled && offsets + [] == offsets;
    }
  }

  lemma {:induction false} RunKeepsMatch(steps: seq<Step>, n: nat)
    requires Legal(START, steps) && n <= |steps|
    ensures EventsDiffer(At(steps, n).paid) && ShipsMatch(At(steps, n), SentOffsets(steps, n))
  {
    if n == 0 {
      assert steps[..n] == [];
    } else {
      RunKeepsMatch(steps, n - 1);
      PrefixIsLegal(START, steps, n - 1);
      StepKeepsEvents(At(steps, n - 1), steps[n - 1]);
      StepKeepsMatch(At(steps, n - 1), steps[n - 1], SentOffsets(steps, n - 1));
    }
  }

  lemma MatchIsDistinct(s: State, offsets: seq<nat>)
    requires EventsDiffer(s.paid) && ShipsMatch(s, offsets)
    ensures Distinct(s.assembled) <==> Distinct(offsets)
  {
    forall i, j | 0 <= i < j < |offsets| ensures s.assembled[i] == s.assembled[j] <==> offsets[i] == offsets[j] {
      assert s.assembled[i] == s.assembled[j] ==> s.paid[offsets[i]].event == s.paid[offsets[j]].event;
    }
  }

  /** A ship is on the topic twice exactly when the paid message at some offset sent its ship twice. */
  lemma ShipsRepeatWithOffsets(steps: seq<Step>)
    requires Legal(START, steps)
    ensures Distinct(After(START, steps).assembled) <==> Distinct(SentOffsets(steps, |steps|))
  {
    assert steps[..|steps|] == steps;
    RunKeepsMatch(steps, |steps|);
    MatchIsDistinct(After(START, steps), SentOffsets(steps, |steps|));
  }

  // ----- The steps that send -----

  /** Step m sends the ship of the paid message at this offset. */
  ghost predicate SendsAt(steps: seq<Step>, m: nat, o: nat)
    requires Legal(START, steps)
  {
    m < |steps| && Sends(steps[m]) && At(steps, m).assembly.next == o
  }

  lemma {:induction false} SentBySome(steps: seq<Step>, n: nat, o: nat)
    requires Legal(START, steps) && n <= |steps|
    ensures o in SentOffsets(steps, n) <==> exists m: nat :: m < n && SendsAt(steps, m, o)
  {
    if n > 0 {
      SentBySome(steps, n - 1, o);
      if o in SentOffsets(steps, n) && o !in SentOffsets(steps, n - 1) {
        assert SendsAt(steps, n - 1, o);
      }
    }
  }

  /** Two of the first n steps send the ship of the same message. */
  ghost predicate SentTwice(steps: seq<Step>, n: nat)
    requires Legal(START, steps)
  {
    exists i: nat, k: nat, o: nat :: i < k < n && SendsAt(steps, i, o) && SendsAt(steps, k, o)
  }

  lemma SentTwiceOneMore(steps: seq<Step>, n: nat)
    requires Legal(START, steps) && n < |steps|
    ensures SentTwice(steps, n + 1) <==>
              SentTwice(steps, n) || (Sends(steps[n]) && At(steps, n).assembly.next in SentOffsets(steps, n))
  {
    var last := At(steps, n).assembly.next;
    SentBySome(steps, n, last);
    if i: nat, k: nat, o: nat :| i < k < n + 1 && SendsAt(steps, i, o) && SendsAt(steps, k, o) {
      if k < n {
        assert SentTwice(steps, n);
      }
    }
    if Sends(steps[n]) && last in SentOffsets(steps, n) {
      var m: nat :| m < n && SendsAt(steps, m, last);
      assert SendsAt(steps, n, last);
    }
  }

  lemma {:induction false} RepeatsAreSentTwice(steps: seq<Step>, n: nat)
    requires Legal(START, steps) && n <= |steps|
    ensures Distinct(SentOffsets(steps, n)) <==> !SentTwice(steps, n)
  {
    if n > 0 {
      var before := SentOffsets(steps, n - 1);
      RepeatsAreSentTwice(steps, n - 1);
      SentTwiceOneMore(steps, n - 1);
      DistinctOneMore(before, At(steps, n - 1).assembly.next);
      assert before + [] == before;
    }
  }

  lemma DistinctOneMore(xs: seq<nat>, x: nat)
    ensures Distinct(xs + [x]) <==> Distinct(xs) && x !in xs
  {
    var all := xs + [x];
    assert all[|xs|] == x;
    assert forall i :: 0 <= i < |xs| ==> all[i] == xs[i];
  }

  // ----- Redelivery -----

  /** From step i on the consumer only moves forward, or some restart takes it back to a committed offset below. */
  lemma {:induction false} ForwardOrRestarted(steps: seq<Step>, i: nat, k: nat) returns (m: nat)
    requires Legal(START, steps) && i <= k <= |steps|
    ensures || At(steps, i).assembly.next <= At(steps, k).assembly.next
            || (i <= m < k && steps[m] == AssemblyRestart
                && At(steps, m).assembly.committed <= At(steps, k).assembly.next)
    decreases k
  {
    m := i;
    if i < k {
      PrefixIsLegal(START, steps, k - 1);
      if steps[k - 1] == AssemblyRestart {
        m := k - 1;
      } else {
        m := ForwardOrRestarted(steps, i, k - 1);
        NextMovesForward(At(steps, k - 1), steps[k - 1]);
      }
    }
  }

  lemma NextMovesForward(s: State, step: Step)
    requires Enabled(s, step) && step != AssemblyRestart
    ensures s.assembly.next <= Apply(s, step).assembly.next
    ensures Sends(step) ==> Apply(s, step).assembly.next == s.assembly.next + 1
  {
  }

  /** After a message sent its ship, the consumer restarted at or below it, and the message sent its ship again. */
  ghost predicate Redelivered(steps: seq<Step>)
    requires Legal(START, steps)
  {
    exists i: nat, m: nat, k: nat, o: nat ::
      && i < m < k < |steps| && SendsAt(steps, i, o) && SendsAt(steps, k, o)
      && steps[m] == AssemblyRestart && At(steps, m).assembly.committed <= o
  }

  lemma TwiceMeansRedelivered(steps: seq<Step>, i: nat, k: nat, o: nat)
    requires Legal(START, steps) && i < k && SendsAt(steps, i, o) && SendsAt(steps, k, o)
    ensures Redelivered(steps)
  {
    PrefixIsLegal(START, steps, i);
    NextMovesForward(At(steps, i), steps[i]);
    var m := ForwardOrRestarted(steps, i + 1, k);
    assert i < m < k;
  }

  /**
   The exact condition for a duplicate, in every run: the same ship is on the topic twice if and
   only if the consumer restarted at or below an offset whose ship was sent, and sent it again.
   */
  lemma ShipsRepeatExactly(steps: seq<Step>)
    requires Legal(START, steps)
    ensures !Distinct(After(START, steps).assembled) <==> Redelivered(steps)
  {
    ShipsRepeatWithOffsets(steps);
    RepeatsAreSentTwice(steps, |steps|);
    if SentTwice(steps, |steps|) {
      var i: nat, k: nat, o: nat :| i < k < |steps| && SendsAt(steps, i, o) && SendsAt(steps, k, o);
      TwiceMeansRedelivered(steps, i, k, o);
    }
  }

  // ----- A run -----

  lemma ResendRun(s: State) returns (steps: seq<Step>)
    requires s.assembly == NEW_GROUP && |s.paid| == 1 && s.assembled == []
    ensures Legal(s, steps)
    ensures After(s, steps).paid == s.paid && After(s, steps).assembled == [ShipFor(s.paid[0]), ShipFor(s.paid[0])]
  {
    var send := Assemble(Succeeds);
    var s1 := Apply(s, send);
    var s2 := Apply(s1, AssemblyRestart);
    Prepend(s2, send, []);
    Prepend(s1, AssemblyRestart, [send] + []);
    Prepend(s, send, [AssemblyRestart] + ([send] + []));
    steps := [send] + ([AssemblyRestart] + ([send] + []));
  }

  /** A restart before the first commit: one paid order, and its ship is sent twice. */
  lemma ShipIsSentTwice() returns (steps: seq<Step>)
    ensures Legal(START, steps)
    ensures var s := After(START, steps);
            |s.paid| == 1 && s.assembled == [ShipFor(s.paid[0]), ShipFor(s.paid[0])]
  {
    var a := OnePaidOrder();
    var b := ResendRun(After(START, a));
    RunsCompose(START, a, b);
    steps := a + b;
  }
}
