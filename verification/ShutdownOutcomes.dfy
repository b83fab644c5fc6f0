/**
 What the functions did, read off the steps of a run: which of them returned an error or
 panicked, in which order their errors were sent, and what the caller gets for it.
 */
module ShutdownOutcomes {
  import opened Prelude
  import opened Shutdown

  lemma {:induction false} LastStep(s: State, steps: seq<Step>)
    requires Legal(s, steps) && steps != []
    ensures var n := |steps| - 1;
            && Legal(s, steps[..n]) && Enabled(After(s, steps[..n]), steps[n])
            && After(s, steps) == Apply(After(s, steps[..n]), steps[n])
    decreases |steps|
  {
    var n := |steps| - 1;
    if n == 0 {
      assert steps[..n] == [] && steps[1..] == [];
    } else {
      LastStep(Apply(s, steps[0]), steps[1..]);
      assert steps[..n][0] == steps[0] && steps[..n][1..] == steps[1..][..n - 1];
    }
  }

  lemma {:induction false} PrefixIsLegal(s: State, steps: seq<Step>, k: nat)
    requires Legal(s, steps) && k <= |steps|
    ensures Legal(s, steps[..k]) && (k < |steps| ==> Enabled(After(s, steps[..k]), steps[k]))
    decreases |steps|
  {
    if k == |steps| {
      assert steps[..k] == steps;
    } else {
      LastStep(s, steps);
      if k < |steps| - 1 {
        PrefixIsLegal(s, steps[..|steps| - 1], k);
        assert steps[..|steps| - 1][..k] == steps[..k];
      }
    }
  }

  // ----- Outcomes -----

  /** The step ends function i. */
  predicate Ends(step: Step, i: nat) {
    step == Panic(i) || (step.Return? && step.i == i)
  }

  /** The outcome says exactly how the steps ended function i, if they did. */
  ghost predicate OutcomeIs(steps: seq<Step>, i: nat, o: Outcome) {
    && (o == Unfinished <==> forall step :: step in steps ==> !Ends(step, i))
    && (o == Finished <==> Return(i, None) in steps)
    && (forall c :: o == Errored(FunctionError(c)) <==> Return(i, Some(c)) in steps)
    && (o == Errored(PanicRecovered) <==> Panic(i) in steps)
    && o != Errored(ContextError)
  }

  lemma OneMoreStep(steps: seq<Step>, last: Step)
    ensures forall step :: step in steps + [last] <==> step in steps || step == last
  {
  }

  lemma OutcomeAfter(s: State, steps: seq<Step>, step: Step, i: nat)
    requires WorkersOk(s) && Enabled(s, step) && i < |s.workers| && OutcomeIs(steps, i, s.outcomes[i])
    ensures OutcomeIs(steps + [step], i, Apply(s, step).outcomes[i])
  {
    OneMoreStep(steps, step);
    if Ends(step, i) {
      assert s.workers[i] == Running && s.outcomes[i] == Unfinished;
    } else {
      assert Apply(s, step).outcomes[i] == s.outcomes[i];
    }
  }

  /**
   In every run a function has finished exactly when it returned no error, and failed exactly
   when it returned that error or panicked.
   */
  lemma {:induction false} OutcomesFollowSteps(n: nat, steps: seq<Step>, i: nat)
    requires Legal(Start(n), steps) && i < n
    ensures |After(Start(n), steps).outcomes| == n && OutcomeIs(steps, i, After(Start(n), steps).outcomes[i])
    decreases |steps|
  {
    InvokedAtMostOnce(n, steps, i);
    if steps != [] {
      var k := |steps| - 1;
      LastStep(Start(n), steps);
      OutcomesFollowSteps(n, steps[..k], i);
      StartIsGood(n);
      RunKeepsInv(Start(n), steps[..k]);
      OutcomeAfter(After(Start(n), steps[..k]), steps[..k], steps[k], i);
      assert steps == steps[..k] + [steps[k]];
    }
  }

  /** Only the n functions end. */
  lemma {:induction false} EndsAreCounted(n: nat, steps: seq<Step>, i: nat)
    requires Legal(Start(n), steps) && exists step :: step in steps && Ends(step, i)
    ensures i < n
    decreases |steps|
  {
    var k := |steps| - 1;
    LastStep(Start(n), steps);
    SameWorkers(Start(n), steps[..k]);
    if !Ends(steps[k], i) {
      var step :| step in steps && Ends(step, i);
      assert steps == steps[..k] + [steps[k]];
      assert step in steps[..k];
      EndsAreCounted(n, steps[..k], i);
    }
  }

  /** However each of the functions is to end, some run ends each of them so. */
  lemma AnyEndingOccurs(n: nat, ends: seq<Step>) returns (steps: seq<Step>)
    requires |ends| == n && forall i :: 0 <= i < n ==> Ends(ends[i], i)
    ensures Legal(Start(n), steps)
    ensures forall i :: 0 <= i < n ==> ends[i] in steps
  {
    steps := EndFirst(n, ends, n);
  }

  lemma {:induction false} EndFirst(n: nat, ends: seq<Step>, k: nat) returns (steps: seq<Step>)
    requires |ends| == n && forall i :: 0 <= i < n ==> Ends(ends[i], i)
    requires k <= n
    ensures Legal(Start(n), steps)
    ensures forall i :: 0 <= i < k ==> ends[i] in steps
    ensures var s := After(Start(n), steps);
            |s.workers| == n && forall i :: k <= i < n ==> s.workers[i] == Running
  {
    if k == 0 {
      steps := AllRunAtOnce(n);
    } else {
      steps := EndFirst(n, ends, k - 1);
      OutcomesFollowSteps(n, steps, k - 1);
      Extend(Start(n), steps, ends[k - 1]);
      steps := steps + [ends[k - 1]];
    }
  }

  // ----- The order of the errors -----

  /** The error with which the steps ended function i. */
  function ErrorOf(steps: seq<Step>, i: nat): Option<CloseError> {
    if steps == [] then None
    else
      var k := |steps| - 1;
      if steps[k] == Panic(i) then Some(PanicRecovered)
      else if steps[k].Return? && steps[k].i == i && steps[k].err.Some? then Some(FunctionError(steps[k].err.value))
      else ErrorOf(steps[..k], i)
  }

  /** The errors of the functions in the order in which their workers sent them. */
  function SentOrder(steps: seq<Step>): seq<Option<CloseError>> {
    if steps == [] then []
    else
      var k := |steps| - 1;
      SentOrder(steps[..k]) + if steps[k].Send? then [ErrorOf(steps[..k], steps[k].i)] else []
  }

  function Somes(errors: seq<CloseError>): (all: seq<Option<CloseError>>)
    ensures |all| == |errors| && forall i :: 0 <= i < |all| ==> all[i] == Some(errors[i])
  {
    seq(|errors|, i requires 0 <= i < |errors| => Some(errors[i]))
  }

  lemma {:induction false} ErrorsFollowSteps(n: nat, steps: seq<Step>, i: nat)
    requires Legal(Start(n), steps) && i < n
    ensures var s := After(Start(n), steps);
            |s.outcomes| == n && (s.outcomes[i].Errored? ==> ErrorOf(steps, i) == Some(s.outcomes[i].err))
    decreases |steps|
  {
    InvokedAtMostOnce(n, steps, i);
    if steps != [] {
      var k := |steps| - 1;
      LastStep(Start(n), steps);
      SameWorkers(Start(n), steps[..k]);
      ErrorsFollowSteps(n, steps[..k], i);
      EndedOnce(n, steps[..k], steps[k], i);
    }
  }

  lemma EndedOnce(n: nat, steps: seq<Step>, step: Step, i: nat)
    requires Legal(Start(n), steps) && Enabled(After(Start(n), steps), step) && i < n
    ensures var s := After(Start(n), steps);
            && |s.outcomes| == |Apply(s, step).outcomes| == n
            && (Ends(step, i) ==> s.outcomes[i] == Unfinished)
            && (!Ends(step, i) ==> Apply(s, step).outcomes[i] == s.outcomes[i])
  {
    StartIsGood(n);
    RunKeepsInv(Start(n), steps);
    EndsWhenRunning(After(Start(n), steps), step, i);
  }

  lemma EndsWhenRunning(s: State, step: Step, i: nat)
    requires WorkersOk(s) && Enabled(s, step) && i < |s.workers|
    ensures |Apply(s, step).outcomes| == |s.outcomes|
    ensures Ends(step, i) ==> s.outcomes[i] == Unfinished
    ensures !Ends(step, i) ==> Apply(s, step).outcomes[i] == s.outcomes[i]
  {
  }

  /** First in, first out: what was received, then what is in the buffer, are the errors in the order of sending. */
  lemma {:induction false} ChannelIsFifo(n: nat, steps: seq<Step>)
    requires Legal(Start(n), steps)
    ensures var s := After(Start(n), steps); Somes(s.received + s.buffer) == SentOrder(steps)
    decreases |steps|
  {
    if steps != [] {
      var k := |steps| - 1;
      LastStep(Start(n), steps);
      var s, s' := After(Start(n), steps[..k]), After(Start(n), steps);
      ChannelIsFifo(n, steps[..k]);
      if steps[k].Send? {
        SendIsLast(n, steps[..k], steps[k].i);
        assert s'.received + s'.buffer == (s.received + s.buffer) + [s.workers[steps[k].i].err];
        assert Somes(s'.received + s'.buffer) == Somes(s.received + s.buffer) + [Some(s.workers[steps[k].i].err)];
      } else {
        OthersKeepChannel(s, steps[k]);
      }
    }
  }

  lemma SendIsLast(n: nat, steps: seq<Step>, i: nat)
    requires Legal(Start(n), steps) && Enabled(After(Start(n), steps), Send(i))
    ensures ErrorOf(steps, i) == Some(After(Start(n), steps).workers[i].err)
  {
    StartIsGood(n);
    RunKeepsInv(Start(n), steps);
    ErrorsFollowSteps(n, steps, i);
  }

  lemma OthersKeepChannel(s: State, step: Step)
    requires Enabled(s, step) && !step.Send?
    ensures Apply(s, step).received + Apply(s, step).buffer == s.received + s.buffer
  {
    if step.ReadError? {
      assert s.buffer == [s.buffer[0]] + s.buffer[1..];
    }
  }

  // ----- What the caller gets -----

  /** A function returned an error or panicked. */
  predicate Fails(step: Step) {
    step.Panic? || (step.Return? && step.err.Some?)
  }

  /** All functions ended without error. */
  ghost predicate AllReturned(n: nat, steps: seq<Step>) {
    && (forall i: nat :: i < n ==> Return(i, None) in steps)
    && (forall step :: step in steps ==> !Fails(step))
  }

  lemma FailureShows(n: nat, steps: seq<Step>, step: Step)
    requires Legal(Start(n), steps) && step in steps && Fails(step)
    ensures step.i < n == |After(Start(n), steps).outcomes| && After(Start(n), steps).outcomes[step.i].Errored?
  {
    assert Ends(step, step.i);
    EndsAreCounted(n, steps, step.i);
    OutcomesFollowSteps(n, steps, step.i);
  }

  lemma FinishedMeansReturned(n: nat, steps: seq<Step>)
    requires Legal(Start(n), steps)
    ensures |After(Start(n), steps).outcomes| == n
    ensures (forall i :: 0 <= i < n ==> After(Start(n), steps).outcomes[i] == Finished) <==> AllReturned(n, steps)
  {
    var os := After(Start(n), steps).outcomes;
    StartIsGood(n);
    RunKeepsInv(Start(n), steps);
    forall i: nat | i < n ensures os[i] == Finished <==> Return(i, None) in steps {
      OutcomesFollowSteps(n, steps, i);
    }
    forall step | step in steps && Fails(step) ensures exists i :: 0 <= i < n && os[i] != Finished {
      FailureShows(n, steps, step);
    }
  }

  /**
   The caller's result, from the steps alone. When the loop ended with the channel, nil is
   returned exactly when no function returned an error or panicked, and any other result is the
   first error that was sent. In every case nil means that all functions returned without error.
   */
  lemma ResultFollowsSteps(n: nat, steps: seq<Step>)
    requires Legal(Start(n), steps) && After(Start(n), steps).reader.Left?
    ensures var s := After(Start(n), steps);
            && (s.result == None ==> AllReturned(n, steps))
            && (!s.reader.cancelled ==>
                  && (s.result == None <==> forall step :: step in steps ==> !Fails(step))
                  && (s.result.Some? ==> SentOrder(steps) != [] && SentOrder(steps)[0] == s.result))
            && (s.reader.cancelled && s.received != [] ==> SentOrder(steps) != [] && SentOrder(steps)[0] == s.result)
            && (s.reader.cancelled && s.received == [] ==> s.result == Some(ContextError))
  {
    var s := After(Start(n), steps);
    ResultMeaning(n, steps);
    FinishedMeansReturned(n, steps);
    ChannelIsFifo(n, steps);
    if s.received != [] {
      assert Somes(s.received + s.buffer)[0] == Some(s.received[0]);
    }
    if !s.reader.cancelled {
      DrainedEndedAll(n, steps);
      DrainedResult(n, steps);
    }
  }

  /** When the channel was read to its end, every function has ended. */
  lemma DrainedEnded(n: nat, steps: seq<Step>, i: nat)
    requires Legal(Start(n), steps) && After(Start(n), steps).reader == Left(false) && i < n
    ensures exists step :: step in steps && Ends(step, i)
  {
    var s := After(Start(n), steps);
    StartIsGood(n);
    RunKeepsInv(Start(n), steps);
    DrainedMeaning(s);
    OutcomesFollowSteps(n, steps, i);
    assert s.workers[i] == Exited && Agrees(s.workers[i], s.outcomes[i]);
  }

  lemma DrainedEndedAll(n: nat, steps: seq<Step>)
    requires Legal(Start(n), steps) && After(Start(n), steps).reader == Left(false)
    ensures (forall step :: step in steps ==> !Fails(step)) <==> AllReturned(n, steps)
  {
    if forall step :: step in steps ==> !Fails(step) {
      forall i: nat | i < n ensures Return(i, None) in steps {
        DrainedEnded(n, steps, i);
        var step :| step in steps && Ends(step, i);
        assert !Fails(step);
      }
    }
  }

  lemma DrainedResult(n: nat, steps: seq<Step>)
    requires Legal(Start(n), steps) && After(Start(n), steps).reader == Left(false)
    ensures After(Start(n), steps).result.Some? ==> After(Start(n), steps).received != []
  {
    StartIsGood(n);
    RunKeepsInv(Start(n), steps);
  }
}
