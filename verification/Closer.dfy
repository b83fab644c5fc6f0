/**
 The closer object under any number of concurrent `Add` and `CloseAll` calls: the once flag,
 the swap of the function list, the shutdown behind it and the `done` channel.
 */
module Closer {
  import opened Prelude
  import Shutdown
  import ShutdownOutcomes

  /** A registered function, by name. */
  type Function = nat

  /** A call of `CloseAll`: before the once flag, inside it, or back with a result. */
  datatype Caller = Arrived | Inside | Back(result: Option<Shutdown.CloseError>)

  datatype Once = Fresh | Busy(winner: nat) | Spent(winner: nat)

  /**
   `registered` is the history of all additions; `taken` are the functions the swap took. The
   shutdown goes on after its caller has left.
   */
  datatype State = State(
    registered: seq<Function>,
    funcs: seq<Function>,
    once: Once,
    taken: Option<seq<Function>>,
    shutdown: Shutdown.State,
    closedDone: nat,
    callers: map<nat, Caller>)

  const START := State([], [], Fresh, None, Shutdown.Start(0), 0, map[])

  datatype Step =
    | Add(fs: seq<Function>)
    | Arrive(c: nat)
    | Enter(c: nat)
    | Swap(c: nat)
    | Run(step: Shutdown.Step)
    | Finish(c: nat)
    | PassBy(c: nat)

  predicate CallerAt(s: State, c: nat, at: Caller) {
    c in s.callers && s.callers[c] == at
  }

  /** The winner leaves when there was nothing to close or its reader has left the loop. */
  predicate MayFinish(s: State) {
    s.taken.Some? && (s.taken.value == [] || s.shutdown.reader.Left?)
  }

  predicate Enabled(s: State, step: Step) {
    match step
    case Add(_) => true
    case Arrive(c) => c !in s.callers
    case Enter(c) => CallerAt(s, c, Arrived) && s.once == Fresh
    case Swap(c) => CallerAt(s, c, Inside) && s.taken == None
    case Run(inner) => s.taken.Some? && s.taken.value != [] && Shutdown.Enabled(s.shutdown, inner)
    case Finish(c) => CallerAt(s, c, Inside) && MayFinish(s)
    case PassBy(c) => CallerAt(s, c, Arrived) && s.once.Spent?
  }

  function Apply(s: State, step: Step): State
    requires Enabled(s, step)
  {
    match step
    case Add(fs) => s.(registered := s.registered + fs, funcs := s.funcs + fs)
    case Arrive(c) => s.(callers := s.callers[c := Arrived])
    case Enter(c) => s.(once := Busy(c), callers := s.callers[c := Inside])
    case Swap(c) => s.(taken := Some(s.funcs), funcs := [], shutdown := Shutdown.Start(|s.funcs|))
    case Run(inner) => s.(shutdown := Shutdown.Apply(s.shutdown, inner))
    case Finish(c) =>
      s.(once := Spent(c), closedDone := s.closedDone + 1,
         callers := s.callers[c := Back(if s.taken.value == [] then None else s.shutdown.result)])
    case PassBy(c) => s.(callers := s.callers[c := Back(None)])
  }

  predicate Legal(s: State, steps: seq<Step>)
    decreases |steps|
  {
    steps == [] || (Enabled(s, steps[0]) && Legal(Apply(s, steps[0]), steps[1..]))
  }

  function After(s: State, steps: seq<Step>): State
    requires Legal(s, steps)
    decreases |steps|
  {
    if steps == [] then s else After(Apply(s, steps[0]), steps[1..])
  }

  // ----- The invariant -----

  /** Some run of the shutdown leads here. */
  ghost predicate Reached(n: nat, t: Shutdown.State) {
    exists steps :: Shutdown.Legal(Shutdown.Start(n), steps) && Shutdown.After(Shutdown.Start(n), steps) == t
  }

  predicate ListsOk(s: State) {
    match s.taken
    case None => s.funcs == s.registered
    case Some(fs) => s.registered == fs + s.funcs
  }

  /** The result the winner took with it; it does not change once the reader has left. */
  function WinnerResult(s: State): Option<Shutdown.CloseError>
    requires s.taken.Some?
  {
    if s.taken.value == [] then None else s.shutdown.result
  }

  predicate OnceOk(s: State) {
    && (forall c :: c in s.callers && s.callers[c] == Inside ==> s.once == Busy(c))
    && (s.once.Busy? ==> CallerAt(s, s.once.winner, Inside))
    && (s.once == Fresh ==> s.taken == None)
    && (s.once.Spent? ==> MayFinish(s) && CallerAt(s, s.once.winner, Back(WinnerResult(s))))
    && (forall c :: c in s.callers && s.callers[c].Back? ==>
          s.once.Spent? && (c != s.once.winner ==> s.callers[c].result == None))
    && s.closedDone == if s.once.Spent? then 1 else 0
  }

  ghost predicate Inv(s: State) {
    && ListsOk(s)
    && OnceOk(s)
    && (s.taken.Some? ==> Reached(|s.taken.value|, s.shutdown))
  }

  lemma ReachedStep(n: nat, t: Shutdown.State, step: Shutdown.Step)
    requires Reached(n, t) && Shutdown.Enabled(t, step)
    ensures Reached(n, Shutdown.Apply(t, step))
  {
    var steps :| Shutdown.Legal(Shutdown.Start(n), steps) && Shutdown.After(Shutdown.Start(n), steps) == t;
    Shutdown.Extend(Shutdown.Start(n), steps, step);
    assert Shutdown.Legal(Shutdown.Start(n), steps + [step]);
  }

  /** Once the reader has left the loop, the result of the call is settled. */
  lemma ResultIsSettled(t: Shutdown.State, step: Shutdown.Step)
    requires Shutdown.Enabled(t, step) && t.reader.Left? && t.closing != Shutdown.NotStarted
    ensures Shutdown.Apply(t, step).reader == t.reader && Shutdown.Apply(t, step).result == t.result
  {
  }

  lemma ReachedResultIsSettled(n: nat, t: Shutdown.State, step: Shutdown.Step)
    requires Reached(n, t) && Shutdown.Enabled(t, step) && t.reader.Left?
    ensures Shutdown.Apply(t, step).reader == t.reader && Shutdown.Apply(t, step).result == t.result
  {
    var steps :| Shutdown.Legal(Shutdown.Start(n), steps) && Shutdown.After(Shutdown.Start(n), steps) == t;
    Shutdown.StartIsGood(n);
    Shutdown.RunKeepsInv(Shutdown.Start(n), steps);
    ResultIsSettled(t, step);
  }

  lemma ReachedStart(n: nat)
    ensures Reached(n, Shutdown.Start(n))
  {
    assert Shutdown.Legal(Shutdown.Start(n), []);
    assert Shutdown.After(Shutdown.Start(n), []) == Shutdown.Start(n);
  }

  lemma StepKeepsInv(s: State, step: Step)
    requires Inv(s) && Enabled(s, step)
    ensures Inv(Apply(s, step))
    ensures s.taken.Some? ==> Apply(s, step).taken == s.taken
    ensures s.once.Spent? ==> Apply(s, step).once == s.once
  {
    match step
    case Swap(c) => ReachedStart(|s.funcs|);
    case Run(inner) =>
      ReachedStep(|s.taken.value|, s.shutdown, inner);
      if s.shutdown.reader.Left? {
        ReachedResultIsSettled(|s.taken.value|, s.shutdown, inner);
      }
    case _ =>
  }

  lemma {:induction false} RunKeepsInv(s: State, steps: seq<Step>)
    requires Inv(s) && Legal(s, steps)
    ensures Inv(After(s, steps))
    decreases |steps|
  {
    if steps != [] {
      StepKeepsInv(s, steps[0]);
      RunKeepsInv(Apply(s, steps[0]), steps[1..]);
    }
  }

  // ----- The guarantees -----

  /**
   Over any calls: `done` is closed at most once, and exactly once when any `CloseAll` has
   returned; only the first caller can see an error; the functions taken are exactly those
   registered before the swap, in order, and later ones stay in the list.
   */
  lemma OnlyOnce(steps: seq<Step>)
    requires Legal(START, steps)
    ensures var s := After(START, steps);
            && s.closedDone <= 1
            && (forall c :: c in s.callers && s.callers[c].Back? ==> s.closedDone == 1)
            && (forall c, d :: c in s.callers && d in s.callers && c != d
                               && s.callers[c].Back? && s.callers[d].Back? && s.callers[c].result.Some?
                  ==> s.callers[d].result == None)
            && (s.taken.Some? ==> s.registered == s.taken.value + s.funcs)
  {
    RunKeepsInv(START, steps);
  }

  /** The first error the reader received, else the context's if that made it leave. */
  function FirstSeen(t: Shutdown.State): Option<Shutdown.CloseError>
    requires t.reader.Left?
  {
    if t.received != [] then Some(t.received[0])
    else if t.reader.cancelled then Some(Shutdown.ContextError)
    else None
  }

  /**
   Each taken function is invoked at most once in any run, and exactly once when nothing is
   left to do; the first `CloseAll` returns the first error it received, else the context's
   error if it was cut short, and every other returns nil. So the first returns nil
   only if every one was invoked exactly once and finished without error or panic; and if its
   loop ended with the channel, nil is returned exactly in that case.
   */
  lemma FirstCloseAll(steps: seq<Step>)
    requires Legal(START, steps) && After(START, steps).taken.Some?
    ensures var s := After(START, steps);
            var n := |s.taken.value|;
            && |s.shutdown.invoked| == |s.shutdown.outcomes| == n
            && (forall i :: 0 <= i < n ==> s.shutdown.invoked[i] <= 1)
            && (Shutdown.Stuck(s.shutdown) ==> forall i :: 0 <= i < n ==> s.shutdown.invoked[i] == 1)
            && (s.once.Spent? ==>
                  && s.once.winner in s.callers && s.callers[s.once.winner].Back?
                  && (n > 0 ==>
                        && s.shutdown.reader.Left?
                        && s.callers[s.once.winner].result == FirstSeen(s.shutdown))
                  && (forall c :: c in s.callers && s.callers[c].Back? && c != s.once.winner
                        ==> s.callers[c].result == None)
                  && (s.callers[s.once.winner].result == None ==>
                        forall i :: 0 <= i < n ==>
                          s.shutdown.invoked[i] == 1 && s.shutdown.outcomes[i] == Shutdown.Finished)
                  && (n > 0 && s.shutdown.reader == Shutdown.Left(false) ==>
                        (s.callers[s.once.winner].result == None <==>
                           forall i :: 0 <= i < n ==> s.shutdown.outcomes[i] == Shutdown.Finished)))
  {
    RunKeepsInv(START, steps);
    var s := After(START, steps);
    var n := |s.taken.value|;
    var inner :| Shutdown.Legal(Shutdown.Start(n), inner) && Shutdown.After(Shutdown.Start(n), inner) == s.shutdown;
    Shutdown.StartIsGood(n);
    Shutdown.RunKeepsInv(Shutdown.Start(n), inner);
    forall i | 0 <= i < n ensures s.shutdown.invoked[i] <= 1 {
      Shutdown.InvokedAtMostOnce(n, inner, i);
    }
    Shutdown.ShutdownEnds(n, inner);
    if s.once.Spent? && n > 0 {
      Shutdown.ResultMeaning(n, inner);
    }
  }

  // ----- What the functions did, read off the steps -----

  lemma {:induction false} LastStep(s: State, steps: seq<Step>)
    requires Legal(s, steps) && steps != []
    ensures var n := |steps| - 1;
            && Legal(s, steps[..n]) && Enabled(After(s, steps[..n]), steps[n])
            && After(s, steps) == Apply(After(s, steps[..n]), steps[n])
    decreases |steps|
  {
    var n := |steps| - 1;
    if n == 0 {
      assert steps[..n] == [] && steps[1..] == [];
    } else {
      LastStep(Apply(s, steps[0]), steps[1..]);
      assert steps[..n][0] == steps[0] && steps[..n][1..] == steps[1..][..n - 1];
    }
  }

  /** The steps of the shutdown. */
  function InnerSteps(steps: seq<Step>): seq<Shutdown.Step> {
    if steps == [] then []
    else
      var n := |steps| - 1;
      InnerSteps(steps[..n]) + if steps[n].Run? then [steps[n].step] else []
  }

  lemma {:induction false} InnerIsRun(steps: seq<Step>, inner: Shutdown.Step)
    ensures inner in InnerSteps(steps) <==> Run(inner) in steps
  {
    if steps != [] {
      var n := |steps| - 1;
      InnerIsRun(steps[..n], inner);
      assert steps == steps[..n] + [steps[n]];
    }
  }

  /** The shutdown is where its own steps lead, from the functions that were taken. */
  lemma {:induction false} ShutdownFollows(steps: seq<Step>)
    requires Legal(START, steps)
    ensures var s := After(START, steps);
            match s.taken
            case None => InnerSteps(steps) == []
            case Some(fs) =>
              && (fs == [] ==> InnerSteps(steps) == [])
              && Shutdown.Legal(Shutdown.Start(|fs|), InnerSteps(steps))
              && Shutdown.After(Shutdown.Start(|fs|), InnerSteps(steps)) == s.shutdown
    decreases |steps|
  {
    if steps != [] {
      var n := |steps| - 1;
      LastStep(START, steps);
      ShutdownFollows(steps[..n]);
      var s, inner := After(START, steps[..n]), InnerSteps(steps[..n]);
      assert inner + [] == inner;
      if steps[n].Run? {
        Shutdown.Extend(Shutdown.Start(|s.taken.value|), inner, steps[n].step);
      }
    }
  }

  predicate Fails(step: Step) {
    step.Run? && ShutdownOutcomes.Fails(step.step)
  }

  lemma NoFailure(steps: seq<Step>)
    ensures (forall step :: step in steps ==> !Fails(step)) <==>
            (forall inner :: inner in InnerSteps(steps) ==> !ShutdownOutcomes.Fails(inner))
  {
    forall inner ensures inner in InnerSteps(steps) <==> Run(inner) in steps {
      InnerIsRun(steps, inner);
    }
    forall step | step in steps && step.Run? ensures step.step in InnerSteps(steps) {
      InnerIsRun(steps, step.step);
      assert step == Run(step.step);
    }
  }

  /**
   What the first `CloseAll` returns, from the steps alone: nil only if every taken function
   returned without error and none panicked; and if its loop ended with the channel, nil exactly
   when none returned an error or panicked, else the first error that was sent.
   */
  lemma FirstResultFollowsSteps(steps: seq<Step>)
    requires Legal(START, steps) && After(START, steps).once.Spent?
    ensures var s := After(START, steps);
            && s.taken.Some? && s.once.winner in s.callers && s.callers[s.once.winner].Back?
            && var n, result := |s.taken.value|, s.callers[s.once.winner].result;
               && (result == None ==>
                     && (forall i: nat :: i < n ==> Run(Shutdown.Return(i, None)) in steps)
                     && (forall step :: step in steps ==> !Fails(step)))
               && (n > 0 && s.shutdown.reader == Shutdown.Left(false) ==>
                     && (result == None <==> forall step :: step in steps ==> !Fails(step))
                     && (result.Some? ==>
                           && ShutdownOutcomes.SentOrder(InnerSteps(steps)) != []
                           && ShutdownOutcomes.SentOrder(InnerSteps(steps))[0] == result))
  {
    RunKeepsInv(START, steps);
    ShutdownFollows(steps);
    NoFailure(steps);
    var s := After(START, steps);
    var n, inner := |s.taken.value|, InnerSteps(steps);
    if n > 0 {
      ShutdownOutcomes.ResultFollowsSteps(n, inner);
      forall i: nat ensures Shutdown.Return(i, None) in inner <==> Run(Shutdown.Return(i, None)) in steps {
        InnerIsRun(steps, Shutdown.Return(i, None));
      }
    }
  }

  // ----- A run in which the first call returns an error and a later one nil -----

  lemma Prepend(s: State, step: Step, rest: seq<Step>)
    requires Enabled(s, step) && Legal(Apply(s, step), rest)
    ensures Legal(s, [step] + rest) && After(s, [step] + rest) == After(Apply(s, step), rest)
  {
    assert ([step] + rest)[1..] == rest;
  }

  /** A second call comes after the first has taken an error. */
  lemma LaterCall(s: State) returns (steps: seq<Step>)
    requires CallerAt(s, 1, Inside) && 2 !in s.callers && MayFinish(s) && s.taken.value != []
    ensures Legal(s, steps)
    ensures After(s, steps).callers == s.callers[1 := Back(s.shutdown.result)][2 := Back(None)]
  {
    var s1 := Apply(s, Finish(1));
    var s2 := Apply(s1, Arrive(2));
    Prepend(s2, PassBy(2), []);
    Prepend(s1, Arrive(2), [PassBy(2)] + []);
    Prepend(s, Finish(1), [Arrive(2)] + ([PassBy(2)] + []));
    steps := [Finish(1)] + ([Arrive(2)] + ([PassBy(2)] + []));
    assert After(s, steps).callers == s2.callers[2 := Back(None)];
  }

  /** The context is cancelled before the one function has run. */
  lemma CancelledCall(s: State) returns (steps: seq<Step>)
    requires CallerAt(s, 1, Inside) && 2 !in s.callers && s.taken.Some? && s.taken.value != []
    requires s.shutdown == Shutdown.Start(1)
    ensures Legal(s, steps)
    ensures After(s, steps).callers == s.callers[1 := Back(Some(Shutdown.ContextError))][2 := Back(None)]
  {
    var spawn, close := Run(Shutdown.Spawn), Run(Shutdown.StartClosing);
    var cancel, leave := Run(Shutdown.CancelContext), Run(Shutdown.ReadCancelled);
    var s1 := Apply(s, spawn);
    var s2 := Apply(s1, close);
    var s3 := Apply(s2, cancel);
    var s4 := Apply(s3, leave);
    assert s4.shutdown.result == Some(Shutdown.ContextError) && s4.shutdown.reader.Left?;
    var rest := LaterCall(s4);
    Prepend(s3, leave, rest);
    Prepend(s2, cancel, [leave] + rest);
    Prepend(s1, close, [cancel] + ([leave] + rest));
    Prepend(s, spawn, [close] + ([cancel] + ([leave] + rest)));
    steps := [spawn] + ([close] + ([cancel] + ([leave] + rest)));
  }

  /** The first call returns the context's error, and the second, later one nil. */
  lemma LaterCallHidesError() returns (steps: seq<Step>)
    ensures Legal(START, steps)
    ensures After(START, steps).callers == map[1 := Back(Some(Shutdown.ContextError)), 2 := Back(None)]
  {
    var add, arrive, enter, swap := Add([0]), Arrive(1), Enter(1), Swap(1);
    var s1 := Apply(START, add);
    assert s1.funcs == [0];
    var s2 := Apply(s1, arrive);
    var s3 := Apply(s2, enter);
    var s4 := Apply(s3, swap);
    assert s4.callers == map[1 := Inside];
    var rest := CancelledCall(s4);
    Prepend(s3, swap, rest);
    Prepend(s2, enter, [swap] + rest);
    Prepend(s1, arrive, [enter] + ([swap] + rest));
    Prepend(START, add, [arrive] + ([enter] + ([swap] + rest)));
    steps := [add] + ([arrive] + ([enter] + ([swap] + rest)));
  }

  // ----- Every call comes back -----

  /** Steps that come from outside: a registration, a new call, the cancellation of the context. */
  predicate FromOutside(step: Step) {
    step.Add? || step.Arrive? || step == Run(Shutdown.CancelContext)
  }

  /** Nothing but such a step can happen. */
  ghost predicate Stuck(s: State) {
    forall step :: Enabled(s, step) ==> FromOutside(step)
  }

  lemma CallHasStep(s: State, c: nat)
    requires Inv(s) && c in s.callers && !s.callers[c].Back?
    ensures !Stuck(s)
  {
    match s.once
    case Fresh => assert Enabled(s, Enter(c));
    case Spent(_) => assert Enabled(s, PassBy(c));
    case Busy(w) =>
      if s.taken == None {
        assert Enabled(s, Swap(w));
      } else if MayFinish(s) {
        assert Enabled(s, Finish(w));
      } else {
        ShutdownHasStep(s);
      }
  }

  lemma ShutdownHasStep(s: State)
    requires s.taken.Some? && Reached(|s.taken.value|, s.shutdown) && !MayFinish(s)
    ensures !Stuck(s)
  {
    var n := |s.taken.value|;
    var steps :| Shutdown.Legal(Shutdown.Start(n), steps) && Shutdown.After(Shutdown.Start(n), steps) == s.shutdown;
    Shutdown.ShutdownEnds(n, steps);
    var inner :| Shutdown.Enabled(s.shutdown, inner) && inner != Shutdown.CancelContext;
    assert Enabled(s, Run(inner));
  }

  /** No call waits for ever, on the once flag or inside: when nothing is left to do, all have come back. */
  lemma CallsComeBack(steps: seq<Step>)
    requires Legal(START, steps) && Stuck(After(START, steps))
    ensures forall c :: c in After(START, steps).callers ==> After(START, steps).callers[c].Back?
  {
    RunKeepsInv(START, steps);
    forall c | c in After(START, steps).callers ensures After(START, steps).callers[c].Back? {
      if !After(START, steps).callers[c].Back? {
        CallHasStep(After(START, steps), c);
      }
    }
  }

  /** The calls that have not passed the once flag. */
  function Waiting(s: State): set<nat> {
    set c | c in s.callers && s.callers[c] == Arrived
  }

  function Fuel(s: State): nat {
    |Waiting(s)|
    + (if s.taken == None then 1 + Shutdown.Fuel(Shutdown.Start(|s.funcs|)) else Shutdown.Fuel(s.shutdown))
    + (if s.once.Spent? then 0 else 1)
  }

  lemma LeavesWaiting(s: State, c: nat, at: Caller)
    requires CallerAt(s, c, Arrived) && at != Arrived
    ensures |Waiting(s.(callers := s.callers[c := at]))| == |Waiting(s)| - 1
  {
    assert Waiting(s.(callers := s.callers[c := at])) == Waiting(s) - {c};
  }

  lemma StaysWaiting(s: State, c: nat, at: Caller)
    requires CallerAt(s, c, Inside) && at != Arrived
    ensures Waiting(s.(callers := s.callers[c := at])) == Waiting(s)
  {
  }

  lemma StepUsesFuel(s: State, step: Step)
    requires Inv(s) && Enabled(s, step) && !step.Add? && !step.Arrive?
    ensures Fuel(Apply(s, step)) < Fuel(s)
  {
    match step
    case Enter(c) => LeavesWaiting(s, c, Inside);
    case PassBy(c) => LeavesWaiting(s, c, Back(None));
    case Swap(c) =>
    case Finish(c) => StaysWaiting(s, c, Back(WinnerResult(s)));
    case Run(inner) =>
      var n := |s.taken.value|;
      var steps :| Shutdown.Legal(Shutdown.Start(n), steps) && Shutdown.After(Shutdown.Start(n), steps) == s.shutdown;
      Shutdown.StartIsGood(n);
      Shutdown.RunKeepsInv(Shutdown.Start(n), steps);
      Shutdown.StepUsesFuel(s.shutdown, inner);
  }

  lemma {:induction false} RunUsesFuel(s: State, steps: seq<Step>)
    requires Inv(s) && Legal(s, steps)
    requires forall k :: 0 <= k < |steps| ==> !steps[k].Add? && !steps[k].Arrive?
    ensures |steps| + Fuel(After(s, steps)) <= Fuel(s)
    decreases |steps|
  {
    if steps != [] {
      StepKeepsInv(s, steps[0]);
      StepUsesFuel(s, steps[0]);
      RunUsesFuel(Apply(s, steps[0]), steps[1..]);
    }
  }

  /** Without new calls and registrations, the calls that are waiting need at most so many steps. */
  lemma CallsEnd(before: seq<Step>, steps: seq<Step>)
    requires Legal(START, before) && Legal(After(START, before), steps)
    requires forall k :: 0 <= k < |steps| ==> !steps[k].Add? && !steps[k].Arrive?
    ensures var s := After(START, before);
            s.taken == None ==> |steps| <= |Waiting(s)| + 10 * |s.funcs| + 8
  {
    RunKeepsInv(START, before);
    var s := After(START, before);
    RunUsesFuel(s, steps);
    Shutdown.StartRanks(|s.funcs|, |s.funcs|);
  }

  // ----- The object, one call at a time -----

  class CloserObject {
    var funcs: seq<Function>
    var spent: bool
    var closedDone: nat

    constructor ()
      ensures funcs == [] && !spent && closedDone == 0
    {
      funcs, spent, closedDone := [], false, 0;
    }

    method Add(fs: seq<Function>)
      modifies this`funcs
      ensures funcs == old(funcs) + fs
    {
      funcs := funcs + fs;
    }

    /**
     The body of `CloseAll` under a schedule: the steps the goroutines try to take, in order.
     A step that cannot be taken is skipped; `returned` says whether the schedule was long
     enough for the call to come back.
     */
    method CloseAll(schedule: seq<Shutdown.Step>)
      returns (result: Option<Shutdown.CloseError>, returned: bool, ghost run: seq<Shutdown.Step>)
      modifies this
      ensures spent
      ensures old(spent) ==> returned && result == None && funcs == old(funcs) && closedDone == old(closedDone)
      ensures !old(spent) ==> funcs == [] && closedDone == old(closedDone) + if returned then 1 else 0
      ensures !old(spent) && old(funcs) == [] ==> returned && result == None
      ensures !old(spent) && old(funcs) != [] ==>
                && Shutdown.Legal(Shutdown.Start(|old(funcs)|), run)
                && var t := Shutdown.After(Shutdown.Start(|old(funcs)|), run);
                   (returned <==> t.reader.Left?) && (returned ==> result == t.result)
      ensures !old(spent) && old(funcs) != [] && Shutdown.Legal(Shutdown.Start(|old(funcs)|), schedule) ==>
                run <= schedule && (returned || run == schedule)
    {
      run := [];
      if spent {
        return None, true, [];
      }
      spent := true;
      var taken := funcs;
      funcs := [];
      if |taken| == 0 {
        closedDone := closedDone + 1;
        return None, true, [];
      }

      var t := Shutdown.Start(|taken|);
      var k := 0;
      while k < |schedule| && !t.reader.Left?
        invariant spent && funcs == [] && closedDone == old(closedDone)
        invariant Shutdown.Legal(Shutdown.Start(|taken|), run)
        invariant t == Shutdown.After(Shutdown.Start(|taken|), run)
        invariant k <= |schedule|
        invariant Shutdown.Legal(Shutdown.Start(|taken|), schedule) ==> run == schedule[..k]
        decreases |schedule| - k
      {
        if Shutdown.Legal(Shutdown.Start(|taken|), schedule) {
          ShutdownOutcomes.PrefixIsLegal(Shutdown.Start(|taken|), schedule, k);
        }
        if Shutdown.Enabled(t, schedule[k]) {
          Shutdown.Extend(Shutdown.Start(|taken|), run, schedule[k]);
          run := run + [schedule[k]];
          t := Shutdown.Apply(t, schedule[k]);
        }
        k := k + 1;
      }
      returned := t.reader.Left?;
      result := t.result;
      if returned {
        closedDone := closedDone + 1;
      }
    }
  }
}
