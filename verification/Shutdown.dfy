/**
 One run of the closer's shutdown, as interleaved goroutines: a worker per function, a closing
 goroutine behind the wait group, the reader of the error channel, and the context. Any
 goroutine may take the next step.
 */
module Shutdown {
  import opened Prelude

  datatype CloseError = FunctionError(code: nat) | PanicRecovered | ContextError

  /**
   A worker's program counter: not spawned, spawned, in its function, about to send, about to
   leave the wait group, gone.
   */
  datatype Worker = NotSpawned | Ready | Running | Sending(err: CloseError) | Leaving | Exited

  /** What a worker's function did. */
  datatype Outcome = Unfinished | Finished | Errored(err: CloseError)

  /** The goroutine that waits and closes the channel. */
  datatype Closing = NotStarted | Waiting | AboutToClose | Gone

  /** The caller: spawning workers, reading errors, or out of the loop because of the context or the closed channel. */
  datatype Reader = Spawning | Reading | Left(cancelled: bool)

  datatype State = State(
    workers: seq<Worker>,
    outcomes: seq<Outcome>,
    invoked: seq<nat>,
    toSpawn: nat,
    counter: int,
    buffer: seq<CloseError>,
    closed: bool,
    closing: Closing,
    reader: Reader,
    cancelled: bool,
    received: seq<CloseError>,
    result: Option<CloseError>)

  function Start(n: nat): State {
    State(seq(n, _ => NotSpawned), seq(n, _ => Unfinished), seq(n, _ => 0),
          n, 0, [], false, NotStarted, Spawning, false, [], None)
  }

  datatype Step =
    | Spawn
    | StartClosing
    | Invoke(i: nat)
    | Return(i: nat, err: Option<nat>)
    | Panic(i: nat)
    | Send(i: nat)
    | LeaveGroup(i: nat)
    | GroupIsEmpty
    | CloseChannel
    | CancelContext
    | ReadCancelled
    | ReadError
    | ReadClosed

  predicate WorkerAt(s: State, i: nat, w: Worker) {
    i < |s.workers| && s.workers[i] == w
  }

  /** A send needs room in the buffer, whose capacity is the number of functions, and an open channel. */
  predicate Enabled(s: State, step: Step) {
    match step
    case Spawn => s.toSpawn > 0 && s.toSpawn <= |s.workers|
    case StartClosing => s.toSpawn == 0 && s.closing == NotStarted
    case Invoke(i) => WorkerAt(s, i, Ready) && i < |s.invoked|
    case Return(i, _) => WorkerAt(s, i, Running) && i < |s.outcomes|
    case Panic(i) => WorkerAt(s, i, Running) && i < |s.outcomes|
    case Send(i) => i < |s.workers| && s.workers[i].Sending? && |s.buffer| < |s.workers| && !s.closed
    case LeaveGroup(i) => WorkerAt(s, i, Leaving)
    case GroupIsEmpty => s.closing == Waiting && s.counter == 0
    case CloseChannel => s.closing == AboutToClose
    case CancelContext => !s.cancelled
    case ReadCancelled => s.reader == Reading && s.cancelled
    case ReadError => s.reader == Reading && s.buffer != []
    case ReadClosed => s.reader == Reading && s.buffer == [] && s.closed
  }

  function Moved(s: State, i: nat, w: Worker): State
    requires i < |s.workers|
  {
    s.(workers := s.workers[i := w])
  }

  function FirstOf(result: Option<CloseError>, err: CloseError): Option<CloseError> {
    if result == None then Some(err) else result
  }

  function Apply(s: State, step: Step): State
    requires Enabled(s, step)
  {
    match step
    case Spawn => Moved(s, s.toSpawn - 1, Ready).(toSpawn := s.toSpawn - 1, counter := s.counter + 1)
    case StartClosing => s.(closing := Waiting, reader := Reading)
    case Invoke(i) => Moved(s, i, Running).(invoked := s.invoked[i := s.invoked[i] + 1])
    case Return(i, None) => Moved(s, i, Leaving).(outcomes := s.outcomes[i := Finished])
    case Return(i, Some(code)) =>
      Moved(s, i, Sending(FunctionError(code))).(outcomes := s.outcomes[i := Errored(FunctionError(code))])
    case Panic(i) => Moved(s, i, Sending(PanicRecovered)).(outcomes := s.outcomes[i := Errored(PanicRecovered)])
    case Send(i) => Moved(s, i, Leaving).(buffer := s.buffer + [s.workers[i].err])
    case LeaveGroup(i) => Moved(s, i, Exited).(counter := s.counter - 1)
    case GroupIsEmpty => s.(closing := AboutToClose)
    case CloseChannel => s.(closing := Gone, closed := true)
    case CancelContext => s.(cancelled := true)
    case ReadCancelled => s.(reader := Left(true), result := FirstOf(s.result, ContextError))
    case ReadError =>
      s.(buffer := s.buffer[1..], received := s.received + [s.buffer[0]], result := FirstOf(s.result, s.buffer[0]))
    case ReadClosed => s.(reader := Left(false))
  }

  predicate Legal(s: State, steps: seq<Step>)
    decreases |steps|
  {
    steps == [] || (Enabled(s, steps[0]) && Legal(Apply(s, steps[0]), steps[1..]))
  }

  function After(s: State, steps: seq<Step>): State
    requires Legal(s, steps)
    decreases |steps|
  {
    if steps == [] then s else After(Apply(s, steps[0]), steps[1..])
  }

  lemma {:induction false} Extend(s: State, steps: seq<Step>, step: Step)
    requires Legal(s, steps) && Enabled(After(s, steps), step)
    ensures Legal(s, steps + [step]) && After(s, steps + [step]) == Apply(After(s, steps), step)
    decreases |steps|
  {
    if steps == [] {
      assert steps + [step] == [step];
      assert Legal(Apply(s, step), []);
      assert [step][1..] == [];
    } else {
      assert (steps + [step])[0] == steps[0] && (steps + [step])[1..] == steps[1..] + [step];
      Extend(Apply(s, steps[0]), steps[1..], step);
    }
  }

  // ----- Counting workers -----

  /** The error a worker has put on the channel so far. */
  function Contribution(w: Worker, o: Outcome): multiset<CloseError> {
    if (w == Leaving || w == Exited) && o.Errored? then multiset{o.err} else multiset{}
  }

  /** All the errors of a list of bags. */
  function Total(bags: seq<multiset<CloseError>>): multiset<CloseError> {
    if bags == [] then multiset{} else Total(bags[..|bags| - 1]) + bags[|bags| - 1]
  }

  function Contributions(ws: seq<Worker>, os: seq<Outcome>): (bags: seq<multiset<CloseError>>)
    requires |ws| == |os|
    ensures |bags| == |ws| && forall i :: 0 <= i < |ws| ==> bags[i] == Contribution(ws[i], os[i])
  {
    seq(|ws|, i requires 0 <= i < |ws| => Contribution(ws[i], os[i]))
  }

  /** The errors the workers have put on the channel. */
  function Sent(ws: seq<Worker>, os: seq<Outcome>): multiset<CloseError>
    requires |ws| == |os|
  {
    Total(Contributions(ws, os))
  }

  function Weight(w: Worker): nat {
    if w == NotSpawned || w == Exited then 0 else 1
  }

  /** How many of the first k workers are in the wait group. */
  function Alive(ws: seq<Worker>, k: nat): nat
    requires k <= |ws|
  {
    if k == 0 then 0 else Alive(ws, k - 1) + Weight(ws[k - 1])
  }

  lemma AddedInAnyOrder(a: multiset<CloseError>, b: multiset<CloseError>, c: multiset<CloseError>)
    ensures a + b + c == a + c + b
  {
  }

  /** Filling one empty bag adds its content. */
  lemma {:induction false} TotalAdds(bags: seq<multiset<CloseError>>, i: nat, bag: multiset<CloseError>)
    requires i < |bags| && bags[i] == multiset{}
    ensures Total(bags[i := bag]) == Total(bags) + bag
  {
    var n := |bags| - 1;
    var rest, after := bags[..n], bags[i := bag];
    if i < n {
      assert after[..n] == rest[i := bag];
      TotalAdds(rest, i, bag);
      AddedInAnyOrder(Total(rest), bag, bags[n]);
    } else {
      assert after[..n] == rest;
      assert Total(rest) + bags[n] == Total(rest);
    }
  }

  lemma {:induction false} TotalSize(bags: seq<multiset<CloseError>>, i: nat)
    requires forall j :: 0 <= j < |bags| ==> |bags[j]| <= 1
    ensures |Total(bags)| <= |bags|
    ensures i < |bags| && |bags[i]| == 0 ==> |Total(bags)| < |bags|
  {
    if bags != [] {
      var n := |bags| - 1;
      TotalSize(bags[..n], i);
      assert |Total(bags)| == |Total(bags[..n])| + |bags[n]|;
    }
  }

  lemma {:induction false} EmptyTotal(bags: seq<multiset<CloseError>>)
    ensures |Total(bags)| == 0 <==> forall j :: 0 <= j < |bags| ==> |bags[j]| == 0
  {
    if bags != [] {
      var n := |bags| - 1;
      EmptyTotal(bags[..n]);
      assert |Total(bags)| == |Total(bags[..n])| + |bags[n]|;
      assert forall j :: 0 <= j < n ==> bags[j] == bags[..n][j];
    }
  }

  /** One worker moves without putting anything on the channel. */
  lemma SentStays(ws: seq<Worker>, os: seq<Outcome>, i: nat, w: Worker, o: Outcome)
    requires i < |ws| == |os| && Contribution(w, o) == Contribution(ws[i], os[i])
    ensures Sent(ws[i := w], os[i := o]) == Sent(ws, os)
  {
    assert Contributions(ws[i := w], os[i := o]) == Contributions(ws, os);
  }

  /** One worker puts its error on the channel. */
  lemma SentAdds(ws: seq<Worker>, os: seq<Outcome>, i: nat, w: Worker, o: Outcome)
    requires i < |ws| == |os| && Contribution(ws[i], os[i]) == multiset{}
    ensures Sent(ws[i := w], os[i := o]) == Sent(ws, os) + Contribution(w, o)
  {
    assert Contributions(ws[i := w], os[i := o]) == Contributions(ws, os)[i := Contribution(w, o)];
    TotalAdds(Contributions(ws, os), i, Contribution(w, o));
  }

  /** The same, for a step that leaves what its function did. */
  lemma MovesOnly(ws: seq<Worker>, os: seq<Outcome>, i: nat, w: Worker)
    requires i < |ws| == |os| && Contribution(ws[i], os[i]) == multiset{}
    ensures Sent(ws[i := w], os) == Sent(ws, os) + Contribution(w, os[i])
  {
    assert os[i := os[i]] == os;
    SentAdds(ws, os, i, w, os[i]);
  }

  lemma SpawnSendsNothing(ws: seq<Worker>, os: seq<Outcome>, i: nat)
    requires i < |ws| == |os| && ws[i] == NotSpawned
    ensures Sent(ws[i := Ready], os) == Sent(ws, os)
  {
    assert os[i := os[i]] == os;
    SentStays(ws, os, i, Ready, os[i]);
  }

  lemma NothingSent(ws: seq<Worker>, os: seq<Outcome>)
    requires |ws| == |os| && forall i :: 0 <= i < |ws| ==> ws[i] == NotSpawned
    ensures Sent(ws, os) == multiset{}
  {
    EmptyTotal(Contributions(ws, os));
  }

  lemma PutInBuffer(received: seq<CloseError>, buffer: seq<CloseError>, e: CloseError)
    ensures multiset(received) + multiset(buffer + [e]) == multiset(received) + multiset(buffer) + multiset{e}
  {
    assert multiset(buffer + [e]) == multiset(buffer) + multiset{e};
  }

  /** Every worker sends at most one error, and one that has sent nothing leaves room for its own. */
  lemma SentLeavesRoom(ws: seq<Worker>, os: seq<Outcome>, i: nat)
    requires i < |ws| == |os| && Contribution(ws[i], os[i]) == multiset{}
    ensures |Sent(ws, os)| < |ws|
  {
    TotalSize(Contributions(ws, os), i);
    assert |Contributions(ws, os)[i]| == 0;
  }

  lemma {:induction false} AliveMoves(ws: seq<Worker>, i: nat, w: Worker, k: nat)
    requires i < |ws| && k <= |ws|
    ensures Alive(ws[i := w], k) + (if i < k then Weight(ws[i]) else 0)
         == Alive(ws, k) + (if i < k then Weight(w) else 0)
  {
    if k > 0 {
      AliveMoves(ws, i, w, k - 1);
    }
  }

  lemma {:induction false} NobodyAlive(ws: seq<Worker>, i: nat, k: nat)
    requires i < k <= |ws| && Alive(ws, k) == 0
    ensures Weight(ws[i]) == 0
  {
    if i < k - 1 {
      NobodyAlive(ws, i, k - 1);
    }
  }

  // ----- The invariant -----

  predicate Agrees(w: Worker, o: Outcome) {
    match w
    case NotSpawned => o == Unfinished
    case Ready => o == Unfinished
    case Running => o == Unfinished
    case Sending(e) => o == Errored(e)
    case Leaving => o != Unfinished
    case Exited => o != Unfinished
  }

  predicate WorkersOk(s: State) {
    && |s.outcomes| == |s.invoked| == |s.workers|
    && s.toSpawn <= |s.workers|
    && (forall i :: 0 <= i < |s.workers| ==>
          && (s.workers[i] == NotSpawned <==> i < s.toSpawn)
          && Agrees(s.workers[i], s.outcomes[i])
          && s.invoked[i] == if s.workers[i] == NotSpawned || s.workers[i] == Ready then 0 else 1)
  }

  /** What was received and what is in the buffer is what the workers have sent. */
  predicate BagsOk(s: State)
    requires |s.outcomes| == |s.workers|
  {
    multiset(s.received) + multiset(s.buffer) == Sent(s.workers, s.outcomes)
  }

  predicate ChannelOk(s: State) {
    && s.counter == Alive(s.workers, |s.workers|)
    && (s.closed <==> s.closing == Gone)
    && (s.closing == NotStarted <==> s.reader == Spawning)
    && (s.closing != NotStarted ==> s.toSpawn == 0)
    && (s.closing == AboutToClose || s.closing == Gone ==> s.counter == 0)
  }

  predicate ResultOk(s: State) {
    && s.result == (if s.received != [] then Some(s.received[0])
                    else if s.reader == Left(true) then Some(ContextError)
                    else None)
    && (s.reader == Left(false) ==> s.closed && s.buffer == [])
    && (s.reader == Left(true) ==> s.cancelled)
    && (s.reader == Spawning ==> s.received == [])
  }

  predicate Inv(s: State) {
    WorkersOk(s) && BagsOk(s) && ChannelOk(s) && ResultOk(s)
  }

  /** A worker with nothing on the channel yet finds room in it, and finds it open. */
  lemma RoomForWorker(s: State, i: nat)
    requires WorkersOk(s) && BagsOk(s) && ChannelOk(s) && i < |s.workers|
    requires s.workers[i] != NotSpawned && s.workers[i] != Exited
    requires Contribution(s.workers[i], s.outcomes[i]) == multiset{}
    ensures |s.buffer| < |s.workers| && !s.closed
  {
    var n := |s.workers|;
    SentLeavesRoom(s.workers, s.outcomes, i);
    assert |multiset(s.received) + multiset(s.buffer)| == |s.received| + |s.buffer|;
    if s.closed {
      NobodyAlive(s.workers, i, n);
    }
  }

  lemma ClosingMeansAlone(s: State, i: nat)
    requires ChannelOk(s) && i < |s.workers| && Weight(s.workers[i]) > 0
    ensures s.closing != AboutToClose && s.closing != Gone
  {
    if s.counter == 0 {
      NobodyAlive(s.workers, i, |s.workers|);
    }
  }

  /** Only worker i moves on; it is in the wait group, which its next state may leave. */
  predicate Moves(s: State, s': State, i: nat) {
    && |s.workers| == |s.outcomes| == |s.invoked| && i < |s.workers|
    && |s'.workers| == |s'.outcomes| == |s'.invoked| == |s.workers|
    && s'.workers == s.workers[i := s'.workers[i]]
    && s'.outcomes == s.outcomes[i := s'.outcomes[i]]
    && s'.invoked == s.invoked[i := s'.invoked[i]]
    && Weight(s.workers[i]) == 1
    && s'.counter == s.counter - 1 + Weight(s'.workers[i])
    && s'.toSpawn == s.toSpawn && s'.closed == s.closed && s'.closing == s.closing && s'.reader == s.reader
  }

  lemma WorkersStayOk(s: State, s': State, i: nat)
    requires WorkersOk(s) && Moves(s, s', i)
    requires s'.workers[i] != NotSpawned && Agrees(s'.workers[i], s'.outcomes[i])
    requires s'.invoked[i] == if s'.workers[i] == Ready then 0 else 1
    ensures WorkersOk(s')
  {
    assert s.workers[i] != NotSpawned;
    forall k | 0 <= k < |s.workers| && k != i
      ensures s'.workers[k] == s.workers[k] && s'.outcomes[k] == s.outcomes[k] && s'.invoked[k] == s.invoked[k]
    {
    }
  }

  lemma ChannelStaysOk(s: State, s': State, i: nat)
    requires ChannelOk(s) && Moves(s, s', i)
    ensures ChannelOk(s')
  {
    AliveMoves(s.workers, i, s'.workers[i], |s.workers|);
    ClosingMeansAlone(s, i);
  }

  /** It puts nothing on the channel: it is invoked, its function ends, or it leaves the group. */
  lemma QuietMove(s: State, s': State, i: nat)
    requires Inv(s) && Moves(s, s', i)
    requires s'.workers[i] != NotSpawned && Agrees(s'.workers[i], s'.outcomes[i])
    requires s'.invoked[i] == if s'.workers[i] == Ready then 0 else 1
    requires Contribution(s'.workers[i], s'.outcomes[i]) == Contribution(s.workers[i], s.outcomes[i])
    requires s'.received == s.received && s'.buffer == s.buffer && s'.result == s.result && s'.cancelled == s.cancelled
    ensures Inv(s')
  {
    WorkersStayOk(s, s', i);
    ChannelStaysOk(s, s', i);
    SentStays(s.workers, s.outcomes, i, s'.workers[i], s'.outcomes[i]);
    assert BagsOk(s');
    assert ResultOk(s');
  }

  lemma InvokeKeepsInv(s: State, i: nat)
    requires Inv(s) && Enabled(s, Invoke(i))
    ensures Inv(Apply(s, Invoke(i)))
  {
    assert s.outcomes[i := s.outcomes[i]] == s.outcomes;
    QuietMove(s, Apply(s, Invoke(i)), i);
  }

  /** The function returns or panics. */
  lemma EndKeepsInv(s: State, i: nat, w: Worker, o: Outcome)
    requires Inv(s) && WorkerAt(s, i, Running)
    requires (w == Leaving && o == Finished) || (w.Sending? && o == Errored(w.err))
    ensures Inv(Moved(s, i, w).(outcomes := s.outcomes[i := o]))
  {
    assert s.invoked[i := s.invoked[i]] == s.invoked;
    QuietMove(s, Moved(s, i, w).(outcomes := s.outcomes[i := o]), i);
  }

  lemma LeaveKeepsInv(s: State, i: nat)
    requires Inv(s) && Enabled(s, LeaveGroup(i))
    ensures Inv(Apply(s, LeaveGroup(i)))
  {
    assert s.outcomes[i := s.outcomes[i]] == s.outcomes;
    assert s.invoked[i := s.invoked[i]] == s.invoked;
    QuietMove(s, Apply(s, LeaveGroup(i)), i);
  }

  /** The error that is sent is added to what the reader has and the buffer holds. */
  lemma SendAddsError(s: State, i: nat)
    requires WorkersOk(s) && BagsOk(s) && Enabled(s, Send(i))
    ensures BagsOk(Apply(s, Send(i)))
  {
    MovesOnly(s.workers, s.outcomes, i, Leaving);
    PutInBuffer(s.received, s.buffer, s.workers[i].err);
  }

  lemma SendMoves(s: State, i: nat)
    requires WorkersOk(s) && Enabled(s, Send(i))
    ensures Moves(s, Apply(s, Send(i)), i)
  {
    assert s.outcomes[i := s.outcomes[i]] == s.outcomes;
    assert s.invoked[i := s.invoked[i]] == s.invoked;
  }

  lemma SendKeepsInv(s: State, i: nat)
    requires Inv(s) && Enabled(s, Send(i))
    ensures Inv(Apply(s, Send(i)))
  {
    var s' := Apply(s, Send(i));
    SendMoves(s, i);
    WorkersStayOk(s, s', i);
    ChannelStaysOk(s, s', i);
    SendAddsError(s, i);
    assert ResultOk(s');
  }

  lemma SpawnWorkers(s: State)
    requires WorkersOk(s) && Enabled(s, Spawn)
    ensures WorkersOk(Apply(s, Spawn))
  {
  }

  lemma SpawnChannel(s: State)
    requires WorkersOk(s) && ChannelOk(s) && Enabled(s, Spawn)
    ensures ChannelOk(Apply(s, Spawn))
  {
    assert s.workers[s.toSpawn - 1] == NotSpawned;
    AliveMoves(s.workers, s.toSpawn - 1, Ready, |s.workers|);
  }

  lemma SpawnBags(s: State)
    requires WorkersOk(s) && BagsOk(s) && Enabled(s, Spawn)
    ensures BagsOk(Apply(s, Spawn))
  {
    SpawnSendsNothing(s.workers, s.outcomes, s.toSpawn - 1);
  }

  lemma SpawnKeepsInv(s: State)
    requires Inv(s) && Enabled(s, Spawn)
    ensures Inv(Apply(s, Spawn))
  {
    SpawnWorkers(s);
    SpawnChannel(s);
    SpawnBags(s);
  }

  /** An error that is read moves from the buffer to the reader. */
  lemma ReadMoves(received: seq<CloseError>, buffer: seq<CloseError>)
    requires buffer != []
    ensures multiset(received + [buffer[0]]) + multiset(buffer[1..]) == multiset(received) + multiset(buffer)
  {
    var e, rest := buffer[0], buffer[1..];
    assert buffer == [e] + rest;
    assert multiset(received + [e]) == multiset(received) + multiset{e};
    assert multiset(buffer) == multiset{e} + multiset(rest);
  }

  lemma ReadKeepsInv(s: State)
    requires Inv(s) && Enabled(s, ReadError)
    ensures Inv(Apply(s, ReadError))
  {
    var s' := Apply(s, ReadError);
    ReadMoves(s.received, s.buffer);
    assert WorkersOk(s');
    assert ResultOk(s');
  }

  lemma LeftKeepsInv(s: State, step: Step)
    requires Inv(s) && Enabled(s, step)
    requires step.CancelContext? || step.ReadCancelled? || step.ReadClosed?
    ensures Inv(Apply(s, step))
  {
    assert WorkersOk(Apply(s, step));
  }

  lemma ClosingStepKeepsInv(s: State, step: Step)
    requires Inv(s) && Enabled(s, step)
    requires step.StartClosing? || step.GroupIsEmpty? || step.CloseChannel?
    ensures Inv(Apply(s, step))
  {
  }

  predicate IsWorkerStep(step: Step) {
    step.Spawn? || step.Invoke? || step.Return? || step.Panic? || step.Send? || step.LeaveGroup?
  }

  lemma ReturnKeepsInv(s: State, i: nat, err: Option<nat>)
    requires Inv(s) && Enabled(s, Return(i, err))
    ensures Inv(Apply(s, Return(i, err)))
  {
    match err
    case None => EndKeepsInv(s, i, Leaving, Finished);
    case Some(code) => EndKeepsInv(s, i, Sending(FunctionError(code)), Errored(FunctionError(code)));
  }

  lemma PanicKeepsInv(s: State, i: nat)
    requires Inv(s) && Enabled(s, Panic(i))
    ensures Inv(Apply(s, Panic(i)))
  {
    EndKeepsInv(s, i, Sending(PanicRecovered), Errored(PanicRecovered));
  }

  lemma WorkerStepKeepsInv(s: State, step: Step)
    requires Inv(s) && Enabled(s, step) && IsWorkerStep(step)
    ensures Inv(Apply(s, step))
  {
    match step
    case Spawn => SpawnKeepsInv(s);
    case Invoke(i) => InvokeKeepsInv(s, i);
    case Return(i, err) => ReturnKeepsInv(s, i, err);
    case Panic(i) => PanicKeepsInv(s, i);
    case Send(i) => SendKeepsInv(s, i);
    case LeaveGroup(i) => LeaveKeepsInv(s, i);
  }

  lemma StepKeepsInv(s: State, step: Step)
    requires Inv(s) && Enabled(s, step)
    ensures Inv(Apply(s, step))
  {
    if IsWorkerStep(step) {
      WorkerStepKeepsInv(s, step);
    } else if step.StartClosing? || step.GroupIsEmpty? || step.CloseChannel? {
      ClosingStepKeepsInv(s, step);
    } else if step.ReadError? {
      ReadKeepsInv(s);
    } else {
      LeftKeepsInv(s, step);
    }
  }

  lemma {:induction false} SameWorkers(s: State, steps: seq<Step>)
    requires Legal(s, steps)
    ensures |After(s, steps).workers| == |s.workers|
    decreases |steps|
  {
    if steps != [] {
      SameWorkers(Apply(s, steps[0]), steps[1..]);
    }
  }

  lemma {:induction false} NobodyStarted(ws: seq<Worker>, k: nat)
    requires k <= |ws| && forall i :: 0 <= i < |ws| ==> ws[i] == NotSpawned
    ensures Alive(ws, k) == 0
  {
    if k > 0 {
      NobodyStarted(ws, k - 1);
    }
  }

  lemma StartIsGood(n: nat)
    ensures Inv(Start(n))
  {
    var s := Start(n);
    NobodyStarted(s.workers, n);
    NothingSent(s.workers, s.outcomes);
  }

  lemma {:induction false} RunKeepsInv(s: State, steps: seq<Step>)
    requires Inv(s) && Legal(s, steps)
    ensures Inv(After(s, steps)) && |After(s, steps).workers| == |s.workers|
    decreases |steps|
  {
    SameWorkers(s, steps);
    if steps != [] {
      StepKeepsInv(s, steps[0]);
      RunKeepsInv(Apply(s, steps[0]), steps[1..]);
    }
  }

  // ----- The guarantees -----

  /**
   In every interleaving, also after the reader has left: a worker that is about to send can
   send at once, and the channel it sends on is open.
   */
  lemma NoSendBlocks(n: nat, steps: seq<Step>, i: nat)
    requires Legal(Start(n), steps)
    ensures var s := After(Start(n), steps);
            i < |s.workers| && s.workers[i].Sending? ==> Enabled(s, Send(i)) && |s.buffer| < n && !s.closed
  {
    StartIsGood(n);
    RunKeepsInv(Start(n), steps);
    var s := After(Start(n), steps);
    if i < |s.workers| && s.workers[i].Sending? {
      RoomForWorker(s, i);
    }
  }

  function ErrorsOf(os: seq<Outcome>): (bags: seq<multiset<CloseError>>)
    ensures |bags| == |os|
    ensures forall i :: 0 <= i < |os| ==> bags[i] == if os[i].Errored? then multiset{os[i].err} else multiset{}
  {
    seq(|os|, i requires 0 <= i < |os| => if os[i].Errored? then multiset{os[i].err} else multiset{})
  }

  /** Errors of the functions, in no particular order. */
  function Failures(os: seq<Outcome>): multiset<CloseError> {
    Total(ErrorsOf(os))
  }

  lemma AllSent(ws: seq<Worker>, os: seq<Outcome>)
    requires |ws| == |os| && forall i :: 0 <= i < |ws| ==> ws[i] == Exited
    ensures Sent(ws, os) == Failures(os)
  {
    assert Contributions(ws, os) == ErrorsOf(os);
  }

  lemma NoFailures(os: seq<Outcome>)
    requires forall i :: 0 <= i < |os| ==> os[i] != Unfinished
    ensures |Failures(os)| == 0 <==> forall i :: 0 <= i < |os| ==> os[i] == Finished
  {
    var bags := ErrorsOf(os);
    EmptyTotal(bags);
    forall i | 0 <= i < |os| ensures |bags[i]| == 0 <==> os[i] == Finished {
      assert os[i] != Unfinished;
    }
  }

  /** The reader left because the channel was closed and empty. */
  lemma DrainedMeaning(s: State)
    requires Inv(s) && s.reader == Left(false)
    ensures forall i :: 0 <= i < |s.workers| ==> s.workers[i] == Exited && s.invoked[i] == 1
    ensures multiset(s.received) == Failures(s.outcomes)
    ensures s.received == [] <==> forall i :: 0 <= i < |s.outcomes| ==> s.outcomes[i] == Finished
  {
    forall i | 0 <= i < |s.workers| ensures s.workers[i] == Exited {
      NobodyAlive(s.workers, i, |s.workers|);
    }
    AllSent(s.workers, s.outcomes);
    NoFailures(s.outcomes);
    assert multiset(s.received) == multiset(s.received) + multiset(s.buffer);
    assert |multiset(s.received)| == |s.received|;
  }

  /**
   What the caller gets. When the channel was drained to its end: every function was invoked
   exactly once, the errors received are exactly the errors of the functions, and the result
   is nil exactly when all succeeded, else the first one received. When the context cut it
   short: the first error received, or the context's own. So nil always means that all
   functions finished.
   */
  lemma ResultMeaning(n: nat, steps: seq<Step>)
    requires Legal(Start(n), steps) && After(Start(n), steps).reader.Left?
    ensures var s := After(Start(n), steps);
            && |s.workers| == |s.outcomes| == |s.invoked| == n
            && (s.result == None ==> forall i :: 0 <= i < n ==> s.outcomes[i] == Finished && s.invoked[i] == 1)
            && (s.received != [] ==> s.result == Some(s.received[0]))
            && (s.received == [] && s.reader.cancelled ==> s.result == Some(ContextError))
            && (!s.reader.cancelled ==>
                  && multiset(s.received) == Failures(s.outcomes)
                  && (s.result == None <==> forall i :: 0 <= i < n ==> s.outcomes[i] == Finished)
                  && (forall i :: 0 <= i < n ==> s.workers[i] == Exited && s.invoked[i] == 1))
  {
    StartIsGood(n);
    RunKeepsInv(Start(n), steps);
    var s := After(Start(n), steps);
    if !s.reader.cancelled {
      DrainedMeaning(s);
    }
  }

  /** No function is ever invoked twice. */
  lemma InvokedAtMostOnce(n: nat, steps: seq<Step>, i: nat)
    requires Legal(Start(n), steps) && i < n
    ensures var s := After(Start(n), steps);
            && |s.workers| == |s.outcomes| == |s.invoked| == n
            && s.invoked[i] <= 1
            && (s.outcomes[i] != Unfinished ==> s.invoked[i] == 1)
  {
    StartIsGood(n);
    RunKeepsInv(Start(n), steps);
  }

  // ----- Termination -----

  function Rank(w: Worker): nat {
    match w
    case NotSpawned => 10
    case Ready => 8
    case Running => 6
    case Sending(_) => 4
    case Leaving => 2
    case Exited => 0
  }

  function Ranks(ws: seq<Worker>, k: nat): nat
    requires k <= |ws|
  {
    if k == 0 then 0 else Ranks(ws, k - 1) + Rank(ws[k - 1])
  }

  lemma {:induction false} RanksMove(ws: seq<Worker>, i: nat, w: Worker, k: nat)
    requires i < |ws| && k <= |ws|
    ensures Ranks(ws[i := w], k) + (if i < k then Rank(ws[i]) else 0) == Ranks(ws, k) + (if i < k then Rank(w) else 0)
  {
    if k > 0 {
      RanksMove(ws, i, w, k - 1);
    }
  }

  /** Steps that can still be taken, at most. */
  function Fuel(s: State): nat {
    Ranks(s.workers, |s.workers|) + |s.buffer|
    + (match s.closing case NotStarted => 3 case Waiting => 2 case AboutToClose => 1 case Gone => 0)
    + (match s.reader case Spawning => 2 case Reading => 1 case Left(_) => 0)
    + (if s.cancelled then 0 else 1)
  }

  lemma MoveUsesFuel(s: State, s': State, i: nat)
    requires i < |s.workers| == |s'.workers| && s'.workers == s.workers[i := s'.workers[i]]
    requires Rank(s'.workers[i]) + 2 <= Rank(s.workers[i])
    requires |s'.buffer| <= |s.buffer| + 1
    requires s'.closing == s.closing && s'.reader == s.reader && s'.cancelled == s.cancelled
    ensures Fuel(s') < Fuel(s)
  {
    RanksMove(s.workers, i, s'.workers[i], |s.workers|);
  }

  lemma WorkerStepUsesFuel(s: State, step: Step)
    requires Enabled(s, step) && IsWorkerStep(step) && !step.Spawn?
    ensures Fuel(Apply(s, step)) < Fuel(s)
  {
    var s' := Apply(s, step);
    var i := step.i;
    assert s'.workers == s.workers[i := s'.workers[i]];
    assert Rank(s'.workers[i]) + 2 <= Rank(s.workers[i]);
    MoveUsesFuel(s, s', i);
  }

  lemma OtherStepUsesFuel(s: State, step: Step)
    requires s.closing == NotStarted ==> s.reader == Spawning
    requires Enabled(s, step) && !IsWorkerStep(step)
    ensures Fuel(Apply(s, step)) < Fuel(s)
  {
    assert Apply(s, step).workers == s.workers;
  }

  lemma StepUsesFuel(s: State, step: Step)
    requires Inv(s) && Enabled(s, step)
    ensures Fuel(Apply(s, step)) < Fuel(s)
  {
    if step.Spawn? {
      MoveUsesFuel(s, Apply(s, step), s.toSpawn - 1);
    } else if IsWorkerStep(step) {
      WorkerStepUsesFuel(s, step);
    } else {
      OtherStepUsesFuel(s, step);
    }
  }

  lemma {:induction false} StartRanks(n: nat, k: nat)
    requires k <= n
    ensures Ranks(Start(n).workers, k) == 10 * k
  {
    if k > 0 {
      StartRanks(n, k - 1);
    }
  }

  lemma {:induction false} RunUsesFuel(s: State, steps: seq<Step>)
    requires Inv(s) && Legal(s, steps)
    ensures |steps| + Fuel(After(s, steps)) <= Fuel(s)
    decreases |steps|
  {
    if steps != [] {
      StepKeepsInv(s, steps[0]);
      StepUsesFuel(s, steps[0]);
      RunUsesFuel(Apply(s, steps[0]), steps[1..]);
    }
  }

  /** Nothing can happen any more, except that the context may still be cancelled. */
  ghost predicate Stuck(s: State) {
    forall step :: Enabled(s, step) ==> step == CancelContext
  }

  /**
   No deadlock and no leaked goroutine: a run has at most 10n + 6 steps, and when none is left
   all functions have returned, all workers and the closing goroutine are gone, the channel is
   closed and the caller has its result.
   */
  lemma ShutdownEnds(n: nat, steps: seq<Step>)
    requires Legal(Start(n), steps)
    ensures |steps| <= 10 * n + 6
    ensures var s := After(Start(n), steps);
            Stuck(s) ==>
              && s.reader.Left? && s.closing == Gone && s.closed
              && |s.workers| == |s.invoked| == n
              && forall i :: 0 <= i < n ==> s.workers[i] == Exited && s.invoked[i] == 1
  {
    StartIsGood(n);
    StartRanks(n, n);
    RunKeepsInv(Start(n), steps);
    RunUsesFuel(Start(n), steps);
    if Stuck(After(Start(n), steps)) {
      StuckMeansDone(After(Start(n), steps));
    }
  }

  /** With all workers gone, the closing goroutine or the reader has a step left until both are done. */
  lemma CallerHasStep(s: State)
    requires ChannelOk(s) && s.toSpawn == 0 && s.counter == 0
    requires s.closing != Gone || !s.reader.Left?
    ensures exists step :: Enabled(s, step) && step != CancelContext
  {
    match s.closing
    case NotStarted => assert Enabled(s, StartClosing);
    case Waiting => assert Enabled(s, GroupIsEmpty);
    case AboutToClose => assert Enabled(s, CloseChannel);
    case Gone =>
      if s.buffer != [] {
        assert Enabled(s, ReadError);
      } else {
        assert Enabled(s, ReadClosed);
      }
  }

  lemma StuckMeansDone(s: State)
    requires Inv(s) && Stuck(s)
    ensures s.reader.Left? && s.closing == Gone && s.closed
    ensures forall i :: 0 <= i < |s.workers| ==> s.workers[i] == Exited
  {
    WorkersAreGone(s);
    AllExitedMeansEmpty(s.workers, |s.workers|);
    if s.toSpawn > 0 {
      assert Enabled(s, Spawn);
    } else if s.closing != Gone || !s.reader.Left? {
      CallerHasStep(s);
    }
  }

  /** A worker that is not gone has a step left. */
  lemma WorkerHasStep(s: State, i: nat)
    requires WorkersOk(s) && BagsOk(s) && ChannelOk(s) && i < |s.workers| && s.workers[i] != Exited
    ensures exists step :: Enabled(s, step) && IsWorkerStep(step)
  {
    match s.workers[i]
    case NotSpawned => assert Enabled(s, Spawn);
    case Ready => assert Enabled(s, Invoke(i));
    case Running => assert Enabled(s, Panic(i));
    case Sending(_) =>
      RoomForWorker(s, i);
      assert Enabled(s, Send(i));
    case Leaving => assert Enabled(s, LeaveGroup(i));
  }

  lemma WorkersAreGone(s: State)
    requires Inv(s) && Stuck(s)
    ensures forall i :: 0 <= i < |s.workers| ==> s.workers[i] == Exited
  {
    forall i | 0 <= i < |s.workers| ensures s.workers[i] == Exited {
      if s.workers[i] != Exited {
        WorkerHasStep(s, i);
      }
    }
  }

  lemma {:induction false} AllExitedMeansEmpty(ws: seq<Worker>, k: nat)
    requires k <= |ws| && forall i :: 0 <= i < |ws| ==> ws[i] == Exited
    ensures Alive(ws, k) == 0
  {
    if k > 0 {
      AllExitedMeansEmpty(ws, k - 1);
    }
  }

  // ----- In which order the functions run -----

  /** All but the first k workers have been spawned, and none has started. */
  function Spawned(n: nat, k: nat): State
    requires k <= n
  {
    Start(n).(workers := seq(n, i => if i < k then NotSpawned else Ready), toSpawn := k, counter := n - k)
  }

  lemma {:induction false} SpawnRun(n: nat, k: nat) returns (steps: seq<Step>)
    requires k <= n
    ensures Legal(Start(n), steps) && After(Start(n), steps) == Spawned(n, k)
    decreases n - k
  {
    if k == n {
      steps := [];
      assert Start(n).workers == Spawned(n, n).workers;
    } else {
      steps := SpawnRun(n, k + 1);
      Extend(Start(n), steps, Spawn);
      assert Apply(Spawned(n, k + 1), Spawn).workers == Spawned(n, k).workers;
      steps := steps + [Spawn];
    }
  }

  /** The first k functions are running, the others are still to start. */
  function Started(n: nat, k: nat): (s: State)
    requires k <= n
    ensures |s.workers| == |s.invoked| == n
    ensures forall i :: 0 <= i < n ==> s.workers[i] == if i < k then Running else Ready
  {
    if k == 0 then Spawned(n, k) else Apply(Started(n, k - 1), Invoke(k - 1))
  }

  lemma {:induction false} StartRun(n: nat, k: nat) returns (steps: seq<Step>)
    requires k <= n
    ensures Legal(Start(n), steps) && After(Start(n), steps) == Started(n, k)
  {
    if k == 0 {
      steps := SpawnRun(n, k);
    } else {
      steps := StartRun(n, k - 1);
      Extend(Start(n), steps, Invoke(k - 1));
      steps := steps + [Invoke(k - 1)];
    }
  }

  /** All functions may be running at the same time. */
  lemma AllRunAtOnce(n: nat) returns (steps: seq<Step>)
    ensures Legal(Start(n), steps)
    ensures var s := After(Start(n), steps);
            |s.workers| == n && forall i :: 0 <= i < n ==> s.workers[i] == Running
  {
    steps := StartRun(n, n);
  }

  predicate WasInvoked(s: State, i: nat) {
    i < |s.invoked| && s.invoked[i] > 0
  }

  /** Some run invokes function i while function j has not been invoked. */
  ghost predicate CanOvertake(n: nat, i: nat, j: nat) {
    exists steps :: && Legal(Start(n), steps)
                    && WasInvoked(After(Start(n), steps), i) && !WasInvoked(After(Start(n), steps), j)
  }

  lemma AnyOrder(n: nat, i: nat, j: nat)
    requires i < n && j < n && i != j
    ensures CanOvertake(n, i, j)
  {
    var steps := SpawnRun(n, 0);
    Extend(Start(n), steps, Invoke(i));
    var s := After(Start(n), steps + [Invoke(i)]);
    assert WasInvoked(s, i) && !WasInvoked(s, j);
  }

  /**
   Functions are invoked in reverse order of their registration, in every run, exactly when
   there is at most one; of two functions either may be first.
   */
  lemma ReverseOrderExactly(n: nat)
    ensures (forall i: nat, j: nat :: i < j < n ==> !CanOvertake(n, i, j)) <==> n <= 1
  {
    if n > 1 {
      AnyOrder(n, 0, 1);
    }
  }
}
