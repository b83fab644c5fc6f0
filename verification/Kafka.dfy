/**
 The consumer under every Kafka handler: the middleware chain, the loop over one claim, and
 the loop over sessions. One partition is modelled; a message is known by its offset.

 What is taken from the Kafka client: marking a message moves the mark to its offset plus one
 and never backwards, a commit stores some value between the last committed offset and the
 mark, and a new session resumes at the committed offset (the oldest one if there is none).
 */
module Kafka {
  /** How a handler call ends. */
  datatype HandlerResult = Nil | Failed | Panicked

  /** A handler, as what it does with the message at each offset. */
  type Handler = nat -> HandlerResult

  datatype Middleware = Recovery | Logging

  function Wrap(m: Middleware, next: Handler): Handler {
    match m
    case Recovery => (offset: nat) => if next(offset) == Panicked then Nil else next(offset)
    case Logging => (offset: nat) => next(offset)
  }

  /** The handler behind a middleware list, whose first element is outermost. */
  function Chain(handler: Handler, middlewares: seq<Middleware>): Handler {
    if middlewares == [] then handler
    else Wrap(middlewares[0], Chain(handler, middlewares[1..]))
  }

  /** Wraps the handler from the last middleware to the first. */
  method NewGroupHandler(handler: Handler, middlewares: seq<Middleware>) returns (h: Handler)
    ensures h == Chain(handler, middlewares)
  {
    h := handler;
    var i := |middlewares|;
    while i > 0
      invariant 0 <= i <= |middlewares|
      invariant h == Chain(handler, middlewares[i..])
    {
      i := i - 1;
      assert middlewares[i..][1..] == middlewares[i + 1..];
      h := Wrap(middlewares[i], h);
    }
  }

  /**
   A chain changes exactly one thing, wherever Recovery stands in it: a panic becomes a nil
   result. Without Recovery the panic escapes.
   */
  lemma {:induction false} ChainMeaning(handler: Handler, middlewares: seq<Middleware>, offset: nat)
    ensures Chain(handler, middlewares)(offset)
         == if Recovery in middlewares && handler(offset) == Panicked then Nil else handler(offset)
  {
    if middlewares != [] {
      ChainMeaning(handler, middlewares[1..], offset);
      assert middlewares == [middlewares[0]] + middlewares[1..];
    }
  }

  /** A panic seen through the deployed chain, Recovery then Logging. */
  function Recovered(raw: HandlerResult): HandlerResult {
    if raw == Panicked then Nil else raw
  }

  lemma DeployedChain(handler: Handler, offset: nat)
    ensures Chain(handler, [Recovery, Logging])(offset) == Recovered(handler(offset))
  {
    ChainMeaning(handler, [Recovery, Logging], offset);
  }

  /** One handler call: what the innermost handler did and what the chain returned. */
  datatype Delivery = Delivery(session: nat, offset: nat, raw: HandlerResult, returned: HandlerResult)

  /**
   A consumer group on one partition: the committed offset, the running session with the
   offset it started at, the next offset to deliver, its mark, and every call made so far.
   */
  datatype Group = Group(
    committed: nat,
    session: nat,
    start: nat,
    next: nat,
    mark: nat,
    deliveries: seq<Delivery>)

  const NEW_GROUP := Group(0, 0, 0, 0, 0, [])

  function Max(a: nat, b: nat): nat {
    if a < b then b else a
  }

  /** The next message goes through the chain; only a nil result marks it. */
  function Deliver(g: Group, raw: HandlerResult, returned: HandlerResult): Group {
    g.(next := g.next + 1,
       mark := if returned == Nil then Max(g.mark, g.next + 1) else g.mark,
       deliveries := g.deliveries + [Delivery(g.session, g.next, raw, returned)])
  }

  /** Stores an offset, brought into the range the client may store. */
  function Commit(g: Group, offset: nat): Group {
    g.(committed := Max(g.committed, if offset < g.mark then offset else g.mark))
  }

  /** A new session resumes at the committed offset. */
  function Restart(g: Group): Group {
    g.(session := g.session + 1, start := g.committed, next := g.committed, mark := g.committed)
  }

  ghost predicate Seen(ds: seq<Delivery>, offset: nat) {
    exists i :: 0 <= i < |ds| && ds[i].offset == offset
  }

  ghost predicate Acknowledged(ds: seq<Delivery>, offset: nat) {
    exists i :: 0 <= i < |ds| && ds[i].offset == offset && ds[i].returned == Nil
  }

  /** Some session delivered the offset and later acknowledged a greater one. */
  ghost predicate PassedOver(ds: seq<Delivery>, offset: nat) {
    exists i, j :: 0 <= i < j < |ds| && ds[i].session == ds[j].session
                   && ds[i].offset == offset < ds[j].offset && ds[j].returned == Nil
  }

  /** The mark is one more than the greatest offset this session acknowledged, or its start. */
  ghost predicate MarkIsGreatest(g: Group) {
    && (g.mark == g.start ||
        exists i :: 0 <= i < |g.deliveries| && g.deliveries[i].session == g.session
                    && g.deliveries[i].offset + 1 == g.mark && g.deliveries[i].returned == Nil)
    && (forall i :: 0 <= i < |g.deliveries| ==>
          (g.deliveries[i].session == g.session && g.deliveries[i].returned == Nil ==> g.deliveries[i].offset < g.mark))
  }

  /** The running session's calls are the tail of the history, one per offset, in order. */
  ghost predicate TailIsSession(g: Group) {
    && g.start <= g.next
    && g.next - g.start <= |g.deliveries|
    && (var base := |g.deliveries| - (g.next - g.start);
        && (forall i :: 0 <= i < base ==> g.deliveries[i].session < g.session)
        && (forall i :: base <= i < |g.deliveries| ==>
              g.deliveries[i].session == g.session && g.deliveries[i].offset == g.start + (i - base)))
  }

  ghost predicate GroupInv(g: Group) {
    && g.start <= g.committed <= g.mark <= g.next
    && TailIsSession(g)
    && MarkIsGreatest(g)
    && (forall o: nat :: o < g.next ==> Seen(g.deliveries, o))
    && (forall o: nat :: o < g.mark ==> Acknowledged(g.deliveries, o) || PassedOver(g.deliveries, o))
  }

  lemma HistoryOnlyGrows(ds: seq<Delivery>, d: Delivery, o: nat)
    ensures Seen(ds, o) ==> Seen(ds + [d], o)
    ensures Acknowledged(ds, o) ==> Acknowledged(ds + [d], o)
    ensures PassedOver(ds, o) ==> PassedOver(ds + [d], o)
  {
    var es := ds + [d];
    assert forall i :: 0 <= i < |ds| ==> es[i] == ds[i];
    if Seen(ds, o) {
      var i :| 0 <= i < |ds| && ds[i].offset == o;
      assert es[i].offset == o;
    }
    if Acknowledged(ds, o) {
      var i :| 0 <= i < |ds| && ds[i].offset == o && ds[i].returned == Nil;
      assert es[i].offset == o && es[i].returned == Nil;
    }
    if PassedOver(ds, o) {
      var i, j :| 0 <= i < j < |ds| && ds[i].session == ds[j].session
                  && ds[i].offset == o < ds[j].offset && ds[j].returned == Nil;
      assert es[i].session == es[j].session;
    }
  }

  lemma DeliverKeepsTail(g: Group, raw: HandlerResult, returned: HandlerResult)
    requires TailIsSession(g)
    ensures TailIsSession(Deliver(g, raw, returned))
  {
    var h := Deliver(g, raw, returned);
    assert forall i :: 0 <= i < |g.deliveries| ==> h.deliveries[i] == g.deliveries[i];
  }

  lemma DeliverKeepsMark(g: Group, raw: HandlerResult, returned: HandlerResult)
    requires GroupInv(g)
    ensures MarkIsGreatest(Deliver(g, raw, returned))
  {
    var h := Deliver(g, raw, returned);
    assert forall i :: 0 <= i < |g.deliveries| ==> h.deliveries[i] == g.deliveries[i];
    assert h.deliveries[|g.deliveries|] == Delivery(g.session, g.next, raw, returned);
  }

  lemma DeliverKeepsInv(g: Group, raw: HandlerResult, returned: HandlerResult)
    requires GroupInv(g)
    ensures GroupInv(Deliver(g, raw, returned))
  {
    var d := Delivery(g.session, g.next, raw, returned);
    var h := Deliver(g, raw, returned);
    DeliverKeepsTail(g, raw, returned);
    DeliverKeepsMark(g, raw, returned);
    forall o: nat | o < h.next ensures Seen(h.deliveries, o) {
      HistoryOnlyGrows(g.deliveries, d, o);
      if o == g.next {
        assert h.deliveries[|g.deliveries|].offset == o;
      }
    }
    forall o: nat | o < h.mark
      ensures Acknowledged(h.deliveries, o) || PassedOver(h.deliveries, o)
    {
      HistoryOnlyGrows(g.deliveries, d, o);
      if g.mark <= o {
        var last := |g.deliveries|;
        assert h.deliveries[last] == d && returned == Nil;
        if o < g.next {
          var i := last - (g.next - g.start) + (o - g.start);
          assert h.deliveries[i] == g.deliveries[i];
          assert h.deliveries[i].offset == o && h.deliveries[i].session == g.session;
        }
      }
    }
  }

  lemma CommitKeepsInv(g: Group, offset: nat)
    requires GroupInv(g)
    ensures GroupInv(Commit(g, offset))
  {
  }

  lemma RestartKeepsInv(g: Group)
    requires GroupInv(g)
    ensures GroupInv(Restart(g))
  {
    var h := Restart(g);
    forall i | 0 <= i < |g.deliveries| ensures g.deliveries[i].session <= g.session {
      var base := |g.deliveries| - (g.next - g.start);
      assert if i < base then g.deliveries[i].session < g.session else g.deliveries[i].session == g.session;
    }
  }

  /** The group after at most k messages of the claim; a panic that escapes the chain ends the claim. */
  function Consumed(g: Group, handler: Handler, chain: Handler, k: nat): Group
    decreases k
  {
    if k == 0 then g
    else
      var h := Deliver(g, handler(g.next), chain(g.next));
      if chain(g.next) == Panicked then h else Consumed(h, handler, chain, k - 1)
  }

  lemma {:induction false} ConsumedKeepsInv(g: Group, handler: Handler, chain: Handler, k: nat)
    requires GroupInv(g)
    ensures GroupInv(Consumed(g, handler, chain, k))
    decreases k
  {
    if k > 0 {
      DeliverKeepsInv(g, handler(g.next), chain(g.next));
      if chain(g.next) != Panicked {
        ConsumedKeepsInv(Deliver(g, handler(g.next), chain(g.next)), handler, chain, k - 1);
      }
    }
  }

  /** How a call to the group's `Consume` returns. */
  datatype SessionEnd = Rebalanced | GroupClosed | GroupError | ContextDone

  /**
   One session: what the handler does with each offset, how far the log reaches, after how
   many messages the session context is done, what is committed, and how the session ends.
   */
  datatype Session = Session(handler: Handler, logEnd: nat, stop: nat, commit: nat, end: SessionEnd)

  /** How many messages the claim loop can take before its channel closes or the context is done. */
  function Available(g: Group, logEnd: nat, stop: nat): nat {
    if logEnd <= g.next then 0 else if stop < logEnd - g.next then stop else logEnd - g.next
  }

  /** The group when the claim loop of a session has ended. */
  function Ran(g: Group, middlewares: seq<Middleware>, s: Session): Group {
    var r := Restart(g);
    Consumed(r, s.handler, Chain(s.handler, middlewares), Available(r, s.logEnd, s.stop))
  }

  function AfterSession(g: Group, middlewares: seq<Middleware>, s: Session): Group {
    Commit(Ran(g, middlewares, s), s.commit)
  }

  function AfterSessions(g: Group, middlewares: seq<Middleware>, sessions: seq<Session>): Group {
    if sessions == [] then g
    else AfterSession(AfterSessions(g, middlewares, sessions[..|sessions| - 1]), middlewares, sessions[|sessions| - 1])
  }

  lemma {:induction false} SessionsKeepInv(g: Group, middlewares: seq<Middleware>, sessions: seq<Session>)
    requires GroupInv(g)
    ensures GroupInv(AfterSessions(g, middlewares, sessions))
  {
    if sessions != [] {
      var rest, s := sessions[..|sessions| - 1], sessions[|sessions| - 1];
      SessionsKeepInv(g, middlewares, rest);
      var r := AfterSessions(g, middlewares, rest);
      RestartKeepsInv(r);
      var chain, k := Chain(s.handler, middlewares), Available(Restart(r), s.logEnd, s.stop);
      ConsumedKeepsInv(Restart(r), s.handler, chain, k);
      CommitKeepsInv(Consumed(Restart(r), s.handler, chain, k), s.commit);
    }
  }

  /**
   Over any sequence of sessions: nothing below the committed offset was skipped unseen; what
   was never acknowledged was passed over by a later success of a session that had delivered
   it; and the mark is one past the greatest offset the running session acknowledged.
   */
  lemma DeliveryDiscipline(middlewares: seq<Middleware>, sessions: seq<Session>)
    ensures var g := AfterSessions(NEW_GROUP, middlewares, sessions);
            && (forall o: nat :: o < g.committed ==> Seen(g.deliveries, o))
            && (forall o: nat :: o < g.committed && !Acknowledged(g.deliveries, o) ==> PassedOver(g.deliveries, o))
            && MarkIsGreatest(g)
            && g.committed <= g.mark
  {
    assert GroupInv(NEW_GROUP);
    SessionsKeepInv(NEW_GROUP, middlewares, sessions);
  }

  // ----- Exactly which messages are acknowledged and committed -----

  lemma {:induction false} ConsumedAcknowledges(g: Group, handler: Handler, chain: Handler, k: nat, o: nat)
    ensures var h := Consumed(g, handler, chain, k);
            && h.committed == g.committed && g.next <= h.next
            && (Acknowledged(h.deliveries, o) <==>
                  Acknowledged(g.deliveries, o) || (g.next <= o < h.next && chain(o) == Nil))
    decreases k
  {
    if k > 0 {
      var d := Delivery(g.session, g.next, handler(g.next), chain(g.next));
      OneMoreAcknowledged(g.deliveries, d, o);
      if chain(g.next) != Panicked {
        ConsumedAcknowledges(Deliver(g, d.raw, d.returned), handler, chain, k - 1, o);
      }
    }
  }

  lemma OneMoreAcknowledged(ds: seq<Delivery>, d: Delivery, o: nat)
    ensures Acknowledged(ds + [d], o) <==> Acknowledged(ds, o) || (d.offset == o && d.returned == Nil)
  {
    HistoryOnlyGrows(ds, d, o);
    assert (ds + [d])[|ds|] == d;
  }

  /** Some offset from o on, among those from lo to hi, is acknowledged. */
  ghost predicate AcknowledgedFrom(chain: Handler, lo: nat, hi: nat, o: nat) {
    exists p: nat :: o <= p && lo <= p < hi && chain(p) == Nil
  }

  /** The mark passes an offset exactly when that offset or a later one was acknowledged. */
  lemma {:induction false} ConsumedMark(g: Group, handler: Handler, chain: Handler, k: nat, o: nat)
    ensures var h := Consumed(g, handler, chain, k);
            o < h.mark <==> o < g.mark || AcknowledgedFrom(chain, g.next, h.next, o)
    decreases k
  {
    if k > 0 {
      var g' := Deliver(g, handler(g.next), chain(g.next));
      var h := Consumed(g, handler, chain, k);
      ConsumedAcknowledges(g', handler, chain, k - 1, o);
      if chain(g.next) != Panicked {
        ConsumedMark(g', handler, chain, k - 1, o);
      }
      assert AcknowledgedFrom(chain, g.next, h.next, o) <==>
             (chain(g.next) == Nil && o <= g.next) || AcknowledgedFrom(chain, g.next + 1, h.next, o) by {
        if p: nat :| o <= p && g.next <= p < h.next && chain(p) == Nil {
          assert p == g.next || g.next + 1 <= p;
        }
      }
    }
  }

  /** The group before session i. */
  function Before(middlewares: seq<Middleware>, sessions: seq<Session>, i: nat): Group
    requires i < |sessions|
  {
    AfterSessions(NEW_GROUP, middlewares, sessions[..i])
  }

  /** Session i delivers the offset, and the chain returns nil for it. */
  predicate Acknowledges(middlewares: seq<Middleware>, sessions: seq<Session>, i: nat, o: nat) {
    && i < |sessions|
    && var g, s := Before(middlewares, sessions, i), sessions[i];
       g.committed <= o < Ran(g, middlewares, s).next && Chain(s.handler, middlewares)(o) == Nil
  }

  /** Session i acknowledges a later offset than this one, and commits past this one. */
  ghost predicate Passes(middlewares: seq<Middleware>, sessions: seq<Session>, i: nat, o: nat) {
    && i < |sessions|
    && var g, s := Before(middlewares, sessions, i), sessions[i];
       && g.committed <= o < s.commit
       && exists p: nat :: o < p < Ran(g, middlewares, s).next && Chain(s.handler, middlewares)(p) == Nil
  }

  /** Dropping the last session changes nothing about the earlier ones. */
  lemma EarlierSessions(middlewares: seq<Middleware>, sessions: seq<Session>, i: nat, o: nat)
    requires i < |sessions| - 1
    ensures Acknowledges(middlewares, sessions[..|sessions| - 1], i, o) <==> Acknowledges(middlewares, sessions, i, o)
  {
    assert sessions[..|sessions| - 1][..i] == sessions[..i];
  }

  /** What the last session adds to the acknowledged and to the committed offsets. */
  lemma LastSession(g: Group, middlewares: seq<Middleware>, s: Session, o: nat)
    ensures var g', h, chain := AfterSession(g, middlewares, s), Ran(g, middlewares, s), Chain(s.handler, middlewares);
            && (Acknowledged(g'.deliveries, o) <==>
                  Acknowledged(g.deliveries, o) || (g.committed <= o < h.next && chain(o) == Nil))
            && (o < g'.committed <==>
                  o < g.committed
                  || (o < s.commit && AcknowledgedFrom(chain, g.committed, h.next, o)))
  {
    var r := Restart(g);
    var chain, k := Chain(s.handler, middlewares), Available(r, s.logEnd, s.stop);
    ConsumedAcknowledges(r, s.handler, chain, k, o);
    ConsumedMark(r, s.handler, chain, k, o);
  }

  lemma {:induction false} AcknowledgedExactly(middlewares: seq<Middleware>, sessions: seq<Session>, o: nat)
    ensures Acknowledged(AfterSessions(NEW_GROUP, middlewares, sessions).deliveries, o)
       <==> exists i: nat :: Acknowledges(middlewares, sessions, i, o)
  {
    if sessions != [] {
      var n := |sessions| - 1;
      AcknowledgedExactly(middlewares, sessions[..n], o);
      LastSession(Before(middlewares, sessions, n), middlewares, sessions[n], o);
      assert (exists i: nat :: Acknowledges(middlewares, sessions, i, o)) <==>
             || Acknowledges(middlewares, sessions, n, o)
             || exists i: nat :: Acknowledges(middlewares, sessions[..n], i, o)
      by {
        if i: nat :| Acknowledges(middlewares, sessions[..n], i, o) {
          EarlierSessions(middlewares, sessions, i, o);
          assert Acknowledges(middlewares, sessions, i, o);
        }
        if i: nat :| Acknowledges(middlewares, sessions, i, o) {
          if i < n {
            EarlierSessions(middlewares, sessions, i, o);
          }
        }
      }
    }
  }

  // ----- Exactly which messages are handled, and which are lost -----

  ghost predicate Handled(ds: seq<Delivery>, offset: nat) {
    exists i :: 0 <= i < |ds| && ds[i].offset == offset && ds[i].raw == Nil
  }

  /** Session i delivers the offset, and the handler itself returns nil for it. */
  predicate Handles(middlewares: seq<Middleware>, sessions: seq<Session>, i: nat, o: nat) {
    && i < |sessions|
    && var g, s := Before(middlewares, sessions, i), sessions[i];
       g.committed <= o < Ran(g, middlewares, s).next && s.handler(o) == Nil
  }

  /** Session i acknowledges this offset or a later one, and commits past this one. */
  ghost predicate CommitsOver(middlewares: seq<Middleware>, sessions: seq<Session>, i: nat, o: nat) {
    && i < |sessions|
    && var g, s := Before(middlewares, sessions, i), sessions[i];
       && g.committed <= o < s.commit
       && AcknowledgedFrom(Chain(s.handler, middlewares), g.committed, Ran(g, middlewares, s).next, o)
  }

  lemma OneMoreHandled(ds: seq<Delivery>, d: Delivery, o: nat)
    ensures Handled(ds + [d], o) <==> Handled(ds, o) || (d.offset == o && d.raw == Nil)
  {
    if Handled(ds, o) {
      var i :| 0 <= i < |ds| && ds[i].offset == o && ds[i].raw == Nil;
      assert (ds + [d])[i] == ds[i];
    }
    assert (ds + [d])[|ds|] == d;
  }

  lemma {:induction false} ConsumedHandles(g: Group, handler: Handler, chain: Handler, k: nat, o: nat)
    ensures var h := Consumed(g, handler, chain, k);
            && g.next <= h.next
            && (Handled(h.deliveries, o) <==> Handled(g.deliveries, o) || (g.next <= o < h.next && handler(o) == Nil))
    decreases k
  {
    if k > 0 {
      var d := Delivery(g.session, g.next, handler(g.next), chain(g.next));
      OneMoreHandled(g.deliveries, d, o);
      if chain(g.next) != Panicked {
        ConsumedHandles(Deliver(g, d.raw, d.returned), handler, chain, k - 1, o);
      }
    }
  }

  lemma EarlierHandling(middlewares: seq<Middleware>, sessions: seq<Session>, i: nat, o: nat)
    requires i < |sessions| - 1
    ensures Handles(middlewares, sessions[..|sessions| - 1], i, o) <==> Handles(middlewares, sessions, i, o)
    ensures CommitsOver(middlewares, sessions[..|sessions| - 1], i, o) <==> CommitsOver(middlewares, sessions, i, o)
  {
    assert sessions[..|sessions| - 1][..i] == sessions[..i];
  }

  lemma {:induction false} HandledExactly(middlewares: seq<Middleware>, sessions: seq<Session>, o: nat)
    ensures Handled(AfterSessions(NEW_GROUP, middlewares, sessions).deliveries, o)
       <==> exists i: nat :: Handles(middlewares, sessions, i, o)
  {
    if sessions != [] {
      var n := |sessions| - 1;
      var g, s := Before(middlewares, sessions, n), sessions[n];
      var r := Restart(g);
      HandledExactly(middlewares, sessions[..n], o);
      ConsumedHandles(r, s.handler, Chain(s.handler, middlewares), Available(r, s.logEnd, s.stop), o);
      assert (exists i: nat :: Handles(middlewares, sessions, i, o)) <==>
             || Handles(middlewares, sessions, n, o)
             || exists i: nat :: Handles(middlewares, sessions[..n], i, o)
      by {
        if i: nat :| Handles(middlewares, sessions[..n], i, o) {
          EarlierHandling(middlewares, sessions, i, o);
          assert Handles(middlewares, sessions, i, o);
        }
        if i: nat :| Handles(middlewares, sessions, i, o) {
          if i < n {
            EarlierHandling(middlewares, sessions, i, o);
          }
        }
      }
    }
  }

  lemma {:induction false} CommittedOverExactly(middlewares: seq<Middleware>, sessions: seq<Session>, o: nat)
    ensures o < AfterSessions(NEW_GROUP, middlewares, sessions).committed
       <==> exists i: nat :: CommitsOver(middlewares, sessions, i, o)
  {
    if sessions != [] {
      var n := |sessions| - 1;
      CommittedOverExactly(middlewares, sessions[..n], o);
      LastSession(Before(middlewares, sessions, n), middlewares, sessions[n], o);
      assert (exists i: nat :: CommitsOver(middlewares, sessions, i, o)) <==>
             || CommitsOver(middlewares, sessions, n, o)
             || exists i: nat :: CommitsOver(middlewares, sessions[..n], i, o)
      by {
        if i: nat :| CommitsOver(middlewares, sessions[..n], i, o) {
          EarlierHandling(middlewares, sessions, i, o);
          assert CommitsOver(middlewares, sessions, i, o);
        }
        if i: nat :| CommitsOver(middlewares, sessions, i, o) {
          if i < n {
            EarlierHandling(middlewares, sessions, i, o);
          }
        }
      }
    }
  }

  lemma PassesExactly(middlewares: seq<Middleware>, sessions: seq<Session>, i: nat, o: nat)
    requires !Acknowledges(middlewares, sessions, i, o)
    ensures Passes(middlewares, sessions, i, o) <==> CommitsOver(middlewares, sessions, i, o)
  {
    if CommitsOver(middlewares, sessions, i, o) {
      var g, s := Before(middlewares, sessions, i), sessions[i];
      var chain, next := Chain(s.handler, middlewares), Ran(g, middlewares, s).next;
      var p: nat :| o <= p && g.committed <= p < next && chain(p) == Nil;
      assert p != o;
    }
  }

  /**
   Exactly the messages that are committed unacknowledged: below the committed offset although
   the chain never returned nil for them. A session must have acknowledged a later one and
   committed past this one, and no session may have acknowledged this one.
   */
  lemma UnacknowledgedExactly(middlewares: seq<Middleware>, sessions: seq<Session>, o: nat)
    ensures var g := AfterSessions(NEW_GROUP, middlewares, sessions);
            o < g.committed && !Acknowledged(g.deliveries, o) <==>
              && (exists i: nat :: Passes(middlewares, sessions, i, o))
              && (forall i: nat :: !Acknowledges(middlewares, sessions, i, o))
  {
    AcknowledgedExactly(middlewares, sessions, o);
    CommittedOverExactly(middlewares, sessions, o);
    if forall i: nat :: !Acknowledges(middlewares, sessions, i, o) {
      forall i: nat ensures Passes(middlewares, sessions, i, o) <==> CommitsOver(middlewares, sessions, i, o) {
        PassesExactly(middlewares, sessions, i, o);
      }
    }
  }

  /**
   Exactly the messages that are lost: below the committed offset although no call of the
   handler itself ever returned nil for them. Some session must have acknowledged this one, as
   a recovered panic does, or a later one, and committed past it; and no session that
   delivered it may have handled it.
   */
  lemma LostExactly(middlewares: seq<Middleware>, sessions: seq<Session>, o: nat)
    ensures var g := AfterSessions(NEW_GROUP, middlewares, sessions);
            o < g.committed && !Handled(g.deliveries, o) <==>
              && (exists i: nat :: CommitsOver(middlewares, sessions, i, o))
              && (forall i: nat :: !Handles(middlewares, sessions, i, o))
  {
    HandledExactly(middlewares, sessions, o);
    CommittedOverExactly(middlewares, sessions, o);
  }

  /** How `Consume` leaves its loop; `Running` means it is still going when the given sessions are used up. */
  datatype ConsumeResult = ReturnsNil | ReturnsError | ReturnsContextError | Crashed | Running

  /** The consumer object of one process. */
  class Consumer {
    var committed: nat
    var session: nat
    var start: nat
    var next: nat
    var mark: nat
    ghost var deliveries: seq<Delivery>
    const middlewares: seq<Middleware>

    constructor (middlewares: seq<Middleware>)
      ensures State() == NEW_GROUP && this.middlewares == middlewares
    {
      this.middlewares := middlewares;
      committed, session, start, next, mark := 0, 0, 0, 0, 0;
      deliveries := [];
    }

    ghost function State(): Group
      reads this
    {
      Group(committed, session, start, next, mark, deliveries)
    }

    /** The loop over one claim. `logEnd` closes the channel; `stop` is when the session context is done. */
    method ConsumeClaim(ghost raw: Handler, handler: Handler, logEnd: nat, stop: nat) returns (crashed: bool)
      modifies this`next, this`mark, this`deliveries
      ensures State() == Consumed(old(State()), raw, handler, Available(old(State()), logEnd, stop))
      ensures old(next) <= next && (old(next) < next ==> next <= logEnd && next - old(next) <= stop)
      ensures forall o: nat :: old(next) <= o && o + 1 < next ==> handler(o) != Panicked
      ensures crashed <==> exists o: nat :: old(next) <= o < next && handler(o) == Panicked
      ensures next < logEnd && next - old(next) < stop ==> crashed
    {
      ghost var total := Available(State(), logEnd, stop);
      var taken := 0;
      while taken < stop && next < logEnd
        invariant taken <= total && next == old(next) + taken
        invariant total - taken == Available(State(), logEnd, stop - taken)
        invariant Consumed(old(State()), raw, handler, total) == Consumed(State(), raw, handler, total - taken)
        invariant forall o: nat :: old(next) <= o < next ==> handler(o) != Panicked
        decreases stop - taken
      {
        var result := handler(next);
        deliveries := deliveries + [Delivery(session, next, raw(next), result)];
        next := next + 1;
        taken := taken + 1;
        if result == Panicked {
          return true;
        }
        if result == Failed {
          continue;
        }
        mark := Max(mark, next);
      }
      crashed := false;
    }

    /** The running session called the handler for an offset at which it panics, and nothing recovers that. */
    ghost predicate LastCallsPanic(middlewares: seq<Middleware>, s: Session)
      reads this
    {
      Recovery !in middlewares && exists o: nat :: start <= o < next && s.handler(o) == Panicked
    }

    /** One session of the group, from the committed offset to its last commit. */
    method RunSession(s: Session) returns (crashed: bool)
      modifies this
      ensures State() == AfterSession(old(State()), middlewares, s)
      ensures crashed <==> LastCallsPanic(middlewares, s)
    {
      session, start, next, mark := session + 1, committed, committed, committed;
      var handler := NewGroupHandler(s.handler, middlewares);
      crashed := ConsumeClaim(s.handler, handler, s.logEnd, s.stop);
      forall o: nat
        ensures handler(o) == Panicked <==> Recovery !in middlewares && s.handler(o) == Panicked
      {
        ChainMeaning(s.handler, middlewares, o);
      }
      committed := Max(committed, if s.commit < mark then s.commit else mark);
    }

    /** Runs session after session until the group says to stop. */
    method Consume(sessions: seq<Session>) returns (result: ConsumeResult, ran: nat)
      modifies this
      ensures ran <= |sessions|
      ensures State() == AfterSessions(old(State()), middlewares, sessions[..ran])
      ensures forall i :: 0 <= i < ran - 1 ==> sessions[i].end == Rebalanced
      ensures match result
              case Running => ran == |sessions| && (ran > 0 ==> sessions[ran - 1].end == Rebalanced)
              case ReturnsNil => ran > 0 && sessions[ran - 1].end == GroupClosed
              case ReturnsError => ran > 0 && sessions[ran - 1].end == GroupError
              case ReturnsContextError => ran > 0 && sessions[ran - 1].end == ContextDone
              case Crashed => ran > 0
      ensures ran > 0 ==> (result == Crashed <==> LastCallsPanic(middlewares, sessions[ran - 1]))
    {
      ran := 0;
      while ran < |sessions|
        invariant ran <= |sessions|
        invariant State() == AfterSessions(old(State()), middlewares, sessions[..ran])
        invariant forall i :: 0 <= i < ran ==> sessions[i].end == Rebalanced
        invariant ran > 0 ==> !LastCallsPanic(middlewares, sessions[ran - 1])
      {
        var s := sessions[ran];
        assert sessions[..ran + 1][..ran] == sessions[..ran];
        var crashed := RunSession(s);
        ran := ran + 1;
        if crashed {
          return Crashed, ran;
        }
        match s.end
        case Rebalanced =>
        case GroupClosed => return ReturnsNil, ran;
        case GroupError => return ReturnsError, ran;
        case ContextDone => return ReturnsContextError, ran;
      }
      result := Running;
    }
  }
}
