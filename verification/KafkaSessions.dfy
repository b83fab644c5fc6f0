/**
 What one session of a consumer group does, in terms of its log, its context, its handler and
 its middlewares alone: how far it gets, what it records, what it marks and what it commits.
 */
module KafkaSessions {
  import opened Kafka

  /** A handler call at this offset panics, and no middleware recovers it. */
  predicate Escapes(middlewares: seq<Middleware>, handler: Handler, offset: nat) {
    Recovery !in middlewares && handler(offset) == Panicked
  }

  /** The call recorded for an offset, with what the handler did and what came out of the chain. */
  predicate IsCall(d: Delivery, session: nat, middlewares: seq<Middleware>, handler: Handler, offset: nat) {
    && d.session == session && d.offset == offset
    && d.raw == handler(offset)
    && (d.returned == Nil <==>
          handler(offset) == Nil || (handler(offset) == Panicked && Recovery in middlewares))
    && (d.returned == Panicked <==> Escapes(middlewares, handler, offset))
  }

  /** The claim took the messages from `from` up to `to`, and nothing but its own end stopped it. */
  predicate Reaches(from: nat, to: nat, chain: Handler, logEnd: nat, stop: nat) {
    && from <= to
    && (from < to ==> to <= logEnd && to - from <= stop)
    && (forall o: nat :: from <= o && o + 1 < to ==> chain(o) != Panicked)
    && (to < logEnd && to - from < stop ==> from < to && chain(to - 1) == Panicked)
  }

  lemma {:induction false} ClaimReaches(g: Group, handler: Handler, chain: Handler, logEnd: nat, stop: nat)
    ensures Reaches(g.next, Consumed(g, handler, chain, Available(g, logEnd, stop)).next, chain, logEnd, stop)
    decreases stop
  {
    var k := Available(g, logEnd, stop);
    if k > 0 && chain(g.next) != Panicked {
      var g' := Deliver(g, handler(g.next), chain(g.next));
      assert k - 1 == Available(g', logEnd, stop - 1);
      ClaimReaches(g', handler, chain, logEnd, stop - 1);
    }
  }

  /**
   How far a session gets. It starts at the committed offset. It takes no message beyond the log
   or after its context is done, and none after an escaped panic; and if neither the log nor the
   context ended it, the last message it took panicked and nothing recovered that.
   */
  lemma SessionReaches(g: Group, middlewares: seq<Middleware>, s: Session)
    ensures var next := Ran(g, middlewares, s).next;
            && g.committed <= next
            && (g.committed < next ==> next <= s.logEnd && next - g.committed <= s.stop)
            && (forall o: nat :: g.committed <= o && o + 1 < next ==> !Escapes(middlewares, s.handler, o))
            && (next < s.logEnd && next - g.committed < s.stop ==>
                  g.committed < next && Escapes(middlewares, s.handler, next - 1))
  {
    var chain := Chain(s.handler, middlewares);
    ClaimReaches(Restart(g), s.handler, chain, s.logEnd, s.stop);
    forall o: nat ensures chain(o) == Panicked <==> Escapes(middlewares, s.handler, o) {
      ChainMeaning(s.handler, middlewares, o);
    }
  }

  /** With Recovery in the list, a session ends only with its log or its context. */
  lemma RecoveredSessionReaches(g: Group, middlewares: seq<Middleware>, s: Session)
    requires Recovery in middlewares
    ensures var next := Ran(g, middlewares, s).next;
            if g.committed + s.stop <= s.logEnd then next == g.committed + s.stop
            else if g.committed <= s.logEnd then next == s.logEnd
            else next == g.committed
  {
    SessionReaches(g, middlewares, s);
  }

  lemma {:induction false} ClaimRecords(g: Group, handler: Handler, chain: Handler, k: nat)
    ensures var h := Consumed(g, handler, chain, k);
            && h == g.(next := h.next, mark := h.mark, deliveries := h.deliveries)
            && g.next <= h.next
            && g.deliveries <= h.deliveries && |h.deliveries| == |g.deliveries| + (h.next - g.next)
            && (forall i :: |g.deliveries| <= i < |h.deliveries| ==>
                  var o := g.next + (i - |g.deliveries|);
                  h.deliveries[i] == Delivery(g.session, o, handler(o), chain(o)))
            && (h.mark == g.mark || (g.next < h.mark <= h.next && chain(h.mark - 1) == Nil))
            && (forall o: nat :: g.next <= o < h.next && h.mark <= o ==> chain(o) != Nil)
            && g.mark <= h.mark
    decreases k
  {
    if k > 0 {
      var g' := Deliver(g, handler(g.next), chain(g.next));
      assert g'.deliveries[|g.deliveries|] == Delivery(g.session, g.next, handler(g.next), chain(g.next));
      if chain(g.next) != Panicked {
        ClaimRecords(g', handler, chain, k - 1);
        var h := Consumed(g', handler, chain, k - 1);
        assert g'.deliveries <= h.deliveries;
        assert h.deliveries[|g.deliveries|] == g'.deliveries[|g.deliveries|];
      }
    }
  }

  /**
   What a session leaves behind: one more call for each offset it took, in order, under a new
   session number; the mark one past the last call that returned nil, and the committed offset
   moved to the offset that was stored, as far as the mark allows, and never back.
   */
  lemma SessionRecords(g: Group, middlewares: seq<Middleware>, s: Session)
    ensures var h := AfterSession(g, middlewares, s);
            && h.session == g.session + 1 && h.start == g.committed
            && h.next == Ran(g, middlewares, s).next
            && g.committed <= h.mark <= h.next
            && g.deliveries <= h.deliveries && |h.deliveries| == |g.deliveries| + (h.next - g.committed)
            && (forall i :: |g.deliveries| <= i < |h.deliveries| ==>
                  IsCall(h.deliveries[i], h.session, middlewares, s.handler, g.committed + (i - |g.deliveries|)))
            && (g.committed < h.mark ==> h.deliveries[|g.deliveries| + (h.mark - 1 - g.committed)].returned == Nil)
            && (forall i :: |g.deliveries| + (h.mark - g.committed) <= i < |h.deliveries| ==>
                  h.deliveries[i].returned != Nil)
            && h.committed == if h.mark <= s.commit then h.mark
                              else if g.committed <= s.commit then s.commit else g.committed
  {
    var r := Restart(g);
    var chain, k := Chain(s.handler, middlewares), Available(r, s.logEnd, s.stop);
    ClaimRecords(r, s.handler, chain, k);
    forall o: nat
      ensures chain(o) == if Recovery in middlewares && s.handler(o) == Panicked then Nil else s.handler(o)
    {
      ChainMeaning(s.handler, middlewares, o);
    }
  }

  /** Sessions follow one another: each continues from the group the one before it left. */
  lemma SessionsFollow(g: Group, middlewares: seq<Middleware>, sessions: seq<Session>, s: Session)
    ensures AfterSessions(g, middlewares, []) == g
    ensures AfterSessions(g, middlewares, sessions + [s])
         == AfterSession(AfterSessions(g, middlewares, sessions), middlewares, s)
  {
    assert (sessions + [s])[..|sessions|] == sessions;
  }
}
