/**
 * What each step of NewSession (internal/sshconn/connection.go) comes to, in the fields of the
 * connection, the dials and the callers.
 */
module SshAnswers {
  import opened Wrappers
  import opened SshConnection
  import opened SshDials
  import opened SshSessions
  import opened Runs

  /** A dial that came back with a client is published: cached, kept alive, handed to its dialOp. */
  lemma SuccessfulDialIsPublished(s: System, op: OpId, x: ClientId)
    requires Reached(s) && !s.pool.conn.closed
    requires op < |s.pool.dials| && s.pool.dials[op] == Dialled(Some(x))
    ensures var n := Next(s, PublishDial(op));
            && n.Some?
            && n.value.pool.conn.client == Some(x) && n.value.pool.conn.kaCancel == Some(x)
            && n.value.pool.conn.keepalives == {x} && n.value.pool.conn.closes == s.pool.conn.closes
            && n.value.pool.conn.pending == None && !n.value.pool.conn.closed
            && n.value.pool.dials == s.pool.dials[op := Published(Outcome(Some(x), false))]
            && n.value.callers == s.callers && n.value.opens == s.opens && n.value.fired == s.fired
  {
    ReachedInv(s);
    assert s.pool.conn.pending == Some(op);
    assert {} + {x} == {x};
  }

  /** dial came back: with a client nobody has seen before when it succeeded, with none when it failed. */
  lemma DialComesBack(s: System, op: OpId, ok: bool)
    requires op < |s.pool.dials| && s.pool.dials[op].Dialling?
    ensures var n := Next(s, DialReturns(op, ok));
            && n.Some? && n.value.pool.conn == s.pool.conn
            && n.value.pool.dials == s.pool.dials[op := Dialled(if ok then Some(s.pool.produced) else None)]
            && n.value.pool.produced == s.pool.produced + (if ok then 1 else 0)
            && n.value.callers == s.callers && n.value.opens == s.opens
  {
  }

  /** The reply of the server is what the channel holds. */
  lemma ReplyArrives(s: System, o: OpenId, reply: Reply)
    requires o in s.opens && s.opens[o].chan.Parked?
    ensures var n := Next(s, ServerReplies(o, reply));
            && n.Some? && n.value.pool == s.pool && n.value.callers == s.callers
            && n.value.opens == s.opens[o := s.opens[o].(chan := Buffered(reply))]
  {
  }

  /** A dial that failed is reported to its dialOp; nothing is cached and nothing is closed. */
  lemma FailedDialIsReported(s: System, op: OpId)
    requires Reached(s) && op < |s.pool.dials| && s.pool.dials[op] == Dialled(None)
    ensures var n := Next(s, PublishDial(op));
            && n.Some?
            && n.value.pool.conn.client == None && n.value.pool.conn.keepalives == {}
            && n.value.pool.conn.closes == s.pool.conn.closes && n.value.pool.conn.pending == None
            && n.value.pool.dials == s.pool.dials[op := Published(Outcome(None, true))]
            && n.value.callers == s.callers && n.value.opens == s.opens && n.value.fired == s.fired
  {
    ReachedInv(s);
    assert s.pool.conn.pending == Some(op);
  }

  /** A dial that comes back to a closed connection: its client is closed and its waiters get an error. */
  lemma LateDialIsDiscarded(s: System, op: OpId, x: ClientId)
    requires Reached(s) && s.pool.conn.closed
    requires op < |s.pool.dials| && s.pool.dials[op] == Dialled(Some(x))
    ensures var n := Next(s, PublishDial(op));
            && n.Some?
            && n.value.pool.conn.client == None && n.value.pool.conn.keepalives == {}
            && n.value.pool.conn.closes == s.pool.conn.closes + multiset{x}
            && n.value.pool.dials == s.pool.dials[op := Published(Outcome(None, true))]
  {
    ReachedInv(s);
    assert s.pool.conn.pending == Some(op);
  }

  /** A waiter that is woken opens a channel on the client of its dialOp, or returns its error. */
  lemma WokenWaiterGoesOn(s: System, c: CallerId, op: OpId, stale: Option<ClientId>, client: Option<ClientId>,
      err: bool)
    requires Reached(s) && c in s.callers && s.callers[c] == Waiting(op, stale)
    requires op < |s.pool.dials| && s.pool.dials[op] == Published(Outcome(client, err))
    ensures var n := Next(s, WakeByDone(c));
            && n.Some? && n.value.pool == s.pool
            && (client.Some? ==>
                  && n.value.callers == s.callers[c := Opening(client.value, stale.Some?)]
                  && n.value.opens == s.opens[OpenId(c, stale.Some?) := Open(client.value, Parked, false)])
            && (client.None? ==> n.value.callers == s.callers[c := Returned(GotError)] && n.value.opens == s.opens)
  {
    ReachedInv(s);
    assert CallerOk(s, c);
  }

  /** Over both steps: who waits for a dial that succeeded goes on to a channel on its client. */
  lemma DialServesItsWaiters(s: System, op: OpId, x: ClientId, c: CallerId, stale: Option<ClientId>)
    requires Reached(s) && !s.pool.conn.closed
    requires op < |s.pool.dials| && s.pool.dials[op] == Dialled(Some(x))
    requires c in s.callers && s.callers[c] == Waiting(op, stale)
    ensures var n := Next(s, PublishDial(op));
            && n.Some? && Next(n.value, WakeByDone(c)).Some?
            && var t := Next(n.value, WakeByDone(c)).value;
               && t.pool.conn.client == Some(x) && t.callers[c] == Opening(x, stale.Some?)
               && OpenId(c, stale.Some?) in t.opens
               && t.opens[OpenId(c, stale.Some?)] == Open(x, Parked, false)
  {
    SuccessfulDialIsPublished(s, op, x);
    ReachableByStep(Next, Starts, s, PublishDial(op));
    WokenWaiterGoesOn(Next(s, PublishDial(op)).value, c, op, stale, Some(x), false);
  }

  /** A caller whose ctx is alive when it enters asks for a client. */
  lemma LiveContextAsks(s: System, c: CallerId)
    requires c in s.callers && s.callers[c].Entering?
    ensures var n := Next(s, CheckContext(c));
            n == Some(s.(callers := s.callers[c := if c in s.fired then Returned(GotError) else Asking(None)]))
  {
  }

  /** A closed connection refuses. */
  lemma ClosedRefuses(s: System, c: CallerId)
    requires c in s.callers && s.callers[c].Asking? && s.pool.conn.closed
    ensures var n := Next(s, LookUp(c));
            && n.Some? && n.value.callers == s.callers[c := Returned(GotError)]
            && n.value.pool.conn == s.pool.conn && n.value.pool.dials == s.pool.dials && n.value.opens == s.opens
  {
  }

  /** A cached client other than the one found dead is used, and nothing else changes. */
  lemma CachedClientIsUsed(s: System, c: CallerId, x: ClientId)
    requires c in s.callers && s.callers[c].Asking? && !s.pool.conn.closed
    requires s.pool.conn.client == Some(x) && s.callers[c].stale != Some(x)
    ensures var n := Next(s, LookUp(c)); var retry := s.callers[c].stale.Some?;
            && n.Some? && n.value.callers == s.callers[c := Opening(x, retry)]
            && n.value.opens == s.opens[OpenId(c, retry) := Open(x, Parked, false)]
            && n.value.pool.conn == s.pool.conn && n.value.pool.dials == s.pool.dials
  {
  }

  /** With nothing usable cached, the caller joins the pending dial or starts one; a dead client is closed. */
  lemma NothingUsableDials(s: System, c: CallerId)
    requires Reached(s) && c in s.callers && s.callers[c].Asking? && !s.pool.conn.closed
    requires s.pool.conn.client.Some? ==> s.callers[c].stale == s.pool.conn.client
    ensures var n := Next(s, LookUp(c)); var p := s.pool.conn.pending; var x := s.pool.conn.client;
            && n.Some?
            && var q := n.value.pool;
               && q.conn.client == None && q.conn.pending.Some?
               && n.value.callers == s.callers[c := Waiting(q.conn.pending.value, s.callers[c].stale)]
               && q.conn.closes == s.pool.conn.closes + (if x.Some? then multiset{x.value} else multiset{})
               && (p.Some? ==> q.conn.pending == p && q.dials == s.pool.dials)
               && (p.None? ==> q.conn.pending == Some(|s.pool.dials|) && q.dials == s.pool.dials + [Dialling])
  {
    ReachedInv(s);
  }

  /** A caller that takes its reply: a session is returned, a refusal ends it, a dead transport is retried once. */
  lemma ReplyIsHeeded(s: System, c: CallerId, x: ClientId, retry: bool, reply: Reply)
    requires c in s.callers && s.callers[c] == Opening(x, retry)
    requires OpenId(c, retry) in s.opens && s.opens[OpenId(c, retry)].chan == Buffered(reply)
    ensures var n := Next(s, TakeReply(c));
            && n.Some? && n.value.pool == s.pool
            && (reply == Session ==> n.value.callers[c] == Returned(GotSession(OpenId(c, retry))))
            && (reply == ChannelRefused ==> n.value.callers[c] == Returned(GotError))
            && (reply == TransportDead ==>
                  n.value.callers[c] == if !retry && c !in s.fired then Asking(Some(x)) else Returned(GotError))
  {
  }

  /**
   * So after a dead transport the second attempt retires that client, unless someone has already, and
   * goes on with another client or with a dial.
   */
  lemma DeadTransportIsReplaced(s: System, c: CallerId, x: ClientId)
    requires Reached(s) && c in s.callers && s.callers[c] == Opening(x, false) && c !in s.fired
    requires OpenId(c, false) in s.opens && s.opens[OpenId(c, false)].chan == Buffered(TransportDead)
    requires !s.pool.conn.closed
    ensures var n := Next(s, TakeReply(c));
            && n.Some? && Next(n.value, LookUp(c)).Some?
            && var t := Next(n.value, LookUp(c)).value;
               && t.pool.conn.client != Some(x)
               && (t.callers[c].Waiting? || (t.callers[c].Opening? && t.callers[c].client != x && t.callers[c].retry))
  {
    ReplyIsHeeded(s, c, x, false, TransportDead);
    ReachableByStep(Next, Starts, s, TakeReply(c));
    var t := Next(s, TakeReply(c)).value;
    if t.pool.conn.client.Some? && t.pool.conn.client != Some(x) {
      CachedClientIsUsed(t, c, t.pool.conn.client.value);
    } else {
      NothingUsableDials(t, c);
    }
  }
}
