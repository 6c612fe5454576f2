/** What internal/sshconn promises its callers, for every run of SshSessions. */
module SshTheorems {
  import opened Wrappers
  import opened SshConnection
  import opened SshDials
  import opened SshSessions
  import opened Runs

  function RunningDials(p: Pool): set<OpId> {
    set i | 0 <= i < |p.dials| && !p.dials[i].Published?
  }

  /**
   * One dial runs when pending is set and none otherwise; nothing is cached while it runs; the
   * cached client is the one client with a running keepalive, and kaCancel stops that one.
   */
  lemma OneDialAtATime(s: System)
    requires Reached(s)
    ensures RunningDials(s.pool) == (if s.pool.conn.pending.Some? then {s.pool.conn.pending.value} else {})
    ensures s.pool.conn.pending.Some? ==> s.pool.conn.client.None? && s.pool.conn.keepalives == {}
    ensures s.pool.conn.kaCancel == s.pool.conn.client
    ensures s.pool.conn.keepalives == if s.pool.conn.client.Some? then {s.pool.conn.client.value} else {}
  {
    ReachedInv(s);
  }

  /** Every client a dial produced is not yet published, cached, or closed once: never two of them. */
  lemma ClientsConserved(s: System, x: ClientId)
    requires Reached(s)
    ensures s.pool.conn.closes[x] <= 1
    ensures x < s.pool.produced <==>
            (Unpublished(s.pool) == Some(x) || s.pool.conn.client == Some(x) || s.pool.conn.closes[x] == 1)
    ensures !(Unpublished(s.pool) == Some(x) && s.pool.conn.client == Some(x))
    ensures s.pool.conn.closes[x] == 1 ==> Unpublished(s.pool) != Some(x) && s.pool.conn.client != Some(x)
  {
    ReachedInv(s);
    assert Places(s.pool, x) == if x < s.pool.produced then 1 else 0;
  }

  /**
   * After Close: nothing is cached or kept alive, the dial that is still out has been cancelled, no
   * dial is ever started again, none publishes a client, and once that dial is back every client
   * ever produced has been closed.
   */
  lemma CloseIsFinal(s: System, more: seq<Step>, t: System)
    requires Reached(s) && s.pool.conn.closed && Run(Next, s, more) == Some(t)
    ensures t.pool.conn.closed && t.pool.conn.client.None? && t.pool.conn.keepalives == {}
    ensures t.pool.conn.pending.Some? ==> t.pool.conn.pending.value in t.pool.conn.cancelled
    ensures |t.pool.dials| == |s.pool.dials|
    ensures forall i :: 0 <= i < |t.pool.dials| && t.pool.dials[i].Published? && !s.pool.dials[i].Published? ==>
                          t.pool.dials[i].outcome == Failure
    ensures t.pool.conn.pending.None? ==> forall x: ClientId :: x < t.pool.produced ==> t.pool.conn.closes[x] == 1
  {
    ReachedInv(s);
    Always(s, more, t);
    if t.pool.conn.pending.None? {
      forall x: ClientId | x < t.pool.produced
        ensures t.pool.conn.closes[x] == 1
      {
        assert Places(t.pool, x) == 1;
      }
    }
  }

  /**
   * A waiter on a dialOp can rely on it: while it is not done it is the pending dial, and once it is
   * done it holds a client or an error, never both and never neither, and the waiter can go on.
   */
  lemma AwakenedWaiters(s: System, c: CallerId)
    requires Reached(s) && c in s.callers && s.callers[c].Waiting?
    ensures s.callers[c].op < |s.pool.dials|
    ensures var dial := s.pool.dials[s.callers[c].op];
            && (!dial.Published? ==> s.pool.conn.pending == Some(s.callers[c].op))
            && (dial.Published? ==>
                  && (dial.outcome.client.Some? <==> !dial.outcome.err)
                  && (dial.outcome.client.Some? ==> Settled(s.pool, dial.outcome.client.value))
                  && Next(s, WakeByDone(c)).Some?)
  {
    ReachedInv(s);
    assert CallerOk(s, c);
  }

  /** Reconnecting is amortised: beyond the first dial, each one pays for a failure or a dead client. */
  lemma DialsAreAmortised(s: System)
    requires Reached(s)
    ensures |s.pool.dials| <= 1 + s.pool.retired + s.pool.failed
    ensures s.pool.ended == 0 ==>
              |s.pool.dials| == s.pool.retired + s.pool.failed + Size(s.pool.conn.pending) + Size(s.pool.conn.client)
  {
    ReachedInv(s);
  }

  /** Why the step may drop client x: Close, a transport found dead, or a deadline during an open. */
  predicate DropAllowed(s: System, e: Step, x: ClientId) {
    || e == CloseConnection
    || (e.LookUp? && FirstDied(s, e.caller) && s.opens[OpenId(e.caller, false)].client == x)
    || (e.RetireClient? && e.caller in s.fired && exists retry :: InOpenSession(s, e.caller, x, retry))
  }

  /**
   * A cached client leaves the cache only to be closed, alone, and only by Close, by a caller whose
   * channel on it met a dead transport, or by one whose ctx fired while it was opening a channel.
   */
  lemma OnlyDeadClientsAreDropped(s: System, e: Step, x: ClientId)
    requires Reached(s) && Next(s, e).Some?
    requires s.pool.conn.client == Some(x) && Next(s, e).value.pool.conn.client != Some(x)
    ensures Next(s, e).value.pool.conn.client.None?
    ensures Next(s, e).value.pool.conn.closes == s.pool.conn.closes + multiset{x}
    ensures DropAllowed(s, e, x)
  {
    ReachedInv(s);
    if e.LookUp? || e.RetireClient? {
      assert CallerOk(s, e.caller);
    }
    if e.RetireClient? {
      assert InOpenSession(s, e.caller, x, s.callers[e.caller].retry);
    }
  }

  /**
   * A channel refusal is the end of that call: in no later state has its caller done anything else,
   * so it dials nothing, opens nothing and retires nothing.
   */
  lemma RefusalIsSurfaced(s: System, o: OpenId, more: seq<Step>, t: System, e: Step)
    requires Reached(s) && o in s.opens && s.opens[o].chan == Taken(ChannelRefused)
    requires Run(Next, s, more) == Some(t)
    ensures o.caller in t.callers && t.callers[o.caller] == Returned(GotError)
    ensures e in {LookUp(o.caller), RetireClient(o.caller), WakeByDone(o.caller), TakeReply(o.caller)} ==>
              Next(t, e).None?
  {
    ReachedInv(s);
    assert OpenOk(s, o);
    Always(s, more, t);
  }

  /** The caller entered with its ctx done and has touched no client and no channel. */
  predicate Untouched(s: System, c: CallerId) {
    && c in s.callers
    && (s.callers[c] == Returned(GotError) || (s.callers[c].Entering? && c in s.fired))
    && OpenId(c, false) !in s.opens && OpenId(c, true) !in s.opens
  }

  lemma UntouchedStep(s: System, e: Step, c: CallerId)
    requires Untouched(s, c) && Next(s, e).Some?
    ensures Untouched(Next(s, e).value, c)
  {
  }

  /** A caller that enters with its ctx done returns an error, having dialled and opened nothing. */
  lemma SpentContextTouchesNothing(s: System, c: CallerId, more: seq<Step>, t: System)
    requires Reached(s) && c in s.callers && s.callers[c].Entering? && c in s.fired
    requires Run(Next, s, more) == Some(t)
    ensures Untouched(t, c)
  {
    ReachedInv(s);
    assert CallerOk(s, c);
    forall u, e | Untouched(u, c) && Next(u, e).Some?
      ensures Untouched(Next(u, e).value, c)
    {
      UntouchedStep(u, e, c);
    }
    Keeps(Next, u => Untouched(u, c), s, more);
  }

  /**
   * One NewSession opens at most two channels, and the second only after the first met a dead
   * transport: a channel is never opened in place of another.
   */
  lemma AtMostTwoChannels(s: System, e: Step, c: CallerId)
    requires Reached(s) && Next(s, e).Some?
    ensures (set o | o in s.opens && o.caller == c) <= {OpenId(c, false), OpenId(c, true)}
    ensures OpenId(c, true) in s.opens ==> FirstDied(s, c)
    ensures forall o :: o in s.opens ==>
              && o in Next(s, e).value.opens
              && Next(s, e).value.opens[o].client == s.opens[o].client
  {
    ReachedInv(s);
    ForwardStep(s, e);
    assert OpenId(c, true) in s.opens ==> OpenOk(s, OpenId(c, true));
  }

  /** The session of this channel went to the caller that opened it. */
  predicate ReturnedToCaller(s: System, o: OpenId) {
    o.caller in s.callers && s.callers[o.caller] == Returned(GotSession(o))
  }

  /** The session of this channel was closed by the drain. */
  predicate ClosedByDrain(s: System, o: OpenId) {
    o in s.opens && s.opens[o].chan == Drained(Session)
  }

  /** The caller of this channel is still in openSession. */
  predicate StillOpening(s: System, o: OpenId) {
    o.caller in s.callers && (s.callers[o.caller].Opening? || s.callers[o.caller].Retiring?)
  }

  /** The drain of this channel has only to run. */
  predicate DrainReady(s: System, o: OpenId) {
    o in s.opens && s.opens[o].abandoned && s.opens[o].chan.Buffered?
  }

  /**
   * A session the server granted is returned to its caller or closed by the drain, never both; if
   * neither has happened yet, its caller is still in openSession or the drain has only to run.
   */
  lemma SessionsConserved(s: System, o: OpenId)
    requires Reached(s) && o in s.opens
    requires s.opens[o].chan in {Buffered(Session), Taken(Session), Drained(Session)}
    ensures !(ReturnedToCaller(s, o) && ClosedByDrain(s, o))
    ensures ReturnedToCaller(s, o) || ClosedByDrain(s, o) || StillOpening(s, o) || DrainReady(s, o)
    ensures ReturnedToCaller(s, o) <==> s.opens[o].chan == Taken(Session)
    ensures forall c :: c in s.callers && s.callers[c] == Returned(GotSession(o)) ==> c == o.caller
  {
    ReachedInv(s);
    assert OpenOk(s, o);
    assert CallerOk(s, o.caller);
    forall c | c in s.callers && s.callers[c] == Returned(GotSession(o))
      ensures c == o.caller
    {
      assert CallerOk(s, c);
    }
  }

  /** The drain cannot be stuck: the client of an abandoned open is closed, whoever closed it. */
  lemma AbandonedOpensAreUnparked(s: System, o: OpenId)
    requires Reached(s) && o in s.opens && s.opens[o].abandoned
    ensures s.pool.conn.closes[s.opens[o].client] == 1 && s.pool.conn.client != Some(s.opens[o].client)
    ensures o.caller in s.fired
  {
    ReachedInv(s);
    assert OpenOk(s, o);
    assert Places(s.pool, s.opens[o].client) == 1;
  }
}
