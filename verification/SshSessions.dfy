/**
 * NewSession, openSession and runDial (internal/sshconn/connection.go) by any number of callers.
 *
 * A step is one critical section, one channel hand-off, one wake-up of a select or one answer of
 * the outside world: the dial function, the SSH server, a context that fires. Steps come in any
 * order.
 */
module SshSessions {
  import opened Wrappers
  import opened SshConnection
  import opened SshDials
  import opened Runs

  type CallerId = nat

  /** The first or the second channel that one NewSession opens. */
  datatype OpenId = OpenId(caller: CallerId, retry: bool)

  /** A refusal is SSH_MSG_CHANNEL_OPEN_FAILURE, section 5.1 of RFC 4254. */
  datatype Reply = Session | ChannelRefused | TransportDead

  /** resCh of openSession: the reply is taken by the caller or by the drain. */
  datatype ResultChannel = Parked | Buffered(reply: Reply) | Taken(reply: Reply) | Drained(reply: Reply)

  /** One call of openSession on a client; abandoned when its ctx fired first. */
  datatype Open = Open(client: ClientId, chan: ResultChannel, abandoned: bool)

  datatype CallResult = GotSession(open: OpenId) | GotError

  /** Where a caller of NewSession stands. `stale` is the dead client of the second attempt. */
  datatype Caller =
    | Entering
    | Asking(stale: Option<ClientId>)
    | Waiting(op: OpId, stale: Option<ClientId>)
    | Opening(client: ClientId, retry: bool)
    | Retiring(client: ClientId, retry: bool)
    | Returned(result: CallResult)

  datatype System = System(
    pool: Pool,
    callers: map<CallerId, Caller>,
    fired: set<CallerId>,              // callers whose ctx is done
    opens: map<OpenId, Open>)

  /** Nothing has happened: New was called. */
  ghost predicate Starts(s: System) {
    s == System(NewPool, map[], {}, map[])
  }

  datatype Step =
    | Arrive(caller: CallerId)
    | ContextFires(caller: CallerId)
    | CheckContext(caller: CallerId)
    | LookUp(caller: CallerId)
    | WakeByDone(caller: CallerId)
    | WakeByContext(caller: CallerId)
    | DialReturns(op: OpId, ok: bool)
    | PublishDial(op: OpId)
    | CloseConnection
    | ServerReplies(open: OpenId, reply: Reply)
    | TakeReply(caller: CallerId)
    | TakeContext(caller: CallerId)
    | RetireClient(caller: CallerId)
    | Drain(open: OpenId)

  function Move(s: System, c: CallerId, to: Caller): System {
    s.(callers := s.callers[c := to])
  }

  /** openSession starts: the helper goroutine is spawned and the caller selects. */
  function StartOpen(s: System, c: CallerId, x: ClientId, retry: bool): System {
    Move(s, c, Opening(x, retry)).(opens := s.opens[OpenId(c, retry) := Open(x, Parked, false)])
  }

  function SetChan(s: System, o: OpenId, chan: ResultChannel): System
    requires o in s.opens
  {
    s.(opens := s.opens[o := s.opens[o].(chan := chan)])
  }

  function DoLookUp(s: System, c: CallerId, stale: Option<ClientId>): System {
    var (q, found) := LookUpIn(s.pool, stale);
    var t := s.(pool := q);
    match found
    case Refused => Move(t, c, Returned(GotError))
    case Cached(x) => StartOpen(t, c, x, stale.Some?)
    case Wait(op) => Move(t, c, Waiting(op, stale))
  }

  function DoTakeReply(s: System, c: CallerId, x: ClientId, retry: bool, reply: Reply): System
    requires OpenId(c, retry) in s.opens
  {
    var t := SetChan(s, OpenId(c, retry), Taken(reply));
    match reply
    case Session => Move(t, c, Returned(GotSession(OpenId(c, retry))))
    case ChannelRefused => Move(t, c, Returned(GotError))
    case TransportDead =>
      if retry || c in s.fired then Move(t, c, Returned(GotError)) else Move(t, c, Asking(Some(x)))
  }

  function DoRetire(s: System, c: CallerId, x: ClientId, retry: bool): System
    requires OpenId(c, retry) in s.opens
  {
    var o := OpenId(c, retry);
    Move(s, c, Returned(GotError)).(
      pool := RetireIn(s.pool, x),
      opens := s.opens[o := s.opens[o].(abandoned := true)])
  }

  /** The step function: None when the step is not enabled. */
  function Next(s: System, e: Step): Option<System> {
    match e
    case Arrive(c) =>
      if c in s.callers then None else Some(Move(s, c, Entering))
    case ContextFires(c) =>
      if c !in s.callers then None else Some(s.(fired := s.fired + {c}))
    case CheckContext(c) =>
      if c !in s.callers || !s.callers[c].Entering? then None
      else Some(Move(s, c, if c in s.fired then Returned(GotError) else Asking(None)))
    case LookUp(c) =>
      if c !in s.callers || !s.callers[c].Asking? then None
      else Some(DoLookUp(s, c, s.callers[c].stale))
    case WakeByDone(c) =>
      if c !in s.callers || !s.callers[c].Waiting? || s.callers[c].op >= |s.pool.dials| then None
      else (
        match s.pool.dials[s.callers[c].op]
        case Published(Outcome(client, err)) =>
          if err then Some(Move(s, c, Returned(GotError)))
          else if client.Some? then Some(StartOpen(s, c, client.value, s.callers[c].stale.Some?))
          else None  // a session on a nil client: AwakenedWaiters shows it never comes to this
        case _ => None)
    case WakeByContext(c) =>
      if c !in s.callers || !s.callers[c].Waiting? || c !in s.fired then None
      else Some(Move(s, c, Returned(GotError)))
    case DialReturns(op, ok) =>
      if op >= |s.pool.dials| || !s.pool.dials[op].Dialling? then None
      else Some(s.(pool := ReturnIn(s.pool, op, ok)))
    case PublishDial(op) =>
      if op >= |s.pool.dials| || !s.pool.dials[op].Dialled? then None
      else Some(s.(pool := PublishIn(s.pool, op)))
    case CloseConnection =>
      Some(s.(pool := CloseIn(s.pool)))
    case ServerReplies(o, reply) =>
      if o !in s.opens || !s.opens[o].chan.Parked? then None
      else Some(SetChan(s, o, Buffered(reply)))
    case TakeReply(c) =>
      if c !in s.callers || !s.callers[c].Opening? then None
      else
        var o := OpenId(c, s.callers[c].retry);
        if o !in s.opens || !s.opens[o].chan.Buffered? then None
        else Some(DoTakeReply(s, c, s.callers[c].client, s.callers[c].retry, s.opens[o].chan.reply))
    case TakeContext(c) =>
      if c !in s.callers || !s.callers[c].Opening? || c !in s.fired then None
      else Some(Move(s, c, Retiring(s.callers[c].client, s.callers[c].retry)))
    case RetireClient(c) =>
      if c !in s.callers || !s.callers[c].Retiring? || OpenId(c, s.callers[c].retry) !in s.opens then None
      else Some(DoRetire(s, c, s.callers[c].client, s.callers[c].retry))
    case Drain(o) =>
      if o !in s.opens || !s.opens[o].abandoned || !s.opens[o].chan.Buffered? then None
      else Some(SetChan(s, o, Drained(s.opens[o].chan.reply)))
  }

  lemma PoolStep(s: System, e: Step)
    requires PoolInv(s.pool) && Next(s, e).Some?
    ensures PoolInv(Next(s, e).value.pool) && Grows(s.pool, Next(s, e).value.pool)
  {
    match e
    case LookUp(c) => LookUpKeeps(s.pool, s.callers[c].stale);
    case PublishDial(op) => PublishKeeps(s.pool, op);
    case RetireClient(c) => RetireKeeps(s.pool, s.callers[c].client);
    case CloseConnection => CloseKeeps(s.pool);
    case DialReturns(op, ok) => ReturnKeeps(s.pool, op, ok);
    case _ => assert Next(s, e).value.pool == s.pool;
  }

  // ---------------------------------------------------------------- callers and channels

  /** The caller's first channel was taken by it and reported a dead transport. */
  predicate FirstDied(s: System, c: CallerId) {
    && OpenId(c, false) in s.opens
    && s.opens[OpenId(c, false)].chan == Taken(TransportDead)
    && !s.opens[OpenId(c, false)].abandoned
  }

  /** The channels the caller has opened so far, outside openSession. */
  predicate History(s: System, c: CallerId, stale: Option<ClientId>) {
    && OpenId(c, true) !in s.opens
    && (stale.None? ==> OpenId(c, false) !in s.opens)
    && (stale.Some? ==> FirstDied(s, c) && s.opens[OpenId(c, false)].client == stale.value)
  }

  predicate InOpenSession(s: System, c: CallerId, x: ClientId, retry: bool) {
    && OpenId(c, retry) in s.opens
    && s.opens[OpenId(c, retry)].client == x
    && !s.opens[OpenId(c, retry)].abandoned
    && (s.opens[OpenId(c, retry)].chan.Parked? || s.opens[OpenId(c, retry)].chan.Buffered?)
    && (if retry then FirstDied(s, c) else OpenId(c, true) !in s.opens)
  }

  predicate CallerOk(s: System, c: CallerId)
    requires c in s.callers
  {
    match s.callers[c]
    case Entering => History(s, c, None)
    case Asking(stale) => History(s, c, stale)
    case Waiting(op, stale) => History(s, c, stale) && op < |s.pool.dials|
    case Opening(x, retry) => InOpenSession(s, c, x, retry)
    case Retiring(x, retry) => InOpenSession(s, c, x, retry) && c in s.fired
    case Returned(GotSession(o)) => o.caller == c && o in s.opens && s.opens[o].chan == Taken(Session)
    case Returned(GotError) => true
  }

  /** What the caller of this channel is doing, by the state of the channel. */
  predicate OpenOk(s: System, o: OpenId)
    requires o in s.opens
  {
    var open := s.opens[o];
    && o.caller in s.callers
    && Settled(s.pool, open.client)
    && (open.abandoned ==>
          && s.callers[o.caller] == Returned(GotError)
          && o.caller in s.fired
          && s.pool.conn.closes[open.client] == 1
          && !open.chan.Taken?)
    && (open.chan.Drained? ==> open.abandoned)
    && (open.chan == Taken(Session) ==> s.callers[o.caller] == Returned(GotSession(o)))
    && (open.chan == Taken(ChannelRefused) ==> s.callers[o.caller] == Returned(GotError))
    && (o.retry ==> FirstDied(s, o.caller))
    && (!open.abandoned && !open.chan.Taken? ==>
          || s.callers[o.caller] == Opening(open.client, o.retry)
          || s.callers[o.caller] == Retiring(open.client, o.retry))
  }

  ghost predicate Inv(s: System) {
    && PoolInv(s.pool)
    && (forall c :: c in s.callers ==> CallerOk(s, c))
    && (forall o :: o in s.opens ==> OpenOk(s, o))
  }

  /** The step moved caller c and its channels only, and the pool only grew. */
  ghost predicate OnlyCaller(s: System, t: System, c: CallerId) {
    && (t.pool == s.pool || (PoolInv(t.pool) && Grows(s.pool, t.pool)))
    && c in t.callers && t.callers.Keys == s.callers.Keys + {c}
    && s.fired <= t.fired
    && (forall d :: d in s.callers && d != c ==> t.callers[d] == s.callers[d])
    && (forall o: OpenId :: o.caller != c ==> (o in t.opens <==> o in s.opens))
    && (forall o: OpenId :: o.caller != c && o in s.opens ==> t.opens[o] == s.opens[o])
  }

  /** What is to be shown of the caller that moved. */
  ghost predicate MovedWell(s: System, t: System, c: CallerId) {
    && OnlyCaller(s, t, c)
    && CallerOk(t, c)
    && (OpenId(c, false) in t.opens ==> OpenOk(t, OpenId(c, false)))
    && (OpenId(c, true) in t.opens ==> OpenOk(t, OpenId(c, true)))
  }

  /** It is enough to look at the caller that moved. */
  lemma OthersKeep(s: System, t: System, c: CallerId)
    requires Inv(s) && MovedWell(s, t, c)
    ensures Inv(t)
  {
    forall d | d in t.callers && d != c
      ensures CallerOk(t, d)
    {
      assert CallerOk(s, d);
    }
    forall o | o in t.opens
      ensures OpenOk(t, o)
    {
      if o.caller == c {
        assert o == OpenId(c, o.retry);
      } else {
        assert OpenOk(s, o);
        assert Places(t.pool, s.opens[o].client) == 1;
      }
    }
  }

  lemma PoolOnly(s: System, t: System)
    requires Inv(s) && PoolInv(t.pool) && Grows(s.pool, t.pool)
    requires t == s.(pool := t.pool)
    ensures Inv(t)
  {
    forall c | c in t.callers
      ensures CallerOk(t, c)
    {
      assert CallerOk(s, c);
    }
    forall o | o in t.opens
      ensures OpenOk(t, o)
    {
      assert OpenOk(s, o);
      assert Places(t.pool, s.opens[o].client) == 1;
    }
  }

  /** The caller moves without opening a channel. */
  lemma MoveKeeps(s: System, c: CallerId, to: Caller)
    requires Inv(s) && c in s.callers
    requires !s.callers[c].Opening? && !s.callers[c].Retiring? && !s.callers[c].Returned?
    requires CallerOk(Move(s, c, to), c)
    ensures MovedWell(s, Move(s, c, to), c)
  {
    assert CallerOk(s, c);
    assert OpenId(c, false) in s.opens ==> OpenOk(s, OpenId(c, false));
  }

  lemma ArriveKeeps(s: System, c: CallerId)
    requires Inv(s) && c !in s.callers
    ensures MovedWell(s, Move(s, c, Entering), c)
  {
    assert OpenId(c, false) in s.opens ==> OpenOk(s, OpenId(c, false));
    assert OpenId(c, true) in s.opens ==> OpenOk(s, OpenId(c, true));
  }

  lemma StartOpenKeeps(s: System, c: CallerId, x: ClientId, stale: Option<ClientId>)
    requires Inv(s) && c in s.callers && Settled(s.pool, x)
    requires s.callers[c] == Asking(stale) || (s.callers[c].Waiting? && s.callers[c].stale == stale)
    ensures MovedWell(s, StartOpen(s, c, x, stale.Some?), c)
  {
    assert CallerOk(s, c);
    assert OpenId(c, false) in s.opens ==> OpenOk(s, OpenId(c, false));
  }

  lemma WakeByDoneKeeps(s: System, c: CallerId)
    requires Inv(s) && Next(s, WakeByDone(c)).Some?
    ensures MovedWell(s, Next(s, WakeByDone(c)).value, c)
  {
    assert CallerOk(s, c);
    var outcome := s.pool.dials[s.callers[c].op].outcome;
    if outcome.err {
      MoveKeeps(s, c, Returned(GotError));
    } else {
      StartOpenKeeps(s, c, outcome.client.value, s.callers[c].stale);
    }
  }

  lemma LookUpStep(s: System, c: CallerId)
    requires Inv(s) && c in s.callers && s.callers[c].Asking?
    ensures Inv(DoLookUp(s, c, s.callers[c].stale))
  {
    var stale := s.callers[c].stale;
    var (q, found) := LookUpIn(s.pool, stale);
    LookUpKeeps(s.pool, stale);
    var t := s.(pool := q);
    PoolOnly(s, t);
    var u := DoLookUp(s, c, stale);
    assert CallerOk(t, c);
    match found
    case Refused => MoveKeeps(t, c, Returned(GotError)); OthersKeep(t, u, c);
    case Cached(x) =>
      assert Settled(s.pool, x);
      StartOpenKeeps(t, c, x, stale); OthersKeep(t, u, c);
    case Wait(op) => MoveKeeps(t, c, Waiting(op, stale)); OthersKeep(t, u, c);
  }

  lemma TakeReplyKeeps(s: System, c: CallerId, x: ClientId, retry: bool, reply: Reply)
    requires Inv(s) && c in s.callers && s.callers[c] == Opening(x, retry)
    requires OpenId(c, retry) in s.opens && s.opens[OpenId(c, retry)].chan == Buffered(reply)
    ensures MovedWell(s, DoTakeReply(s, c, x, retry, reply), c)
  {
    var o, other := OpenId(c, retry), OpenId(c, !retry);
    var t := DoTakeReply(s, c, x, retry, reply);
    assert CallerOk(s, c);
    assert OpenOk(s, o);
    assert other in s.opens ==> OpenOk(s, other);
    assert t.opens == s.opens[o := s.opens[o].(chan := Taken(reply))];
    assert OpenOk(t, o);
    assert other in t.opens ==> OpenOk(t, other);
    assert OnlyCaller(s, t, c);
  }

  lemma TakeContextKeeps(s: System, c: CallerId)
    requires Inv(s) && Next(s, TakeContext(c)).Some?
    ensures MovedWell(s, Next(s, TakeContext(c)).value, c)
  {
    assert CallerOk(s, c);
    assert OpenId(c, false) in s.opens ==> OpenOk(s, OpenId(c, false));
    assert OpenId(c, true) in s.opens ==> OpenOk(s, OpenId(c, true));
  }

  lemma RetireClientKeeps(s: System, c: CallerId, x: ClientId, retry: bool)
    requires Inv(s) && c in s.callers && s.callers[c] == Retiring(x, retry) && OpenId(c, retry) in s.opens
    ensures MovedWell(s, DoRetire(s, c, x, retry), c)
  {
    var o, other := OpenId(c, retry), OpenId(c, !retry);
    var t := DoRetire(s, c, x, retry);
    RetireKeeps(s.pool, x);
    assert CallerOk(s, c);
    assert OpenOk(s, o);
    assert other in s.opens ==> OpenOk(s, other);
    assert Places(t.pool, x) == 1;
    assert OpenOk(t, o);
    assert other in t.opens ==> OpenOk(t, other) by {
      if other in s.opens {
        assert Places(t.pool, s.opens[other].client) == 1;
      }
    }
    assert OnlyCaller(s, t, c);
  }

  lemma ChannelKeeps(s: System, o: OpenId, e: Step)
    requires Inv(s) && Next(s, e).Some?
    requires e == Drain(o) || (e.ServerReplies? && e.open == o)
    ensures MovedWell(s, Next(s, e).value, o.caller)
  {
    var c := o.caller;
    assert OpenOk(s, o);
    assert CallerOk(s, c);
    assert OpenId(c, !o.retry) in s.opens ==> OpenOk(s, OpenId(c, !o.retry));
  }

  lemma FiredKeeps(s: System, c: CallerId)
    requires Inv(s) && c in s.callers
    ensures MovedWell(s, s.(fired := s.fired + {c}), c)
  {
    assert CallerOk(s, c);
    assert OpenId(c, false) in s.opens ==> OpenOk(s, OpenId(c, false));
    assert OpenId(c, true) in s.opens ==> OpenOk(s, OpenId(c, true));
  }

  lemma InvStep(s: System, e: Step)
    requires Inv(s) && Next(s, e).Some?
    ensures Inv(Next(s, e).value)
  {
    var t := Next(s, e).value;
    match e
    case DialReturns(op, ok) => PoolStep(s, e); PoolOnly(s, t);
    case PublishDial(op) => PoolStep(s, e); PoolOnly(s, t);
    case CloseConnection => PoolStep(s, e); PoolOnly(s, t);
    case Arrive(c) => ArriveKeeps(s, c); OthersKeep(s, t, c);
    case ContextFires(c) => FiredKeeps(s, c); OthersKeep(s, t, c);
    case CheckContext(c) =>
      assert CallerOk(s, c);
      MoveKeeps(s, c, t.callers[c]); OthersKeep(s, t, c);
    case LookUp(c) => LookUpStep(s, c);
    case WakeByDone(c) => WakeByDoneKeeps(s, c); OthersKeep(s, t, c);
    case WakeByContext(c) => MoveKeeps(s, c, Returned(GotError)); OthersKeep(s, t, c);
    case ServerReplies(o, reply) => ChannelKeeps(s, o, e); OthersKeep(s, t, o.caller);
    case TakeReply(c) =>
      TakeReplyKeeps(s, c, s.callers[c].client, s.callers[c].retry, s.opens[OpenId(c, s.callers[c].retry)].chan.reply);
      OthersKeep(s, t, c);
    case TakeContext(c) => TakeContextKeeps(s, c); OthersKeep(s, t, c);
    case RetireClient(c) =>
      RetireClientKeeps(s, c, s.callers[c].client, s.callers[c].retry);
      OthersKeep(s, t, c);
    case Drain(o) => ChannelKeeps(s, o, e); OthersKeep(s, t, o.caller);
  }

  /** The calls of NewSession and their channels only move forward. */
  ghost predicate CallsForward(s: System, t: System) {
    && s.fired <= t.fired
    && (forall c :: c in s.callers && s.callers[c].Returned? ==> c in t.callers && t.callers[c] == s.callers[c])
    && (forall o :: o in s.opens ==> o in t.opens && OpenForward(s.opens[o], t.opens[o]))
  }

  predicate OpenForward(a: Open, b: Open) {
    && b.client == a.client
    && (a.abandoned ==> b.abandoned)
    && (a.chan.Taken? || a.chan.Drained? ==> b.chan == a.chan)
  }

  ghost predicate Forward(s: System, t: System) {
    Grows(s.pool, t.pool) && CallsForward(s, t)
  }

  lemma CallsForwardStep(s: System, e: Step)
    requires Next(s, e).Some?
    requires (e.LookUp? || e.WakeByDone?) ==> CallerOk(s, e.caller)
    ensures CallsForward(s, Next(s, e).value)
  {
  }

  lemma ForwardStep(s: System, e: Step)
    requires Inv(s) && Next(s, e).Some?
    ensures Inv(Next(s, e).value) && Forward(s, Next(s, e).value)
  {
    InvStep(s, e);
    PoolStep(s, e);
    CallsForwardStep(s, e);
  }

  lemma ForwardTransitive(s: System, t: System, u: System)
    requires Forward(s, t) && Forward(t, u)
    ensures Forward(s, u)
  {
  }

  /** The invariant holds at the end of every run from a state that has it, and nothing went back. */
  lemma Always(s: System, steps: seq<Step>, t: System)
    requires Inv(s) && Run(Next, s, steps) == Some(t)
    ensures Inv(t) && Forward(s, t)
  {
    forall u, e | Inv(u) && Next(u, e).Some?
      ensures Inv(Next(u, e).value) && Forward(u, Next(u, e).value)
    {
      ForwardStep(u, e);
    }
    forall u, v, w | Forward(u, v) && Forward(v, w)
      ensures Forward(u, w)
    {
      ForwardTransitive(u, v, w);
    }
    Ordered(Next, Inv, Forward, s, steps);
  }

  ghost predicate Reached(s: System) {
    Reachable(Next, Starts, s)
  }

  lemma StartInv(s: System)
    requires Starts(s)
    ensures Inv(s)
  {
    assert forall x: ClientId :: Places(s.pool, x) == 0;
  }

  lemma ReachedBy(start: System, steps: seq<Step>, s: System)
    requires Starts(start) && Run(Next, start, steps) == Some(s)
    ensures Inv(s)
  {
    StartInv(start);
    Always(start, steps, s);
  }

  lemma ReachedInv(s: System)
    requires Reached(s)
    ensures Inv(s)
  {
    var start, steps :| Starts(start) && Run(Next, start, steps) == Some(s);
    ReachedBy(start, steps, s);
  }
}
