/**
 * DialContext (internal/ssh/dial.go): the caller and the handshake goroutine hand one result over an
 * unbuffered channel, each of them also selecting on the dial context.
 */
module SshDialContext {
  import opened Wrappers
  import opened Runs

  /** The handshake goroutine: at work, offering its result on the channel, or finished. */
  datatype Handshake = NotStarted | Shaking | Offering(ok: bool) | Finished

  /** The caller: dialling TCP, in the select, or back with the pair it returned. */
  datatype Caller = DialingTcp | Selecting | Returned(client: bool, err: bool, byContext: bool)

  datatype Dial = Dial(
    bounded: bool,         // config.Timeout > 0: cancel is deferred
    caller: Caller,
    handshake: Handshake,
    ctxDone: bool,
    conn: bool,            // the raw connection was established
    connClosed: bool,      // and closed by the caller
    made: bool,            // the handshake produced a client
    closes: nat)           // calls of Close on that client

  ghost predicate Starts(d: Dial) {
    d == Dial(d.bounded, DialingTcp, NotStarted, d.ctxDone, false, false, false, 0)
  }

  datatype Step =
    | ContextDone
    | TcpDialled(ok: bool)
    | HandshakeEnds(ok: bool)
    | HandOff
    | CallerSeesContext
    | GoroutineSeesContext

  /** The caller returns; a deferred cancel fires the dial context. */
  function Return(d: Dial, client: bool, err: bool, byContext: bool): Dial {
    d.(caller := Returned(client, err, byContext), ctxDone := d.ctxDone || d.bounded)
  }

  function Next(d: Dial, e: Step): Option<Dial> {
    match e
    case ContextDone => Some(d.(ctxDone := true))
    case TcpDialled(ok) =>
      if !d.caller.DialingTcp? then None
      else if ok then Some(d.(caller := Selecting, handshake := Shaking, conn := true))
      else Some(Return(d, false, true, false))
    case HandshakeEnds(ok) =>
      if !d.handshake.Shaking? then None
      else Some(d.(handshake := Offering(ok), made := ok))
    case HandOff =>
      if !d.handshake.Offering? || !d.caller.Selecting? then None
      else Some(Return(d.(handshake := Finished), d.handshake.ok, !d.handshake.ok, false))
    case CallerSeesContext =>
      if !d.caller.Selecting? || !d.ctxDone then None
      else Some(Return(d.(connClosed := true), false, true, true))
    case GoroutineSeesContext =>
      if !d.handshake.Offering? || !d.ctxDone then None
      else Some(d.(handshake := Finished, closes := if d.made then d.closes + 1 else d.closes))
  }

  predicate HasClient(d: Dial) {
    d.caller.Returned? && d.caller.client
  }

  predicate Inv(d: Dial) {
    && (d.caller.Returned? ==> (d.caller.client <==> !d.caller.err))
    && (d.made ==> d.handshake.Offering? || d.handshake.Finished?)
    && (d.handshake.Offering? ==> d.made == d.handshake.ok && d.closes == 0)
    && (if d.made && d.handshake.Finished? then (HasClient(d) <==> d.closes == 0) && d.closes <= 1
        else !HasClient(d) && d.closes == 0)
    && (d.caller.DialingTcp? <==> d.handshake.NotStarted? && !d.caller.Returned?)
    && (d.caller.Selecting? ==> d.conn && (d.handshake.Finished? ==> d.ctxDone))
    && (d.caller.Returned? && d.handshake != Finished && d.conn ==> d.ctxDone && d.connClosed)
    && (d.caller.Returned? && d.caller.err && d.conn && !d.connClosed ==> !d.made)
    && (d.conn <==> !d.handshake.NotStarted?)
    && (d.connClosed <==> d.caller.Returned? && d.caller.byContext)
    && (d.caller.Returned? && d.caller.byContext ==> d.caller.err)
  }

  /** A client that was returned stays returned and is not closed any more. */
  predicate Kept(d: Dial, f: Dial) {
    && (d.caller.Returned? ==> f.caller == d.caller)
    && (HasClient(d) ==> f.closes == d.closes)
  }

  lemma InvStep(d: Dial, e: Step)
    requires Inv(d) && Next(d, e).Some?
    ensures Inv(Next(d, e).value) && Kept(d, Next(d, e).value)
  {
  }

  lemma Always(d: Dial, steps: seq<Step>, f: Dial)
    requires Inv(d) && Run(Next, d, steps) == Some(f)
    ensures Inv(f) && Kept(d, f)
  {
    forall u, e | Inv(u) && Next(u, e).Some?
      ensures Inv(Next(u, e).value) && Kept(u, Next(u, e).value)
    {
      InvStep(u, e);
    }
    forall u, v, w | Kept(u, v) && Kept(v, w)
      ensures Kept(u, w)
    {
    }
    Ordered(Next, Inv, Kept, d, steps);
  }

  ghost predicate Reached(d: Dial) {
    Reachable(Next, Starts, d)
  }

  lemma ReachedInv(d: Dial)
    requires Reached(d)
    ensures Inv(d)
  {
    forall u, e | Inv(u) && Next(u, e).Some?
      ensures Inv(Next(u, e).value)
    {
      InvStep(u, e);
    }
    Invariant(Next, Starts, Inv, d);
  }

  /**
   * The client that the handshake made is still on offer, was returned, or was closed once: exactly
   * one of the three. What DialContext returns is a client or an error, never both, never neither.
   */
  lemma ClientHandedOffOnce(d: Dial)
    requires Reached(d)
    ensures d.caller.Returned? ==> d.caller.client != d.caller.err
    ensures HasClient(d) ==> d.made
    ensures d.made ==>
              (if d.handshake.Offering? then 1 else 0) + (if HasClient(d) then 1 else 0) + d.closes == 1
    ensures !d.made ==> d.closes == 0
  {
    ReachedInv(d);
  }

  /** A returned client outlives the dial context: no later step of the dial closes it. */
  lemma ReturnedClientStaysOpen(d: Dial, more: seq<Step>, f: Dial)
    requires Reached(d) && HasClient(d) && Run(Next, d, more) == Some(f)
    ensures HasClient(f) && f.closes == 0 && !f.connClosed
  {
    ReachedInv(d);
    Always(d, more, f);
  }

  /**
   * Nobody is left behind: a caller whose goroutine has gone can leave by the context, a goroutine
   * whose caller has gone can leave too, and the raw connection is closed by the caller exactly when
   * it gave up on the context.
   */
  lemma NobodyIsStuck(d: Dial)
    requires Reached(d)
    ensures d.caller.Selecting? && d.handshake.Finished? ==> Next(d, CallerSeesContext).Some?
    ensures d.caller.Returned? && d.handshake.Offering? ==> Next(d, GoroutineSeesContext).Some?
    ensures d.caller.Selecting? && d.handshake.Offering? ==> Next(d, HandOff).Some?
    ensures d.connClosed <==> d.caller.Returned? && d.caller.byContext
    ensures d.caller.Returned? && d.handshake.Shaking? ==> d.caller.byContext
    ensures HasClient(d) ==> d.handshake.Finished?
  {
    ReachedInv(d);
  }

  /**
   * When nothing fires, the result of the handshake is what DialContext returns: the client of one that
   * succeeded, the error of one that failed; a TCP connection that fails is an error at once.
   */
  lemma UndisturbedDialReturns(d: Dial, ok: bool) returns (f: Dial)
    requires Starts(d)
    ensures Run(Next, d, [TcpDialled(true), HandshakeEnds(ok), HandOff]) == Some(f)
    ensures f.caller == Returned(ok, !ok, false) && f.closes == 0 && !f.connClosed
    ensures Next(d, TcpDialled(false)).Some? && Next(d, TcpDialled(false)).value.caller == Returned(false, true, false)
  {
    var steps := [TcpDialled(true), HandshakeEnds(ok), HandOff];
    var u := Next(d, TcpDialled(true)).value;
    var v := Next(u, HandshakeEnds(ok)).value;
    f := Next(v, HandOff).value;
    assert steps[1..] == [HandshakeEnds(ok), HandOff] && [HandshakeEnds(ok), HandOff][1..] == [HandOff];
    assert [HandOff][1..] == [];
    assert Run(Next, v, [HandOff]) == Some(f) && Run(Next, u, [HandshakeEnds(ok), HandOff]) == Some(f);
  }
}
