/**
 * The shared half of internal/sshconn/connection.go: the Connection together with every dial it
 * started. Callers reach it only through the critical sections of clientForSession, retire and
 * Close; runDial publishes into it.
 */
module SshDials {
  import opened Wrappers
  import opened SshConnection

  /** One dialOp: dialling, back from dial but not published, or published with done closed. */
  datatype Dial = Dialling | Dialled(result: Option<ClientId>) | Published(outcome: Outcome)

  datatype Pool = Pool(
    conn: Conn,
    dials: seq<Dial>,    // every dialOp ever created
    produced: nat,       // dials have produced the clients below this number
    failed: nat,         // dials that reported an error to an open connection
    retired: nat,        // clients dropped by retire or by the stale branch
    ended: nat)          // clients and dials that Close or the closed flag ended

  const NewPool := Pool(SshConnection.Fresh, [], 0, 0, 0, 0)

  /** 1 when the step from c to d dropped the cached client. */
  function Drops(c: Conn, d: Conn): nat {
    if c.client.Some? && c.client != d.client then 1 else 0
  }

  function LookUpIn(p: Pool, stale: Option<ClientId>): (Pool, Found) {
    var (d, found) := LookUpSpec(p.conn, stale, |p.dials|);
    (p.(conn := d,
        retired := p.retired + Drops(p.conn, d),
        dials := if found == Wait(|p.dials|) then p.dials + [Dialling] else p.dials),
     found)
  }

  function RetireIn(p: Pool, x: ClientId): Pool {
    var d := RetireSpec(p.conn, x);
    p.(conn := d, retired := p.retired + Drops(p.conn, d))
  }

  function CloseIn(p: Pool): Pool {
    var d := CloseSpec(p.conn);
    p.(conn := d, ended := p.ended + Drops(p.conn, d))
  }

  /** dial returns: a client nobody has seen before, or an error. */
  function ReturnIn(p: Pool, op: OpId, ok: bool): Pool
    requires op < |p.dials|
  {
    if ok then p.(dials := p.dials[op := Dialled(Some(p.produced))], produced := p.produced + 1)
    else p.(dials := p.dials[op := Dialled(None)])
  }

  function PublishIn(p: Pool, op: OpId): Pool
    requires op < |p.dials| && p.dials[op].Dialled?
  {
    var (d, outcome) := PublishSpec(p.conn, op, p.dials[op].result);
    var q := p.(conn := d, dials := p.dials[op := Published(outcome)]);
    if p.conn.closed then q.(ended := p.ended + 1)
    else if outcome.err then q.(failed := p.failed + 1)
    else q
  }

  /** The client that the dial in flight has produced and not yet published. */
  function Unpublished(p: Pool): Option<ClientId> {
    if p.conn.pending.Some? && p.conn.pending.value < |p.dials| && p.dials[p.conn.pending.value].Dialled?
    then p.dials[p.conn.pending.value].result else None
  }

  /** The client is cached, or the Connection closed it, once. */
  predicate Settled(p: Pool, x: ClientId) {
    x < p.produced && (p.conn.client == Some(x) || p.conn.closes[x] == 1)
  }

  /** Exactly the pending dial is still running. */
  ghost predicate SingleFlight(p: Pool) {
    && (p.conn.pending.Some? ==> p.conn.pending.value < |p.dials|)
    && forall i :: 0 <= i < |p.dials| ==> (p.dials[i].Published? <==> p.conn.pending != Some(i))
  }

  /** Where a client is: unpublished, cached, and the times it was closed. */
  function Places(p: Pool, x: ClientId): nat {
    (if Unpublished(p) == Some(x) then 1 else 0)
    + (if p.conn.client == Some(x) then 1 else 0)
    + p.conn.closes[x]
  }

  /** Each client ever produced is in exactly one place; no other client is anywhere. */
  ghost predicate Conserved(p: Pool) {
    forall x: ClientId :: Places(p, x) == if x < p.produced then 1 else 0
  }

  /** A published dial has a client, cached or closed since, or an error, and not both. */
  ghost predicate PublishedSettled(p: Pool) {
    forall i :: 0 <= i < |p.dials| && p.dials[i].Published? ==>
      var outcome := p.dials[i].outcome;
      && (outcome.client.Some? <==> !outcome.err)
      && (outcome.client.Some? ==> Settled(p, outcome.client.value))
  }

  /** Every dial ever started is accounted for, and at most one is not yet failed or retired. */
  predicate Ledger(p: Pool) {
    && |p.dials| == p.failed + p.retired + p.ended + Size(p.conn.pending) + Size(p.conn.client)
    && p.ended + Size(p.conn.pending) + Size(p.conn.client) <= 1
    && (p.ended == 1 ==> p.conn.closed)
  }

  ghost predicate PoolInv(p: Pool) {
    Valid(p.conn) && SingleFlight(p) && Conserved(p) && PublishedSettled(p) && Ledger(p)
  }

  /**
   * What never goes back: the closed flag, a Close of a client, a settled client, a dial's outcome;
   * and once closed no dial is started and none publishes a client.
   */
  ghost predicate Grows(p: Pool, q: Pool) {
    && |p.dials| <= |q.dials|
    && (p.conn.closed ==> q.conn.closed && |q.dials| == |p.dials|)
    && (forall x: ClientId :: p.conn.closes[x] <= q.conn.closes[x])
    && (forall x: ClientId :: Settled(p, x) ==> Settled(q, x))
    && (forall i :: 0 <= i < |p.dials| ==>
          && (p.dials[i].Published? ==> q.dials[i] == p.dials[i])
          && (p.conn.closed && !p.dials[i].Published? && q.dials[i].Published? ==> q.dials[i].outcome.err))
  }

  /** A client is settled from the moment its dial is published. */
  lemma SettledMeans(p: Pool)
    requires Conserved(p)
    ensures forall x: ClientId :: Settled(p, x) <==> x < p.produced && Unpublished(p) != Some(x)
  {
    forall x: ClientId
      ensures Settled(p, x) <==> x < p.produced && Unpublished(p) != Some(x)
    {
      assert Places(p, x) == if x < p.produced then 1 else 0;
    }
  }

  lemma RetireKeeps(p: Pool, x: ClientId)
    requires PoolInv(p)
    ensures PoolInv(RetireIn(p, x)) && Grows(p, RetireIn(p, x))
    ensures Settled(p, x) ==> RetireIn(p, x).conn.closes[x] == 1
  {
    RetireKeepsValid(p.conn, x, 0);
    var q := RetireIn(p, x);
    assert Unpublished(q) == Unpublished(p);
    assert Places(q, x) == Places(p, x);
    assert Conserved(q) by {
      forall y: ClientId
        ensures Places(q, y) == Places(p, y)
      {
      }
    }
    SettledMeans(p);
    SettledMeans(q);
  }

  lemma CloseKeeps(p: Pool)
    requires PoolInv(p)
    ensures PoolInv(CloseIn(p)) && Grows(p, CloseIn(p))
  {
    CloseKeepsValid(p.conn);
    var q := CloseIn(p);
    assert Unpublished(q) == Unpublished(p);
    assert Conserved(q) by {
      forall x: ClientId
        ensures Places(q, x) == Places(p, x)
      {
      }
    }
    SettledMeans(p);
    SettledMeans(q);
  }

  lemma ReturnKeeps(p: Pool, op: OpId, ok: bool)
    requires PoolInv(p) && op < |p.dials| && p.dials[op].Dialling?
    ensures PoolInv(ReturnIn(p, op, ok)) && Grows(p, ReturnIn(p, op, ok))
  {
    assert p.conn.pending == Some(op);
    var q := ReturnIn(p, op, ok);
    assert Places(p, p.produced) == 0;
    assert Conserved(q) by {
      forall x: ClientId
        ensures Places(q, x) == if x < q.produced then 1 else 0
      {
        assert Places(p, x) == if x < p.produced then 1 else 0;
      }
    }
    SettledMeans(p);
    SettledMeans(q);
  }

  lemma PublishKeeps(p: Pool, op: OpId)
    requires PoolInv(p) && op < |p.dials| && p.dials[op].Dialled?
    ensures PoolInv(PublishIn(p, op)) && Grows(p, PublishIn(p, op))
  {
    assert p.conn.pending == Some(op);
    var dialled := p.dials[op].result;
    PublishKeepsValid(p.conn, op, dialled);
    var q := PublishIn(p, op);
    assert Unpublished(p) == dialled;
    assert dialled.Some? ==> Places(p, dialled.value) > 0;
    assert Conserved(q) by {
      forall x: ClientId
        ensures Places(q, x) == Places(p, x)
      {
      }
    }
    SettledMeans(p);
    SettledMeans(q);
  }

  /** The stale branch of clientForSession does what retire does. */
  function Unstale(p: Pool, stale: Option<ClientId>): Pool {
    if stale.Some? then RetireIn(p, stale.value) else p
  }

  /** The new dialOp of clientForSession. */
  function StartIn(p: Pool): Pool {
    p.(conn := p.conn.(pending := Some(|p.dials|)), dials := p.dials + [Dialling])
  }

  lemma StartKeeps(p: Pool)
    requires PoolInv(p) && p.conn.pending.None? && p.conn.client.None? && !p.conn.closed
    ensures PoolInv(StartIn(p)) && Grows(p, StartIn(p))
  {
    var q := StartIn(p);
    assert Unpublished(q) == Unpublished(p);
    assert Conserved(q) by {
      forall x: ClientId
        ensures Places(q, x) == Places(p, x)
      {
      }
    }
    SettledMeans(p);
    SettledMeans(q);
  }

  /** clientForSession first retires the stale client, then reuses, joins or starts a dial. */
  lemma LookUpIsRetireThenStart(p: Pool, stale: Option<ClientId>)
    requires PoolInv(p)
    ensures
      var d := Unstale(p, stale);
      LookUpIn(p, stale) ==
        if p.conn.closed then (p, Refused)
        else if d.conn.client.Some? then (d, Cached(d.conn.client.value))
        else if d.conn.pending.Some? then (d, Wait(d.conn.pending.value))
        else (StartIn(d), Wait(|p.dials|))
  {
  }

  lemma LookUpKeeps(p: Pool, stale: Option<ClientId>)
    requires PoolInv(p)
    ensures PoolInv(LookUpIn(p, stale).0) && Grows(p, LookUpIn(p, stale).0)
    ensures LookUpIn(p, stale).1.Cached? ==> Settled(p, LookUpIn(p, stale).1.client)
    ensures LookUpIn(p, stale).1.Wait? ==> LookUpIn(p, stale).1.op < |LookUpIn(p, stale).0.dials|
  {
    LookUpIsRetireThenStart(p, stale);
    if stale.Some? {
      RetireKeeps(p, stale.value);
    }
    var d := Unstale(p, stale);
    if !p.conn.closed && d.conn.client.None? && d.conn.pending.None? {
      StartKeeps(d);
    }
    if d.conn.client.Some? {
      assert Places(p, d.conn.client.value) > 0;
    }
  }
}
