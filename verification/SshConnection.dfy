/**
 * internal/sshconn/connection.go: the cached client of one virtual machine.
 *
 * The functions say what each critical section of the mutex does to the fields and to the clients;
 * the class holds the fields and is proved against them. SshSessions runs the critical sections
 * under every interleaving.
 */
module SshConnection {
  import opened Wrappers

  type ClientId = nat
  type OpId = nat

  /** The client and err fields of a dialOp; both are nil until runDial sets one of them. */
  datatype Outcome = Outcome(client: Option<ClientId>, err: bool)

  const Failure := Outcome(None, true)

  /** What clientForSession decided under the mutex. */
  datatype Found = Refused | Cached(client: ClientId) | Wait(op: OpId)

  /** The fields of a Connection, and what was done to clients and contexts through it. */
  datatype Conn = Conn(
    client: Option<ClientId>,
    kaCancel: Option<ClientId>,   // the keepalive that the stored cancel function stops
    closed: bool,
    pending: Option<OpId>,
    closes: multiset<ClientId>,   // calls of Close on clients
    keepalives: set<ClientId>,    // clients whose keepalive was started and not cancelled
    cancelled: set<OpId>)         // dials whose context was cancelled through op.cancel

  const Fresh := Conn(None, None, false, None, multiset{}, {}, {})

  function StopKeepalive(c: Conn): Conn {
    match c.kaCancel
    case None => c
    case Some(k) => c.(kaCancel := None, keepalives := c.keepalives - {k})
  }

  /** Close the cached client and drop it. */
  function DropClient(c: Conn): Conn
    requires c.client.Some?
  {
    StopKeepalive(c.(closes := c.closes + multiset{c.client.value})).(client := None)
  }

  /** retire: only the cached client of an open connection is dropped. */
  function RetireSpec(c: Conn, client: ClientId): Conn {
    if c.closed || c.client != Some(client) then c else DropClient(c)
  }

  /** The critical section of clientForSession; `newOp` names the dialOp it may create. */
  function LookUpSpec(c: Conn, stale: Option<ClientId>, newOp: OpId): (Conn, Found) {
    if c.closed then (c, Refused)
    else if c.client.Some? && c.client != stale then (c, Cached(c.client.value))
    else
      var d := if stale.Some? && c.client == stale then DropClient(c) else c;
      if d.pending.Some? then (d, Wait(d.pending.value))
      else (d.(pending := Some(newOp)), Wait(newOp))
  }

  /** The critical section of runDial; `dialled` is None when the dial failed. */
  function PublishSpec(c: Conn, op: OpId, dialled: Option<ClientId>): (Conn, Outcome) {
    var d := c.(pending := None, cancelled := c.cancelled + {op});
    if c.closed then
      (if dialled.Some? then d.(closes := d.closes + multiset{dialled.value}) else d, Failure)
    else if dialled.None? then (d, Failure)
    else
      (d.(client := dialled, kaCancel := dialled, keepalives := d.keepalives + {dialled.value}),
       Outcome(dialled, false))
  }

  function CloseSpec(c: Conn): Conn {
    if c.closed then c
    else
      var d := c.(closed := true,
                  cancelled := if c.pending.Some? then c.cancelled + {c.pending.value} else c.cancelled);
      var e := StopKeepalive(d);
      if e.client.None? then e
      else e.(closes := e.closes + multiset{e.client.value}, client := None)
  }

  /**
   * What holds of the fields whenever the mutex is free: a dial is in flight only while nothing is
   * cached, exactly the cached client has a running keepalive, which kaCancel stops, nothing is
   * cached once closed, and closing cancels the dial that is still out.
   */
  ghost predicate Valid(c: Conn) {
    && (c.pending.Some? ==> c.client.None?)
    && c.kaCancel == c.client
    && c.keepalives == (if c.client.Some? then {c.client.value} else {})
    && (c.closed ==> c.client.None?)
    && (c.closed && c.pending.Some? ==> c.pending.value in c.cancelled)
  }

  /** Between the two states at most one client was closed, and only x. */
  ghost predicate ClosesAtMost(c: Conn, d: Conn, x: Option<ClientId>) {
    d.closes == c.closes || (x.Some? && d.closes == c.closes + multiset{x.value})
  }

  /** Retiring, by either branch, keeps Valid and closes no client but the one found dead. */
  lemma RetireKeepsValid(c: Conn, x: ClientId, newOp: OpId)
    requires Valid(c)
    ensures Valid(RetireSpec(c, x)) && ClosesAtMost(c, RetireSpec(c, x), Some(x))
    ensures forall stale {:trigger LookUpSpec(c, stale, newOp)} ::
              Valid(LookUpSpec(c, stale, newOp).0) && ClosesAtMost(c, LookUpSpec(c, stale, newOp).0, stale)
  {
    if c.client.Some? {
      assert {c.client.value} - {c.client.value} == {};
      assert Valid(DropClient(c));
    }
  }

  /** Publishing keeps Valid: it never finds a live client or a live keepalive to overwrite. */
  lemma PublishKeepsValid(c: Conn, op: OpId, dialled: Option<ClientId>)
    requires Valid(c) && c.pending == Some(op)
    ensures c.client.None? && c.kaCancel.None? && c.keepalives == {}
    ensures Valid(PublishSpec(c, op, dialled).0)
    ensures var outcome := PublishSpec(c, op, dialled).1; outcome.client.Some? <==> !outcome.err
    ensures ClosesAtMost(c, PublishSpec(c, op, dialled).0, dialled)
  {
    if dialled.Some? {
      assert {} + {dialled.value} == {dialled.value};
    }
  }

  /** Close keeps Valid, and a second Close does nothing. */
  lemma CloseKeepsValid(c: Conn)
    requires Valid(c)
    ensures Valid(CloseSpec(c)) && CloseSpec(c).closed && CloseSpec(c).keepalives == {}
    ensures ClosesAtMost(c, CloseSpec(c), c.client)
    ensures CloseSpec(CloseSpec(c)) == CloseSpec(c)
  {
    if c.client.Some? {
      assert {c.client.value} - {c.client.value} == {};
    }
  }

  class DialOp {
    const id: OpId
    var done: bool
    var client: Option<ClientId>
    var err: bool

    constructor (id: OpId)
      ensures this.id == id && !done && client.None? && !err
    {
      this.id := id;
      done, client, err := false, None, false;
    }
  }

  class Connection {
    var client: Option<ClientId>
    var kaCancel: Option<ClientId>
    var closed: bool
    var pending: Option<OpId>
    var closes: multiset<ClientId>
    var keepalives: set<ClientId>
    var cancelled: set<OpId>

    ghost function View(): Conn
      reads this
    {
      Conn(client, kaCancel, closed, pending, closes, keepalives, cancelled)
    }

    constructor ()
      ensures View() == Fresh
    {
      client, kaCancel, closed, pending := None, None, false, None;
      closes, keepalives, cancelled := multiset{}, {}, {};
    }

    method StopKeepaliveLocked()
      modifies this`kaCancel, this`keepalives
      ensures View() == StopKeepalive(old(View()))
    {
      if kaCancel.Some? {
        keepalives := keepalives - {kaCancel.value};
        kaCancel := None;
      }
    }

    method Retire(x: ClientId)
      modifies this
      ensures !closed && old(client) == Some(x) ==> client == None && closes == old(closes) + multiset{x}
      ensures closed || old(client) != Some(x) ==> View() == old(View())
      ensures View() == RetireSpec(old(View()), x)
    {
      if closed || client != Some(x) {
        return;
      }
      closes := closes + multiset{x};
      StopKeepaliveLocked();
      client := None;
    }

    method ClientForSession(stale: Option<ClientId>, newOp: OpId) returns (found: Found)
      modifies this
      ensures found == Refused <==> closed
      ensures found.Cached? <==> !closed && old(client).Some? && old(client) != stale
      ensures found.Cached? ==> client == old(client) == Some(found.client) && pending == old(pending)
      ensures found.Wait? ==> client == None && pending == Some(found.op)
      ensures found.Wait? ==> found.op == if old(pending).Some? then old(pending).value else newOp
      ensures found.Wait? && old(client).Some? ==> closes == old(closes) + multiset{old(client).value}
      ensures !found.Wait? || old(client).None? ==> closes == old(closes)
      ensures (View(), found) == LookUpSpec(old(View()), stale, newOp)
    {
      if closed {
        return Refused;
      }
      if client.Some? && client != stale {
        return Cached(client.value);
      }
      if stale.Some? && client == stale {
        closes := closes + multiset{client.value};
        StopKeepaliveLocked();
        client := None;
      }
      var op := pending;
      if op.None? {
        op := Some(newOp);
        pending := op;
      }
      return Wait(op.value);
    }

    method RunDial(op: DialOp, dialled: Option<ClientId>)
      requires !op.done && op.client.None? && !op.err
      modifies this, op
      ensures op.done && pending == None && closed == old(closed) && op.id in cancelled
      ensures !closed && dialled.Some? ==>
                && client == dialled && kaCancel == dialled && dialled.value in keepalives
                && op.client == dialled && !op.err && closes == old(closes)
      ensures !closed && dialled.None? ==>
                && op.client == None && op.err
                && client == old(client) && kaCancel == old(kaCancel) && closes == old(closes)
      ensures closed ==>
                && op.client == None && op.err && client == old(client)
                && closes == old(closes) + (if dialled.Some? then multiset{dialled.value} else multiset{})
      ensures (View(), Outcome(op.client, op.err)) == PublishSpec(old(View()), op.id, dialled)
    {
      pending := None;
      if closed {
        if dialled.Some? {
          closes := closes + multiset{dialled.value};
        }
        op.err := true;
      } else if dialled.None? {
        op.err := true;
      } else {
        client := dialled;
        kaCancel := dialled;
        keepalives := keepalives + {dialled.value};
        op.client := dialled;
      }
      cancelled := cancelled + {op.id};  // the deferred op.cancel()
      op.done := true;                   // the deferred close(op.done)
    }

    method Close()
      modifies this
      ensures closed && (!old(closed) ==> client == None && kaCancel == None)
      ensures !old(closed) && old(client).Some? ==> closes == old(closes) + multiset{old(client).value}
      ensures old(closed) || old(client).None? ==> closes == old(closes)
      ensures !old(closed) && pending.Some? ==> pending.value in cancelled
      ensures View() == CloseSpec(old(View()))
    {
      if closed {
        return;
      }
      closed := true;
      if pending.Some? {
        cancelled := cancelled + {pending.value};
      }
      StopKeepaliveLocked();
      if client.Some? {
        closes := closes + multiset{client.value};
        client := None;
      }
    }
  }
}
