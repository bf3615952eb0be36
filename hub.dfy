/** The registry of cmd/mqtt/hub.go: the set of live clients and the three
    requests its run loop serves one at a time (register, unregister and
    broadcast), the hub's broker message handler, and serveWs, which creates
    and registers each session. */
module Registry {
  import opened Protocol
  import opened Session

  class Hub {
    /** The registered clients (the keys of the clients map, whose values
        are always true). */
    var clients: set<Client>

    /** Every member's send channel is open and within its capacity. */
    ghost predicate Valid()
      reads this, clients
    {
      forall c :: c in clients ==> c.Valid() && !c.closed
    }

    /** newHub: no clients yet. */
    constructor ()
      ensures Valid() && clients == {}
    {
      clients := {};
    }

    /** The register case: the client becomes a member. Only sessions just
        created by serveWs are registered, so its channel is open. */
    method Register(c: Client)
      requires Valid() && c.Valid() && !c.closed
      modifies this
      ensures Valid()
      ensures clients == old(clients) + {c}
    {
      clients := clients + {c};
    }

    /** The unregister case: a member is removed and its channel closed; for a
        client that is not a member nothing happens, so no channel is closed
        twice. */
    method Unregister(c: Client)
      requires Valid()
      modifies this, c
      ensures Valid()
      ensures clients == old(clients) - {c}
      ensures c in old(clients) ==>
                c.closed && c.send == old(c.send) && c.brokerCalls == old(c.brokerCalls)
      ensures c !in old(clients) ==> unchanged(c)
    {
      if c in clients {
        clients := clients - {c};
        c.Close();
      }
    }

    /** The broadcast case: every member with room in its channel gets m at
        the tail; a member whose channel is full is closed and removed instead
        of blocking the hub. */
    method Broadcast(m: string)
      requires Valid()
      modifies this, clients
      ensures Valid()
      ensures clients <= old(clients)
      ensures forall c :: c in old(clients) ==>
                if |old(c.send)| < SendCapacity
                then c in clients && !c.closed && c.send == old(c.send) + [m]
                else c !in clients && c.closed && c.send == old(c.send)
      ensures forall c :: c in old(clients) ==> c.brokerCalls == old(c.brokerCalls)
    {
      var pending := clients;
      while pending != {}
        invariant pending <= clients <= old(clients)
        invariant Valid()
        invariant forall c :: c in pending ==> c.send == old(c.send)
        invariant forall c :: c in old(clients) && c !in pending ==>
                    if |old(c.send)| < SendCapacity
                    then c in clients && !c.closed && c.send == old(c.send) + [m]
                    else c !in clients && c.closed && c.send == old(c.send)
        invariant forall c :: c in old(clients) ==> c.brokerCalls == old(c.brokerCalls)
        decreases pending
      {
        var c :| c in pending;
        var ok := c.TrySend(m);
        if !ok {
          c.Close();
          clients := clients - {c};
        }
        pending := pending - {c};
      }
    }

    /** The hub's broker message handler: the `rcv` line, ended by a newline,
        is broadcast to every member. */
    method OnMessage(topic: string, payload: string)
      requires Valid()
      modifies this, clients
      ensures Valid()
      ensures clients <= old(clients)
      ensures forall c :: c in old(clients) ==>
                if |old(c.send)| < SendCapacity
                then c in clients && !c.closed && c.send == old(c.send) + [RcvLine(topic, payload) + "\n"]
                else c !in clients && c.closed && c.send == old(c.send)
      ensures forall c :: c in old(clients) ==> c.brokerCalls == old(c.brokerCalls)
    {
      Broadcast(RcvLine(topic, payload) + "\n");
    }
  }

  /** serveWs after a successful upgrade: a new session with an empty send
      channel of capacity 256 is created and registered. */
  method ServeWs(hub: Hub) returns (c: Client)
    requires hub.Valid()
    modifies hub
    ensures fresh(c) && c.Valid() && c.send == [] && !c.closed && c.brokerCalls == []
    ensures hub.Valid() && hub.clients == old(hub.clients) + {c}
  {
    c := new Client();
    hub.Register(c);
  }
}
